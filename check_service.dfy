// The check runner of the SQL generation (backend/app/services/monitor.py): the
// HostCheck run record and its updates, the recorder that writes progress into it,
// one run of a check (run_host_check), the two-visit check of a host with its log
// collection, failure event and Telegram alert (check_host), and the queueing of
// scheduled checks (run_monitoring).
//
// The browser, the HTTP client and the Telegram API are inputs: an `Env` holds what
// each dashboard visit saw, whether each screenshot was taken, what each log fetch
// returned and which sends raised. The clock is a `Clock` reading, taken once per run.
module CheckService {
  import opened Common
  import opened Text
  import LogService
  import Notifier

  /** One line of a check's progress log. */
  datatype LogLine = LogLine(timestamp: string, message: string)

  /** A HostCheck row (its id is its key in the table). */
  datatype HostCheck = HostCheck(
    hostId: int,
    trigger: string,
    status: string,
    summary: Option<string>,
    log: seq<LogLine>,
    startedAt: Option<int>,
    finishedAt: Option<int>,
    failureEventId: Option<int>,
    createdAt: int,
    updatedAt: int)

  /** A Host row: what the checks read of it. */
  datatype HostRow = HostRow(id: int, name: string, baseUrl: string, enabled: bool)

  /** A FailureEvent row. */
  datatype FailureEvent = FailureEvent(
    id: int,
    hostId: int,
    failureCount: int,
    cameraIds: seq<string>,
    failureStart: Option<int>,
    firstScreenshot: Option<string>,
    secondScreenshot: Option<string>,
    logFiles: seq<string>,
    createdAt: int)

  /** A clock reading: datetime.utcnow(), and now_tz(tz).isoformat() for log lines. */
  datatype Clock = Clock(now: int, stamp: string)

  /** The keyword arguments of one _update_check_record call. */
  datatype Change = Change(
    status: Option<string>,
    summary: Option<string>,
    message: Option<string>,
    markStarted: bool,
    finished: bool,
    failureEventId: Option<int>)

  /** Python's truth test on an optional str. */
  predicate Given(s: Option<string>) {
    s.Some? && s.value != ""
  }

  /**
   * What _update_check_record makes of an existing check: the log only grows, by one
   * line exactly when a message is given; started_at is set once; finished_at,
   * status, summary and failure_event_id change only when supplied.
   */
  function Apply(c: HostCheck, ch: Change, at: Clock): (r: HostCheck)
    ensures r.hostId == c.hostId && r.trigger == c.trigger && r.createdAt == c.createdAt && r.updatedAt == at.now
    ensures |r.log| == |c.log| + (if Given(ch.message) then 1 else 0) && r.log[..|c.log|] == c.log
    ensures Given(ch.message) ==> r.log[|c.log|] == LogLine(at.stamp, ch.message.value)
    ensures c.startedAt.Some? ==> r.startedAt == c.startedAt
    ensures r.startedAt.Some? <==> c.startedAt.Some? || ch.markStarted
    ensures r.finishedAt != c.finishedAt ==> ch.finished
    ensures ch.finished ==> r.finishedAt == Some(at.now)
    ensures r.status != c.status ==> Given(ch.status)
    ensures Given(ch.status) ==> r.status == ch.status.value
    ensures r.summary != c.summary ==> ch.summary.Some?
    ensures ch.summary.Some? ==> r.summary == ch.summary
    ensures r.failureEventId != c.failureEventId ==> ch.failureEventId.Some?
    ensures ch.failureEventId.Some? ==> r.failureEventId == ch.failureEventId
  {
    var log := if Given(ch.message) then c.log + [LogLine(at.stamp, ch.message.value)] else c.log;
    assert log[..|c.log|] == c.log;
    c.(log := log,
       status := if Given(ch.status) then ch.status.value else c.status,
       summary := if ch.summary.Some? then ch.summary else c.summary,
       startedAt := if ch.markStarted && c.startedAt.None? then Some(at.now) else c.startedAt,
       finishedAt := if ch.finished then Some(at.now) else c.finishedAt,
       failureEventId := if ch.failureEventId.Some? then ch.failureEventId else c.failureEventId,
       updatedAt := at.now)
  }

  /** The check table after _update_check_record: an unknown id changes nothing. */
  function Updated(checks: map<int, HostCheck>, id: int, ch: Change, at: Clock): map<int, HostCheck> {
    if id in checks then checks[id := Apply(checks[id], ch, at)] else checks
  }

  /** The changes the recorder's start, log, complete and skip ask for. */
  function Started(hostName: string): Change {
    Change(Some("running"), None, Some("Starting check for " + hostName), true, false, None)
  }

  function Noted(message: string): Change {
    Change(None, None, Some(message), false, false, None)
  }

  function Completed(status: string, summary: string, failureEventId: Option<int>): Change {
    Change(Some(status), Some(summary), None, false, true, failureEventId)
  }

  function Skipped(summary: string): Change {
    Change(Some("skipped"), Some(summary), None, false, true, None)
  }

  /**
   * create_host_check: a pending check with one log line, "Manual check requested"
   * for a manual trigger and "Scheduled check queued" for any other.
   */
  function Initial(hostId: int, trigger: string, at: Clock): (c: HostCheck)
    ensures c.status == "pending" && c.hostId == hostId && c.trigger == trigger
    ensures |c.log| == 1 && c.log[0].timestamp == at.stamp
    ensures c.log[0].message == "Manual check requested" <==> trigger == "manual"
    ensures c.log[0].message == "Manual check requested" || c.log[0].message == "Scheduled check queued"
    ensures c.startedAt.None? && c.finishedAt.None? && c.summary.None? && c.failureEventId.None?
  {
    var message := if trigger == "manual" then "Manual check requested" else "Scheduled check queued";
    HostCheck(hostId, trigger, "pending", None, [LogLine(at.stamp, message)], None, None, None, at.now, at.now)
  }

  /**
   * `b` is `a` with the log of check `id` extended, and nothing else of any check
   * changed but that check's updated_at.
   */
  ghost predicate Extends(a: map<int, HostCheck>, b: map<int, HostCheck>, id: int) {
    && a.Keys == b.Keys
    && (forall k | k in a && k != id :: b[k] == a[k])
    && (id in a ==>
          && b[id] == a[id].(log := b[id].log, updatedAt := b[id].updatedAt)
          && |a[id].log| <= |b[id].log| && b[id].log[..|a[id].log|] == a[id].log)
  }

  /** A check run_host_check is done with: finished, in one of the final states. */
  ghost predicate Finished(c: HostCheck) {
    c.finishedAt.Some? && c.status in {"success", "failure", "error", "skipped"}
  }

  /** Only check `id` may differ between `a` and `b`, and no check was added or removed. */
  ghost predicate OnlyChanged(a: map<int, HostCheck>, b: map<int, HostCheck>, id: int) {
    a.Keys == b.Keys && forall k | k in a && k != id :: b[k] == a[k]
  }

  /**
   * A started check `c0` became `c` by run_host_check: the mapped status and summary,
   * finished now, started_at set once, the event id when there is one, and a log that
   * extends the old one with the start line first and the closing line last.
   */
  ghost predicate Closed(c0: HostCheck, c: HostCheck, hostName: string, closing: Closing, at: Clock) {
    && c.hostId == c0.hostId && c.trigger == c0.trigger
    && c.status == closing.status && c.summary == Some(closing.summary) && c.finishedAt == Some(at.now)
    && c.startedAt == (if c0.startedAt.Some? then c0.startedAt else Some(at.now))
    && c.failureEventId == (if closing.failureEventId.Some? then closing.failureEventId else c0.failureEventId)
    && |c0.log| + 2 <= |c.log| && c.log[..|c0.log|] == c0.log
    && c.log[|c0.log|].message == "Starting check for " + hostName
    && c.log[|c.log| - 1].message == closing.line
  }

  /** The start, the run and the closing of run_host_check, step by step, come to Closed. */
  lemma ClosedSteps(c0: HostCheck, c1: HostCheck, c2: HostCheck, c: HostCheck, hostName: string, closing: Closing, at: Clock)
    requires c1.hostId == c0.hostId && c1.trigger == c0.trigger && c.hostId == c2.hostId && c.trigger == c2.trigger
    requires c1.startedAt == (if c0.startedAt.Some? then c0.startedAt else Some(at.now))
    requires c1.failureEventId == c0.failureEventId
    requires c1.log == c0.log + [LogLine(at.stamp, "Starting check for " + hostName)]
    requires c2 == c1.(log := c2.log, updatedAt := c2.updatedAt) && |c1.log| <= |c2.log| && c2.log[..|c1.log|] == c1.log
    requires closing.status != "" && c.status == closing.status
    requires c.summary == Some(closing.summary) && c.finishedAt == Some(at.now) && c.startedAt == c2.startedAt
    requires c.failureEventId == (if closing.failureEventId.Some? then closing.failureEventId else c2.failureEventId)
    requires c.log == c2.log + [LogLine(at.stamp, closing.line)]
    ensures Closed(c0, c, hostName, closing, at)
  {
    assert c.log[..|c2.log|] == c2.log;
    assert c.log[..|c1.log|] == c1.log by {
      assert c.log[..|c1.log|] == c2.log[..|c1.log|];
    }
    assert c.log[..|c0.log|] == c1.log[..|c0.log|] == c0.log;
    assert c.log[|c0.log|] == c1.log[|c0.log|];
  }

  lemma ExtendsNoted(since: map<int, HostCheck>, prev: map<int, HostCheck>, id: int, message: string, at: Clock)
    requires Extends(since, prev, id)
    ensures Extends(since, Updated(prev, id, Noted(message), at), id)
  {
    if id in since {
      var a, b := since[id].log, Updated(prev, id, Noted(message), at)[id].log;
      assert b[..|prev[id].log|] == prev[id].log;
      assert b[..|a|] == b[..|prev[id].log|][..|a|];
    }
  }

  /** Session.get(Host, id): the row with that id. */
  function FindHost(hosts: seq<HostRow>, id: int): (r: Option<HostRow>)
    ensures r.Some? ==> r.value in hosts && r.value.id == id
    ensures r.None? <==> forall h | h in hosts :: h.id != id
  {
    if hosts == [] then None
    else if hosts[0].id == id then Some(hosts[0])
    else FindHost(hosts[1..], id)
  }

  /** The hosts the enabled filter of run_monitoring selects, in table order. */
  function EnabledHosts(hosts: seq<HostRow>): (r: seq<HostRow>)
    ensures |r| <= |hosts|
  {
    if hosts == [] then []
    else
      var n := |hosts| - 1;
      var prior := EnabledHosts(hosts[..n]);
      if hosts[n].enabled then prior + [hosts[n]] else prior
  }

  /** The filter keeps exactly the enabled hosts. */
  lemma {:induction false} EnabledHostsSelect(hosts: seq<HostRow>)
    ensures forall h | h in EnabledHosts(hosts) :: h.enabled && h in hosts
    ensures forall h | h in hosts && h.enabled :: h in EnabledHosts(hosts)
  {
    if hosts != [] {
      var n := |hosts| - 1;
      EnabledHostsSelect(hosts[..n]);
      assert forall h | h in hosts :: h in hosts[..n] || h == hosts[n];
    }
  }

  /** One more host extends the filter by that host when it is enabled. */
  lemma EnabledStep(hosts: seq<HostRow>, i: nat)
    requires i < |hosts|
    ensures EnabledHosts(hosts[..i + 1]) == EnabledHosts(hosts[..i]) + (if hosts[i].enabled then [hosts[i]] else [])
  {
    assert hosts[..i + 1][..i] == hosts[..i];
  }

  /** The check table after one pending scheduled check per host, with ids from `first` on. */
  function Queued(checks: map<int, HostCheck>, first: int, hosts: seq<HostRow>, at: Clock): map<int, HostCheck> {
    if hosts == [] then checks
    else
      var n := |hosts| - 1;
      Queued(checks, first, hosts[..n], at)[first + n := Initial(hosts[n].id, "scheduled", at)]
  }

  /** The ids first, first + 1, ..., first + n - 1. */
  function Consecutive(first: int, n: nat): (r: seq<int>)
    ensures |r| == n && forall k | 0 <= k < n :: r[k] == first + k
  {
    if n == 0 then [] else Consecutive(first, n - 1) + [first + n - 1]
  }

  /** One more host queues one more check, under the next id. */
  lemma QueuedSnoc(checks: map<int, HostCheck>, first: int, hosts: seq<HostRow>, h: HostRow, at: Clock)
    ensures Queued(checks, first, hosts + [h], at) == Queued(checks, first, hosts, at)[first + |hosts| := Initial(h.id, "scheduled", at)]
  {
    assert (hosts + [h])[..|hosts|] == hosts;
  }

  /**
   * The queued checks are new, one per host in order, each pending with a scheduled
   * trigger for its host; the checks there were are untouched.
   */
  lemma QueuedChecks(checks: map<int, HostCheck>, first: int, hosts: seq<HostRow>, at: Clock)
    requires forall id | id in checks :: id < first
    ensures var q := Queued(checks, first, hosts, at);
      && (forall id :: id in q <==> id in checks || first <= id < first + |hosts|)
      && (forall id | id in checks :: q[id] == checks[id])
      && (forall k | 0 <= k < |hosts| :: first + k in q && q[first + k] == Initial(hosts[k].id, "scheduled", at))
  {
    QueuedKeys(checks, first, hosts, at);
    QueuedKeepsOld(checks, first, hosts, at);
    forall k | 0 <= k < |hosts| {
      QueuedNew(checks, first, hosts, at, k);
    }
  }

  /**
   * Queueing one check per host and then running each queued check: the new checks are
   * the queued ids, each finished and still of its host, and the checks there were are
   * untouched.
   */
  lemma QueuedThenRun(before: map<int, HostCheck>, queued: map<int, HostCheck>, after: map<int, HostCheck>,
                      first: int, hosts: seq<HostRow>, created: seq<int>, at: Clock)
    requires forall id | id in before :: id < first
    requires forall id :: id in queued <==> id in before || first <= id < first + |hosts|
    requires forall id | id in before :: queued[id] == before[id]
    requires forall k | 0 <= k < |hosts| :: first + k in queued && queued[first + k] == Initial(hosts[k].id, "scheduled", at)
    requires |created| == |hosts| && forall k | 0 <= k < |created| :: created[k] == first + k
    requires after.Keys == queued.Keys
    requires forall id | id in queued && id !in created :: after[id] == queued[id]
    requires forall id | id in queued :: after[id].hostId == queued[id].hostId && after[id].trigger == queued[id].trigger
    requires forall k | 0 <= k < |created| && created[k] in queued :: Finished(after[created[k]])
    ensures forall id :: id in after <==> id in before || id in created
    ensures forall id | id in before :: after[id] == before[id]
    ensures forall k | 0 <= k < |created| ::
      && Finished(after[created[k]])
      && after[created[k]].hostId == hosts[k].id && after[created[k]].trigger == "scheduled"
  {
    forall id ensures id in created <==> first <= id < first + |hosts| {
      if first <= id < first + |hosts| {
        assert created[id - first] == id;
      }
    }
    forall id | first <= id < first + |hosts| ensures Finished(after[id]) {
      assert created[id - first] == id && created[id - first] in queued;
    }
    RanQueued(before, queued, after, first, hosts, at);
    forall k | 0 <= k < |created|
      ensures Finished(after[created[k]]) && after[created[k]].hostId == hosts[k].id && after[created[k]].trigger == "scheduled"
    {
      assert created[k] == first + k;
    }
  }

  lemma RanQueued(before: map<int, HostCheck>, queued: map<int, HostCheck>, after: map<int, HostCheck>,
                  first: int, hosts: seq<HostRow>, at: Clock)
    requires forall id | id in before :: id < first
    requires forall id :: id in queued <==> id in before || first <= id < first + |hosts|
    requires forall id | id in before :: queued[id] == before[id]
    requires forall k | 0 <= k < |hosts| :: first + k in queued && queued[first + k] == Initial(hosts[k].id, "scheduled", at)
    requires after.Keys == queued.Keys
    requires forall id | id in queued && !(first <= id < first + |hosts|) :: after[id] == queued[id]
    requires forall id | id in queued :: after[id].hostId == queued[id].hostId && after[id].trigger == queued[id].trigger
    requires forall id | first <= id < first + |hosts| :: Finished(after[id])
    ensures forall id :: id in after <==> id in before || first <= id < first + |hosts|
    ensures forall id | id in before :: after[id] == before[id]
    ensures forall k | 0 <= k < |hosts| ::
      Finished(after[first + k]) && after[first + k].hostId == hosts[k].id && after[first + k].trigger == "scheduled"
  {
    forall id ensures id in after <==> id in queued {
      assert id in after <==> id in after.Keys;
    }
    forall id | id in before ensures after[id] == before[id] {
      assert id in queued && id < first;
    }
    forall k | 0 <= k < |hosts|
      ensures Finished(after[first + k]) && after[first + k].hostId == hosts[k].id && after[first + k].trigger == "scheduled"
    {
      assert first + k in queued;
    }
  }

  /** The queue adds exactly the ids first .. first + |hosts| - 1. */
  lemma {:induction false} QueuedKeys(checks: map<int, HostCheck>, first: int, hosts: seq<HostRow>, at: Clock)
    ensures forall id :: id in Queued(checks, first, hosts, at) <==> id in checks || first <= id < first + |hosts|
  {
    if hosts != [] {
      QueuedKeys(checks, first, hosts[..|hosts| - 1], at);
    }
  }

  /** The checks there were keep their rows when their ids are below the new ones. */
  lemma {:induction false} QueuedKeepsOld(checks: map<int, HostCheck>, first: int, hosts: seq<HostRow>, at: Clock)
    requires forall id | id in checks :: id < first
    ensures forall id | id in checks :: id in Queued(checks, first, hosts, at) && Queued(checks, first, hosts, at)[id] == checks[id]
  {
    if hosts != [] {
      var n := |hosts| - 1;
      QueuedKeepsOld(checks, first, hosts[..n], at);
    }
  }

  /** The k-th queued check is pending and scheduled for the k-th host. */
  lemma {:induction false} QueuedNew(checks: map<int, HostCheck>, first: int, hosts: seq<HostRow>, at: Clock, k: nat)
    requires k < |hosts|
    ensures first + k in Queued(checks, first, hosts, at)
    ensures Queued(checks, first, hosts, at)[first + k] == Initial(hosts[k].id, "scheduled", at)
  {
    var n := |hosts| - 1;
    if k < n {
      QueuedNew(checks, first, hosts[..n], at, k);
      assert hosts[..n][k] == hosts[k];
    }
  }

  /** Python's str.split(sep) with a one-character separator. */
  function SplitOn(s: string, sep: char): (r: seq<string>)
    ensures |r| >= 1
    ensures forall k | 0 <= k < |r| :: sep !in r[k]
  {
    if s == [] then [""]
    else
      var n := |s| - 1;
      var prior := SplitOn(s[..n], sep);
      if s[n] == sep then prior + [""]
      else prior[..|prior| - 1] + [prior[|prior| - 1] + [s[n]]]
  }

  /** Joining the pieces with the separator gives the text back. */
  lemma {:induction false} SplitJoin(s: string, sep: char)
    ensures Join([sep], SplitOn(s, sep)) == s
  {
    if s != [] {
      var n := |s| - 1;
      var prior := SplitOn(s[..n], sep);
      var r := SplitOn(s, sep);
      SplitJoin(s[..n], sep);
      assert s == s[..n] + [s[n]];
      var m := |prior| - 1;
      if s[n] == sep {
        assert r == prior + [""];
        assert r[..|r| - 1] == prior;
        assert Join([sep], r) == Join([sep], prior) + [sep] + "";
      } else if m == 0 {
        assert r == [prior[0] + [s[n]]];
      } else {
        assert r == prior[..m] + [prior[m] + [s[n]]];
        assert r[..|r| - 1] == prior[..m];
        assert Join([sep], r) == Join([sep], prior[..m]) + [sep] + (prior[m] + [s[n]]);
        assert Join([sep], prior) == Join([sep], prior[..m]) + [sep] + prior[m];
      }
    }
  }

  /**
   * The mention line of the alert: none when mention_user_ids is falsy; otherwise one
   * tag per stripped non-empty comma-separated id, or the AttributeError of `split`
   * when the stored value is not a str.
   */
  function MentionLine(v: Value): (r: Result<Option<string>>)
    ensures r.Raised? <==> Truthy(v) && !v.Str?
    ensures r == Ok(None) <==> !Truthy(v)
    ensures r.Ok? && r.value.Some? ==> r.value.value == Join(" ", Notifier.Tags(KeptLines(SplitOn(v.s, ',')), "."))
  {
    if !Truthy(v) then Ok(None)
    else if v.Str? then Ok(Some(Join(" ", Notifier.Tags(KeptLines(SplitOn(v.s, ',')), "."))))
    else Raised(NoAttribute(v, "split"))
  }

  /** The lines of the alert message. */
  function AlertLines(hostname: string, ids: seq<string>, start: Option<int>, name: Value, mention: Option<string>,
                      render: int -> string): (lines: seq<Value>)
    ensures |lines| == 4 + (if start.Some? then 1 else 0) + (if Truthy(name) then 1 else 0) + (if mention.Some? then 1 else 0)
    ensures lines[0] == Str("<b>Frigate Manager Alert</b>") && lines[1] == Str("Host: <code>" + hostname + "</code>")
    ensures lines[2] == Str("Affected cameras: " + IntToString(|ids|)) && lines[3] == Str("Identifiers: " + Join(", ", ids))
    ensures start.Some? ==> lines[4] == Str("Estimated start: " + render(start.value) + " GMT-3")
    ensures forall k | 0 <= k < |lines| && lines[k] != name :: lines[k].Str?
  {
    var head := [Str("<b>Frigate Manager Alert</b>"), Str("Host: <code>" + hostname + "</code>"),
                 Str("Affected cameras: " + IntToString(|ids|)), Str("Identifiers: " + Join(", ", ids))];
    var estimated := if start.Some? then [Str("Estimated start: " + render(start.value) + " GMT-3")] else [];
    var named := if Truthy(name) then [name] else [];
    var mentioned := if mention.Some? then [Str(mention.value)] else [];
    var lines := head + estimated + named + mentioned;
    assert lines[..4] == head;
    assert forall k | 4 <= k < 4 + |estimated| :: lines[k] == estimated[k - 4];
    assert forall k | 4 + |estimated| + |named| <= k < |lines| :: lines[k] == mentioned[k - 4 - |estimated| - |named|];
    lines
  }

  /** The index of the first item that is not a str. */
  function FirstNonStr(items: seq<Value>): (k: nat)
    requires exists k | 0 <= k < |items| :: !items[k].Str?
    ensures k < |items| && !items[k].Str? && forall j | 0 <= j < k :: items[j].Str?
  {
    if !items[0].Str? then 0
    else
      var k := FirstNonStr(items[1..]);
      assert forall j | 0 < j <= k :: items[j] == items[1..][j - 1];
      1 + k
  }

  /** "\n".join(lines): the TypeError of the first item that is not a str. */
  function JoinLines(lines: seq<Value>): (r: Result<string>)
    ensures r.Ok? <==> forall k | 0 <= k < |lines| :: lines[k].Str?
  {
    if forall k | 0 <= k < |lines| :: lines[k].Str? then
      Ok(Join("\n", seq(|lines|, k requires 0 <= k < |lines| => lines[k].s)))
    else
      var k := FirstNonStr(lines);
      Raised("sequence item " + IntToString(k) + ": expected str instance, " + TypeName(lines[k]) + " found")
  }

  /** What one dashboard visit gives: the page failed to load, or the failing camera ids. */
  datatype Visit = Unreachable(error: string) | Seen(ids: seq<string>)

  /** What one log request gives: the response text, or the error it raised. */
  datatype Fetch = Body(text: string) | FetchError(error: string)

  /** The world one check_host call meets. */
  datatype Env = Env(
    first: Visit,
    firstShot: Outcome,
    second: Visit,
    secondShot: Outcome,
    firstStamp: string,
    retryStamp: string,
    fetch: string -> Fetch,
    decode: string -> Option<Record>,
    scan: string -> Option<string>,
    fromIso: string -> Option<Moment>,
    render: int -> string,
    sendError: string -> Option<string>)

  /** A request handed to the Telegram API. */
  datatype Delivery = Message(text: string) | Media(paths: seq<string>, mediaType: string)

  /** The services whose logs a confirmed failure collects, in order. */
  const Services: seq<string> := ["go2rtc", "nginx", "frigate"]

  /** Etc/GMT+3 is three hours behind UTC. */
  const OffsetSeconds: int := 3 * 3600

  /** A naive reading taken as Etc/GMT+3 wall-clock time, as an instant. */
  function Localize(wall: int): int {
    wall + OffsetSeconds
  }

  /** The Etc/GMT+3 wall-clock reading of an instant, with the zone dropped. */
  function Wall(instant: int): (w: int)
    ensures Localize(w) == instant
  {
    instant - OffsetSeconds
  }

  function ShotPath(shotDir: string, hostname: string, stamp: string, kind: string): string {
    shotDir + "/" + hostname + "-" + stamp + "-" + kind + ".png"
  }

  /** How the two visits end before any log is fetched. */
  datatype Screen =
    | Early(status: string, summary: string)
    | Crash(error: string)
    | Confirmed(ids: seq<string>, first: string, second: string)

  /**
   * What `asyncio.sleep(config.retry_delay_minutes * 60)` raises, if anything. An int or
   * a bool multiplies to a number and the sleep goes ahead (at once when it is not
   * positive); a str or a list multiplies to a repetition that sleep cannot compare
   * with 0; a dict or None cannot be multiplied by an int.
   */
  function RetryWaitError(delay: Value): (r: Option<string>)
    ensures r.None? <==> delay.Int? || delay.Bool?
    ensures (delay.Str? || delay.List?) ==> r == Some("'<=' not supported between instances of '" + TypeName(delay) + "' and 'int'")
    ensures (delay.Obj? || delay.Null?) ==> r == Some("unsupported operand type(s) for *: '" + TypeName(delay) + "' and 'int'")
  {
    if delay.Int? || delay.Bool? then None
    else if delay.Str? || delay.List? then Some("'<=' not supported between instances of '" + TypeName(delay) + "' and 'int'")
    else Some("unsupported operand type(s) for *: '" + TypeName(delay) + "' and 'int'")
  }

  /** The wait between the two visits: config.retry_delay_minutes. */
  function RetryDelay(config: Record): Value {
    Get(config, "retry_delay_minutes")
  }

  /**
   * The first half of check_host: a page that does not load is an error, at most one
   * failing camera at either visit is a success, a screenshot or a retry delay that
   * raises escapes; only more than one failing camera at both visits goes on, with
   * the second visit's ids and both screenshots.
   */
  function Screening(env: Env, config: Record, hostname: string, shotDir: string): (s: Screen)
    ensures s.Confirmed? <==>
      && env.first.Seen? && |env.first.ids| > 1 && env.firstShot.Done? && RetryWaitError(RetryDelay(config)).None?
      && env.second.Seen? && |env.second.ids| > 1 && env.secondShot.Done?
    ensures s.Confirmed? ==> s.ids == env.second.ids && s.first != "" && s.second != ""
    ensures s.Early? ==> s.status == "success" || s.status == "error"
    ensures s.Early? && s.status == "success" <==>
      || (env.first.Seen? && |env.first.ids| <= 1)
      || (env.first.Seen? && |env.first.ids| > 1 && env.firstShot.Done? && RetryWaitError(RetryDelay(config)).None?
          && env.second.Seen? && env.secondShot.Done? && |env.second.ids| <= 1)
    ensures s.Early? && s.status == "error" <==>
      || env.first.Unreachable?
      || (env.first.Seen? && |env.first.ids| > 1 && env.firstShot.Done? && RetryWaitError(RetryDelay(config)).None?
          && env.second.Unreachable?)
    ensures env.first.Seen? && |env.first.ids| > 1 && env.firstShot.Done? && RetryWaitError(RetryDelay(config)).Some? ==>
      s == Crash(RetryWaitError(RetryDelay(config)).value)
  {
    match env.first
    case Unreachable(_) => Early("error", "Unable to load Frigate dashboard")
    case Seen(ids) =>
      if |ids| <= 1 then Early("success", "No failing cameras detected")
      else if env.firstShot.Failed? then Crash(env.firstShot.error)
      else if RetryWaitError(RetryDelay(config)).Some? then Crash(RetryWaitError(RetryDelay(config)).value)
      else
        match env.second
        case Unreachable(_) => Early("error", "Retry failed to load dashboard")
        case Seen(retried) =>
          if env.secondShot.Failed? then Crash(env.secondShot.error)
          else if |retried| <= 1 then Early("success", "Issue cleared before retry completed")
          else Confirmed(retried, ShotPath(shotDir, hostname, env.firstStamp, "initial"),
                         ShotPath(shotDir, hostname, env.retryStamp, "retry"))
  }

  /** The text saved for a service: the response, or "" when the request raised. */
  function Content(env: Env, service: string): string {
    match env.fetch(service)
    case Body(text) => text
    case FetchError(_) => ""
  }

  function ParsedOf(env: Env, service: string): seq<Record> {
    LogService.EntriesOf(NonBlankLines(Content(env, service)), env.decode, env.scan)
  }

  /** parsed_entries, one list per service in order. */
  function ParsedAll(env: Env, services: seq<string>): (r: seq<seq<Record>>)
    ensures |r| == |services|
  {
    if services == [] then []
    else ParsedAll(env, services[..|services| - 1]) + [ParsedOf(env, services[|services| - 1])]
  }

  /** log_files: one saved path per service, in order. */
  function LogPaths(logDir: string, hostname: string, services: seq<string>): (r: seq<string>)
    ensures |r| == |services|
  {
    if services == [] then []
    else LogPaths(logDir, hostname, services[..|services| - 1]) + [LogService.LogFileName(logDir, hostname, services[|services| - 1])]
  }

  /** The saved files after each service's text is written to its file. */
  function SavedFiles(files: map<string, string>, logDir: string, hostname: string, env: Env, services: seq<string>)
    : map<string, string>
  {
    if services == [] then files
    else
      var n := |services| - 1;
      SavedFiles(files, logDir, hostname, env, services[..n])[LogService.LogFileName(logDir, hostname, services[n]) := Content(env, services[n])]
  }

  /**
   * With distinct services every service's file holds exactly its own text (""
   * when the request failed), and no other file changes.
   */
  lemma {:induction false} SavedFilesHold(files: map<string, string>, logDir: string, hostname: string, env: Env,
                                          services: seq<string>)
    requires forall i, j | 0 <= i < j < |services| :: services[i] != services[j]
    ensures var saved := SavedFiles(files, logDir, hostname, env, services);
      && (forall k | 0 <= k < |services| ::
            LogService.LogFileName(logDir, hostname, services[k]) in saved
            && saved[LogService.LogFileName(logDir, hostname, services[k])] == Content(env, services[k]))
      && (forall p | p in files && p !in LogPaths(logDir, hostname, services) :: p in saved && saved[p] == files[p])
  {
    if services != [] {
      var n := |services| - 1;
      SavedFilesHold(files, logDir, hostname, env, services[..n]);
      var saved := SavedFiles(files, logDir, hostname, env, services);
      forall k | 0 <= k < n
        ensures saved[LogService.LogFileName(logDir, hostname, services[k])] == Content(env, services[k])
      {
        assert services[..n][k] == services[k];
        if LogService.LogFileName(logDir, hostname, services[k]) == LogService.LogFileName(logDir, hostname, services[n]) {
          LogService.LogFilesPerService(logDir, hostname, services[k], services[n]);
        }
      }
      forall p | p in files && p !in LogPaths(logDir, hostname, services)
        ensures p in saved && saved[p] == files[p]
      {
        assert LogPaths(logDir, hostname, services) ==
          LogPaths(logDir, hostname, services[..n]) + [LogService.LogFileName(logDir, hostname, services[n])];
      }
    }
  }

  /** The log table after the services' rows are appended to `rows`, in order. */
  function PersistedRows(rows: seq<LogService.LogEntry>, hostId: int, env: Env, services: seq<string>): seq<LogService.LogEntry> {
    if services == [] then rows
    else
      var n := |services| - 1;
      PersistedRows(rows, hostId, env, services[..n]) + LogService.RowsOf(hostId, services[n], ParsedOf(env, services[n]), env.fromIso)
  }

  /** One more service extends each of the per-service folds by that service's part. */
  lemma CollectStep(files: map<string, string>, rows: seq<LogService.LogEntry>, logDir: string, host: HostRow, env: Env, services: seq<string>, i: nat)
    requires i < |services|
    ensures LogPaths(logDir, host.name, services[..i + 1])
      == LogPaths(logDir, host.name, services[..i]) + [LogService.LogFileName(logDir, host.name, services[i])]
    ensures ParsedAll(env, services[..i + 1]) == ParsedAll(env, services[..i]) + [ParsedOf(env, services[i])]
    ensures SavedFiles(files, logDir, host.name, env, services[..i + 1])
      == SavedFiles(files, logDir, host.name, env, services[..i])[LogService.LogFileName(logDir, host.name, services[i]) := Content(env, services[i])]
    ensures PersistedRows(rows, host.id, env, services[..i + 1])
      == PersistedRows(rows, host.id, env, services[..i]) + LogService.RowsOf(host.id, services[i], ParsedOf(env, services[i]), env.fromIso)
  {
    var next := services[..i + 1];
    assert next[..i] == services[..i];
    assert next[i] == services[i];
    PathsStep(logDir, host.name, next);
    ParsedStep(env, next);
    SavedStep(files, logDir, host.name, env, next);
    RowsStep(rows, host.id, env, next);
  }

  lemma PathsStep(logDir: string, hostname: string, s: seq<string>)
    requires s != []
    ensures LogPaths(logDir, hostname, s) == LogPaths(logDir, hostname, s[..|s| - 1]) + [LogService.LogFileName(logDir, hostname, s[|s| - 1])]
  {
  }

  lemma ParsedStep(env: Env, s: seq<string>)
    requires s != []
    ensures ParsedAll(env, s) == ParsedAll(env, s[..|s| - 1]) + [ParsedOf(env, s[|s| - 1])]
  {
  }

  lemma SavedStep(files: map<string, string>, logDir: string, hostname: string, env: Env, s: seq<string>)
    requires s != []
    ensures SavedFiles(files, logDir, hostname, env, s)
      == SavedFiles(files, logDir, hostname, env, s[..|s| - 1])[LogService.LogFileName(logDir, hostname, s[|s| - 1]) := Content(env, s[|s| - 1])]
  {
  }

  lemma RowsStep(rows: seq<LogService.LogEntry>, hostId: int, env: Env, s: seq<string>)
    requires s != []
    ensures PersistedRows(rows, hostId, env, s)
      == PersistedRows(rows, hostId, env, s[..|s| - 1]) + LogService.RowsOf(hostId, s[|s| - 1], ParsedOf(env, s[|s| - 1]), env.fromIso)
  {
  }

  /** The failure onset over the services' entry lists: the earliest estimate, or the first raise. */
  function Onset(lists: seq<seq<Record>>, fromIso: string -> Option<Moment>): Result<Option<int>> {
    if lists == [] then Ok(None)
    else
      match Onset(lists[..|lists| - 1], fromIso)
      case Raised(e) => Raised(e)
      case Ok(prior) =>
        match LogService.Estimate(lists[|lists| - 1], fromIso, Localize)
        case Raised(e) => Raised(e)
        case Ok(None) => Ok(prior)
        case Ok(Some(t)) => Ok(if prior.None? || t < prior.value then Some(t) else prior)
  }

  /** The onset raises exactly when some service's estimate raises. */
  lemma {:induction false} OnsetRaises(lists: seq<seq<Record>>, fromIso: string -> Option<Moment>)
    ensures Onset(lists, fromIso).Raised? <==>
      exists k | 0 <= k < |lists| :: LogService.Estimate(lists[k], fromIso, Localize).Raised?
  {
    if lists != [] {
      var n := |lists| - 1;
      OnsetRaises(lists[..n], fromIso);
      assert forall k | 0 <= k < n :: lists[..n][k] == lists[k];
    }
  }

  /** The onset is None exactly when every service's estimate is None. */
  lemma {:induction false} OnsetNone(lists: seq<seq<Record>>, fromIso: string -> Option<Moment>)
    ensures Onset(lists, fromIso) == Ok(None) <==>
      forall k | 0 <= k < |lists| :: LogService.Estimate(lists[k], fromIso, Localize) == Ok(None)
  {
    if lists != [] {
      var n := |lists| - 1;
      OnsetNone(lists[..n], fromIso);
      assert forall k | 0 <= k < n :: lists[..n][k] == lists[k];
    }
  }

  /** An onset that is an instant is one of the estimates and no later than any other. */
  lemma {:induction false} OnsetEarliest(lists: seq<seq<Record>>, fromIso: string -> Option<Moment>)
    ensures Onset(lists, fromIso).Ok? && Onset(lists, fromIso).value.Some? ==>
      var t := Onset(lists, fromIso).value.value;
      && (exists k | 0 <= k < |lists| :: LogService.Estimate(lists[k], fromIso, Localize) == Ok(Some(t)))
      && (forall k, u | 0 <= k < |lists| && LogService.Estimate(lists[k], fromIso, Localize) == Ok(Some(u)) :: t <= u)
  {
    if lists != [] {
      var n := |lists| - 1;
      OnsetEarliest(lists[..n], fromIso);
      OnsetNone(lists[..n], fromIso);
      var prior := Onset(lists[..n], fromIso);
      var last := LogService.Estimate(lists[n], fromIso, Localize);
      var r := Onset(lists, fromIso);
      if r.Ok? && r.value.Some? {
        assert prior.Ok? && last.Ok?;
        var t := r.value.value;
        forall k, u | 0 <= k < |lists| && LogService.Estimate(lists[k], fromIso, Localize) == Ok(Some(u))
          ensures t <= u
        {
          if k < n {
            assert lists[..n][k] == lists[k];
            assert prior.value.Some?;
          }
        }
        if last == Ok(Some(t)) {
          assert LogService.Estimate(lists[n], fromIso, Localize) == Ok(Some(t));
        } else {
          assert prior == Ok(Some(t));
          var k :| 0 <= k < n && LogService.Estimate(lists[..n][k], fromIso, Localize) == Ok(Some(t));
          assert lists[..n][k] == lists[k];
        }
      }
    }
  }

  /**
   * The onset raises exactly when some service's estimate raises; it is None exactly
   * when every estimate is None; otherwise it is one of the estimates and no later
   * than any other.
   */
  lemma OnsetMeaning(lists: seq<seq<Record>>, fromIso: string -> Option<Moment>)
    ensures Onset(lists, fromIso).Raised? <==>
      exists k | 0 <= k < |lists| :: LogService.Estimate(lists[k], fromIso, Localize).Raised?
    ensures Onset(lists, fromIso) == Ok(None) <==>
      forall k | 0 <= k < |lists| :: LogService.Estimate(lists[k], fromIso, Localize) == Ok(None)
    ensures Onset(lists, fromIso).Ok? && Onset(lists, fromIso).value.Some? ==>
      var t := Onset(lists, fromIso).value.value;
      && (exists k | 0 <= k < |lists| :: LogService.Estimate(lists[k], fromIso, Localize) == Ok(Some(t)))
      && (forall k, u | 0 <= k < |lists| && LogService.Estimate(lists[k], fromIso, Localize) == Ok(Some(u)) :: t <= u)
  {
    OnsetRaises(lists, fromIso);
    OnsetNone(lists, fromIso);
    OnsetEarliest(lists, fromIso);
  }

  /** Once a service's estimate raises, the onset raises the same. */
  lemma {:induction false} OnsetRaisedPrefix(lists: seq<seq<Record>>, n: nat, fromIso: string -> Option<Moment>)
    requires n <= |lists| && Onset(lists[..n], fromIso).Raised?
    ensures Onset(lists, fromIso) == Onset(lists[..n], fromIso)
    decreases |lists|
  {
    if n < |lists| {
      var m := |lists| - 1;
      assert lists[..m][..n] == lists[..n];
      OnsetRaisedPrefix(lists[..m], n, fromIso);
    } else {
      assert lists[..n] == lists;
    }
  }

  /** The min-onset loop of check_host over the services' entry lists. */
  method EstimateOnset(parsed: seq<seq<Record>>, fromIso: string -> Option<Moment>)
    returns (r: Result<Option<int>>)
    ensures r == Onset(parsed, fromIso)
  {
    var failureStart: Option<int> := None;
    for i := 0 to |parsed|
      invariant Onset(parsed[..i], fromIso) == Ok(failureStart)
    {
      assert parsed[..i + 1][..i] == parsed[..i];
      var estimate := LogService.EstimateFailureStart(parsed[i], fromIso, Localize);
      if estimate.Raised? {
        OnsetRaisedPrefix(parsed, i + 1, fromIso);
        return Raised(estimate.error);
      }
      if estimate.value.Some? && (failureStart.None? || estimate.value.value < failureStart.value) {
        failureStart := estimate.value;
      }
    }
    Whole(parsed);
    r := Ok(failureStart);
  }

  /** What check_host returns. */
  datatype CheckResult = CheckResult(status: string, summary: string, failureEvent: Option<FailureEvent>)

  /** The failure event check_host stores, if it gets that far. */
  function Recorded(env: Env, config: Record, host: HostRow, eventId: int, at: Clock, logDir: string, shotDir: string, services: seq<string>)
    : Option<FailureEvent>
  {
    var s := Screening(env, config, host.name, shotDir);
    if !s.Confirmed? then None
    else
      match Onset(ParsedAll(env, services), env.fromIso)
      case Raised(_) => None
      case Ok(start) =>
        Some(FailureEvent(eventId, host.id, |s.ids|, s.ids, if start.Some? then Some(Wall(start.value)) else None,
                          Some(s.first), Some(s.second), LogPaths(logDir, host.name, services), at.now))
  }

  /**
   * What check_host returns or raises: the early verdicts of the two visits; the
   * failure, with its stored event, once more than one camera failed at both visits;
   * or the exception a screenshot, an estimate or the mention split raised.
   */
  function CheckOutcome(env: Env, config: Record, host: HostRow, eventId: int, at: Clock, logDir: string, shotDir: string,
                        services: seq<string>)
    : (r: Result<CheckResult>)
    ensures r.Ok? ==> r.value.summary != ""
    ensures r.Ok? ==> r.value.status in {"success", "failure", "error"}
    ensures r.Ok? ==> (r.value.failureEvent.Some? <==> r.value.status == "failure")
    ensures r.Ok? && r.value.status == "failure" <==>
      Recorded(env, config, host, eventId, at, logDir, shotDir, services).Some? && MentionLine(Get(config, "mention_user_ids")).Ok?
    ensures r.Ok? && r.value.status == "failure" ==>
      var e := r.value.failureEvent.value;
      && Some(e) == Recorded(env, config, host, eventId, at, logDir, shotDir, services)
      && env.first.Seen? && |env.first.ids| > 1 && env.second.Seen? && |env.second.ids| > 1
      && e.failureCount == |env.second.ids| && e.cameraIds == env.second.ids
      && e.id == eventId && e.hostId == host.id && |e.logFiles| == |services|
      && r.value.summary == "Detected " + IntToString(|env.second.ids|) + " failing cameras"
    ensures r.Ok? && r.value.status != "failure" ==> Screening(env, config, host.name, shotDir).Early?
  {
    var s := Screening(env, config, host.name, shotDir);
    match s
    case Early(status, summary) => Ok(CheckResult(status, summary, None))
    case Crash(e) => Raised(e)
    case Confirmed(ids, _, _) =>
      var onset := Onset(ParsedAll(env, services), env.fromIso);
      if onset.Raised? then Raised(onset.error)
      else
        var mention := MentionLine(Get(config, "mention_user_ids"));
        if mention.Raised? then Raised(mention.error)
        else
          Ok(CheckResult("failure", "Detected " + IntToString(|ids|) + " failing cameras",
                         Recorded(env, config, host, eventId, at, logDir, shotDir, services)))
  }

  /** The alert text, or the TypeError that joining its lines raised. */
  function AlertText(env: Env, config: Record, e: FailureEvent, hostname: string, mention: Option<string>): Result<string> {
    JoinLines(AlertLines(hostname, e.cameraIds, e.failureStart, Get(config, "mention_name"), mention, env.render))
  }

  /**
   * The requests check_host hands to the Telegram API for the event it recorded, if
   * any: none unless the mentions were built; then the message (unless its lines did
   * not join), the two screenshots and the event's log files.
   */
  function Deliveries(env: Env, config: Record, hostname: string, recorded: Option<FailureEvent>): (r: seq<Delivery>)
    ensures r != [] <==> recorded.Some? && MentionLine(Get(config, "mention_user_ids")).Ok?
    ensures r != [] ==> |r| <= 3 && r[|r| - 1] == Media(recorded.value.logFiles, "document")
  {
    var mention := MentionLine(Get(config, "mention_user_ids"));
    if recorded.None? || mention.Raised? then []
    else Planned(env, config, recorded.value, hostname, mention.value)
  }

  /** The requests of the alert for a stored event: the message when its text joins, the screenshots, the log files. */
  function Planned(env: Env, config: Record, e: FailureEvent, hostname: string, mention: Option<string>): (r: seq<Delivery>)
    ensures 1 <= |r| <= 3 && r[|r| - 1] == Media(e.logFiles, "document")
  {
    var text := AlertText(env, config, e, hostname, mention);
    var shots := if e.firstScreenshot.Some? && e.secondScreenshot.Some?
                    && e.firstScreenshot.value != "" && e.secondScreenshot.value != ""
                 then [Media([e.firstScreenshot.value, e.secondScreenshot.value], "photo")] else [];
    var r := (if text.Ok? then [Message(text.value)] else []) + shots + [Media(e.logFiles, "document")];
    assert r[|r| - 1] == Media(e.logFiles, "document");
    r
  }

  /** How run_host_check closes a check after check_host returned or raised. */
  datatype Closing = Closing(line: string, status: string, summary: string, failureEventId: Option<int>)

  /**
   * The closing log line and completion of run_host_check: "failure" with the event
   * id, "success", and "error" for anything else, including a raise.
   */
  function Close(out: Result<CheckResult>): (c: Closing)
    ensures c.status in {"success", "failure", "error"}
    ensures c.status == "failure" <==> out.Ok? && out.value.status == "failure"
    ensures c.status == "success" <==> out.Ok? && out.value.status == "success"
    ensures c.failureEventId.Some? ==> c.status == "failure"
    ensures out.Raised? ==> c.summary == "Unexpected error during check"
    ensures out.Ok? ==> c.summary == out.value.summary && c.line == out.value.summary
  {
    match out
    case Raised(e) => Closing("Unexpected error: " + e, "error", "Unexpected error during check", None)
    case Ok(res) =>
      var status := if res.status == "failure" || res.status == "success" then res.status else "error";
      var id := if res.status == "failure" && res.failureEvent.Some? then Some(res.failureEvent.value.id) else None;
      Closing(res.summary, status, res.summary, id)
  }

  /** A confirmed screening: what check_host comes to, given the onset. */
  lemma ConfirmedOutcome(env: Env, config: Record, host: HostRow, eventId: int, at: Clock, logDir: string, shotDir: string,
                         services: seq<string>)
    requires Screening(env, config, host.name, shotDir).Confirmed?
    ensures var onset := Onset(ParsedAll(env, services), env.fromIso);
      var s := Screening(env, config, host.name, shotDir);
      var mention := MentionLine(Get(config, "mention_user_ids"));
      CheckOutcome(env, config, host, eventId, at, logDir, shotDir, services) ==
        if onset.Raised? then Raised(onset.error)
        else if mention.Raised? then Raised(mention.error)
        else Ok(CheckResult("failure", "Detected " + IntToString(|s.ids|) + " failing cameras",
                            Recorded(env, config, host, eventId, at, logDir, shotDir, services)))
  {
    var s := Screening(env, config, host.name, shotDir);
    assert s == Confirmed(s.ids, s.first, s.second);
  }

  /** A confirmed screening: the stored event, given the onset. */
  lemma ConfirmedEvent(env: Env, config: Record, host: HostRow, eventId: int, at: Clock, logDir: string, shotDir: string,
                       services: seq<string>)
    requires Screening(env, config, host.name, shotDir).Confirmed?
    ensures var onset := Onset(ParsedAll(env, services), env.fromIso);
      var s := Screening(env, config, host.name, shotDir);
      Recorded(env, config, host, eventId, at, logDir, shotDir, services) ==
        if onset.Raised? then None
        else
          var start := onset.value;
          Some(FailureEvent(eventId, host.id, |s.ids|, s.ids, if start.Some? then Some(Wall(start.value)) else None,
                            Some(s.first), Some(s.second), LogPaths(logDir, host.name, services), at.now))
  {
  }

  /** A confirmed screening whose onset estimate raised: that exception, and no event. */
  lemma EscalationRaised(env: Env, config: Record, host: HostRow, eventId: int, at: Clock, logDir: string, shotDir: string,
                         services: seq<string>)
    requires Screening(env, config, host.name, shotDir).Confirmed?
    requires Onset(ParsedAll(env, services), env.fromIso).Raised?
    ensures CheckOutcome(env, config, host, eventId, at, logDir, shotDir, services) == Raised(Onset(ParsedAll(env, services), env.fromIso).error)
    ensures Recorded(env, config, host, eventId, at, logDir, shotDir, services) == None
  {
    ConfirmedOutcome(env, config, host, eventId, at, logDir, shotDir, services);
    ConfirmedEvent(env, config, host, eventId, at, logDir, shotDir, services);
  }

  /** A confirmed screening with an onset estimate: the event stored, then the mention split decides. */
  lemma EscalationRecorded(env: Env, config: Record, host: HostRow, eventId: int, at: Clock, logDir: string, shotDir: string,
                           services: seq<string>, start: Option<int>)
    requires Screening(env, config, host.name, shotDir).Confirmed?
    requires Onset(ParsedAll(env, services), env.fromIso) == Ok(start)
    ensures var s := Screening(env, config, host.name, shotDir);
      var e := FailureEvent(eventId, host.id, |s.ids|, s.ids, if start.Some? then Some(Wall(start.value)) else None,
                            Some(s.first), Some(s.second), LogPaths(logDir, host.name, services), at.now);
      var mention := MentionLine(Get(config, "mention_user_ids"));
      && Recorded(env, config, host, eventId, at, logDir, shotDir, services) == Some(e)
      && CheckOutcome(env, config, host, eventId, at, logDir, shotDir, services) ==
           if mention.Raised? then Raised(mention.error)
           else Ok(CheckResult("failure", "Detected " + IntToString(|s.ids|) + " failing cameras", Some(e)))
  {
    ConfirmedOutcome(env, config, host, eventId, at, logDir, shotDir, services);
    ConfirmedEvent(env, config, host, eventId, at, logDir, shotDir, services);
  }

  /** The tables the checks use. */
  class Monitor {
    var checks: map<int, HostCheck>
    var nextCheckId: int
    var hosts: seq<HostRow>
    var events: map<int, FailureEvent>
    var nextEventId: int
    var sent: seq<Delivery>
    const logs: LogService.LogStore
    /** The services whose logs a confirmed failure collects. */
    const services: seq<string>

    /** Ids are handed out in increasing order. */
    ghost predicate Valid()
      reads this
    {
      && (forall id | id in checks :: id < nextCheckId)
      && (forall id | id in events :: id < nextEventId)
    }

    /** Everything but the check table. */
    ghost function Rest(): (int, seq<HostRow>, map<int, FailureEvent>, int, seq<Delivery>)
      reads this
    {
      (nextCheckId, hosts, events, nextEventId, sent)
    }

    constructor(hosts: seq<HostRow>, logs: LogService.LogStore)
      ensures Valid() && this.hosts == hosts && this.logs == logs && services == Services
      ensures checks == map[] && events == map[] && sent == []
    {
      this.hosts := hosts;
      this.logs := logs;
      services := Services;
      checks := map[];
      nextCheckId := 1;
      events := map[];
      nextEventId := 1;
      sent := [];
    }

    /** create_host_check: a new pending check under a fresh id. */
    method CreateHostCheck(hostId: int, trigger: string, at: Clock) returns (id: int)
      requires Valid()
      modifies this
      ensures Valid()
      ensures id == old(nextCheckId) && id !in old(checks) && nextCheckId == id + 1
      ensures checks == old(checks)[id := Initial(hostId, trigger, at)]
      ensures hosts == old(hosts) && events == old(events) && nextEventId == old(nextEventId) && sent == old(sent)
    {
      id := nextCheckId;
      checks := checks[id := Initial(hostId, trigger, at)];
      nextCheckId := nextCheckId + 1;
    }

    /** _update_check_record: None for an unknown id, else the updated check. */
    method UpdateCheckRecord(checkId: int, change: Change, at: Clock) returns (r: Option<HostCheck>)
      modifies this
      ensures checkId !in old(checks) ==> r.None?
      ensures checkId in old(checks) ==> r == Some(Apply(old(checks)[checkId], change, at))
      ensures checks == Updated(old(checks), checkId, change, at) && Rest() == old(Rest())
    {
      if checkId !in checks {
        return None;
      }
      var check := Apply(checks[checkId], change, at);
      checks := checks[checkId := check];
      r := Some(check);
    }

    /** Logs a progress line and keeps track of what the check run has changed so far. */
    method Progress(recorder: HostCheckRecorder, message: string, at: Clock, ghost since: map<int, HostCheck>)
      requires recorder.monitor == this && Extends(since, checks, recorder.checkId)
      modifies this
      ensures Extends(since, checks, recorder.checkId) && Rest() == old(Rest())
    {
      ExtendsNoted(since, checks, recorder.checkId, message, at);
      recorder.Log(message, at);
    }

    /** The two dashboard visits of check_host, with their progress lines. */
    method ScreenHost(host: HostRow, config: Record, recorder: HostCheckRecorder, env: Env, at: Clock, shotDir: string,
                      ghost since: map<int, HostCheck>)
      returns (s: Screen)
      requires recorder.monitor == this && Extends(since, checks, recorder.checkId)
      modifies this
      ensures s == Screening(env, config, host.name, shotDir)
      ensures Extends(since, checks, recorder.checkId) && Rest() == old(Rest())
    {
      Progress(recorder, "Loading Frigate dashboard", at, since);
      if env.first.Unreachable? {
        Progress(recorder, "Failed to load dashboard: " + env.first.error, at, since);
        return Early("error", "Unable to load Frigate dashboard");
      }
      var detection := env.first.ids;
      Progress(recorder, "Initial scan detected " + IntToString(|detection|) + " failing cameras", at, since);
      if |detection| <= 1 {
        return Early("success", "No failing cameras detected");
      }
      if env.firstShot.Failed? {
        return Crash(env.firstShot.error);
      }
      var firstScreenshot := ShotPath(shotDir, host.name, env.firstStamp, "initial");
      Progress(recorder, "Captured initial screenshot", at, since);
      Progress(recorder, "Waiting " + Show(RetryDelay(config)) + " minutes before retry", at, since);
      var waitError := RetryWaitError(RetryDelay(config));
      if waitError.Some? {
        return Crash(waitError.value);
      }
      Progress(recorder, "Retrying Frigate dashboard after delay", at, since);
      if env.second.Unreachable? {
        Progress(recorder, "Retry failed to load dashboard: " + env.second.error, at, since);
        return Early("error", "Retry failed to load dashboard");
      }
      var secondDetection := env.second.ids;
      Progress(recorder, "Retry detected " + IntToString(|secondDetection|) + " failing cameras", at, since);
      if env.secondShot.Failed? {
        return Crash(env.secondShot.error);
      }
      var secondScreenshot := ShotPath(shotDir, host.name, env.retryStamp, "retry");
      Progress(recorder, "Captured retry screenshot", at, since);
      if |secondDetection| <= 1 {
        return Early("success", "Issue cleared before retry completed");
      }
      s := Confirmed(secondDetection, firstScreenshot, secondScreenshot);
    }

    /** The request for one service's log; a failed request is noted and gives "". */
    method Fetch(recorder: HostCheckRecorder, env: Env, at: Clock, service: string, ghost since: map<int, HostCheck>)
      returns (content: string)
      requires recorder.monitor == this && Extends(since, checks, recorder.checkId)
      modifies this
      ensures content == Content(env, service)
      ensures Extends(since, checks, recorder.checkId) && Rest() == old(Rest())
    {
      Progress(recorder, "Fetching " + service + " logs", at, since);
      match env.fetch(service) {
        case Body(text) =>
          content := text;
        case FetchError(e) =>
          Progress(recorder, "Failed to fetch " + service + " logs: " + e, at, since);
          content := "";
      }
    }

    /** One round of the `for service` loop: fetch, save, parse and persist one service's log. */
    method FetchLog(host: HostRow, recorder: HostCheckRecorder, env: Env, at: Clock, logDir: string, service: string,
                    ghost since: map<int, HostCheck>)
      returns (path: string, entries: seq<Record>)
      requires recorder.monitor == this && Extends(since, checks, recorder.checkId)
      modifies this, logs
      ensures path == LogService.LogFileName(logDir, host.name, service) && entries == ParsedOf(env, service)
      ensures logs.files == old(logs.files)[path := Content(env, service)]
      ensures logs.rows == old(logs.rows) + LogService.RowsOf(host.id, service, entries, env.fromIso)
      ensures Extends(since, checks, recorder.checkId) && Rest() == old(Rest())
    {
      var content := Fetch(recorder, env, at, service, since);
      path := logs.SaveLogFile(host.name, service, content, logDir);
      entries := LogService.ParseLogEntries(content, env.decode, env.scan);
      var stored := logs.PersistLogEntries(host.id, service, entries, env.fromIso);
    }

    /**
     * The `for service` loop of check_host: each service's log is fetched, saved (""
     * when the request failed), parsed and persisted; one path per service.
     */
    method CollectLogs(host: HostRow, recorder: HostCheckRecorder, env: Env, at: Clock, logDir: string,
                       services: seq<string>, ghost since: map<int, HostCheck>)
      returns (logFiles: seq<string>, parsed: seq<seq<Record>>)
      requires recorder.monitor == this && Extends(since, checks, recorder.checkId)
      modifies this, logs
      ensures logFiles == LogPaths(logDir, host.name, services) && parsed == ParsedAll(env, services)
      ensures logs.files == SavedFiles(old(logs.files), logDir, host.name, env, services)
      ensures logs.rows == PersistedRows(old(logs.rows), host.id, env, services)
      ensures Extends(since, checks, recorder.checkId) && Rest() == old(Rest())
    {
      logFiles := [];
      parsed := [];
      for i := 0 to |services|
        invariant logFiles == LogPaths(logDir, host.name, services[..i]) && parsed == ParsedAll(env, services[..i])
        invariant logs.files == SavedFiles(old(logs.files), logDir, host.name, env, services[..i])
        invariant logs.rows == PersistedRows(old(logs.rows), host.id, env, services[..i])
        invariant Extends(since, checks, recorder.checkId) && Rest() == old(Rest())
      {
        CollectStep(old(logs.files), old(logs.rows), logDir, host, env, services, i);
        var path, entries := FetchLog(host, recorder, env, at, logDir, services[i], since);
        logFiles := logFiles + [path];
        parsed := parsed + [entries];
      }
      Whole(services);
    }

    /**
     * The alert of check_host for a stored event: the mention line, then the message,
     * the screenshots and the log files, each handed to the Telegram API; a send that
     * raised is noted in the check.
     */
    method Notify(hostname: string, event: FailureEvent, config: Record, recorder: HostCheckRecorder, env: Env,
                  at: Clock, ghost since: map<int, HostCheck>)
      returns (mention: Result<Option<string>>)
      requires recorder.monitor == this && Extends(since, checks, recorder.checkId)
      modifies this
      ensures mention == MentionLine(Get(config, "mention_user_ids"))
      ensures sent == old(sent) + Deliveries(env, config, hostname, Some(event))
      ensures Extends(since, checks, recorder.checkId)
      ensures nextCheckId == old(nextCheckId) && hosts == old(hosts) && events == old(events) && nextEventId == old(nextEventId)
    {
      mention := MentionLine(Get(config, "mention_user_ids"));
      if mention.Raised? {
        return;
      }
      var requests := Requests(hostname, event, config, recorder, env, at, mention.value, since);
      sent := sent + requests;
    }

    /** The Telegram requests of the alert, in order; a send that raised is noted in the check. */
    method Requests(hostname: string, event: FailureEvent, config: Record, recorder: HostCheckRecorder, env: Env,
                    at: Clock, mention: Option<string>, ghost since: map<int, HostCheck>)
      returns (requests: seq<Delivery>)
      requires recorder.monitor == this && Extends(since, checks, recorder.checkId)
      modifies this
      ensures requests == Planned(env, config, event, hostname, mention)
      ensures Extends(since, checks, recorder.checkId) && Rest() == old(Rest())
    {
      var text := AlertText(env, config, event, hostname, mention);
      requests := [];
      if text.Raised? {
        Progress(recorder, "Telegram message failed: " + text.error, at, since);
      } else {
        requests := [Message(text.value)];
        SendFailure(recorder, env, "message", "Telegram message failed: ", at, since);
      }
      var first, second := event.firstScreenshot, event.secondScreenshot;
      if first.Some? && second.Some? && first.value != "" && second.value != "" {
        requests := requests + [Media([first.value, second.value], "photo")];
        SendFailure(recorder, env, "photo", "Screenshot upload failed: ", at, since);
      }
      requests := requests + [Media(event.logFiles, "document")];
      SendFailure(recorder, env, "document", "Log upload failed: ", at, since);
    }

    /** A Telegram request of that kind raised: the error is noted in the check. */
    method SendFailure(recorder: HostCheckRecorder, env: Env, kind: string, prefix: string, at: Clock,
                       ghost since: map<int, HostCheck>)
      requires recorder.monitor == this && Extends(since, checks, recorder.checkId)
      modifies this
      ensures Extends(since, checks, recorder.checkId) && Rest() == old(Rest())
    {
      match env.sendError(kind) {
        case Some(e) => Progress(recorder, prefix + e, at, since);
        case None =>
      }
    }

    /** Stores the failure event under the next id. */
    method StoreEvent(host: HostRow, s: Screen, logFiles: seq<string>, start: Option<int>, at: Clock)
      returns (event: FailureEvent)
      requires s.Confirmed? && Valid()
      modifies this
      ensures event == FailureEvent(old(nextEventId), host.id, |s.ids|, s.ids,
                                    if start.Some? then Some(Wall(start.value)) else None,
                                    Some(s.first), Some(s.second), logFiles, at.now)
      ensures events == old(events)[old(nextEventId) := event] && nextEventId == old(nextEventId) + 1
      ensures Valid() && checks == old(checks) && nextCheckId == old(nextCheckId) && hosts == old(hosts) && sent == old(sent)
    {
      var failureStart := if start.Some? then Some(Wall(start.value)) else None;
      event := FailureEvent(nextEventId, host.id, |s.ids|, s.ids, failureStart, Some(s.first), Some(s.second),
                            logFiles, at.now);
      events := events[nextEventId := event];
      nextEventId := nextEventId + 1;
    }

    /**
     * check_host once more than one camera failed at both visits: the logs, the
     * onset, the stored failure event and the alert.
     */
    method Escalate(host: HostRow, config: Record, recorder: HostCheckRecorder, env: Env, at: Clock,
                    logDir: string, shotDir: string, s: Screen, ghost since: map<int, HostCheck>)
      returns (r: Result<CheckResult>)
      requires s == Screening(env, config, host.name, shotDir) && s.Confirmed?
      requires Valid() && recorder.monitor == this && Extends(since, checks, recorder.checkId)
      modifies this, logs
      ensures Valid()
      ensures r == CheckOutcome(env, config, host, old(nextEventId), at, logDir, shotDir, services)
      ensures Extends(since, checks, recorder.checkId)
      ensures nextCheckId == old(nextCheckId) && hosts == old(hosts)
      ensures var recorded := Recorded(env, config, host, old(nextEventId), at, logDir, shotDir, services);
        && (recorded.Some? ==> events == old(events)[old(nextEventId) := recorded.value] && nextEventId == old(nextEventId) + 1)
        && (recorded.None? ==> events == old(events) && nextEventId == old(nextEventId))
        && sent == old(sent) + Deliveries(env, config, host.name, recorded)
      ensures logs.files == SavedFiles(old(logs.files), logDir, host.name, env, services)
      ensures logs.rows == PersistedRows(old(logs.rows), host.id, env, services)
    {
      ghost var eventId := nextEventId;
      var logFiles, onset := Investigate(host, recorder, env, at, logDir, s, since);
      if onset.Raised? {
        EscalationRaised(env, config, host, eventId, at, logDir, shotDir, services);
        return Raised(onset.error);
      }
      EscalationRecorded(env, config, host, eventId, at, logDir, shotDir, services, onset.value);
      r := Announce(host, config, recorder, env, at, s, logFiles, onset.value, since);
    }

    /** The persisting failure noted, the logs collected and the onset estimated from them. */
    method Investigate(host: HostRow, recorder: HostCheckRecorder, env: Env, at: Clock, logDir: string, s: Screen,
                       ghost since: map<int, HostCheck>)
      returns (logFiles: seq<string>, onset: Result<Option<int>>)
      requires s.Confirmed? && recorder.monitor == this && Extends(since, checks, recorder.checkId)
      modifies this, logs
      ensures logFiles == LogPaths(logDir, host.name, services) && onset == Onset(ParsedAll(env, services), env.fromIso)
      ensures logs.files == SavedFiles(old(logs.files), logDir, host.name, env, services)
      ensures logs.rows == PersistedRows(old(logs.rows), host.id, env, services)
      ensures Extends(since, checks, recorder.checkId) && Rest() == old(Rest())
    {
      Progress(recorder, "Failure persists for " + IntToString(|s.ids|) + " cameras: " + Join(", ", s.ids), at, since);
      var parsed;
      logFiles, parsed := CollectLogs(host, recorder, env, at, logDir, services, since);
      onset := EstimateOnset(parsed, env.fromIso);
    }

    /** The end of check_host: the event is stored, then the alert is sent. */
    method Announce(host: HostRow, config: Record, recorder: HostCheckRecorder, env: Env, at: Clock, s: Screen,
                    logFiles: seq<string>, start: Option<int>, ghost since: map<int, HostCheck>)
      returns (r: Result<CheckResult>)
      requires s.Confirmed? && Valid() && recorder.monitor == this && Extends(since, checks, recorder.checkId)
      modifies this
      ensures var e := FailureEvent(old(nextEventId), host.id, |s.ids|, s.ids,
                                    if start.Some? then Some(Wall(start.value)) else None,
                                    Some(s.first), Some(s.second), logFiles, at.now);
        var mention := MentionLine(Get(config, "mention_user_ids"));
        && events == old(events)[old(nextEventId) := e] && nextEventId == old(nextEventId) + 1
        && sent == old(sent) + Deliveries(env, config, host.name, Some(e))
        && r == if mention.Raised? then Raised(mention.error)
                else Ok(CheckResult("failure", "Detected " + IntToString(|s.ids|) + " failing cameras", Some(e)))
      ensures Valid() && Extends(since, checks, recorder.checkId) && nextCheckId == old(nextCheckId) && hosts == old(hosts)
    {
      var event := StoreEvent(host, s, logFiles, start, at);
      Progress(recorder, "Failure recorded and notifications scheduled", at, since);
      var mention := Notify(host.name, event, config, recorder, env, at, since);
      if mention.Raised? {
        return Raised(mention.error);
      }
      r := Ok(CheckResult("failure", "Detected " + IntToString(|s.ids|) + " failing cameras", Some(event)));
    }

    /**
     * check_host: the two visits, then, for a confirmed failure, the logs, the onset,
     * the stored failure event and the alert. Only progress lines are written to the
     * check; the new event, the saved logs and the Telegram requests are as the
     * specification functions say.
     */
    method CheckHost(host: HostRow, config: Record, recorder: HostCheckRecorder, env: Env, at: Clock,
                     logDir: string, shotDir: string)
      returns (r: Result<CheckResult>)
      requires Valid() && recorder.monitor == this
      modifies this, logs
      ensures Valid()
      ensures r == CheckOutcome(env, config, host, old(nextEventId), at, logDir, shotDir, services)
      ensures Extends(old(checks), checks, recorder.checkId)
      ensures nextCheckId == old(nextCheckId) && hosts == old(hosts)
      ensures var recorded := Recorded(env, config, host, old(nextEventId), at, logDir, shotDir, services);
        && (recorded.Some? ==> events == old(events)[old(nextEventId) := recorded.value] && nextEventId == old(nextEventId) + 1)
        && (recorded.None? ==> events == old(events) && nextEventId == old(nextEventId))
        && sent == old(sent) + Deliveries(env, config, host.name, recorded)
      ensures Screening(env, config, host.name, shotDir).Confirmed? ==>
        && logs.files == SavedFiles(old(logs.files), logDir, host.name, env, services)
        && logs.rows == PersistedRows(old(logs.rows), host.id, env, services)
      ensures !Screening(env, config, host.name, shotDir).Confirmed? ==> logs.files == old(logs.files) && logs.rows == old(logs.rows)
    {
      ghost var since := checks;
      var s := ScreenHost(host, config, recorder, env, at, shotDir, since);
      match s
      case Early(status, summary) =>
        r := Ok(CheckResult(status, summary, None));
      case Crash(e) =>
        r := Raised(e);
      case Confirmed(_, _, _) =>
        r := Escalate(host, config, recorder, env, at, logDir, shotDir, s, since);
    }

    /**
     * run_host_check: an unknown check is left alone; a removed host ends the check
     * as an error and a scheduled check of a disabled host is skipped, both without
     * starting it; otherwise the check is started, check_host runs, and the check is
     * completed with the mapped status. Every check that exists ends finished.
     */
    method RunHostCheck(checkId: int, config: Record, env: Env, at: Clock, logDir: string, shotDir: string)
      requires Valid()
      modifies this, logs
      ensures Valid() && hosts == old(hosts) && nextCheckId == old(nextCheckId)
      ensures OnlyChanged(old(checks), checks, checkId)
      ensures checkId in old(checks) ==>
        && Finished(checks[checkId])
        && checks[checkId].hostId == old(checks)[checkId].hostId && checks[checkId].trigger == old(checks)[checkId].trigger
      ensures checkId !in old(checks) ==>
        && checks == old(checks) && Rest() == old(Rest()) && logs.files == old(logs.files) && logs.rows == old(logs.rows)
      ensures checkId in old(checks) ==>
        var c0 := old(checks)[checkId];
        var host := FindHost(old(hosts), c0.hostId);
        && (host.None? ==>
              && checks == Updated(Updated(old(checks), checkId, Noted("Host was removed before the check could run."), at),
                                   checkId, Completed("error", "Host not found", None), at)
              && Rest() == old(Rest()) && logs.files == old(logs.files) && logs.rows == old(logs.rows))
        && (host.Some? && c0.trigger == "scheduled" && !host.value.enabled ==>
              && checks == Updated(Updated(old(checks), checkId, Noted("Host disabled; skipping scheduled check."), at),
                                   checkId, Skipped("Host disabled"), at)
              && Rest() == old(Rest()) && logs.files == old(logs.files) && logs.rows == old(logs.rows))
      ensures checkId in old(checks) ==>
        var c0 := old(checks)[checkId];
        var host := FindHost(old(hosts), c0.hostId);
        host.Some? && !(c0.trigger == "scheduled" && !host.value.enabled) ==>
          && Closed(c0, checks[checkId], host.value.name,
                    Close(CheckOutcome(env, config, host.value, old(nextEventId), at, logDir, shotDir, services)), at)
          && sent == old(sent) + Deliveries(env, config, host.value.name, Recorded(env, config, host.value, old(nextEventId), at, logDir, shotDir, services))
    {
      var recorder := new HostCheckRecorder(checkId, this);
      if checkId !in checks {
        return;
      }
      var check := checks[checkId];
      var host := FindHost(hosts, check.hostId);
      if host.None? {
        SetAside(recorder, "Host was removed before the check could run.", false, "Host not found", at);
        return;
      }
      if check.trigger == "scheduled" && !host.value.enabled {
        SetAside(recorder, "Host disabled; skipping scheduled check.", true, "Host disabled", at);
        return;
      }
      Conduct(recorder, host.value, config, env, at, logDir, shotDir);
    }

    /**
     * A check run_host_check does not start: one log line, then skipped, or completed
     * as an error.
     */
    method SetAside(recorder: HostCheckRecorder, note: string, skip: bool, summary: string, at: Clock)
      requires Valid() && recorder.monitor == this && recorder.checkId in checks
      modifies this
      ensures Valid() && Rest() == old(Rest()) && OnlyChanged(old(checks), checks, recorder.checkId)
      ensures checks == Updated(Updated(old(checks), recorder.checkId, Noted(note), at), recorder.checkId,
                                if skip then Skipped(summary) else Completed("error", summary, None), at)
    {
      recorder.Log(note, at);
      if skip {
        recorder.Skip(summary, at);
      } else {
        recorder.Complete("error", summary, None, at);
      }
    }

    /** The started part of run_host_check: start, check_host, the closing line and completion. */
    method Conduct(recorder: HostCheckRecorder, host: HostRow, config: Record, env: Env, at: Clock,
                   logDir: string, shotDir: string)
      requires Valid() && recorder.monitor == this && recorder.checkId in checks
      modifies this, logs
      ensures Valid() && hosts == old(hosts) && nextCheckId == old(nextCheckId)
      ensures OnlyChanged(old(checks), checks, recorder.checkId)
      ensures Closed(old(checks)[recorder.checkId], checks[recorder.checkId], host.name,
                     Close(CheckOutcome(env, config, host, old(nextEventId), at, logDir, shotDir, services)), at)
      ensures sent == old(sent) + Deliveries(env, config, host.name, Recorded(env, config, host, old(nextEventId), at, logDir, shotDir, services))
    {
      ghost var check := checks[recorder.checkId];
      Begin(recorder, host.name, at);
      ghost var c1 := checks[recorder.checkId];
      var result := CheckHost(host, config, recorder, env, at, logDir, shotDir);
      ghost var c2 := checks[recorder.checkId];
      var closing := Close(result);
      Finish(recorder, closing, at);
      ClosedSteps(check, c1, c2, checks[recorder.checkId], host.name, closing, at);
    }

    /** The start of run_host_check: running, the start line, and started_at if not yet set. */
    method Begin(recorder: HostCheckRecorder, hostName: string, at: Clock)
      requires recorder.monitor == this && recorder.checkId in checks
      modifies this
      ensures checks.Keys == old(checks).Keys && Rest() == old(Rest())
      ensures forall k | k in old(checks) && k != recorder.checkId :: checks[k] == old(checks)[k]
      ensures var c0 := old(checks)[recorder.checkId];
        var c := checks[recorder.checkId];
        && c.hostId == c0.hostId && c.trigger == c0.trigger
        && c.status == "running" && c.summary == c0.summary && c.finishedAt == c0.finishedAt
        && c.startedAt == (if c0.startedAt.Some? then c0.startedAt else Some(at.now))
        && c.failureEventId == c0.failureEventId
        && c.log == c0.log + [LogLine(at.stamp, "Starting check for " + hostName)]
    {
      recorder.Start(hostName, at);
    }

    /** The closing of run_host_check: the closing line, then complete with the mapped status. */
    method Finish(recorder: HostCheckRecorder, closing: Closing, at: Clock)
      requires recorder.monitor == this && recorder.checkId in checks && closing.line != ""
      modifies this
      ensures checks.Keys == old(checks).Keys && Rest() == old(Rest())
      ensures forall k | k in old(checks) && k != recorder.checkId :: checks[k] == old(checks)[k]
      ensures var c0 := old(checks)[recorder.checkId];
        var c := checks[recorder.checkId];
        && c.hostId == c0.hostId && c.trigger == c0.trigger
        && c.status == (if closing.status != "" then closing.status else c0.status)
        && c.summary == Some(closing.summary) && c.finishedAt == Some(at.now) && c.startedAt == c0.startedAt
        && c.failureEventId == (if closing.failureEventId.Some? then closing.failureEventId else c0.failureEventId)
        && c.log == c0.log + [LogLine(at.stamp, closing.line)]
    {
      recorder.Log(closing.line, at);
      recorder.Complete(closing.status, closing.summary, closing.failureEventId, at);
    }

    /** What queueing checks leaves alone. */
    ghost function Kept(): (seq<HostRow>, map<int, FailureEvent>, int, seq<Delivery>)
      reads this
    {
      (hosts, events, nextEventId, sent)
    }

    /** One round of the run_monitoring loop: an enabled host gets the next scheduled check. */
    method Enqueue(table: seq<HostRow>, i: nat, ghost base: map<int, HostCheck>, ghost first: int, at: Clock,
                   created: seq<int>)
      returns (created': seq<int>)
      requires i < |table| && Valid()
      requires checks == Queued(base, first, EnabledHosts(table[..i]), at)
      requires nextCheckId == first + |EnabledHosts(table[..i])|
      requires created == Consecutive(first, |EnabledHosts(table[..i])|)
      modifies this
      ensures Valid()
      ensures checks == Queued(base, first, EnabledHosts(table[..i + 1]), at)
      ensures nextCheckId == first + |EnabledHosts(table[..i + 1])|
      ensures created' == Consecutive(first, |EnabledHosts(table[..i + 1])|)
      ensures Kept() == old(Kept())
    {
      EnabledStep(table, i);
      ghost var e := EnabledHosts(table[..i]);
      created' := created;
      if table[i].enabled {
        QueuedSnoc(base, first, e, table[i], at);
        var id := CreateHostCheck(table[i].id, "scheduled", at);
        created' := created + [id];
      } else {
        assert e + [] == e;
      }
    }

    /** The loop of run_monitoring: a scheduled check is queued for each enabled host, in table order. */
    method QueueChecks(at: Clock) returns (created: seq<int>)
      requires Valid()
      modifies this
      ensures Valid()
      ensures created == Consecutive(old(nextCheckId), |EnabledHosts(old(hosts))|)
      ensures checks == Queued(old(checks), old(nextCheckId), EnabledHosts(old(hosts)), at)
      ensures nextCheckId == old(nextCheckId) + |EnabledHosts(old(hosts))|
      ensures Kept() == old(Kept())
    {
      var table := hosts;
      ghost var first := nextCheckId;
      created := [];
      assert table[..0] == [];
      assert EnabledHosts(table[..0]) == [];
      assert Queued(old(checks), first, [], at) == checks;
      assert Consecutive(first, 0) == [];
      for i := 0 to |table|
        invariant Valid() && Kept() == old(Kept()) && hosts == table
        invariant created == Consecutive(first, |EnabledHosts(table[..i])|)
        invariant checks == Queued(old(checks), first, EnabledHosts(table[..i]), at)
        invariant nextCheckId == first + |EnabledHosts(table[..i])|
      {
        created := Enqueue(table, i, old(checks), first, at, created);
      }
      assert table[..|table|] == table == old(hosts);
    }

    /**
     * run_monitoring: one scheduled check queued per enabled host, in table order, then
     * each queued check run by run_host_check (one after another here); every queued
     * check ends finished, still of its host, and the checks there were are untouched.
     * `env` and `runAt` give what the outside world and the clock show each check, by
     * check id.
     */
    method RunMonitoring(config: Record, at: Clock, env: int -> Env, runAt: int -> Clock, logDir: string, shotDir: string)
      returns (created: seq<int>)
      requires Valid()
      modifies this, logs
      ensures Valid() && hosts == old(hosts)
      ensures created == Consecutive(old(nextCheckId), |EnabledHosts(old(hosts))|)
      ensures nextCheckId == old(nextCheckId) + |created|
      ensures forall id :: id in checks <==> id in old(checks) || id in created
      ensures forall id | id in old(checks) :: checks[id] == old(checks)[id]
      ensures forall k | 0 <= k < |created| ::
        && Finished(checks[created[k]])
        && checks[created[k]].hostId == EnabledHosts(old(hosts))[k].id && checks[created[k]].trigger == "scheduled"
    {
      ghost var first := nextCheckId;
      created := QueueChecks(at);
      QueuedChecks(old(checks), first, EnabledHosts(old(hosts)), at);
      ghost var queued := checks;
      RunEach(created, config, env, runAt, logDir, shotDir);
      QueuedThenRun(old(checks), queued, checks, first, EnabledHosts(old(hosts)), created, at);
    }

    /** run_host_check, seen from run_monitoring: check `checkId` ends finished and keeps its host. */
    method RunOne(checkId: int, config: Record, env: Env, at: Clock, logDir: string, shotDir: string)
      requires Valid()
      modifies this, logs
      ensures Valid() && hosts == old(hosts) && nextCheckId == old(nextCheckId)
      ensures OnlyChanged(old(checks), checks, checkId)
      ensures checkId in old(checks) ==>
        && Finished(checks[checkId])
        && checks[checkId].hostId == old(checks)[checkId].hostId && checks[checkId].trigger == old(checks)[checkId].trigger
    {
      RunHostCheck(checkId, config, env, at, logDir, shotDir);
    }

    /** The checks `ids` run by run_host_check, one after another; the others are untouched. */
    method RunEach(ids: seq<int>, config: Record, env: int -> Env, runAt: int -> Clock, logDir: string, shotDir: string)
      requires Valid()
      modifies this, logs
      ensures Valid() && hosts == old(hosts) && nextCheckId == old(nextCheckId)
      ensures checks.Keys == old(checks).Keys
      ensures forall id | id in old(checks) && id !in ids :: checks[id] == old(checks)[id]
      ensures forall id | id in old(checks) :: checks[id].hostId == old(checks)[id].hostId && checks[id].trigger == old(checks)[id].trigger
      ensures forall k | 0 <= k < |ids| && ids[k] in old(checks) :: Finished(checks[ids[k]])
    {
      for i := 0 to |ids|
        invariant Valid() && hosts == old(hosts) && nextCheckId == old(nextCheckId)
        invariant checks.Keys == old(checks).Keys
        invariant forall id | id in old(checks) && id !in ids[..i] :: checks[id] == old(checks)[id]
        invariant forall id | id in old(checks) :: checks[id].hostId == old(checks)[id].hostId && checks[id].trigger == old(checks)[id].trigger
        invariant forall k | 0 <= k < i && ids[k] in old(checks) :: Finished(checks[ids[k]])
      {
        ghost var before := checks;
        RunOne(ids[i], config, env(ids[i]), runAt(ids[i]), logDir, shotDir);
        forall k | 0 <= k <= i && ids[k] in old(checks) ensures Finished(checks[ids[k]]) {
          if ids[k] != ids[i] {
            assert ids[k] in before && checks[ids[k]] == before[ids[k]];
          }
        }
        assert forall id | id !in ids[..i + 1] :: id !in ids[..i] && id != ids[i];
      }
      assert ids[..|ids|] == ids;
    }
  }

  /** HostCheckRecorder: writes into one check through _update_check_record. */
  class HostCheckRecorder {
    const checkId: int
    const monitor: Monitor

    constructor(checkId: int, monitor: Monitor)
      ensures this.checkId == checkId && this.monitor == monitor
    {
      this.checkId := checkId;
      this.monitor := monitor;
    }

    /** start: running, a "Starting check for" line, and started_at if not yet set. */
    method Start(hostName: string, at: Clock)
      modifies monitor
      ensures monitor.checks == Updated(old(monitor.checks), checkId, Started(hostName), at)
      ensures monitor.Rest() == old(monitor.Rest())
    {
      var _ := monitor.UpdateCheckRecord(checkId, Started(hostName), at);
    }

    /** log: one progress line (none for an empty message). */
    method Log(message: string, at: Clock)
      modifies monitor
      ensures monitor.checks == Updated(old(monitor.checks), checkId, Noted(message), at)
      ensures monitor.Rest() == old(monitor.Rest())
    {
      var _ := monitor.UpdateCheckRecord(checkId, Noted(message), at);
    }

    /** complete: the final status and summary, finished_at, and the event id if given. */
    method Complete(status: string, summary: string, failureEventId: Option<int>, at: Clock)
      modifies monitor
      ensures monitor.checks == Updated(old(monitor.checks), checkId, Completed(status, summary, failureEventId), at)
      ensures monitor.Rest() == old(monitor.Rest())
    {
      var _ := monitor.UpdateCheckRecord(checkId, Completed(status, summary, failureEventId), at);
    }

    /** skip: skipped with a summary, finished_at set. */
    method Skip(summary: string, at: Clock)
      modifies monitor
      ensures monitor.checks == Updated(old(monitor.checks), checkId, Skipped(summary), at)
      ensures monitor.Rest() == old(monitor.Rest())
    {
      var _ := monitor.UpdateCheckRecord(checkId, Skipped(summary), at);
    }
  }
}
