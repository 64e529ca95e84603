// The HTTP endpoints of the flat-file generation (backend/app/main.py) that compute
// something beyond handing a value through: the error mapping of update_host and
// trigger_host, the per-host history with its per-day and per-camera aggregation, the
// latest status of every host, and the log viewer. FastAPI's routing and JSON
// rendering are outside the model; an endpoint's answer is a `Reply`.
module Api {
  import opened Common
  import opened Text
  import opened Models
  import JsonLines
  import History
  import FlatConfig
  import FlatMonitor
  import LexOrder

  /** A 2xx answer with its body, or an HTTPException with its status code and detail. */
  datatype Reply<T> = Success(body: T) | Failure(code: int, detail: Option<string>)

  /**
   * update_host: the first host with the id is updated and returned as a Host; an
   * unknown id is a 404 whose detail is str(KeyError); an updated dict that is no valid
   * Host makes the endpoint fail with 500 after the store was written.
   */
  method UpdateHost(config: FlatConfig.ConfigManager, hostId: string, payload: Record, isUrl: string -> bool)
    returns (r: Reply<Host>)
    modifies config
    ensures FlatConfig.FirstMatch(old(config.hosts), hostId).None? <==> r == Failure(404, Some(FlatConfig.HostNotFound(hostId)))
    ensures FlatConfig.FirstMatch(old(config.hosts), hostId).None? ==> config.hosts == old(config.hosts)
    ensures FlatConfig.FirstMatch(old(config.hosts), hostId).Some? ==>
      var i := FlatConfig.FirstMatch(old(config.hosts), hostId).value;
      var updated := FlatConfig.Merge(old(config.hosts)[i], payload);
      && config.hosts == old(config.hosts)[i := updated]
      && (r.Success? ==> Some(r.body) == FlatMonitor.HostOf(updated, isUrl))
      && (r.Failure? ==> r == Failure(500, None) && FlatMonitor.HostOf(updated, isUrl).None?)
    ensures config.settings == old(config.settings)
  {
    var stored := config.UpdateHost(hostId, payload);
    if stored.Raised? {
      return Failure(404, Some(stored.error));
    }
    var host := FlatMonitor.HostOf(stored.value, isUrl);
    if host.None? {
      return Failure(500, None);
    }
    r := Success(host.value);
  }

  /**
   * trigger_host: manual_trigger's record; its ValueErrors (no such host, a host dict
   * that fails validation) are 404s; an exception of the check itself is a 500.
   */
  method TriggerHost(monitor: FlatMonitor.MonitorService, hostId: string, env: FlatMonitor.Env, probe: FlatMonitor.Probe,
                     isUrl: string -> bool) returns (r: Reply<FailureRecord>)
    modifies monitor, monitor.history
    ensures var hosts := FlatMonitor.ListHosts(monitor.config.hosts, isUrl);
      hosts.Some? && FlatMonitor.FindHost(hosts.value, hostId).None? <==> r == Failure(404, Some("Host not found"))
    ensures FlatMonitor.ListHosts(monitor.config.hosts, isUrl).None? ==> r == Failure(404, None)
    ensures r.Success? ==>
      var host := FlatMonitor.FindHost(FlatMonitor.ListHosts(monitor.config.hosts, isUrl).value, hostId).value;
      var spec := FlatMonitor.CheckSpec(host, monitor.config.settings, monitor.dataDir, env, probe, old(monitor.State()));
      && host.id == hostId && spec.Ok? && r.body == spec.value.record
      && monitor.history.journal == old(monitor.history.journal) + [History.Serialize(r.body)]
    ensures r.Failure? && r.code == 500 ==>
      var host := FlatMonitor.FindHost(FlatMonitor.ListHosts(monitor.config.hosts, isUrl).value, hostId).value;
      FlatMonitor.CheckSpec(host, monitor.config.settings, monitor.dataDir, env, probe, old(monitor.State())).Raised?
    ensures r.Failure? ==> monitor.history.journal == old(monitor.history.journal)
  {
    var t := monitor.ManualTrigger(hostId, env, probe, isUrl);
    match t
    case Triggered(record) => r := Success(record);
    case UnknownHost => r := Failure(404, Some("Host not found"));
    case InvalidHost => r := Failure(404, None);
    case Crashed(_) => r := Failure(500, None);
  }

  /** One element of by_day. */
  datatype DayStats = DayStats(date: string, checks: nat, failures: nat)

  /** The aggregated part of the host history answer. */
  datatype Aggregated = Aggregated(byDay: seq<DayStats>, byCamera: map<string, nat>)

  /**
   * `entry.timestamp.date().isoformat()`: the date of the instant in its own offset,
   * which is the first ten characters of the ISO-8601 text the record carries.
   */
  function Day(e: FailureRecord): string {
    PyPrefix(e.timestamp, 10)
  }

  /** The number of entries dated `day`. */
  function DayChecks(es: seq<FailureRecord>, day: string): nat {
    CountWhere(es, (e: FailureRecord) => Day(e) == day)
  }

  /** The number of failure entries dated `day`. */
  function DayFailures(es: seq<FailureRecord>, day: string): nat {
    CountWhere(es, (e: FailureRecord) => Day(e) == day && e.status == "failure")
  }

  /** The number of times camera `key` (as str) is listed by a failure entry. */
  function FailureHits(es: seq<FailureRecord>, key: string): nat {
    if es == [] then 0
    else
      var e := es[|es| - 1];
      FailureHits(es[..|es| - 1], key)
        + if e.status == "failure" then CountWhere(e.failingCameras, (c: int) => IntToString(c) == key) else 0
  }

  function Dates(days: seq<DayStats>): (r: seq<string>)
    ensures |r| == |days| && forall k | 0 <= k < |days| :: r[k] == days[k].date
  {
    seq(|days|, k requires 0 <= k < |days| => days[k].date)
  }

  /**
   * What _aggregate_host_history promises about its answer for `es`: one element per
   * date some entry has, in ascending date order, counting the entries and the failure
   * entries of that date; and per camera the number of failure entries listing it,
   * with no key for a camera never listed.
   */
  ghost predicate Summarises(a: Aggregated, es: seq<FailureRecord>) {
    && LexOrder.StrictlyAscending(Dates(a.byDay))
    && (forall d :: d in Dates(a.byDay) <==> DayChecks(es, d) > 0)
    && (forall k | 0 <= k < |a.byDay| ::
          a.byDay[k].checks == DayChecks(es, a.byDay[k].date) && a.byDay[k].failures == DayFailures(es, a.byDay[k].date))
    && (forall key :: History.Lookup(a.byCamera, key) == FailureHits(es, key))
    && (forall key | key in a.byCamera :: a.byCamera[key] > 0)
  }

  lemma DayStep(es: seq<FailureRecord>, i: nat, day: string, key: string)
    requires i < |es|
    ensures DayChecks(es[..i + 1], day) == DayChecks(es[..i], day) + (if Day(es[i]) == day then 1 else 0)
    ensures DayFailures(es[..i + 1], day) ==
      DayFailures(es[..i], day) + (if Day(es[i]) == day && es[i].status == "failure" then 1 else 0)
    ensures FailureHits(es[..i + 1], key) == FailureHits(es[..i], key)
      + if es[i].status == "failure" then CountWhere(es[i].failingCameras, (c: int) => IntToString(c) == key) else 0
  {
    assert es[..i + 1][..i] == es[..i];
  }

  /** A day has at most as many failures as checks. */
  lemma {:induction false} FailuresAtMostChecks(es: seq<FailureRecord>, day: string)
    ensures DayFailures(es, day) <= DayChecks(es, day)
  {
    if es != [] {
      var n := |es| - 1;
      FailuresAtMostChecks(es[..n], day);
      DayStep(es, n, day, "");
      assert es[..n + 1] == es;
    }
  }

  /** A date has no checks exactly when no entry carries it. */
  lemma {:induction false} NoChecksWithoutEntries(es: seq<FailureRecord>, day: string)
    ensures DayChecks(es, day) == 0 <==> forall k | 0 <= k < |es| :: Day(es[k]) != day
  {
    if es != [] {
      var n := |es| - 1;
      NoChecksWithoutEntries(es[..n], day);
      DayStep(es, n, day, "");
      assert es[..n + 1] == es;
      assert forall k | 0 <= k < n :: es[..n][k] == es[k];
    }
  }

  /** The by_day dict after the entries `es`: the counters of every date seen. */
  ghost predicate DaysTallied(byDay: map<string, DayStats>, es: seq<FailureRecord>) {
    && (forall d :: d in byDay <==> DayChecks(es, d) > 0)
    && (forall d | d in byDay :: byDay[d] == DayStats(d, DayChecks(es, d), DayFailures(es, d)))
    && (forall d | d !in byDay :: DayFailures(es, d) == 0)
  }

  /** The camera_counts dict after the entries `es`. */
  ghost predicate CamerasTallied(counts: map<string, nat>, es: seq<FailureRecord>) {
    && (forall key :: History.Lookup(counts, key) == FailureHits(es, key))
    && (forall key | key in counts :: counts[key] > 0)
  }

  /** `by_day.setdefault(day, ...)` and the increments for one entry. */
  function CountDay(byDay: map<string, DayStats>, e: FailureRecord): map<string, DayStats> {
    var stats := if Day(e) in byDay then byDay[Day(e)] else DayStats(Day(e), 0, 0);
    byDay[Day(e) := DayStats(Day(e), stats.checks + 1, if e.status == "failure" then stats.failures + 1 else stats.failures)]
  }

  lemma DaysTalliedSnoc(byDay: map<string, DayStats>, es: seq<FailureRecord>, i: nat)
    requires i < |es| && DaysTallied(byDay, es[..i])
    ensures DaysTallied(CountDay(byDay, es[i]), es[..i + 1])
  {
    forall d {
      DayStep(es, i, d, "");
    }
  }

  lemma CamerasTalliedSnoc(counts: map<string, nat>, es: seq<FailureRecord>, i: nat)
    requires i < |es| && CamerasTallied(counts, es[..i])
    ensures CamerasTallied(if es[i].status == "failure" then History.AddCameras(counts, es[i].failingCameras) else counts, es[..i + 1])
  {
    var after := if es[i].status == "failure" then History.AddCameras(counts, es[i].failingCameras) else counts;
    forall key ensures History.Lookup(after, key) == FailureHits(es[..i + 1], key) && (key in after ==> after[key] > 0) {
      DayStep(es, i, "", key);
      History.AddCamerasCounts(counts, es[i].failingCameras, key);
    }
  }

  /** The loop of _aggregate_host_history over the entries, then by_day sorted by date. */
  method AggregateHostHistory(entries: seq<FailureRecord>) returns (r: Aggregated)
    ensures Summarises(r, entries)
  {
    var byDay: map<string, DayStats> := map[];
    var counts: map<string, nat> := map[];
    for i := 0 to |entries|
      invariant DaysTallied(byDay, entries[..i])
      invariant CamerasTallied(counts, entries[..i])
    {
      var entry := entries[i];
      DaysTalliedSnoc(byDay, entries, i);
      CamerasTalliedSnoc(counts, entries, i);
      var day := Day(entry);
      var stats := if day in byDay then byDay[day] else DayStats(day, 0, 0);
      stats := stats.(checks := stats.checks + 1);
      if entry.status == "failure" {
        stats := stats.(failures := stats.failures + 1);
        counts := History.CountCameras(counts, entry.failingCameras);
      }
      byDay := byDay[day := stats];
    }
    Whole(entries);
    var dates := LexOrder.SortStrings(byDay.Keys);
    var rows: seq<DayStats> := [];
    for k := 0 to |dates|
      invariant |rows| == k
      invariant forall m | 0 <= m < k :: rows[m] == byDay[dates[m]]
    {
      rows := rows + [byDay[dates[k]]];
    }
    assert Dates(rows) == dates;
    r := Aggregated(rows, counts);
  }

  /** The answer of host_history: the entries, and their aggregation when there are any. */
  datatype HostHistoryView = HostHistoryView(entries: seq<FailureRecord>, aggregated: Option<Aggregated>)

  /**
   * host_history: every journal entry of the host, newest first; no entries give an
   * empty aggregation, otherwise the aggregation of exactly those entries.
   */
  method HostHistory(history: History.HistoryManager, hostId: string) returns (r: HostHistoryView)
    ensures r.entries == history.GetEntries(Some(hostId), None)
    ensures r.aggregated.None? <==> r.entries == []
    ensures r.aggregated.Some? ==> Summarises(r.aggregated.value, r.entries)
  {
    var entries := history.GetEntries(Some(hostId), None);
    if entries == [] {
      return HostHistoryView([], None);
    }
    var aggregated := AggregateHostHistory(entries);
    r := HostHistoryView(entries, Some(aggregated));
  }

  /** get_entries(host_id=id, limit=1): the newest record of the host, if any. */
  function Newest(journal: seq<History.StoredEntry>, tzName: string, hostId: string): Option<FailureRecord> {
    var es := History.Entries(journal, tzName, Some(hostId), Some(1));
    if es == [] then None else Some(es[0])
  }

  /** The newest record of the host is the first of all its records, none newer. */
  lemma NewestIsLatest(journal: seq<History.StoredEntry>, tzName: string, hostId: string)
    ensures var all := History.Entries(journal, tzName, Some(hostId), None);
      && (Newest(journal, tzName, hostId).None? <==> all == [])
      && (Newest(journal, tzName, hostId).Some? ==>
            && Newest(journal, tzName, hostId).value == all[0]
            && (hostId != "" ==> Newest(journal, tzName, hostId).value.hostId == hostId)
            && forall k | 0 <= k < |all| :: LexOrder.Le(all[k].timestamp, Newest(journal, tzName, hostId).value.timestamp))
  {
    var all := History.Entries(journal, tzName, Some(hostId), None);
    History.EntriesLimited(journal, tzName, Some(hostId), 1);
    History.EntriesHostAndOrder(journal, tzName, Some(hostId), None);
    if all != [] {
      LexOrder.Reflexive(all[0].timestamp);
    }
  }

  /** The statuses list: the newest record of each host that has one, in host order. */
  function Statuses(hosts: seq<Host>, journal: seq<History.StoredEntry>, tzName: string): seq<FailureRecord> {
    if hosts == [] then []
    else
      var prior := Statuses(hosts[..|hosts| - 1], journal, tzName);
      match Newest(journal, tzName, hosts[|hosts| - 1].id)
      case Some(record) => prior + [record]
      case None => prior
  }

  /**
   * One status per host with a journal entry, and every status is the newest record of
   * one of the hosts.
   */
  lemma {:induction false} StatusesShape(hosts: seq<Host>, journal: seq<History.StoredEntry>, tzName: string)
    ensures |Statuses(hosts, journal, tzName)| == CountWhere(hosts, (h: Host) => Newest(journal, tzName, h.id).Some?)
    ensures forall s | s in Statuses(hosts, journal, tzName) :: exists h | h in hosts :: Newest(journal, tzName, h.id) == Some(s)
  {
    if hosts != [] {
      var n := |hosts| - 1;
      StatusesShape(hosts[..n], journal, tzName);
      assert forall h | h in hosts[..n] :: h in hosts;
      assert hosts[n] in hosts;
    }
  }

  /** status: the newest record of every host, in the order of the host list. */
  method Status(history: History.HistoryManager, hosts: seq<Host>) returns (statuses: seq<FailureRecord>)
    ensures statuses == Statuses(hosts, history.journal, history.tzName)
  {
    statuses := [];
    for k := 0 to |hosts|
      invariant statuses == Statuses(hosts[..k], history.journal, history.tzName)
    {
      assert hosts[..k + 1][..k] == hosts[..k];
      var records := history.GetEntries(Some(hosts[k].id), Some(1));
      if records != [] {
        statuses := statuses + [records[0]];
      }
    }
    Whole(hosts);
  }

  /** `{host.id: host for host in hosts}.get(host_id)`: the last host with the id wins. */
  function LastHost(hosts: seq<Host>, hostId: string): (r: Option<Host>)
    ensures r.None? <==> forall h | h in hosts :: h.id != hostId
    ensures r.Some? ==> r.value.id == hostId && r.value in hosts
    ensures r.Some? ==> exists k | 0 <= k < |hosts| :: hosts[k] == r.value && forall j | k < j < |hosts| :: hosts[j].id != hostId
  {
    if hosts == [] then None
    else if hosts[|hosts| - 1].id == hostId then Some(hosts[|hosts| - 1])
    else
      assert forall h | h in hosts :: h == hosts[|hosts| - 1] || h in hosts[..|hosts| - 1];
      var init := hosts[..|hosts| - 1];
      var prior := LastHost(init, hostId);
      if prior.Some? then
        var k :| 0 <= k < |init| && init[k] == prior.value && forall j | k < j < |init| :: init[j].id != hostId;
        assert hosts[k] == prior.value && forall j | k < j < |hosts| :: hosts[j].id != hostId;
        prior
      else prior
  }

  /** `name.replace(" ", "_")`. */
  function SpacesToUnderscores(name: string): (r: string)
    ensures |r| == |name|
    ensures forall k | 0 <= k < |name| :: r[k] == if name[k] == ' ' then '_' else name[k]
  {
    if name == [] then []
    else SpacesToUnderscores(name[..|name| - 1]) + [if name[|name| - 1] == ' ' then '_' else name[|name| - 1]]
  }

  /** The file read_logs opens for a service of a host, as written. */
  function ReadPath(dataDir: string, hostName: string, service: string): string {
    dataDir + "/logs/" + SpacesToUnderscores(hostName) + "-" + service + ".log"
  }

  /** The targets read_logs considers: each service with its file, in service order. */
  function Targets(services: seq<string>, dataDir: string, hostName: string, corrected: bool): (r: seq<(string, string)>)
    ensures |r| == |services|
    ensures forall k | 0 <= k < |services| ::
      r[k] == (services[k], if corrected then FlatMonitor.LogPath(dataDir, hostName, services[k]) else ReadPath(dataDir, hostName, services[k]))
  {
    seq(|services|, k requires 0 <= k < |services| =>
      (services[k], if corrected then FlatMonitor.LogPath(dataDir, hostName, services[k]) else ReadPath(dataDir, hostName, services[k])))
  }

  /** The targets whose file exists, in order. */
  function Existing(targets: seq<(string, string)>, files: map<string, string>): (r: seq<(string, string)>)
    ensures forall t | t in r :: t in targets && t.1 in files
  {
    if targets == [] then []
    else
      var prior := Existing(targets[..|targets| - 1], files);
      var t := targets[|targets| - 1];
      if t.1 in files then prior + [t] else prior
  }

  lemma {:induction false} ExistingComplete(targets: seq<(string, string)>, files: map<string, string>, t: (string, string))
    requires t in targets && t.1 in files
    ensures t in Existing(targets, files)
  {
    var n := |targets| - 1;
    if targets[n] != t {
      assert t in targets[..n] by {
        var k :| 0 <= k < |targets| && targets[k] == t;
        assert targets[..n][k] == t;
      }
      ExistingComplete(targets[..n], files, t);
    }
  }

  /** The records parse_json_lines gives for a file's text. */
  function Parsed(text: string, decode: string -> Option<Json>): seq<Json> {
    JsonLines.DecodeAll(NonBlankLines(text), decode)
  }

  /**
   * What build_table promises about its answer for `records`: the sorted union of
   * their keys as columns, one row per record, "" where a record lacks a column.
   */
  ghost predicate TableOf(t: JsonLines.Table, records: seq<Json>) {
    && LexOrder.StrictlyAscending(t.columns)
    && (forall c :: c in t.columns <==> exists k | 0 <= k < |records| :: records[k].Object? && c in records[k].fields)
    && |t.rows| == |records|
    && forall k | 0 <= k < |records| :: records[k].Object? && t.rows[k] == JsonLines.Row(t.columns, records[k].fields)
  }

  /** One entry of the `logs` object: the file shown for a service, as a table. */
  datatype ServiceLog = ServiceLog(service: string, path: string, table: JsonLines.Table)

  /** The file of a target, parsed, holds a value that is no dict. */
  ghost predicate Unreadable(t: (string, string), files: map<string, string>, decode: string -> Option<Json>) {
    t.1 in files && exists k | 0 <= k < |Parsed(files[t.1], decode)| :: Parsed(files[t.1], decode)[k].Other?
  }

  /** `logs` shows, one by one, the tables of the files of `present`. */
  ghost predicate Shows(logs: seq<ServiceLog>, present: seq<(string, string)>, files: map<string, string>,
                        decode: string -> Option<Json>) {
    && |logs| == |present|
    && forall k | 0 <= k < |present| ::
         && present[k].1 in files && logs[k].service == present[k].0 && logs[k].path == present[k].1
         && TableOf(logs[k].table, Parsed(files[present[k].1], decode))
  }

  lemma ExistingSnoc(targets: seq<(string, string)>, i: nat, files: map<string, string>)
    requires i < |targets|
    ensures Existing(targets[..i + 1], files) ==
      Existing(targets[..i], files) + if targets[i].1 in files then [targets[i]] else []
  {
    assert targets[..i + 1][..i] == targets[..i];
  }

  lemma ShowsSnoc(logs: seq<ServiceLog>, present: seq<(string, string)>, log: ServiceLog, t: (string, string),
                  files: map<string, string>, decode: string -> Option<Json>)
    requires Shows(logs, present, files, decode)
    requires t.1 in files && log.service == t.0 && log.path == t.1
    requires TableOf(log.table, Parsed(files[t.1], decode))
    ensures Shows(logs + [log], present + [t], files, decode)
  {
    var logs', present' := logs + [log], present + [t];
    forall k | 0 <= k < |present'|
      ensures present'[k].1 in files && logs'[k].service == present'[k].0 && logs'[k].path == present'[k].1
      ensures TableOf(logs'[k].table, Parsed(files[present'[k].1], decode))
    {
      if k < |present| {
        assert present'[k] == present[k] && logs'[k] == logs[k];
      } else {
        assert present'[k] == t && logs'[k] == log;
      }
    }
  }

  /** build_table's answer on dicts only is the table TableOf describes. */
  lemma BuiltTable(records: seq<Json>, t: JsonLines.Table)
    requires forall k | 0 <= k < |records| :: records[k].Object?
    requires LexOrder.StrictlyAscending(t.columns)
    requires forall c :: c in t.columns <==> exists k | 0 <= k < |records| :: c in records[k].fields
    requires |t.rows| == |records|
    requires forall k | 0 <= k < |records| :: t.rows[k] == JsonLines.Row(t.columns, records[k].fields)
    ensures TableOf(t, records)
  {
  }

  /**
   * The loop of read_logs over the services: one table per existing file, in order;
   * build_table's AttributeError on a file holding a JSON value that is not a dict
   * ends the endpoint.
   */
  method ReadTables(targets: seq<(string, string)>, files: map<string, string>, decode: string -> Option<Json>)
    returns (r: Result<seq<ServiceLog>>)
    ensures r.Raised? <==> exists t | t in Existing(targets, files) :: Unreadable(t, files, decode)
    ensures r.Ok? ==> Shows(r.value, Existing(targets, files), files, decode)
  {
    var logs: seq<ServiceLog> := [];
    for i := 0 to |targets|
      invariant Shows(logs, Existing(targets[..i], files), files, decode)
      invariant forall t | t in Existing(targets[..i], files) :: !Unreadable(t, files, decode)
    {
      ExistingSnoc(targets, i, files);
      var target := targets[i];
      if target.1 !in files {
        continue;
      }
      var records := JsonLines.ParseJsonLines(files[target.1], decode);
      var table := JsonLines.BuildTable(records);
      if table.Raised? {
        assert records == Parsed(files[target.1], decode);
        var k :| 0 <= k < |records| && records[k].Other?;
        assert Unreadable(target, files, decode);
        assert target in Existing(targets[..i + 1], files);
        ExistingPrefix(targets, i + 1, files);
        return Raised(table.error);
      }
      BuiltTable(records, table.value);
      ShowsSnoc(logs, Existing(targets[..i], files), ServiceLog(target.0, target.1, table.value), target, files, decode);
      logs := logs + [ServiceLog(target.0, target.1, table.value)];
    }
    Whole(targets);
    r := Ok(logs);
  }

  /** What is present among a prefix of the targets is present among all of them. */
  lemma {:induction false} ExistingPrefix(targets: seq<(string, string)>, n: nat, files: map<string, string>)
    requires n <= |targets|
    ensures forall t | t in Existing(targets[..n], files) :: t in Existing(targets, files)
  {
    forall t | t in Existing(targets[..n], files) ensures t in Existing(targets, files) {
      var k :| 0 <= k < n && targets[..n][k] == t;
      assert targets[k] == t;
      ExistingComplete(targets, files, t);
    }
  }

  /** The answer of read_logs. */
  datatype LogsView = LogsView(host: Host, logs: seq<ServiceLog>)

  /**
   * read_logs as written: the host by id (last wins), then for each service the file
   * named after the host name with spaces turned into underscores, when it exists.
   */
  method ReadLogs(records: seq<Record>, isUrl: string -> bool, hostId: string, dataDir: string,
                  files: map<string, string>, decode: string -> Option<Json>) returns (r: Reply<LogsView>)
    ensures FlatMonitor.ListHosts(records, isUrl).None? ==> r == Failure(500, None)
    ensures FlatMonitor.ListHosts(records, isUrl).Some? ==>
      var host := LastHost(FlatMonitor.ListHosts(records, isUrl).value, hostId);
      var present := Existing(Targets(FlatMonitor.Services, dataDir, if host.Some? then host.value.name else "", false), files);
      && (host.None? <==> r == Failure(404, Some("Host not found")))
      && (r.Success? ==>
            && host.Some? && r.body.host == host.value && Shows(r.body.logs, present, files, decode))
      && (r == Failure(500, None) ==> host.Some? && exists t | t in present :: Unreadable(t, files, decode))
  {
    var hosts := FlatMonitor.ListHosts(records, isUrl);
    if hosts.None? {
      return Failure(500, None);
    }
    var host := LastHost(hosts.value, hostId);
    if host.None? {
      return Failure(404, Some("Host not found"));
    }
    var logs := ReadTables(Targets(FlatMonitor.Services, dataDir, host.value.name, false), files, decode);
    if logs.Raised? {
      return Failure(500, None);
    }
    r := Success(LogsView(host.value, logs.value));
  }

  /**
   * read_logs with the file name the monitor writes (FlatMonitor.LogPath): every log
   * file _collect_logs wrote for the host's services is shown.
   */
  method ReadLogsCorrected(records: seq<Record>, isUrl: string -> bool, hostId: string, dataDir: string,
                           files: map<string, string>, decode: string -> Option<Json>) returns (r: Reply<LogsView>)
    ensures FlatMonitor.ListHosts(records, isUrl).None? ==> r == Failure(500, None)
    ensures FlatMonitor.ListHosts(records, isUrl).Some? ==>
      var host := LastHost(FlatMonitor.ListHosts(records, isUrl).value, hostId);
      var present := Existing(Targets(FlatMonitor.Services, dataDir, if host.Some? then host.value.name else "", true), files);
      && (host.None? <==> r == Failure(404, Some("Host not found")))
      && (r.Success? ==>
            && host.Some? && r.body.host == host.value && Shows(r.body.logs, present, files, decode)
            && forall s | s in FlatMonitor.Services && FlatMonitor.LogPath(dataDir, host.value.name, s) in files ::
                 exists k | 0 <= k < |r.body.logs| :: r.body.logs[k].service == s
                                                      && r.body.logs[k].path == FlatMonitor.LogPath(dataDir, host.value.name, s))
      && (r == Failure(500, None) ==> host.Some? && exists t | t in present :: Unreadable(t, files, decode))
  {
    var hosts := FlatMonitor.ListHosts(records, isUrl);
    if hosts.None? {
      return Failure(500, None);
    }
    var host := LastHost(hosts.value, hostId);
    if host.None? {
      return Failure(404, Some("Host not found"));
    }
    var targets := Targets(FlatMonitor.Services, dataDir, host.value.name, true);
    var logs := ReadTables(targets, files, decode);
    if logs.Raised? {
      return Failure(500, None);
    }
    var present := Existing(targets, files);
    forall s | s in FlatMonitor.Services && FlatMonitor.LogPath(dataDir, host.value.name, s) in files
      ensures exists k | 0 <= k < |logs.value| :: logs.value[k].service == s
                                                  && logs.value[k].path == FlatMonitor.LogPath(dataDir, host.value.name, s)
    {
      var t := (s, FlatMonitor.LogPath(dataDir, host.value.name, s));
      var j :| 0 <= j < |FlatMonitor.Services| && FlatMonitor.Services[j] == s;
      assert targets[j] == t;
      ExistingComplete(targets, files, t);
      var k :| 0 <= k < |present| && present[k] == t;
      assert logs.value[k].service == s;
    }
    r := Success(LogsView(host.value, logs.value));
  }

  /**
   * For a host named "a.b" the file read_logs opens is not the file _collect_logs
   * writes ("a_b"), so a log the monitor wrote is never shown.
   */
  lemma DottedNameMissed(dataDir: string, service: string)
    ensures ReadPath(dataDir, "a.b", service) != FlatMonitor.LogPath(dataDir, "a.b", service)
    ensures var files := map[FlatMonitor.LogPath(dataDir, "a.b", service) := ""];
      Existing(Targets([service], dataDir, "a.b", false), files) == []
      && Existing(Targets([service], dataDir, "a.b", true), files) != []
  {
    var safe := FlatMonitor.SafeName("a.b");
    assert safe[1] == '_' by {
      assert !FlatMonitor.NameChar('.');
    }
    var i := |dataDir| + 7;
    assert ReadPath(dataDir, "a.b", service)[i] == SpacesToUnderscores("a.b")[1];
    assert FlatMonitor.LogPath(dataDir, "a.b", service)[i] == safe[1];
    var t := Targets([service], dataDir, "a.b", false);
    assert t[..0] == [];
    var c := Targets([service], dataDir, "a.b", true);
    assert c[..0] == [];
  }
}
