// The monitor loop of the flat-file generation (backend/app/monitor.py): the
// two-snapshot confirmation of a host check, the per-host alert signatures that
// suppress repeated notifications, the collection of service logs, and the cycle and
// manual-trigger bookkeeping around the history journal.
//
// The browser, the HTTP client, the Telegram transport, pytz and the clock are outside
// the model. Everything they hand to one check arrives in a `Probe`; pure collaborators
// (json.loads, isoparse, strftime, isoformat, the zone database) arrive in an `Env`.
module FlatMonitor {
  import opened Common
  import opened Text
  import opened Models
  import JsonLines
  import History
  import FlatConfig
  import Notifier

  /** The zone used when the settings name none. */
  const DefaultZone: string := "America/Sao_Paulo"

  /** The services of SERVICE_ENDPOINTS, in the dict's order. */
  const Services: seq<string> := ["go2rtc", "nginx", "frigate"]

  /** What one GET of a log endpoint gives: an httpx.HTTPError, a body, or another exception. */
  datatype Fetch = HttpError | Body(text: string) | Crash(error: string)

  /**
   * The pure collaborators: json.loads (None when it raises), isoparse (the naive or
   * aware datetime, None when it raises), whether pytz knows a zone name, pytz's
   * localize (the instant a wall-clock reading denotes in a zone), isoformat of an
   * instant and its strftime('%Y-%m-%d %H:%M:%S') in the configured zone.
   */
  datatype Env = Env(
    decode: string -> Option<Json>,
    parse: Value -> Option<Moment>,
    knownZone: string -> bool,
    localize: (string, int) -> int,
    iso: int -> string,
    render: int -> string)

  /**
   * What the outside world does during one check of one host: the uuid and the clock
   * reading of the record, the two snapshots of failing camera numbers (or what the
   * browser raised), the clock reading written into the log files, the response of
   * each log URL, the clock reading in the alert, and how send_message ends.
   */
  datatype Probe = Probe(
    recordId: string,
    checkedAt: string,
    first: Result<seq<int>>,
    second: Result<seq<int>>,
    snapshotAt: string,
    fetch: string -> Fetch,
    notifiedAt: int,
    send: Outcome)

  /** One Telegram message handed to send_message. */
  datatype Message = Message(botToken: Value, chatId: Value, text: string)

  /**
   * The state a check changes: the `_last_signatures` dict, the contents of the log
   * files by path, and the messages handed to the notifier, in order.
   */
  datatype World = World(signatures: map<string, string>, logFiles: map<string, string>, outbox: seq<Message>)

  /** `settings.get("timezone", "America/Sao_Paulo")`. */
  function ZoneSetting(settings: Record): Value {
    if "timezone" in settings then settings["timezone"] else Str(DefaultZone)
  }

  /**
   * pytz.timezone(name): the name when it is a known zone; otherwise what it raises
   * (UnknownTimeZoneError, a KeyError, for None and unknown names; AttributeError on
   * `.upper()` for a value that is not a str).
   */
  function LookupZone(v: Value, knownZone: string -> bool): (r: Result<string>)
    ensures r.Ok? <==> v.Str? && knownZone(v.s)
    ensures r.Ok? ==> r.value == v.s
    ensures v.Str? && !knownZone(v.s) ==> r.error == "'" + v.s + "'"
  {
    match v
    case Null => Raised("None")
    case Str(z) => TimeZone(z, knownZone)
    case _ => Raised(NoAttribute(v, "upper"))
  }

  /** The characters `re.sub(r"[^A-Za-z0-9_-]", "_", name)` keeps. */
  predicate NameChar(c: char) {
    'A' <= c <= 'Z' || 'a' <= c <= 'z' || '0' <= c <= '9' || c == '_' || c == '-'
  }

  /** The host name as it appears in log file names. */
  function SafeName(name: string): (r: string)
    ensures |r| == |name|
    ensures forall c | c in r :: NameChar(c)
    ensures forall k | 0 <= k < |name| && NameChar(name[k]) :: r[k] == name[k]
  {
    if name == [] then []
    else SafeName(name[..|name| - 1]) + [if NameChar(name[|name| - 1]) then name[|name| - 1] else '_']
  }

  /** A name made of kept characters only is its own safe name, so SafeName is idempotent. */
  lemma {:induction false} SafeNameIdempotent(name: string)
    ensures (forall c | c in name :: NameChar(c)) ==> SafeName(name) == name
    ensures SafeName(SafeName(name)) == SafeName(name)
  {
    if name != [] {
      var n := |name| - 1;
      SafeNameIdempotent(name[..n]);
      assert SafeName(name)[..n] == SafeName(name[..n]);
      if forall c | c in name :: NameChar(c) {
        assert name[n] in name;
        assert forall c | c in name[..n] :: c in name;
        assert name == name[..n] + [name[n]];
      }
    }
  }

  /** `address.rstrip("/")`. */
  function TrimSlashes(s: string): (r: string)
    ensures |r| <= |s| && r == s[..|r|]
    ensures r == [] || r[|r| - 1] != '/'
    ensures forall k | |r| <= k < |s| :: s[k] == '/'
  {
    if s != [] && s[|s| - 1] == '/' then TrimSlashes(s[..|s| - 1]) else s
  }

  /** The URL of the log endpoint of `service`. */
  function LogUrl(address: string, service: string): string {
    TrimSlashes(address) + "/api/logs/" + service
  }

  /** `data_dir / "logs" / f"{safe_name}-{service}.log"`, as text. */
  function LogPath(dataDir: string, hostName: string, service: string): string {
    dataDir + "/logs/" + SafeName(hostName) + "-" + service + ".log"
  }

  /** What one snapshot appends to a log file. */
  function SnapshotBlock(stamp: string, text: string): string {
    "\n# --- snapshot " + stamp + " ---\n" + text + "\n"
  }

  /** Appending `block` to the file at `path` (opening in "a" mode creates it). */
  function Appended(files: map<string, string>, path: string, block: string): (r: map<string, string>)
    ensures r.Keys == files.Keys + {path}
    ensures r[path] == (if path in files then files[path] else "") + block
    ensures forall p | p in files && p != path :: r[p] == files[p]
  {
    files[path := (if path in files then files[path] else "") + block]
  }

  /**
   * The state of _collect_logs after some services: the files, the locations logged,
   * the onset candidates, and the exception that ended it, if any.
   */
  datatype Gathered = Gathered(files: map<string, string>, locations: seq<LogLocation>, candidates: seq<Moment>, error: Option<string>)

  /** The onset estimate of a fetched log: extract_failure_start(parse_json_lines(text)). */
  function TextOnset(text: string, env: Env): Result<Option<Moment>> {
    JsonLines.FailureStart(JsonLines.DecodeAll(NonBlankLines(text), env.decode), env.parse)
  }

  /** The estimator _collect_logs applies to each fetched log. */
  function Estimator(env: Env): string -> Result<Option<Moment>> {
    (text: string) => TextOnset(text, env)
  }

  /** One pass of the loop of _collect_logs; `onsetOf` estimates the onset of a log. */
  function ServiceStep(g: Gathered, service: string, host: Host, dataDir: string, onsetOf: string -> Result<Option<Moment>>, probe: Probe): Gathered {
    if g.error.Some? then g
    else
      match probe.fetch(LogUrl(host.address, service))
      case HttpError => g
      case Crash(e) => g.(error := Some(e))
      case Body(text) =>
        var path := LogPath(dataDir, host.name, service);
        var g1 := g.(files := Appended(g.files, path, SnapshotBlock(probe.snapshotAt, text)),
                     locations := g.locations + [LogLocation(service, path)]);
        match onsetOf(text)
        case Raised(e) => g1.(error := Some(e))
        case Ok(None) => g1
        case Ok(Some(t)) => g1.(candidates := g1.candidates + [t])
  }

  /** _collect_logs over `services`, in order, starting from the files `files`. */
  function Gather(services: seq<string>, host: Host, dataDir: string, onsetOf: string -> Result<Option<Moment>>, probe: Probe, files: map<string, string>): Gathered {
    if services == [] then Gathered(files, [], [], None)
    else ServiceStep(Gather(services[..|services| - 1], host, dataDir, onsetOf, probe, files), services[|services| - 1], host, dataDir, onsetOf, probe)
  }

  /** The services whose log request answered, in order. */
  function Answered(services: seq<string>, host: Host, probe: Probe): seq<string> {
    if services == [] then []
    else
      var prior := Answered(services[..|services| - 1], host, probe);
      var s := services[|services| - 1];
      if probe.fetch(LogUrl(host.address, s)).Body? then prior + [s] else prior
  }

  /** The location recorded for each service, in order. */
  function Locations(dataDir: string, hostName: string, services: seq<string>): (r: seq<LogLocation>)
    ensures |r| == |services|
    ensures forall k | 0 <= k < |services| :: r[k] == LogLocation(services[k], LogPath(dataDir, hostName, services[k]))
  {
    if services == [] then []
    else Locations(dataDir, hostName, services[..|services| - 1]) + [LogLocation(services[|services| - 1], LogPath(dataDir, hostName, services[|services| - 1]))]
  }

  /** `service` answered with `text`, whose onset estimate is `t`. */
  predicate Yields(host: Host, onsetOf: string -> Result<Option<Moment>>, probe: Probe, service: string, t: Moment) {
    probe.fetch(LogUrl(host.address, service)).Body?
    && onsetOf(probe.fetch(LogUrl(host.address, service)).text) == Ok(Some(t))
  }

  /**
   * `service` made the loop of _collect_logs raise: its request raised something other
   * than HTTPError, or the estimate of its log raised (a record that is not a dict, or
   * naive and aware stamps in one log).
   */
  predicate Breaks(host: Host, onsetOf: string -> Result<Option<Moment>>, probe: Probe, service: string) {
    probe.fetch(LogUrl(host.address, service)).Crash?
    || (probe.fetch(LogUrl(host.address, service)).Body? && onsetOf(probe.fetch(LogUrl(host.address, service)).text).Raised?)
  }

  /** Gathering one more service is one more pass of the loop. */
  lemma GatherSnoc(services: seq<string>, i: nat, host: Host, dataDir: string, onsetOf: string -> Result<Option<Moment>>, probe: Probe, files: map<string, string>)
    requires i < |services|
    ensures Gather(services[..i + 1], host, dataDir, onsetOf, probe, files)
      == ServiceStep(Gather(services[..i], host, dataDir, onsetOf, probe, files), services[i], host, dataDir, onsetOf, probe)
  {
    assert services[..i + 1][..i] == services[..i];
  }

  /** What one pass of the loop adds, seen from the fetch of the service alone. */
  lemma StepFacts(g: Gathered, service: string, host: Host, dataDir: string, onsetOf: string -> Result<Option<Moment>>, probe: Probe)
    ensures g.error.Some? ==> ServiceStep(g, service, host, dataDir, onsetOf, probe) == g
    ensures g.error.None? ==> var g1 := ServiceStep(g, service, host, dataDir, onsetOf, probe);
      && (g1.error.Some? <==> Breaks(host, onsetOf, probe, service))
      && (!probe.fetch(LogUrl(host.address, service)).Body? ==> g1.locations == g.locations)
      && (probe.fetch(LogUrl(host.address, service)).Body? ==>
            g1.locations == g.locations + [LogLocation(service, LogPath(dataDir, host.name, service))])
  {
    if g.error.None? {
      var response := probe.fetch(LogUrl(host.address, service));
      if response.Body? {
        var path := LogPath(dataDir, host.name, service);
        var g1 := g.(files := Appended(g.files, path, SnapshotBlock(probe.snapshotAt, response.text)),
                     locations := g.locations + [LogLocation(service, path)]);
        assert ServiceStep(g, service, host, dataDir, onsetOf, probe).locations == g1.locations;
      }
    }
  }

  /** The loop raises exactly when some service breaks it. */
  lemma {:induction false} GatherError(services: seq<string>, host: Host, dataDir: string, onsetOf: string -> Result<Option<Moment>>, probe: Probe, files: map<string, string>)
    ensures Gather(services, host, dataDir, onsetOf, probe, files).error.Some?
      <==> exists k | 0 <= k < |services| :: Breaks(host, onsetOf, probe, services[k])
  {
    if services != [] {
      var n := |services| - 1;
      GatherError(services[..n], host, dataDir, onsetOf, probe, files);
      StepFacts(Gather(services[..n], host, dataDir, onsetOf, probe, files), services[n], host, dataDir, onsetOf, probe);
      assert forall k | 0 <= k < n :: services[..n][k] == services[k];
    }
  }

  /**
   * When the loop does not raise, the locations are exactly those of the services
   * that answered, in the order of `services`: a service whose request raised
   * HTTPError is skipped.
   */
  lemma {:induction false} GatherLocations(services: seq<string>, host: Host, dataDir: string, onsetOf: string -> Result<Option<Moment>>, probe: Probe, files: map<string, string>)
    ensures var g := Gather(services, host, dataDir, onsetOf, probe, files);
      g.error.None? ==> g.locations == Locations(dataDir, host.name, Answered(services, host, probe))
  {
    if services != [] {
      var n := |services| - 1;
      var g0 := Gather(services[..n], host, dataDir, onsetOf, probe, files);
      GatherLocations(services[..n], host, dataDir, onsetOf, probe, files);
      StepFacts(g0, services[n], host, dataDir, onsetOf, probe);
      var a0 := Answered(services[..n], host, probe);
      if probe.fetch(LogUrl(host.address, services[n])).Body? {
        assert Locations(dataDir, host.name, a0 + [services[n]])[..|a0|] == Locations(dataDir, host.name, a0);
      }
    }
  }

  /** The onset estimates of the logs of the services that answered, in order. */
  function Estimates(services: seq<string>, host: Host, onsetOf: string -> Result<Option<Moment>>, probe: Probe): seq<Moment> {
    if services == [] then []
    else
      var prior := Estimates(services[..|services| - 1], host, onsetOf, probe);
      var response := probe.fetch(LogUrl(host.address, services[|services| - 1]));
      if response.Body? && onsetOf(response.text).Ok? && onsetOf(response.text).value.Some?
      then prior + [onsetOf(response.text).value.value]
      else prior
  }

  /** An estimate is one that some answered service's log yields, and each such is one. */
  lemma {:induction false} EstimatesMembers(services: seq<string>, host: Host, onsetOf: string -> Result<Option<Moment>>, probe: Probe, t: Moment)
    ensures t in Estimates(services, host, onsetOf, probe) <==> exists k | 0 <= k < |services| :: Yields(host, onsetOf, probe, services[k], t)
  {
    if services != [] {
      var n := |services| - 1;
      EstimatesMembers(services[..n], host, onsetOf, probe, t);
      if exists k | 0 <= k < |services| :: Yields(host, onsetOf, probe, services[k], t) {
        var k :| 0 <= k < |services| && Yields(host, onsetOf, probe, services[k], t);
        if k < n {
          assert services[..n][k] == services[k];
        }
      }
      if exists k | 0 <= k < n :: Yields(host, onsetOf, probe, services[..n][k], t) {
        var k :| 0 <= k < n && Yields(host, onsetOf, probe, services[..n][k], t);
        assert services[..n][k] == services[k];
      }
    }
  }

  /**
   * When the loop does not raise, its onset candidates are the estimates of the logs
   * of the services that answered, in order.
   */
  lemma {:induction false} GatherCandidates(services: seq<string>, host: Host, dataDir: string, onsetOf: string -> Result<Option<Moment>>, probe: Probe, files: map<string, string>)
    ensures var g := Gather(services, host, dataDir, onsetOf, probe, files);
      g.error.None? ==> g.candidates == Estimates(services, host, onsetOf, probe)
  {
    if services != [] {
      var n := |services| - 1;
      GatherCandidates(services[..n], host, dataDir, onsetOf, probe, files);
      var g0 := Gather(services[..n], host, dataDir, onsetOf, probe, files);
      if g0.error.None? {
        var response := probe.fetch(LogUrl(host.address, services[n]));
        if response.Body? {
          var o := onsetOf(response.text);
          var path := LogPath(dataDir, host.name, services[n]);
          var g1 := g0.(files := Appended(g0.files, path, SnapshotBlock(probe.snapshotAt, response.text)),
                        locations := g0.locations + [LogLocation(services[n], path)]);
          if o.Ok? && o.value.Some? {
            assert Gather(services, host, dataDir, onsetOf, probe, files) == g1.(candidates := g1.candidates + [o.value.value]);
          } else if o.Ok? {
            assert Gather(services, host, dataDir, onsetOf, probe, files) == g1;
          }
        }
      }
    }
  }

  /** Once the loop has raised, the later services change nothing. */
  lemma GatherStopsAt(services: seq<string>, host: Host, dataDir: string, onsetOf: string -> Result<Option<Moment>>, probe: Probe, files: map<string, string>, i: nat)
    requires i <= |services| && Gather(services[..i], host, dataDir, onsetOf, probe, files).error.Some?
    ensures Gather(services, host, dataDir, onsetOf, probe, files) == Gather(services[..i], host, dataDir, onsetOf, probe, files)
    decreases |services| - i
  {
    if i < |services| {
      GatherSnoc(services, i, host, dataDir, onsetOf, probe, files);
      GatherStopsAt(services, host, dataDir, onsetOf, probe, files, i + 1);
    } else {
      Whole(services);
    }
  }

  /** The instant `ensure_timezone` gives a datetime: a naive one is read in the zone. */
  function Localized(m: Moment, tzName: string, localize: (string, int) -> int): int {
    if m.Aware? then m.instant else localize(tzName, m.wall)
  }

  /**
   * The end of _collect_logs: `min(candidate_times)` made aware in the zone, None when
   * there are no candidates; min() raises TypeError when the candidates mix naive and
   * aware datetimes.
   */
  function Onset(candidates: seq<Moment>, tzName: string, localize: (string, int) -> int): (r: Result<Option<int>>)
    ensures r == Ok(None) <==> candidates == []
    ensures r.Raised? <==> JsonLines.Mixed(candidates)
    ensures r.Raised? ==> r.error == JsonLines.CompareError
    ensures r.Ok? && r.value.Some? ==> exists m | m in candidates ::
      r.value.value == Localized(m, tzName, localize)
      && forall c | c in candidates :: c.Aware? == m.Aware? && JsonLines.Reading(m) <= JsonLines.Reading(c)
  {
    if candidates == [] then Ok(None)
    else
      match JsonLines.Earliest(candidates)
      case Raised(e) => Raised(e)
      case Ok(m) => Ok(Some(Localized(m, tzName, localize)))
  }

  /** What _collect_logs returns after the loop `g`, or what it raises. */
  function Collected(g: Gathered, tzName: string, env: Env): Result<(seq<LogLocation>, Option<int>)> {
    if g.error.Some? then Raised(g.error.value)
    else
      match Onset(g.candidates, tzName, env.localize)
      case Raised(e) => Raised(e)
      case Ok(onset) => Ok((g.locations, onset))
  }

  /**
   * _collect_logs raises exactly when some service breaks the loop, or when none does
   * and the estimates of the answered services mix naive and aware datetimes.
   */
  lemma CollectRaises(services: seq<string>, host: Host, dataDir: string, env: Env, probe: Probe, files: map<string, string>, tzName: string)
    ensures Collected(Gather(services, host, dataDir, Estimator(env), probe, files), tzName, env).Raised? <==>
      (exists k | 0 <= k < |services| :: Breaks(host, Estimator(env), probe, services[k]))
      || JsonLines.Mixed(Estimates(services, host, Estimator(env), probe))
  {
    GatherError(services, host, dataDir, Estimator(env), probe, files);
    GatherCandidates(services, host, dataDir, Estimator(env), probe, files);
  }

  /** Ascending order of camera numbers. */
  predicate Ascending(s: seq<int>) {
    forall i, j | 0 <= i < j < |s| :: s[i] <= s[j]
  }

  function InsertInt(x: int, s: seq<int>): (r: seq<int>)
    ensures multiset(r) == multiset(s) + multiset{x}
    ensures |r| == |s| + 1
  {
    if s == [] || x <= s[0] then [x] + s
    else
      assert s == [s[0]] + s[1..];
      [s[0]] + InsertInt(x, s[1..])
  }

  lemma {:induction false} InsertAscending(x: int, s: seq<int>)
    requires Ascending(s)
    ensures Ascending(InsertInt(x, s))
  {
    if s != [] && x > s[0] {
      InsertAscending(x, s[1..]);
      var t := InsertInt(x, s[1..]);
      forall k | 0 <= k < |t| ensures s[0] <= t[k] {
        assert t[k] in multiset(s[1..]) + multiset{x};
        if t[k] != x {
          var m :| 0 <= m < |s[1..]| && s[1..][m] == t[k];
          assert s[m + 1] == t[k];
        }
      }
    }
  }

  /** Python's sorted() of a list of ints. */
  function SortInts(s: seq<int>): (r: seq<int>)
    ensures Ascending(r)
    ensures multiset(r) == multiset(s)
  {
    if s == [] then []
    else
      assert s == [s[0]] + s[1..];
      InsertAscending(s[0], SortInts(s[1..]));
      InsertInt(s[0], SortInts(s[1..]))
  }

  /** The head of an ascending list is its least element. */
  lemma HeadIsLeast(a: seq<int>, x: int)
    requires Ascending(a) && x in multiset(a)
    ensures a[0] <= x
  {
    var i :| 0 <= i < |a| && a[i] == x;
  }

  /** Two ascending lists with the same elements are the same list. */
  lemma {:induction false} AscendingUnique(a: seq<int>, b: seq<int>)
    requires Ascending(a) && Ascending(b) && multiset(a) == multiset(b)
    ensures a == b
  {
    if a != [] {
      assert a[0] in multiset(a);
      assert b != [];
      assert b[0] in multiset(b);
      HeadIsLeast(a, b[0]);
      HeadIsLeast(b, a[0]);
      var a', b' := a[1..], b[1..];
      assert a == [a[0]] + a';
      assert b == [b[0]] + b';
      assert a[0] == b[0];
      assert multiset(a) == multiset{a[0]} + multiset(a');
      assert multiset(b) == multiset{a[0]} + multiset(b');
      assert multiset(a') == multiset(a) - multiset{a[0]};
      assert multiset(b') == multiset(b) - multiset{a[0]};
      assert Ascending(a') && Ascending(b');
      AscendingUnique(a', b');
    }
  }

  /** The text of str(n) for each number. */
  function NumberTexts(s: seq<int>): (r: seq<string>)
    ensures |r| == |s| && forall k | 0 <= k < |s| :: r[k] == IntToString(s[k])
  {
    if s == [] then [] else NumberTexts(s[..|s| - 1]) + [IntToString(s[|s| - 1])]
  }

  /** The alert signature `f"{host.id}:{sorted(failing_cameras)}"` (repr of a list of ints). */
  function Signature(hostId: string, cameras: seq<int>): string {
    hostId + ":[" + Join(", ", NumberTexts(SortInts(cameras))) + "]"
  }

  /** The signature depends on which cameras fail, not on the order the page listed them. */
  lemma SignatureIgnoresOrder(hostId: string, a: seq<int>, b: seq<int>)
    requires multiset(a) == multiset(b)
    ensures Signature(hostId, a) == Signature(hostId, b)
  {
    AscendingUnique(SortInts(a), SortInts(b));
  }

  /**
   * The ids format_mentions iterates: the items of a list, the characters of a str,
   * the keys of a dict. Iterating an int, a bool or None raises TypeError.
   */
  function MentionIds(v: Value): (r: Result<seq<string>>)
    ensures r.Ok? <==> v.List? || v.Str? || v.Obj?
    ensures v.Obj? ==> r == Ok(v.keys)
    ensures v.List? ==> r.Ok? && |r.value| == |v.items| && forall k | 0 <= k < |v.items| :: r.value[k] == Show(v.items[k])
    ensures v.Str? ==> r.Ok? && |r.value| == |v.s| && forall k | 0 <= k < |v.s| :: r.value[k] == [v.s[k]]
  {
    match v
    case List(items) => Ok(seq(|items|, k requires 0 <= k < |items| => Show(items[k])))
    case Str(s) => Ok(seq(|s|, k requires 0 <= k < |s| => [s[k]]))
    case Int(_) => Raised("'int' object is not iterable")
    case Bool(_) => Raised("'bool' object is not iterable")
    case Null => Raised("'NoneType' object is not iterable")
    case Obj(keys) => Ok(keys)
  }

  /** settings.get("mention_user_ids", []) */
  function MentionSetting(settings: Record): Value {
    if "mention_user_ids" in settings then settings["mention_user_ids"] else List([])
  }

  /** settings.get("mention_name", "") */
  function MentionName(settings: Record): Value {
    if "mention_name" in settings then settings["mention_name"] else Str("")
  }

  /**
   * The mention line of the alert: the tags of mention_user_ids under mention_name
   * when both are truthy, "" otherwise. The line is non-empty, and so appended to
   * the alert, exactly when both settings are truthy; only an int or a bool as the
   * ids raises; a dict of ids mentions each of its keys.
   */
  function Mentions(settings: Record): (r: Result<string>)
    ensures r.Raised? <==>
      Truthy(MentionSetting(settings)) && Truthy(MentionName(settings)) &&
      (MentionSetting(settings).Int? || MentionSetting(settings).Bool?)
    ensures r.Ok? ==> (r.value != "" <==> Truthy(MentionSetting(settings)) && Truthy(MentionName(settings)))
    ensures MentionSetting(settings).Obj? && Truthy(MentionSetting(settings)) && Truthy(MentionName(settings)) ==>
      r == Ok(Join(" ", Notifier.Tags(MentionSetting(settings).keys, Show(MentionName(settings)))))
  {
    var ids := MentionSetting(settings);
    var name := MentionName(settings);
    if Truthy(ids) && Truthy(name) then
      match MentionIds(ids)
      case Raised(e) => Raised(e)
      case Ok(userIds) =>
        JoinedTagsNonEmpty(userIds, Show(name));
        Ok(Join(" ", Notifier.Tags(userIds, Show(name))))
    else Ok("")
  }

  /** The tags of at least one id, joined, are never empty: each tag is an anchor. */
  lemma {:induction false} JoinedTagsNonEmpty(userIds: seq<string>, name: string)
    requires userIds != []
    ensures Join(" ", Notifier.Tags(userIds, name)) != ""
  {
    var tags := Notifier.Tags(userIds, name);
    var last := tags[|tags| - 1];
    assert last == Notifier.Tag(userIds[|userIds| - 1], name);
    assert |last| > 0 by { assert last[0] == '<'; }
    if |tags| > 1 {
      assert Join(" ", tags) == Join(" ", tags[..|tags| - 1]) + " " + last;
    }
  }

  /** One line per log location, in order. */
  function LocationLines(locations: seq<LogLocation>): (r: seq<string>)
    ensures |r| == |locations|
    ensures forall k | 0 <= k < |locations| :: r[k] == "<b>Log " + locations[k].service + ":</b> " + locations[k].path
  {
    if locations == [] then []
    else LocationLines(locations[..|locations| - 1]) + ["<b>Log " + locations[|locations| - 1].service + ":</b> " + locations[|locations| - 1].path]
  }

  /** The lines of the alert _notify_failure sends. */
  function AlertLines(hostName: string, cameras: seq<int>, locations: seq<LogLocation>, onset: Option<int>,
                      now: int, mentions: string, render: int -> string): seq<string>
  {
    ["<b>Frigate Monitor - Falhas detectadas</b>",
     "<b>Host:</b> <code>" + hostName + "</code>",
     "<b>Quantidade de c\U{e2}meras em falha:</b> " + IntToString(|cameras|),
     "<b>C\U{e2}meras:</b> " + Join(", ", NumberTexts(cameras))]
    + (if onset.Some? then ["<b>In\U{ed}cio estimado:</b> " + render(onset.value) + " GMT-3"] else [])
    + ["<b>Detectado em:</b> " + render(now) + " GMT-3"]
    + LocationLines(locations)
    + (if mentions != "" then [mentions] else [])
  }

  /**
   * The alert names the host and the number of failing cameras, has the estimated
   * onset line exactly when there is an onset, one line per log location in order
   * after the detection time, and ends with the mentions when there are any.
   */
  lemma AlertShape(hostName: string, cameras: seq<int>, locations: seq<LogLocation>, onset: Option<int>,
                   now: int, mentions: string, render: int -> string)
    ensures var lines := AlertLines(hostName, cameras, locations, onset, now, mentions, render);
      var d := if onset.Some? then 5 else 4;
      && |lines| == d + 1 + |locations| + (if mentions != "" then 1 else 0)
      && lines[1] == "<b>Host:</b> <code>" + hostName + "</code>"
      && lines[2] == "<b>Quantidade de c\U{e2}meras em falha:</b> " + IntToString(|cameras|)
      && (onset.Some? ==> lines[4] == "<b>In\U{ed}cio estimado:</b> " + render(onset.value) + " GMT-3")
      && lines[d] == "<b>Detectado em:</b> " + render(now) + " GMT-3"
      && (forall k | 0 <= k < |locations| :: lines[d + 1 + k] == "<b>Log " + locations[k].service + ":</b> " + locations[k].path)
      && (mentions != "" ==> lines[|lines| - 1] == mentions)
  {
  }

  /** What _notify_failure did: the messages handed to the notifier and how it ended. */
  datatype Notified = Notified(outbox: seq<Message>, outcome: Outcome)

  /**
   * _notify_failure: the alert is handed to send_message only when the bot token and
   * the chat id are both truthy; an exception while formatting the mentions or
   * sending propagates.
   */
  function NotifySpec(settings: Record, host: Host, cameras: seq<int>, locations: seq<LogLocation>, onset: Option<int>,
                      env: Env, probe: Probe, outbox: seq<Message>): (n: Notified)
    ensures n.outbox == outbox || |n.outbox| == |outbox| + 1
    ensures n.outbox[..|outbox|] == outbox
  {
    match Mentions(settings)
    case Raised(e) => Notified(outbox, Failed(e))
    case Ok(mentions) =>
      var token := Get(settings, "telegram_bot_token");
      var chat := Get(settings, "telegram_chat_id");
      if Truthy(token) && Truthy(chat) then
        var text := Join("\n", AlertLines(host.name, cameras, locations, onset, probe.notifiedAt, mentions, env.render));
        Notified(outbox + [Message(token, chat, text)], probe.send)
      else Notified(outbox, Done)
  }

  /** What the try block of _check_host settled on, when it did not raise. */
  datatype Confirmed = Confirmed(status: string, locations: seq<LogLocation>, onset: Option<int>)

  /** The try block of _check_host: the world after it, the last snapshot taken, and how it ended. */
  datatype Attempt = Attempt(world: World, cameras: seq<int>, outcome: Result<Confirmed>)

  /** The confirmed-failure branch: collect the logs, then alert unless the signature is already stored. */
  function Confirm(host: Host, settings: Record, dataDir: string, env: Env, probe: Probe, w: World, cameras: seq<int>, tzName: string): Attempt {
    var g := Gather(Services, host, dataDir, Estimator(env), probe, w.logFiles);
    var w1 := w.(logFiles := g.files);
    match Collected(g, tzName, env)
    case Raised(e) => Attempt(w1, cameras, Raised(e))
    case Ok((locations, onset)) =>
      var signature := Signature(host.id, cameras);
      if host.id in w.signatures && w.signatures[host.id] == signature then
        Attempt(w1, cameras, Ok(Confirmed("failure", locations, onset)))
      else
        var n := NotifySpec(settings, host, cameras, locations, onset, env, probe, w.outbox);
        var w2 := w1.(outbox := n.outbox);
        if n.outcome.Failed? then Attempt(w2, cameras, Raised(n.outcome.error))
        else Attempt(w2.(signatures := w.signatures[host.id := signature]), cameras, Ok(Confirmed("failure", locations, onset)))
  }

  /** The try block of _check_host. */
  function TryCheck(host: Host, settings: Record, dataDir: string, env: Env, probe: Probe, w: World, tzName: string): Attempt {
    match probe.first
    case Raised(e) => Attempt(w, [], Raised(e))
    case Ok(first) =>
      if |first| <= 1 then Attempt(w.(signatures := w.signatures - {host.id}), first, Ok(Confirmed("ok", [], None)))
      else
        match probe.second
        case Raised(e) => Attempt(w, first, Raised(e))
        case Ok(second) =>
          if |second| <= 1 then Attempt(w, second, Ok(Confirmed("ok", [], None)))
          else Confirm(host, settings, dataDir, env, probe, w, second, tzName)
  }

  /** The record _check_host returns and the world after it. */
  datatype Check = Check(record: FailureRecord, world: World)

  /** `failure_started_at` as the journal stores it. */
  function OnsetText(onset: Option<int>, iso: int -> string): Option<string> {
    if onset.Some? then Some(iso(onset.value)) else None
  }

  /**
   * _check_host: raises only when the zone cannot be resolved (before its try block);
   * otherwise an exception in the try block becomes an "error" record that clears the
   * host's signature.
   */
  function CheckSpec(host: Host, settings: Record, dataDir: string, env: Env, probe: Probe, w: World): Result<Check> {
    match LookupZone(ZoneSetting(settings), env.knownZone)
    case Raised(e) => Raised(e)
    case Ok(tzName) =>
      var a := TryCheck(host, settings, dataDir, env, probe, w, tzName);
      match a.outcome
      case Ok(c) =>
        Ok(Check(FailureRecord(probe.recordId, host.id, host.name, probe.checkedAt, tzName, c.status, |a.cameras|, a.cameras,
                               OnsetText(c.onset, env.iso), c.locations, None), a.world))
      case Raised(e) =>
        Ok(Check(FailureRecord(probe.recordId, host.id, host.name, probe.checkedAt, tzName, "error", |a.cameras|, a.cameras,
                               None, [], Some(e)), a.world.(signatures := a.world.signatures - {host.id})))
  }

  /** The last snapshot _check_host took: none when the first one raised. */
  function LatestSnapshot(probe: Probe): seq<int> {
    match probe.first
    case Raised(_) => []
    case Ok(first) =>
      if |first| <= 1 || probe.second.Raised? then first else probe.second.value
  }

  /**
   * _check_host raises exactly when the zone of the settings cannot be resolved; it
   * then changes nothing. Otherwise the record is of this host, with
   * failing_count == len(failing_cameras), the cameras of the last snapshot taken
   * (even when a later step raised), and status "ok", "failure" or "error".
   */
  lemma CheckRecordShape(host: Host, settings: Record, dataDir: string, env: Env, probe: Probe, w: World)
    ensures var r := CheckSpec(host, settings, dataDir, env, probe, w);
      && (r.Raised? <==> LookupZone(ZoneSetting(settings), env.knownZone).Raised?)
      && (r.Raised? ==> r.error == LookupZone(ZoneSetting(settings), env.knownZone).error)
      && (r.Ok? ==> r.value.record.hostId == host.id && r.value.record.id == probe.recordId)
      && (r.Ok? ==> r.value.record.failingCount == |r.value.record.failingCameras|)
      && (r.Ok? ==> r.value.record.failingCameras == LatestSnapshot(probe))
      && (r.Ok? ==> r.value.record.status in {"ok", "failure", "error"})
  {
    var zone := LookupZone(ZoneSetting(settings), env.knownZone);
    if zone.Ok? && probe.first.Ok? && |probe.first.value| > 1 && probe.second.Ok? && |probe.second.value| > 1 {
      assert TryCheck(host, settings, dataDir, env, probe, w, zone.value).cameras == probe.second.value;
    }
  }

  /**
   * A record has status "failure" only when both snapshots were taken and each listed
   * more than one failing camera; its cameras are those of the second snapshot.
   */
  lemma FailureNeedsBothSnapshots(host: Host, settings: Record, dataDir: string, env: Env, probe: Probe, w: World)
    requires CheckSpec(host, settings, dataDir, env, probe, w).Ok?
    requires CheckSpec(host, settings, dataDir, env, probe, w).value.record.status == "failure"
    ensures probe.first.Ok? && |probe.first.value| > 1
    ensures probe.second.Ok? && |probe.second.value| > 1
    ensures CheckSpec(host, settings, dataDir, env, probe, w).value.record.failingCameras == probe.second.value
  {
  }

  /**
   * A first snapshot with at most one failing camera gives "ok" with those cameras,
   * removes the host's signature, touches nothing else, and does not depend on the
   * second snapshot (none is taken).
   */
  lemma QuietFirstSnapshot(host: Host, settings: Record, dataDir: string, env: Env, probe: Probe, w: World, other: Result<seq<int>>)
    requires LookupZone(ZoneSetting(settings), env.knownZone).Ok?
    requires probe.first.Ok? && |probe.first.value| <= 1
    ensures var r := CheckSpec(host, settings, dataDir, env, probe, w);
      && r.Ok? && r.value.record.status == "ok" && r.value.record.failingCameras == probe.first.value
      && r.value.record.logLocations == [] && r.value.record.failureStartedAt == None && r.value.record.notes == None
      && r.value.world == w.(signatures := w.signatures - {host.id})
    ensures CheckSpec(host, settings, dataDir, env, probe.(second := other), w) == CheckSpec(host, settings, dataDir, env, probe, w)
  {
  }

  /**
   * A second snapshot with at most one failing camera gives "ok" with those cameras
   * and leaves the signatures, the log files and the notifier as they were: the
   * stored signature is not cleared.
   */
  lemma QuietSecondSnapshot(host: Host, settings: Record, dataDir: string, env: Env, probe: Probe, w: World)
    requires LookupZone(ZoneSetting(settings), env.knownZone).Ok?
    requires probe.first.Ok? && |probe.first.value| > 1
    requires probe.second.Ok? && |probe.second.value| <= 1
    ensures var r := CheckSpec(host, settings, dataDir, env, probe, w);
      && r.Ok? && r.value.record.status == "ok" && r.value.record.failingCameras == probe.second.value
      && r.value.world == w
  {
  }

  /**
   * An "error" record has no log locations and no onset, carries the exception text
   * in notes, and leaves no signature for the host; other records carry no notes.
   * Either snapshot raising gives an "error" record.
   */
  lemma ErrorRecordShape(host: Host, settings: Record, dataDir: string, env: Env, probe: Probe, w: World)
    requires CheckSpec(host, settings, dataDir, env, probe, w).Ok?
    ensures var c := CheckSpec(host, settings, dataDir, env, probe, w).value;
      && (c.record.status == "error" ==>
            c.record.logLocations == [] && c.record.failureStartedAt == None && c.record.notes.Some?
            && host.id !in c.world.signatures)
      && (c.record.status != "error" ==> c.record.notes == None)
      && (probe.first.Raised? ==> c.record.status == "error" && c.record.notes == Some(probe.first.error))
      && (probe.first.Ok? && |probe.first.value| > 1 && probe.second.Raised? ==>
            c.record.status == "error" && c.record.notes == Some(probe.second.error))
  {
    var tzName := LookupZone(ZoneSetting(settings), env.knownZone).value;
    var a := TryCheck(host, settings, dataDir, env, probe, w, tzName);
    if a.outcome.Ok? {
      assert a.outcome.value.status in {"ok", "failure"};
    }
  }

  /**
   * Confirmed failures whose service logs answer without breaking the loop, but whose
   * estimates mix naive and aware datetimes, are recorded as "error" with min()'s
   * TypeError text: nothing is sent and the host's signature is removed.
   */
  lemma MixedEstimatesRecordError(host: Host, settings: Record, dataDir: string, env: Env, probe: Probe, w: World)
    requires LookupZone(ZoneSetting(settings), env.knownZone).Ok?
    requires probe.first.Ok? && |probe.first.value| > 1 && probe.second.Ok? && |probe.second.value| > 1
    requires forall k | 0 <= k < |Services| :: !Breaks(host, Estimator(env), probe, Services[k])
    requires JsonLines.Mixed(Estimates(Services, host, Estimator(env), probe))
    ensures var c := CheckSpec(host, settings, dataDir, env, probe, w);
      && c.Ok? && c.value.record.status == "error" && c.value.record.notes == Some(JsonLines.CompareError)
      && c.value.record.failureStartedAt == None && c.value.world.outbox == w.outbox
      && host.id !in c.value.world.signatures
  {
    GatherError(Services, host, dataDir, Estimator(env), probe, w.logFiles);
    GatherCandidates(Services, host, dataDir, Estimator(env), probe, w.logFiles);
  }

  /**
   * A confirmed failure leaves the signature of its cameras stored for the host, and
   * the notifier is handed at most one message, only when the stored signature
   * differed from it.
   */
  lemma FailureStoresSignature(host: Host, settings: Record, dataDir: string, env: Env, probe: Probe, w: World)
    requires CheckSpec(host, settings, dataDir, env, probe, w).Ok?
    ensures var c := CheckSpec(host, settings, dataDir, env, probe, w).value;
      && (c.record.status == "failure" ==>
            host.id in c.world.signatures && c.world.signatures[host.id] == Signature(host.id, c.record.failingCameras))
      && (c.world.outbox == w.outbox || |c.world.outbox| == |w.outbox| + 1)
      && (c.world.outbox != w.outbox ==>
            c.world.outbox[..|w.outbox|] == w.outbox
            && !(host.id in w.signatures && w.signatures[host.id] == Signature(host.id, c.record.failingCameras)))
  {
    var tzName := LookupZone(ZoneSetting(settings), env.knownZone).value;
    var a := TryCheck(host, settings, dataDir, env, probe, w, tzName);
    if probe.first.Ok? && |probe.first.value| > 1 && probe.second.Ok? && |probe.second.value| > 1 {
      ConfirmFacts(host, settings, dataDir, env, probe, w, probe.second.value, tzName);
      assert a == Confirm(host, settings, dataDir, env, probe, w, probe.second.value, tzName);
    } else {
      assert a.world.outbox == w.outbox;
    }
  }

  /**
   * The confirmed-failure branch keeps the cameras, stores their signature when it
   * does not raise, and hands the notifier at most one message, only when the stored
   * signature differs.
   */
  lemma ConfirmFacts(host: Host, settings: Record, dataDir: string, env: Env, probe: Probe, w: World, cameras: seq<int>, tzName: string)
    ensures var a := Confirm(host, settings, dataDir, env, probe, w, cameras, tzName);
      && a.cameras == cameras
      && (a.outcome.Ok? ==>
            a.outcome.value.status == "failure" && host.id in a.world.signatures
            && a.world.signatures[host.id] == Signature(host.id, cameras))
      && (a.world.outbox == w.outbox
          || (|a.world.outbox| == |w.outbox| + 1 && a.world.outbox[..|w.outbox|] == w.outbox
              && !(host.id in w.signatures && w.signatures[host.id] == Signature(host.id, cameras))))
  {
    var g := Gather(Services, host, dataDir, Estimator(env), probe, w.logFiles);
    var c := Collected(g, tzName, env);
    if c.Ok? {
      var n := NotifySpec(settings, host, cameras, c.value.0, c.value.1, env, probe, w.outbox);
      assert n.outbox[..|w.outbox|] == w.outbox;
    }
  }

  /**
   * Two consecutive failures of a host whose second snapshots list the same cameras,
   * in any order, alert once: the second check hands nothing to the notifier.
   */
  lemma NotifiesOnce(host: Host, settings: Record, dataDir: string, env: Env, p1: Probe, p2: Probe, w: World)
    requires CheckSpec(host, settings, dataDir, env, p1, w).Ok?
    requires CheckSpec(host, settings, dataDir, env, p1, w).value.record.status == "failure"
    requires p2.first.Ok? && |p2.first.value| > 1 && p2.second.Ok?
    requires multiset(p2.second.value) == multiset(CheckSpec(host, settings, dataDir, env, p1, w).value.record.failingCameras)
    ensures var w1 := CheckSpec(host, settings, dataDir, env, p1, w).value.world;
      CheckSpec(host, settings, dataDir, env, p2, w1).Ok?
      && CheckSpec(host, settings, dataDir, env, p2, w1).value.world.outbox == w1.outbox
  {
    var c1 := CheckSpec(host, settings, dataDir, env, p1, w).value;
    FailureStoresSignature(host, settings, dataDir, env, p1, w);
    SignatureIgnoresOrder(host.id, p2.second.value, c1.record.failingCameras);
    assert c1.world.signatures[host.id] == Signature(host.id, p2.second.value);
    StoredSignatureKeepsOutbox(host, settings, dataDir, env, p2, c1.world);
  }

  /** A check whose second snapshot matches the stored signature hands nothing to the notifier. */
  lemma StoredSignatureKeepsOutbox(host: Host, settings: Record, dataDir: string, env: Env, probe: Probe, w: World)
    requires LookupZone(ZoneSetting(settings), env.knownZone).Ok?
    requires probe.first.Ok? && |probe.first.value| > 1 && probe.second.Ok?
    requires host.id in w.signatures && w.signatures[host.id] == Signature(host.id, probe.second.value)
    ensures CheckSpec(host, settings, dataDir, env, probe, w).Ok?
    ensures CheckSpec(host, settings, dataDir, env, probe, w).value.world.outbox == w.outbox
  {
    var tzName := LookupZone(ZoneSetting(settings), env.knownZone).value;
    var a := TryCheck(host, settings, dataDir, env, probe, w, tzName);
    if |probe.second.value| > 1 {
      ConfirmFacts(host, settings, dataDir, env, probe, w, probe.second.value, tzName);
      assert a == Confirm(host, settings, dataDir, env, probe, w, probe.second.value, tzName);
    }
    assert a.world.outbox == w.outbox;
  }

  /**
   * The host dicts of the configuration as Host models (pydantic validation): id, name
   * and address must be str, the address an http(s) URL, notes absent, None or a str;
   * other keys are ignored. `isUrl` is pydantic's URL check.
   */
  function HostOf(r: Record, isUrl: string -> bool): (h: Option<Host>)
    ensures h.Some? ==> Get(r, "id") == Str(h.value.id) && Get(r, "name") == Str(h.value.name)
    ensures h.Some? ==> Get(r, "address") == Str(h.value.address) && isUrl(h.value.address)
  {
    var id := Get(r, "id");
    var name := Get(r, "name");
    var address := Get(r, "address");
    var notes := Get(r, "notes");
    if id.Str? && name.Str? && address.Str? && isUrl(address.s) && (notes.Null? || notes.Str?) then
      Some(Host(id.s, name.s, address.s, if notes.Str? then Some(notes.s) else None))
    else None
  }

  /** `[Host(**host) for host in hosts]`: every host, in order, or None when one is invalid. */
  function ListHosts(records: seq<Record>, isUrl: string -> bool): (r: Option<seq<Host>>)
    ensures r.Some? <==> forall k | 0 <= k < |records| :: HostOf(records[k], isUrl).Some?
    ensures r.Some? ==> |r.value| == |records| && forall k | 0 <= k < |records| :: Some(r.value[k]) == HostOf(records[k], isUrl)
  {
    if records == [] then Some([])
    else
      var prior := ListHosts(records[..|records| - 1], isUrl);
      var last := HostOf(records[|records| - 1], isUrl);
      if prior.None? || last.None? then
        assert forall k | 0 <= k < |records| - 1 :: records[..|records| - 1][k] == records[k];
        None
      else Some(prior.value + [last.value])
  }

  /**
   * The interval of _run, in minutes: `max(1, settings.get("check_interval_minutes", 10))`.
   * A bool compares as 0 or 1; None, a str, a list or a dict cannot be compared with
   * an int and raise TypeError.
   */
  function IntervalMinutes(settings: Record): (r: Result<int>)
    ensures r.Ok? ==> r.value >= 1
    ensures "check_interval_minutes" !in settings ==> r == Ok(10)
    ensures "check_interval_minutes" in settings && settings["check_interval_minutes"].Int? ==>
      && r.Ok? && r.value >= settings["check_interval_minutes"].i
      && (r.value == 1 || r.value == settings["check_interval_minutes"].i)
    ensures "check_interval_minutes" in settings && settings["check_interval_minutes"].Bool? ==> r == Ok(1)
    ensures r.Raised? <==> "check_interval_minutes" in settings && !settings["check_interval_minutes"].Int?
                                                                && !settings["check_interval_minutes"].Bool?
  {
    if "check_interval_minutes" !in settings then Ok(10)
    else
      match settings["check_interval_minutes"]
      case Int(i) => Ok(if i > 1 then i else 1)
      case Bool(_) => Ok(1)
      case v => Raised("'>' not supported between instances of '" + TypeName(v) + "' and 'int'")
  }

  /** The outcome of manual_trigger. */
  datatype Trigger =
    | Triggered(record: FailureRecord)
    /** ValueError("Host not found"). */
    | UnknownHost
    /** A host dict failed validation (pydantic's ValidationError, a ValueError). */
    | InvalidHost
    /** _check_host raised. */
    | Crashed(error: string)

  /** The first host with the id. */
  function FindHost(hosts: seq<Host>, hostId: string): (r: Option<Host>)
    ensures r.Some? ==> r.value in hosts && r.value.id == hostId
    ensures r.None? <==> forall h | h in hosts :: h.id != hostId
    ensures r.Some? ==> exists k | 0 <= k < |hosts| :: hosts[k] == r.value && forall j | 0 <= j < k :: hosts[j].id != hostId
  {
    if hosts == [] then None
    else if hosts[0].id == hostId then Some(hosts[0])
    else
      var rest := FindHost(hosts[1..], hostId);
      assert forall h | h in hosts :: h == hosts[0] || h in hosts[1..];
      if rest.Some? then
        var k :| 0 <= k < |hosts[1..]| && hosts[1..][k] == rest.value && forall j | 0 <= j < k :: hosts[1..][j].id != hostId;
        assert hosts[k + 1] == rest.value && forall j | 0 <= j < k + 1 :: hosts[j].id != hostId;
        rest
      else rest
  }

  /** The results of _check_host over the hosts of a cycle, in host order. */
  datatype Round = Round(results: seq<Result<FailureRecord>>, world: World)

  /** The checks of a cycle, run one after another over the hosts. */
  function Checks(hosts: seq<Host>, settings: Record, dataDir: string, env: Env, probes: seq<Probe>, w: World): (r: Round)
    requires |probes| == |hosts|
    ensures |r.results| == |hosts|
    ensures forall k | 0 <= k < |hosts| ::
      r.results[k].Raised? <==> LookupZone(ZoneSetting(settings), env.knownZone).Raised?
    ensures forall k | 0 <= k < |hosts| && r.results[k].Raised? ::
      r.results[k].error == LookupZone(ZoneSetting(settings), env.knownZone).error
  {
    if hosts == [] then Round([], w)
    else
      var n := |hosts| - 1;
      var prior := Checks(hosts[..n], settings, dataDir, env, probes[..n], w);
      var c := CheckSpec(hosts[n], settings, dataDir, env, probes[n], prior.world);
      CheckRecordShape(hosts[n], settings, dataDir, env, probes[n], prior.world);
      if c.Raised? then Round(prior.results + [Raised(c.error)], prior.world)
      else Round(prior.results + [Ok(c.value.record)], c.value.world)
  }

  lemma ChecksStep(hosts: seq<Host>, settings: Record, dataDir: string, env: Env, probes: seq<Probe>, w: World, i: nat)
    requires |probes| == |hosts| && i < |hosts|
    ensures var prior := Checks(hosts[..i], settings, dataDir, env, probes[..i], w);
      var c := CheckSpec(hosts[i], settings, dataDir, env, probes[i], prior.world);
      Checks(hosts[..i + 1], settings, dataDir, env, probes[..i + 1], w) ==
        if c.Raised? then Round(prior.results + [Raised(c.error)], prior.world)
        else Round(prior.results + [Ok(c.value.record)], c.value.world)
  {
    assert hosts[..i + 1][..i] == hosts[..i];
    assert probes[..i + 1][..i] == probes[..i];
  }

  /** The record _run_cycle builds for an exception result, given the clock reading and uuid of that slot. */
  function ErrorEntry(probe: Probe, tzName: string, error: string): (r: FailureRecord)
    ensures r.hostId == "unknown" && r.status == "error" && r.failingCount == 0 && r.failingCameras == [] && r.notes == Some(error)
  {
    FailureRecord(probe.recordId, "unknown", "unknown", probe.checkedAt, tzName, "error", 0, [], None, [], Some(error))
  }

  /** The journal entries of a cycle when every result is kept: exception results become error entries. */
  function CycleEntries(results: seq<Result<FailureRecord>>, probes: seq<Probe>, tzName: string): (r: seq<History.StoredEntry>)
    requires |probes| == |results|
    ensures |r| == |results|
    ensures forall k | 0 <= k < |results| && results[k].Ok? :: r[k] == History.Serialize(results[k].value)
    ensures forall k | 0 <= k < |results| && results[k].Raised? ::
      r[k] == History.Serialize(ErrorEntry(probes[k], tzName, results[k].error))
  {
    if results == [] then []
    else
      var n := |results| - 1;
      var last := if results[n].Ok? then results[n].value else ErrorEntry(probes[n], tzName, results[n].error);
      CycleEntries(results[..n], probes[..n], tzName) + [History.Serialize(last)]
  }

  /** The journal entries of the records among the results, in order. */
  function RecordEntries(results: seq<Result<FailureRecord>>): (r: seq<History.StoredEntry>)
    requires forall k | 0 <= k < |results| :: results[k].Ok?
    ensures |r| == |results|
    ensures forall k | 0 <= k < |results| :: r[k] == History.Serialize(results[k].value)
  {
    if results == [] then []
    else RecordEntries(results[..|results| - 1]) + [History.Serialize(results[|results| - 1].value)]
  }

  /** The monitor service: the alert signatures it keeps, and the files and notifier it writes to. */
  class MonitorService {
    const config: FlatConfig.ConfigManager
    const history: History.HistoryManager
    const dataDir: string
    /** `_last_signatures`: host id to the signature of the last alert sent. */
    var signatures: map<string, string>
    /** The log files under the data directory, by path. */
    var logFiles: map<string, string>
    /** The messages handed to the Telegram notifier, in order. */
    var outbox: seq<Message>

    constructor(config: FlatConfig.ConfigManager, history: History.HistoryManager, dataDir: string, logFiles: map<string, string>)
      ensures this.config == config && this.history == history && this.dataDir == dataDir
      ensures signatures == map[] && this.logFiles == logFiles && outbox == []
    {
      this.config := config;
      this.history := history;
      this.dataDir := dataDir;
      signatures := map[];
      this.logFiles := logFiles;
      outbox := [];
    }

    function State(): World
      reads this
    {
      World(signatures, logFiles, outbox)
    }

    /**
     * _collect_logs: for go2rtc, nginx and frigate in turn, fetch the log, skip the
     * service on HTTPError, otherwise append the snapshot to its file, record its
     * location and keep its onset estimate; the earliest estimate, made aware in the
     * zone, is the onset, and min() raises when the estimates mix naive and aware.
     */
    method CollectLogs(host: Host, tzName: string, env: Env, probe: Probe) returns (r: Result<(seq<LogLocation>, Option<int>)>)
      modifies this
      ensures var g := Gather(Services, host, dataDir, Estimator(env), probe, old(logFiles));
        logFiles == g.files && r == Collected(g, tzName, env)
      ensures signatures == old(signatures) && outbox == old(outbox)
    {
      var baseUrl := TrimSlashes(host.address);
      var entries: seq<LogLocation> := [];
      var candidates: seq<Moment> := [];
      for i := 0 to |Services|
        invariant Gather(Services[..i], host, dataDir, Estimator(env), probe, old(logFiles))
          == Gathered(logFiles, entries, candidates, None)
        invariant signatures == old(signatures) && outbox == old(outbox)
      {
        var service := Services[i];
        ghost var g := Gathered(logFiles, entries, candidates, None);
        GatherSnoc(Services, i, host, dataDir, Estimator(env), probe, old(logFiles));
        var response := probe.fetch(baseUrl + "/api/logs/" + service);
        if response.HttpError? {
          continue;
        }
        if response.Crash? {
          GatherStopsAt(Services, host, dataDir, Estimator(env), probe, old(logFiles), i + 1);
          return Raised(response.error);
        }
        var path := LogPath(dataDir, host.name, service);
        logFiles := Appended(logFiles, path, SnapshotBlock(probe.snapshotAt, response.text));
        entries := entries + [LogLocation(service, path)];
        var records := JsonLines.ParseJsonLines(response.text, env.decode);
        var start := JsonLines.ExtractFailureStart(records, env.parse);
        assert start == Estimator(env)(response.text);
        if start.Raised? {
          GatherStopsAt(Services, host, dataDir, Estimator(env), probe, old(logFiles), i + 1);
          return Raised(start.error);
        }
        if start.value.Some? {
          candidates := candidates + [start.value.value];
        }
      }
      Whole(Services);
      if candidates == [] {
        return Ok((entries, None));
      }
      var earliest := JsonLines.Earliest(candidates);
      if earliest.Raised? {
        return Raised(earliest.error);
      }
      r := Ok((entries, Some(Localized(earliest.value, tzName, env.localize))));
    }

    /** The mentions line of _notify_failure: the tags under mention_name when both settings are truthy. */
    method MentionLine(settings: Record) returns (r: Result<string>)
      ensures r == Mentions(settings)
    {
      var ids := MentionSetting(settings);
      var name := MentionName(settings);
      r := Ok("");
      if Truthy(ids) && Truthy(name) {
        var userIds := MentionIds(ids);
        if userIds.Raised? {
          return Raised(userIds.error);
        }
        var line := Notifier.FormatMentions(userIds.value, Show(name));
        r := Ok(line);
      }
    }

    /** _notify_failure: builds the alert and hands it to the notifier when the token and chat id are set. */
    method NotifyFailure(host: Host, cameras: seq<int>, locations: seq<LogLocation>, onset: Option<int>,
                         settings: Record, env: Env, probe: Probe) returns (r: Outcome)
      modifies this
      ensures var n := NotifySpec(settings, host, cameras, locations, onset, env, probe, old(outbox));
        outbox == n.outbox && r == n.outcome
      ensures signatures == old(signatures) && logFiles == old(logFiles)
    {
      var token := Get(settings, "telegram_bot_token");
      var chat := Get(settings, "telegram_chat_id");
      var mentions := MentionLine(settings);
      if mentions.Raised? {
        return Failed(mentions.error);
      }
      var text := Join("\n", AlertLines(host.name, cameras, locations, onset, probe.notifiedAt, mentions.value, env.render));
      if Truthy(token) && Truthy(chat) {
        outbox := outbox + [Message(token, chat, text)];
        return probe.send;
      }
      r := Done;
    }

    /** The try block of _check_host. */
    method Attempt(host: Host, settings: Record, tzName: string, env: Env, probe: Probe) returns (cameras: seq<int>, outcome: Result<Confirmed>)
      modifies this
      ensures var a := TryCheck(host, settings, dataDir, env, probe, old(State()), tzName);
        cameras == a.cameras && outcome == a.outcome && State() == a.world
    {
      match probe.first {
        case Raised(e) =>
          return [], Raised(e);
        case Ok(first) =>
          cameras := first;
      }
      if |cameras| <= 1 {
        signatures := signatures - {host.id};
        return cameras, Ok(Confirmed("ok", [], None));
      }
      // The five-minute wait between the snapshots happens here.
      match probe.second {
        case Raised(e) =>
          return cameras, Raised(e);
        case Ok(second) =>
          cameras := second;
      }
      if |cameras| <= 1 {
        return cameras, Ok(Confirmed("ok", [], None));
      }
      var logs := CollectLogs(host, tzName, env, probe);
      if logs.Raised? {
        return cameras, Raised(logs.error);
      }
      var (locations, onset) := logs.value;
      var signature := Signature(host.id, cameras);
      if host.id !in signatures || signatures[host.id] != signature {
        var sent := NotifyFailure(host, cameras, locations, onset, settings, env, probe);
        if sent.Failed? {
          return cameras, Raised(sent.error);
        }
        signatures := signatures[host.id := signature];
      }
      outcome := Ok(Confirmed("failure", locations, onset));
    }

    /** _check_host. */
    method CheckHost(host: Host, settings: Record, env: Env, probe: Probe) returns (r: Result<FailureRecord>)
      modifies this
      ensures var spec := CheckSpec(host, settings, dataDir, env, probe, old(State()));
        && (spec.Raised? ==> r == Raised(spec.error) && State() == old(State()))
        && (spec.Ok? ==> r == Ok(spec.value.record) && State() == spec.value.world)
    {
      var zone := LookupZone(ZoneSetting(settings), env.knownZone);
      if zone.Raised? {
        return Raised(zone.error);
      }
      var tzName := zone.value;
      var status := "ok";
      var locations: seq<LogLocation> := [];
      var onset: Option<int> := None;
      var notes: Option<string> := None;
      var cameras, outcome := Attempt(host, settings, tzName, env, probe);
      match outcome {
        case Ok(c) =>
          status, locations, onset := c.status, c.locations, c.onset;
        case Raised(e) =>
          status := "error";
          onset := None;
          locations := [];
          signatures := signatures - {host.id};
          notes := Some(e);
      }
      r := Ok(FailureRecord(probe.recordId, host.id, host.name, probe.checkedAt, tzName, status, |cameras|, cameras,
                            OnsetText(onset, env.iso), locations, notes));
    }

    /** The checks of one cycle, one per host, in host order. */
    method CheckAll(settings: Record, hosts: seq<Host>, env: Env, probes: seq<Probe>) returns (results: seq<Result<FailureRecord>>)
      requires |probes| == |hosts|
      modifies this
      ensures var round := Checks(hosts, settings, dataDir, env, probes, old(State()));
        results == round.results && State() == round.world
    {
      results := [];
      for i := 0 to |hosts|
        invariant var round := Checks(hosts[..i], settings, dataDir, env, probes[..i], old(State()));
          results == round.results && State() == round.world
      {
        ChecksStep(hosts, settings, dataDir, env, probes, old(State()), i);
        var result := CheckHost(hosts[i], settings, env, probes[i]);
        results := results + [result];
      }
      Whole(hosts);
      Whole(probes);
    }

    /**
     * The loop of _run_cycle over the results, as written: a record is appended to the
     * journal; an exception result resolves the zone again to stamp an error record.
     * Every result of a cycle is an exception exactly when the zone cannot be
     * resolved, so that second lookup raises too: the loop raises at the first
     * exception result and writes no entry for it or any later result.
     */
    method JournalResults(settings: Record, env: Env, results: seq<Result<FailureRecord>>) returns (r: Outcome)
      requires forall k | 0 <= k < |results| :: results[k].Raised? <==> LookupZone(ZoneSetting(settings), env.knownZone).Raised?
      requires forall k | 0 <= k < |results| && results[k].Raised? ::
        results[k].error == LookupZone(ZoneSetting(settings), env.knownZone).error
      modifies history
      ensures LookupZone(ZoneSetting(settings), env.knownZone).Ok? ==>
        r == Done && history.journal == old(history.journal) + RecordEntries(results)
      ensures LookupZone(ZoneSetting(settings), env.knownZone).Raised? && results != [] ==>
        r == Failed(LookupZone(ZoneSetting(settings), env.knownZone).error) && history.journal == old(history.journal)
      ensures history.tzName == old(history.tzName)
    {
      for i := 0 to |results|
        invariant LookupZone(ZoneSetting(settings), env.knownZone).Ok? ==>
          history.journal == old(history.journal) + RecordEntries(results[..i])
        invariant LookupZone(ZoneSetting(settings), env.knownZone).Raised? ==> i == 0 && history.journal == old(history.journal)
        invariant history.tzName == old(history.tzName)
      {
        match results[i] {
          case Ok(record) =>
            assert results[..i + 1][..i] == results[..i];
            var _ := history.AddEntry(record);
          case Raised(e) =>
            var zone := LookupZone(ZoneSetting(settings), env.knownZone);
            match zone {
              case Raised(err) =>
                return Failed(err);
              case Ok(_) =>
                assert false;
            }
        }
      }
      Whole(results);
      r := Done;
    }

    /**
     * _run_cycle as written: the checks of the hosts, then the journal loop. With an
     * unresolvable zone and at least one host, it raises and writes nothing.
     */
    method RunCycle(settings: Record, hosts: seq<Host>, env: Env, probes: seq<Probe>) returns (r: Outcome)
      requires |probes| == |hosts|
      modifies this, history
      ensures LookupZone(ZoneSetting(settings), env.knownZone).Ok? ==>
        var round := Checks(hosts, settings, dataDir, env, probes, old(State()));
        r == Done && history.journal == old(history.journal) + RecordEntries(round.results)
      ensures LookupZone(ZoneSetting(settings), env.knownZone).Raised? && hosts != [] ==>
        r == Failed(LookupZone(ZoneSetting(settings), env.knownZone).error) && history.journal == old(history.journal)
      ensures history.tzName == old(history.tzName)
    {
      var results := CheckAll(settings, hosts, env, probes);
      r := JournalResults(settings, env, results);
    }

    /**
     * The loop of _run_cycle as evidently intended: one journal entry per result, an
     * exception result becoming an "error" record.
     */
    method JournalEntries(results: seq<Result<FailureRecord>>, probes: seq<Probe>, tzName: string)
      requires |probes| == |results|
      modifies history
      ensures history.journal == old(history.journal) + CycleEntries(results, probes, tzName)
      ensures history.tzName == old(history.tzName)
    {
      for i := 0 to |results|
        invariant history.journal == old(history.journal) + CycleEntries(results[..i], probes[..i], tzName)
        invariant history.tzName == old(history.tzName)
      {
        assert results[..i + 1][..i] == results[..i];
        assert probes[..i + 1][..i] == probes[..i];
        match results[i] {
          case Ok(record) =>
            var _ := history.AddEntry(record);
          case Raised(e) =>
            var _ := history.AddEntry(ErrorEntry(probes[i], tzName, e));
        }
      }
      Whole(results);
      Whole(probes);
    }

    /**
     * _run_cycle as evidently intended: one journal entry per result, in host order,
     * an exception result becoming an "error" record of host "unknown" with no
     * cameras and the exception text as notes, stamped with the zone the settings
     * name (as text, since it cannot be resolved).
     */
    method RunCycleCorrected(settings: Record, hosts: seq<Host>, env: Env, probes: seq<Probe>)
      requires |probes| == |hosts|
      modifies this, history
      ensures var round := Checks(hosts, settings, dataDir, env, probes, old(State()));
        history.journal == old(history.journal) + CycleEntries(round.results, probes, Show(ZoneSetting(settings)))
      ensures |history.journal| == |old(history.journal)| + |hosts|
      ensures history.tzName == old(history.tzName)
    {
      var results := CheckAll(settings, hosts, env, probes);
      JournalEntries(results, probes, Show(ZoneSetting(settings)));
    }

    /**
     * manual_trigger: the host with the id is checked once and its record appended to
     * the journal exactly once and returned; an unknown id raises ValueError and
     * touches nothing.
     */
    method ManualTrigger(hostId: string, env: Env, probe: Probe, isUrl: string -> bool) returns (r: Trigger)
      modifies this, history
      ensures ListHosts(config.hosts, isUrl).None? ==> r == InvalidHost
      ensures r == UnknownHost <==> ListHosts(config.hosts, isUrl).Some? && FindHost(ListHosts(config.hosts, isUrl).value, hostId).None?
      ensures r.Triggered? ==>
        var host := FindHost(ListHosts(config.hosts, isUrl).value, hostId).value;
        var spec := CheckSpec(host, config.settings, dataDir, env, probe, old(State()));
        && host.id == hostId
        && spec.Ok? && r.record == spec.value.record && State() == spec.value.world
        && history.journal == old(history.journal) + [History.Serialize(r.record)]
      ensures r.Crashed? ==>
        var host := FindHost(ListHosts(config.hosts, isUrl).value, hostId).value;
        var spec := CheckSpec(host, config.settings, dataDir, env, probe, old(State()));
        && ListHosts(config.hosts, isUrl).Some? && FindHost(ListHosts(config.hosts, isUrl).value, hostId).Some?
        && spec == Raised(r.error) && State() == old(State())
      ensures !r.Triggered? ==> history.journal == old(history.journal)
      ensures r == UnknownHost || r == InvalidHost ==> State() == old(State())
    {
      var hosts := ListHosts(config.hosts, isUrl);
      if hosts.None? {
        return InvalidHost;
      }
      var host := FindHost(hosts.value, hostId);
      if host.None? {
        return UnknownHost;
      }
      var settings := config.settings;
      var result := CheckHost(host.value, settings, env, probe);
      if result.Raised? {
        return Crashed(result.error);
      }
      var _ := history.AddEntry(result.value);
      r := Triggered(result.value);
    }
  }

  /**
   * The as-written cycle loses the results of a cycle whose zone cannot be resolved:
   * with one host it writes no journal entry, where the intended cycle writes one.
   */
  lemma UnknownZoneLosesEntries(settings: Record, host: Host, dataDir: string, env: Env, probe: Probe, w: World)
    requires LookupZone(ZoneSetting(settings), env.knownZone).Raised?
    ensures var round := Checks([host], settings, dataDir, env, [probe], w);
      && round.results == [Raised(LookupZone(ZoneSetting(settings), env.knownZone).error)]
      && |CycleEntries(round.results, [probe], Show(ZoneSetting(settings)))| == 1
  {
    assert [host][..0] == [] && [probe][..0] == [];
  }
}
