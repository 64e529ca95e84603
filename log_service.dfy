// The log handling of the SQL generation (backend/app/services/logs.py): splitting a
// fetched log into entries, reading their timestamps, estimating when a failure
// started, the LogEntry rows stored for them and the file the raw log is saved to.
//
// datetime.fromisoformat is opaque: `fromIso` gives the datetime it returns, or None
// when it raises ValueError. json.loads is opaque too: `decode` gives the dict a line
// starting with "{" decodes to, or None on JSONDecodeError. The timestamp scan of a
// plain line (TIMESTAMP_PATTERN, then isoformat) is the opaque `scan`.
module LogService {
  import opened Common
  import opened Text
  import JsonLines

  /** `value.replace("Z", "+00:00")`. */
  function ReplaceZ(s: string): (r: string)
    ensures 'Z' !in r
    ensures 'Z' !in s ==> r == s
  {
    if s == [] then []
    else
      var n := |s| - 1;
      ReplaceZ(s[..n]) + if s[n] == 'Z' then "+00:00" else [s[n]]
  }

  lemma {:induction false} ReplaceZAppend(a: string, b: string)
    ensures ReplaceZ(a + b) == ReplaceZ(a) + ReplaceZ(b)
    decreases |b|
  {
    if b == [] {
      assert a + b == a;
    } else {
      var n := |b| - 1;
      var c := b[n];
      var p := b[..n];
      assert b == p + [c];
      assert a + b == (a + p) + [c];
      ReplaceZSnoc(a + p, c);
      ReplaceZSnoc(p, c);
      ReplaceZAppend(a, p);
    }
  }

  /** One more character adds its own replacement. */
  lemma ReplaceZSnoc(s: string, c: char)
    ensures ReplaceZ(s + [c]) == ReplaceZ(s) + if c == 'Z' then "+00:00" else [c]
  {
    assert (s + [c])[..|s|] == s;
  }

  /** parse_timestamp: fromisoformat after "Z" became "+00:00"; None instead of ValueError. */
  function ParseTimestamp(value: string, fromIso: string -> Option<Moment>): Option<Moment> {
    fromIso(ReplaceZ(value))
  }

  /**
   * A trailing "Z" reads as "+00:00", and a text already rewritten reads the same
   * again.
   */
  lemma ZuluIsUtc(value: string, fromIso: string -> Option<Moment>)
    ensures ParseTimestamp(value + "Z", fromIso) == ParseTimestamp(value + "+00:00", fromIso)
    ensures ParseTimestamp(ReplaceZ(value), fromIso) == ParseTimestamp(value, fromIso)
  {
    ReplaceZAppend(value, "Z");
    ReplaceZAppend(value, "+00:00");
    assert ReplaceZ("Z") == "+00:00";
  }

  /** The entry parse_log_entries makes of one stripped, non-blank line. */
  function EntryOf(line: string, decode: string -> Option<Record>, scan: string -> Option<string>): (e: Record)
    ensures (line == [] || line[0] != '{' || decode(line).None?) ==>
      && e.Keys == {"message", "timestamp"} && e["message"] == Str(line)
      && (e["timestamp"] == Null <==> scan(line).None?)
    ensures line != [] && line[0] == '{' && decode(line).Some? ==> e == decode(line).value
  {
    if line != [] && line[0] == '{' && decode(line).Some? then decode(line).value
    else map["message" := Str(line), "timestamp" := if scan(line).Some? then Str(scan(line).value) else Null]
  }

  /**
   * JSON decoding is only tried on lines starting with "{": what json.loads would make
   * of any other line does not matter.
   */
  lemma DecodeOnlyBraces(line: string, d1: string -> Option<Record>, d2: string -> Option<Record>,
                         scan: string -> Option<string>)
    requires line == [] || line[0] != '{'
    ensures EntryOf(line, d1, scan) == EntryOf(line, d2, scan)
  {
  }

  function EntriesOf(lines: seq<string>, decode: string -> Option<Record>, scan: string -> Option<string>): (r: seq<Record>)
    ensures |r| == |lines|
  {
    if lines == [] then []
    else EntriesOf(lines[..|lines| - 1], decode, scan) + [EntryOf(lines[|lines| - 1], decode, scan)]
  }

  /** One more line adds its entry at the end. */
  lemma EntriesSnoc(lines: seq<string>, line: string, decode: string -> Option<Record>, scan: string -> Option<string>)
    ensures EntriesOf(lines + [line], decode, scan) == EntriesOf(lines, decode, scan) + [EntryOf(line, decode, scan)]
  {
    assert (lines + [line])[..|lines|] == lines;
  }

  /** Entry k is made of line k. */
  lemma {:induction false} EntriesPointwise(lines: seq<string>, decode: string -> Option<Record>,
                                            scan: string -> Option<string>, k: nat)
    requires k < |lines|
    ensures EntriesOf(lines, decode, scan)[k] == EntryOf(lines[k], decode, scan)
  {
    if k < |lines| - 1 {
      EntriesPointwise(lines[..|lines| - 1], decode, scan, k);
    }
  }

  /** parse_log_entries: one entry per line that is not blank after strip(), in order. */
  method ParseLogEntries(content: string, decode: string -> Option<Record>, scan: string -> Option<string>)
    returns (entries: seq<Record>)
    ensures entries == EntriesOf(NonBlankLines(content), decode, scan)
    ensures |entries| == |NonBlankLines(content)|
  {
    entries := [];
    var pieces := LinePieces(content);
    for i := 0 to |pieces|
      invariant entries == EntriesOf(KeptLines(pieces[..i]), decode, scan)
    {
      KeptLinesSnoc(pieces, i);
      var line := Strip(pieces[i]);
      if line == [] {
        continue;
      }
      var entry := ParseLine(line, decode, scan);
      EntriesSnoc(KeptLines(pieces[..i]), line, decode, scan);
      entries := entries + [entry];
    }
    Whole(pieces);
  }

  /** The body of the parse_log_entries loop for one stripped, non-blank line. */
  method ParseLine(line: string, decode: string -> Option<Record>, scan: string -> Option<string>) returns (entry: Record)
    requires line != []
    ensures entry == EntryOf(line, decode, scan)
  {
    var parsed: Option<Record> := None;
    if line[0] == '{' {
      parsed := decode(line);
    }
    if parsed.None? {
      var timestamp := scan(line);
      parsed := Some(map["message" := Str(line), "timestamp" := if timestamp.Some? then Str(timestamp.value) else Null]);
    }
    entry := parsed.value;
  }

  /**
   * The instant estimate_failure_start takes from one entry, if any: a str timestamp is
   * parsed (an aware one keeps its instant, a naive one is read in the zone, which is
   * `localize`); a falsy non-str value is skipped; a truthy non-str value has no
   * `tzinfo` and raises AttributeError.
   */
  function EntryInstant(e: Record, fromIso: string -> Option<Moment>, localize: int -> int): Result<Option<int>> {
    match Get(e, "timestamp")
    case Str(s) =>
      (match ParseTimestamp(s, fromIso)
       case None => Ok(None)
       case Some(Aware(t)) => Ok(Some(t))
       case Some(Naive(w)) => Ok(Some(localize(w))))
    case v => if Truthy(v) then Raised(NoAttribute(v, "tzinfo")) else Ok(None)
  }

  /** The `interesting` list after the entries, or the first entry's exception. */
  function Instants(entries: seq<Record>, fromIso: string -> Option<Moment>, localize: int -> int): Result<seq<int>> {
    if entries == [] then Ok([])
    else
      match Instants(entries[..|entries| - 1], fromIso, localize)
      case Raised(e) => Raised(e)
      case Ok(prior) =>
        match EntryInstant(entries[|entries| - 1], fromIso, localize)
        case Raised(e) => Raised(e)
        case Ok(None) => Ok(prior)
        case Ok(Some(t)) => Ok(prior + [t])
  }

  /** What estimate_failure_start returns, or raises. */
  function Estimate(entries: seq<Record>, fromIso: string -> Option<Moment>, localize: int -> int): Result<Option<int>> {
    match Instants(entries, fromIso, localize)
    case Raised(e) => Raised(e)
    case Ok(ts) => if ts == [] then Ok(None) else Ok(Some(JsonLines.Min(ts)))
  }

  /** estimate_failure_start: the earliest timestamp among the entries, as an instant. */
  method EstimateFailureStart(entries: seq<Record>, fromIso: string -> Option<Moment>, localize: int -> int)
    returns (r: Result<Option<int>>)
    ensures r == Estimate(entries, fromIso, localize)
  {
    var interesting: seq<int> := [];
    for i := 0 to |entries|
      invariant Instants(entries[..i], fromIso, localize) == Ok(interesting)
    {
      assert entries[..i + 1][..i] == entries[..i];
      var timestamp := Get(entries[i], "timestamp");
      var parsed: Option<Moment>;
      if timestamp.Str? {
        parsed := ParseTimestamp(timestamp.s, fromIso);
      } else if Truthy(timestamp) {
        InstantsRaisedPrefix(entries, i + 1, fromIso, localize);
        return Raised(NoAttribute(timestamp, "tzinfo"));
      } else {
        parsed := None;
      }
      if parsed.Some? {
        interesting := interesting + [if parsed.value.Aware? then parsed.value.instant else localize(parsed.value.wall)];
      }
    }
    Whole(entries);
    if interesting == [] {
      return Ok(None);
    }
    r := Ok(Some(JsonLines.Min(interesting)));
  }

  /** Once an entry raises, the whole estimate raises the same. */
  lemma {:induction false} InstantsRaisedPrefix(entries: seq<Record>, n: nat, fromIso: string -> Option<Moment>,
                                                localize: int -> int)
    requires n <= |entries| && Instants(entries[..n], fromIso, localize).Raised?
    ensures Instants(entries, fromIso, localize) == Instants(entries[..n], fromIso, localize)
    decreases |entries|
  {
    if n < |entries| {
      var m := |entries| - 1;
      assert entries[..m][..n] == entries[..n];
      InstantsRaisedPrefix(entries[..m], n, fromIso, localize);
    } else {
      assert entries[..n] == entries;
    }
  }

  /** `t` is the instant of some entry. */
  ghost predicate IsInstant(entries: seq<Record>, t: int, fromIso: string -> Option<Moment>, localize: int -> int) {
    exists k | 0 <= k < |entries| :: EntryInstant(entries[k], fromIso, localize) == Ok(Some(t))
  }

  lemma {:induction false} InstantsAllOk(entries: seq<Record>, fromIso: string -> Option<Moment>, localize: int -> int)
    requires Instants(entries, fromIso, localize).Ok?
    ensures forall k | 0 <= k < |entries| :: EntryInstant(entries[k], fromIso, localize).Ok?
  {
    if entries != [] {
      var n := |entries| - 1;
      InstantsAllOk(entries[..n], fromIso, localize);
      assert forall k | 0 <= k < n :: entries[..n][k] == entries[k];
    }
  }

  lemma {:induction false} InstantsEmpty(entries: seq<Record>, fromIso: string -> Option<Moment>, localize: int -> int)
    requires Instants(entries, fromIso, localize).Ok?
    ensures Instants(entries, fromIso, localize).value == [] <==>
      forall k | 0 <= k < |entries| :: EntryInstant(entries[k], fromIso, localize) == Ok(None)
  {
    if entries != [] {
      var n := |entries| - 1;
      InstantsEmpty(entries[..n], fromIso, localize);
      assert forall k | 0 <= k < n :: entries[..n][k] == entries[k];
    }
  }

  /** The last entry's share of the instants, when none raised. */
  lemma InstantsSnoc(entries: seq<Record>, fromIso: string -> Option<Moment>, localize: int -> int)
    requires entries != [] && Instants(entries, fromIso, localize).Ok?
    ensures var n := |entries| - 1;
      var last := EntryInstant(entries[n], fromIso, localize);
      && Instants(entries[..n], fromIso, localize).Ok? && last.Ok?
      && Instants(entries, fromIso, localize).value ==
           Instants(entries[..n], fromIso, localize).value + if last.value.Some? then [last.value.value] else []
  {
  }

  /** Every instant collected is the instant of some entry. */
  lemma {:induction false} InstantsFromEntries(entries: seq<Record>, fromIso: string -> Option<Moment>, localize: int -> int,
                                               t: int)
    requires Instants(entries, fromIso, localize).Ok?
    ensures t in Instants(entries, fromIso, localize).value ==> IsInstant(entries, t, fromIso, localize)
  {
    if entries != [] && t in Instants(entries, fromIso, localize).value {
      var n := |entries| - 1;
      InstantsSnoc(entries, fromIso, localize);
      if t in Instants(entries[..n], fromIso, localize).value {
        InstantsFromEntries(entries[..n], fromIso, localize, t);
        var k :| 0 <= k < n && EntryInstant(entries[..n][k], fromIso, localize) == Ok(Some(t));
        assert entries[..n][k] == entries[k];
      } else {
        assert EntryInstant(entries[n], fromIso, localize) == Ok(Some(t));
      }
    }
  }

  /** The instant of every entry is collected. */
  lemma {:induction false} InstantsCoverEntries(entries: seq<Record>, fromIso: string -> Option<Moment>, localize: int -> int,
                                                k: nat)
    requires Instants(entries, fromIso, localize).Ok? && k < |entries|
    ensures EntryInstant(entries[k], fromIso, localize).Ok?
    ensures EntryInstant(entries[k], fromIso, localize).value.Some? ==>
      EntryInstant(entries[k], fromIso, localize).value.value in Instants(entries, fromIso, localize).value
  {
    var n := |entries| - 1;
    InstantsSnoc(entries, fromIso, localize);
    if k < n {
      assert entries[..n][k] == entries[k];
      InstantsCoverEntries(entries[..n], fromIso, localize, k);
    }
  }

  /** The instants collected are exactly those of the entries. */
  lemma InstantsSound(entries: seq<Record>, fromIso: string -> Option<Moment>, localize: int -> int, t: int)
    requires Instants(entries, fromIso, localize).Ok?
    ensures t in Instants(entries, fromIso, localize).value <==> IsInstant(entries, t, fromIso, localize)
  {
    InstantsFromEntries(entries, fromIso, localize, t);
    if IsInstant(entries, t, fromIso, localize) {
      var k :| 0 <= k < |entries| && EntryInstant(entries[k], fromIso, localize) == Ok(Some(t));
      InstantsCoverEntries(entries, fromIso, localize, k);
    }
  }

  /**
   * The estimate raises exactly when some entry's timestamp is a truthy value that is
   * not a str; otherwise it is None exactly when no entry has a parseable timestamp,
   * and else the earliest of their instants.
   */
  lemma EstimateMeaning(entries: seq<Record>, fromIso: string -> Option<Moment>, localize: int -> int)
    ensures Estimate(entries, fromIso, localize).Raised? <==>
      exists k | 0 <= k < |entries| :: EntryInstant(entries[k], fromIso, localize).Raised?
    ensures Estimate(entries, fromIso, localize) == Ok(None) <==>
      forall k | 0 <= k < |entries| :: EntryInstant(entries[k], fromIso, localize) == Ok(None)
    ensures Estimate(entries, fromIso, localize).Ok? && Estimate(entries, fromIso, localize).value.Some? ==>
      var t := Estimate(entries, fromIso, localize).value.value;
      IsInstant(entries, t, fromIso, localize) && forall u | IsInstant(entries, u, fromIso, localize) :: t <= u
  {
    var r := Instants(entries, fromIso, localize);
    if r.Ok? {
      InstantsAllOk(entries, fromIso, localize);
      InstantsEmpty(entries, fromIso, localize);
      if r.value != [] {
        var t := JsonLines.Min(r.value);
        InstantsSound(entries, fromIso, localize, t);
        forall u | IsInstant(entries, u, fromIso, localize) ensures t <= u {
          InstantsSound(entries, fromIso, localize, u);
        }
      }
    } else {
      InstantsRaisedWitness(entries, fromIso, localize);
    }
  }

  lemma {:induction false} InstantsRaisedWitness(entries: seq<Record>, fromIso: string -> Option<Moment>, localize: int -> int)
    requires Instants(entries, fromIso, localize).Raised?
    ensures exists k | 0 <= k < |entries| :: EntryInstant(entries[k], fromIso, localize).Raised?
  {
    var n := |entries| - 1;
    if Instants(entries[..n], fromIso, localize).Raised? {
      InstantsRaisedWitness(entries[..n], fromIso, localize);
      var k :| 0 <= k < n && EntryInstant(entries[..n][k], fromIso, localize).Raised?;
      assert entries[..n][k] == entries[k];
    } else {
      assert EntryInstant(entries[n], fromIso, localize).Raised?;
    }
  }

  /** The timestamp column of a LogEntry: a parsed str, or the value as it came. */
  datatype Stamp = Parsed(moment: Option<Moment>) | RawValue(v: Value)

  /** One LogEntry row. */
  datatype LogEntry = LogEntry(hostId: int, service: string, timestamp: Stamp, level: Value, message: Value, raw: Record)

  /** Python's `a or b`. */
  function Or(a: Value, b: Value): (r: Value)
    ensures Truthy(r) <==> Truthy(a) || Truthy(b)
    ensures Truthy(a) ==> r == a
  {
    if Truthy(a) then a else b
  }

  /**
   * The row persist_log_entries makes of one entry: it keeps the whole entry, a str
   * timestamp is parsed and any other kept as it came, and level and message are the
   * first truthy of the primary key and its fallback ("severity", "msg").
   */
  function RowOf(hostId: int, service: string, e: Record, fromIso: string -> Option<Moment>): (row: LogEntry)
    ensures row.raw == e && row.hostId == hostId && row.service == service
    ensures Get(e, "timestamp").Str? ==> row.timestamp == Parsed(ParseTimestamp(Get(e, "timestamp").s, fromIso))
    ensures !Get(e, "timestamp").Str? ==> row.timestamp == RawValue(Get(e, "timestamp"))
    ensures Truthy(row.level) <==> Truthy(Get(e, "level")) || Truthy(Get(e, "severity"))
    ensures row.level == if Truthy(Get(e, "level")) then e["level"] else Get(e, "severity")
    ensures row.message == if Truthy(Get(e, "message")) then e["message"] else Get(e, "msg")
  {
    var t := Get(e, "timestamp");
    LogEntry(hostId, service, if t.Str? then Parsed(ParseTimestamp(t.s, fromIso)) else RawValue(t),
             Or(Get(e, "level"), Get(e, "severity")), Or(Get(e, "message"), Get(e, "msg")), e)
  }

  /** The rows of a list of entries, one each, in order. */
  function RowsOf(hostId: int, service: string, entries: seq<Record>, fromIso: string -> Option<Moment>): seq<LogEntry> {
    if entries == [] then []
    else
      var n := |entries| - 1;
      RowsOf(hostId, service, entries[..n], fromIso) + [RowOf(hostId, service, entries[n], fromIso)]
  }

  /** Row k is made of entry k. */
  lemma {:induction false} RowsPointwise(hostId: int, service: string, entries: seq<Record>, fromIso: string -> Option<Moment>)
    ensures |RowsOf(hostId, service, entries, fromIso)| == |entries|
    ensures forall k | 0 <= k < |entries| :: RowsOf(hostId, service, entries, fromIso)[k] == RowOf(hostId, service, entries[k], fromIso)
  {
    if entries != [] {
      var n := |entries| - 1;
      RowsPointwise(hostId, service, entries[..n], fromIso);
      assert forall k | 0 <= k < n :: entries[..n][k] == entries[k];
    }
  }

  /** `f"{hostname}-{service}.log"` under the log directory. */
  function LogFileName(baseDir: string, hostname: string, service: string): string {
    baseDir + "/" + hostname + "-" + service + ".log"
  }

  /** The files of one host for different services are different files. */
  lemma {:induction false} LogFilesPerService(baseDir: string, hostname: string, s1: string, s2: string)
    requires LogFileName(baseDir, hostname, s1) == LogFileName(baseDir, hostname, s2)
    ensures s1 == s2
  {
    var p := baseDir + "/" + hostname + "-";
    assert LogFileName(baseDir, hostname, s1) == p + (s1 + ".log");
    assert LogFileName(baseDir, hostname, s2) == p + (s2 + ".log");
    assert s1 + ".log" == LogFileName(baseDir, hostname, s1)[|p|..];
    assert |s1| == |s2|;
    assert s1 == (s1 + ".log")[..|s1|];
  }

  /** The saved log files by path, and the LogEntry table. */
  class LogStore {
    var files: map<string, string>
    var rows: seq<LogEntry>

    constructor(files: map<string, string>, rows: seq<LogEntry>)
      ensures this.files == files && this.rows == rows
    {
      this.files := files;
      this.rows := rows;
    }

    /** save_log_file: the file of the host and service holds exactly `content` afterwards. */
    method SaveLogFile(hostname: string, service: string, content: string, baseDir: string) returns (path: string)
      modifies this
      ensures path == LogFileName(baseDir, hostname, service)
      ensures files == old(files)[path := content] && rows == old(rows)
    {
      path := LogFileName(baseDir, hostname, service);
      files := files[path := content];
    }

    /**
     * persist_log_entries: one row per entry, in order, appended to the table and
     * returned: the level falls back to "severity", the message to "msg", a str
     * timestamp is parsed and any other kept as it came.
     */
    method PersistLogEntries(hostId: int, service: string, entries: seq<Record>, fromIso: string -> Option<Moment>)
      returns (stored: seq<LogEntry>)
      modifies this
      ensures stored == RowsOf(hostId, service, entries, fromIso)
      ensures rows == old(rows) + stored && files == old(files)
    {
      stored := [];
      for i := 0 to |entries|
        invariant stored == RowsOf(hostId, service, entries[..i], fromIso)
      {
        assert entries[..i + 1][..i] == entries[..i];
        var entry := entries[i];
        var timestamp := Get(entry, "timestamp");
        var stamp := if timestamp.Str? then Parsed(ParseTimestamp(timestamp.s, fromIso)) else RawValue(timestamp);
        var log := LogEntry(hostId, service, stamp, Or(Get(entry, "level"), Get(entry, "severity")),
                            Or(Get(entry, "message"), Get(entry, "msg")), entry);
        stored := stored + [log];
      }
      Whole(entries);
      rows := rows + stored;
    }
  }
}
