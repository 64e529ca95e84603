// The log helpers of the flat-file generation (backend/app/utils.py): splitting a
// fetched log into JSON records, estimating when a failure started, and laying the
// records out as a table. json.loads and dateutil's isoparse are opaque: `decode`
// gives json.loads(line) or None when it raises JSONDecodeError, and `parse` gives
// the datetime isoparse(str(value)) returns (naive or aware), or None when it raises.
module JsonLines {
  import opened Common
  import opened Text
  import LexOrder

  /** The record parse_json_lines keeps for one stripped, non-blank line. */
  function LineRecord(line: string, decode: string -> Option<Json>): Json {
    match decode(line)
    case Some(j) => j
    case None => Object(map["message" := Str(line)])
  }

  /** The records parse_json_lines keeps for `lines`, one each, in order. */
  function DecodeAll(lines: seq<string>, decode: string -> Option<Json>): (r: seq<Json>)
    ensures |r| == |lines|
  {
    if lines == [] then []
    else DecodeAll(lines[..|lines| - 1], decode) + [LineRecord(lines[|lines| - 1], decode)]
  }

  lemma {:induction false} DecodeAllAppend(a: seq<string>, b: seq<string>, decode: string -> Option<Json>)
    ensures DecodeAll(a + b, decode) == DecodeAll(a, decode) + DecodeAll(b, decode)
    decreases |b|
  {
    if b != [] {
      var n := |b| - 1;
      assert (a + b)[..|a + b| - 1] == a + b[..n];
      DecodeAllAppend(a, b[..n], decode);
    } else {
      assert a + b == a;
    }
  }

  lemma DecodeAllSnoc(lines: seq<string>, line: string, decode: string -> Option<Json>)
    ensures DecodeAll(lines + [line], decode) == DecodeAll(lines, decode) + [LineRecord(line, decode)]
  {
    assert (lines + [line])[..|lines|] == lines;
  }

  /**
   * Line k of the text yields record k: what json.loads returns for it, or
   * {"message": line} when json.loads rejects it.
   */
  lemma {:induction false} DecodeAllPointwise(lines: seq<string>, decode: string -> Option<Json>, k: nat)
    requires k < |lines|
    ensures DecodeAll(lines, decode)[k] ==
      if decode(lines[k]).Some? then decode(lines[k]).value else Object(map["message" := Str(lines[k])])
  {
    if k < |lines| - 1 {
      DecodeAllPointwise(lines[..|lines| - 1], decode, k);
    }
  }

  /**
   * parse_json_lines: one record per line of the text that is non-blank after strip(),
   * in order (the stripped line decoded).
   */
  method ParseJsonLines(logText: string, decode: string -> Option<Json>) returns (records: seq<Json>)
    ensures records == DecodeAll(NonBlankLines(logText), decode)
  {
    records := [];
    var pieces := LinePieces(logText);
    for i := 0 to |pieces|
      invariant records == DecodeAll(KeptLines(pieces[..i]), decode)
    {
      KeptLinesSnoc(pieces, i);
      var line := Strip(pieces[i]);
      if line == [] {
        continue;
      }
      DecodeAllSnoc(KeptLines(pieces[..i]), line, decode);
      records := records + [LineRecord(line, decode)];
    }
    Whole(pieces);
  }

  /** Parsing two logs joined by a line break gives the records of each, in order. */
  lemma DecodedLinesAppend(a: string, br: char, b: string, decode: string -> Option<Json>)
    requires IsLineBreak(br)
    ensures DecodeAll(NonBlankLines(a + [br] + b), decode)
      == DecodeAll(NonBlankLines(a), decode) + DecodeAll(NonBlankLines(b), decode)
  {
    NonBlankLinesAppend(a, br, b);
    DecodeAllAppend(NonBlankLines(a), NonBlankLines(b), decode);
  }

  /**
   * The dicts among `records` when every record is one; otherwise what calling the
   * dict method `attr` on the first record that is not a dict raises.
   */
  function Fields(records: seq<Json>, attr: string): (r: Result<seq<Record>>)
    ensures r.Ok? ==> |r.value| == |records|
    ensures r.Ok? ==> forall k | 0 <= k < |records| :: records[k] == Object(r.value[k])
    ensures r.Raised? <==> exists k | 0 <= k < |records| :: records[k].Other?
  {
    if records == [] then Ok([])
    else
      var prior := Fields(records[..|records| - 1], attr);
      var last := records[|records| - 1];
      if prior.Raised? then prior
      else if last.Other? then Raised(NoAttribute(last.v, attr))
      else Ok(prior.value + [last.fields])
  }

  /** Once a prefix raises, the whole sequence raises the same error. */
  lemma {:induction false} FieldsRaisedPrefix(records: seq<Json>, n: nat, attr: string)
    requires n <= |records| && Fields(records[..n], attr).Raised?
    ensures Fields(records, attr) == Fields(records[..n], attr)
    decreases |records| - n
  {
    if n < |records| {
      assert records[..n + 1][..n] == records[..n];
      FieldsRaisedPrefix(records, n + 1, attr);
    } else {
      assert records[..n] == records;
    }
  }

  /** The keys extract_failure_start looks at, in order. */
  const StampKeys: seq<string> := ["ts", "time", "timestamp", "date"]

  /** The datetimes found in one record under the keys in `keys`, in key order. */
  function KeyCandidates(f: Record, keys: seq<string>, parse: Value -> Option<Moment>): seq<Moment> {
    if keys == [] then []
    else
      var prior := KeyCandidates(f, keys[..|keys| - 1], parse);
      var v := Get(f, keys[|keys| - 1]);
      if Truthy(v) && parse(v).Some? then prior + [parse(v).value] else prior
  }

  /** The datetimes found in all records, in record order. */
  function Candidates(fs: seq<Record>, parse: Value -> Option<Moment>): seq<Moment> {
    if fs == [] then []
    else Candidates(fs[..|fs| - 1], parse) + KeyCandidates(fs[|fs| - 1], StampKeys, parse)
  }

  function Min(s: seq<int>): (m: int)
    requires s != []
    ensures m in s && forall x | x in s :: m <= x
  {
    if |s| == 1 then s[0]
    else
      var m' := Min(s[..|s| - 1]);
      assert s == s[..|s| - 1] + [s[|s| - 1]];
      if s[|s| - 1] < m' then s[|s| - 1] else m'
  }

  /** The text of the TypeError raised when a naive and an aware datetime are compared. */
  const CompareError: string := "can't compare offset-naive and offset-aware datetimes"

  /** What two datetimes of the same kind are ordered by. */
  function Reading(m: Moment): int {
    if m.Aware? then m.instant else m.wall
  }

  /** Some of the datetimes are naive and some are aware. */
  predicate Mixed(s: seq<Moment>) {
    exists i, j | 0 <= i < |s| && 0 <= j < |s| :: s[i].Naive? && s[j].Aware?
  }

  /**
   * Python's min() of a non-empty list of datetimes: the earliest, all of one kind;
   * a naive and an aware one cannot be compared and make it raise TypeError.
   */
  function Earliest(s: seq<Moment>): (r: Result<Moment>)
    requires s != []
    ensures r.Raised? <==> Mixed(s)
    ensures r.Raised? ==> r.error == CompareError
    ensures r.Ok? ==> r.value in s
    ensures r.Ok? ==> forall m | m in s :: m.Aware? == r.value.Aware? && Reading(r.value) <= Reading(m)
  {
    if |s| == 1 then Ok(s[0])
    else
      var n := |s| - 1;
      var prior := Earliest(s[..n]);
      assert s == s[..n] + [s[n]];
      if prior.Raised? then
        var i, j :| 0 <= i < n && 0 <= j < n && s[..n][i].Naive? && s[..n][j].Aware?;
        assert s[i] == s[..n][i] && s[j] == s[..n][j];
        prior
      else if s[n].Aware? != prior.value.Aware? then
        assert s[n] in s && prior.value in s;
        Raised(CompareError)
      else
        assert forall k | 0 <= k < |s| :: s[k] in s[..n] || k == n;
        if Reading(s[n]) < Reading(prior.value) then Ok(s[n]) else prior
  }

  /** What extract_failure_start returns, or what it raises. */
  function FailureStart(records: seq<Json>, parse: Value -> Option<Moment>): Result<Option<Moment>> {
    match Fields(records, "get")
    case Raised(e) => Raised(e)
    case Ok(fs) =>
      var c := Candidates(fs, parse);
      if c == [] then Ok(None)
      else
        match Earliest(c)
        case Raised(e) => Raised(e)
        case Ok(m) => Ok(Some(m))
  }

  /** extract_failure_start: the earliest parseable timestamp among the records. */
  method ExtractFailureStart(records: seq<Json>, parse: Value -> Option<Moment>) returns (r: Result<Option<Moment>>)
    ensures r == FailureStart(records, parse)
  {
    var timestamps: seq<Moment> := [];
    for i := 0 to |records|
      invariant Fields(records[..i], "get").Ok?
      invariant timestamps == Candidates(Fields(records[..i], "get").value, parse)
    {
      assert records[..i + 1][..i] == records[..i];
      var record := records[i];
      if record.Other? {
        r := Raised(NoAttribute(record.v, "get"));
        FieldsRaisedPrefix(records, i + 1, "get");
        return;
      }
      var found: seq<Moment> := [];
      for j := 0 to |StampKeys|
        invariant found == KeyCandidates(record.fields, StampKeys[..j], parse)
      {
        assert StampKeys[..j + 1][..j] == StampKeys[..j];
        var value := Get(record.fields, StampKeys[j]);
        if Truthy(value) {
          match parse(value)
          case None =>
          case Some(t) => found := found + [t];
        }
      }
      assert StampKeys[..|StampKeys|] == StampKeys;
      timestamps := timestamps + found;
    }
    Whole(records);
    if timestamps == [] {
      return Ok(None);
    }
    var earliest := Earliest(timestamps);
    if earliest.Raised? {
      return Raised(earliest.error);
    }
    r := Ok(Some(earliest.value));
  }

  /** `t` is parsed from a truthy value under one of the keys of one record. */
  ghost predicate IsCandidate(records: seq<Json>, t: Moment, parse: Value -> Option<Moment>) {
    exists k, key | 0 <= k < |records| && key in StampKeys ::
      records[k].Object? && Truthy(Get(records[k].fields, key)) && parse(Get(records[k].fields, key)) == Some(t)
  }

  lemma {:induction false} KeyCandidatesSound(f: Record, keys: seq<string>, parse: Value -> Option<Moment>, t: Moment)
    ensures t in KeyCandidates(f, keys, parse) <==>
      exists key | key in keys :: Truthy(Get(f, key)) && parse(Get(f, key)) == Some(t)
  {
    if keys != [] {
      var keys' := keys[..|keys| - 1];
      KeyCandidatesSound(f, keys', parse, t);
      assert keys == keys' + [keys[|keys| - 1]];
      assert forall key :: key in keys <==> key in keys' || key == keys[|keys| - 1];
    }
  }

  lemma {:induction false} CandidatesSound(records: seq<Json>, parse: Value -> Option<Moment>, t: Moment)
    requires Fields(records, "get").Ok?
    ensures t in Candidates(Fields(records, "get").value, parse) <==> IsCandidate(records, t, parse)
  {
    var fs := Fields(records, "get").value;
    if records != [] {
      var n := |records| - 1;
      assert fs[..n] == Fields(records[..n], "get").value;
      CandidatesSound(records[..n], parse, t);
      KeyCandidatesSound(fs[n], StampKeys, parse, t);
      if IsCandidate(records, t, parse) {
        var k, key :| 0 <= k < |records| && key in StampKeys && records[k].Object?
          && Truthy(Get(records[k].fields, key)) && parse(Get(records[k].fields, key)) == Some(t);
        if k < n {
          assert records[..n][k] == records[k];
        }
      }
      if IsCandidate(records[..n], t, parse) {
        var k, key :| 0 <= k < n && key in StampKeys && records[..n][k].Object?
          && Truthy(Get(records[..n][k].fields, key)) && parse(Get(records[..n][k].fields, key)) == Some(t);
        assert records[k] == records[..n][k];
      }
    }
  }

  /**
   * extract_failure_start returns None exactly when every record is a dict and none
   * holds a truthy, parseable value under ts, time, timestamp or date; unparseable
   * values are skipped, never fatal.
   */
  lemma NoneExactly(records: seq<Json>, parse: Value -> Option<Moment>)
    ensures FailureStart(records, parse) == Ok(None) <==>
      (forall k | 0 <= k < |records| :: records[k].Object?) && forall t :: !IsCandidate(records, t, parse)
  {
    if Fields(records, "get").Ok? {
      var c := Candidates(Fields(records, "get").value, parse);
      if c != [] {
        CandidatesSound(records, parse, c[0]);
      }
      forall t ensures !IsCandidate(records, t, parse) || c != [] {
        CandidatesSound(records, parse, t);
      }
    }
  }

  /**
   * Otherwise the result is one of the candidates, every candidate is of its kind
   * (naive or aware), and none is earlier.
   */
  lemma EarliestCandidate(records: seq<Json>, parse: Value -> Option<Moment>, t: Moment)
    requires FailureStart(records, parse) == Ok(Some(t))
    ensures IsCandidate(records, t, parse)
    ensures forall u | IsCandidate(records, u, parse) :: u.Aware? == t.Aware? && Reading(t) <= Reading(u)
  {
    CandidatesSound(records, parse, t);
    forall u | IsCandidate(records, u, parse) ensures u.Aware? == t.Aware? && Reading(t) <= Reading(u) {
      CandidatesSound(records, parse, u);
    }
  }

  /**
   * extract_failure_start raises exactly when a record is not a dict (AttributeError
   * on `.get`) or when every record is one and the candidates mix naive and aware
   * datetimes (TypeError from min()).
   */
  lemma RaisesExactly(records: seq<Json>, parse: Value -> Option<Moment>)
    ensures FailureStart(records, parse).Raised? <==>
      (exists k | 0 <= k < |records| :: records[k].Other?)
      || exists t, u | IsCandidate(records, t, parse) && IsCandidate(records, u, parse) :: t.Naive? && u.Aware?
    ensures FailureStart(records, parse).Raised? && (forall k | 0 <= k < |records| :: records[k].Object?) ==>
      FailureStart(records, parse).error == CompareError
  {
    if Fields(records, "get").Ok? {
      MixedCandidates(records, parse);
    }
  }

  /** The candidates mix naive and aware datetimes exactly when two records' stamps do. */
  lemma MixedCandidates(records: seq<Json>, parse: Value -> Option<Moment>)
    requires Fields(records, "get").Ok?
    ensures Mixed(Candidates(Fields(records, "get").value, parse)) <==>
      exists t, u | IsCandidate(records, t, parse) && IsCandidate(records, u, parse) :: t.Naive? && u.Aware?
  {
    if exists t, u | IsCandidate(records, t, parse) && IsCandidate(records, u, parse) :: t.Naive? && u.Aware? {
      var t, u :| IsCandidate(records, t, parse) && IsCandidate(records, u, parse) && t.Naive? && u.Aware?;
      MixedFromStamps(records, parse, t, u);
    }
    if Mixed(Candidates(Fields(records, "get").value, parse)) {
      StampsFromMixed(records, parse);
    }
  }

  lemma MixedFromStamps(records: seq<Json>, parse: Value -> Option<Moment>, t: Moment, u: Moment)
    requires Fields(records, "get").Ok?
    requires IsCandidate(records, t, parse) && IsCandidate(records, u, parse) && t.Naive? && u.Aware?
    ensures Mixed(Candidates(Fields(records, "get").value, parse))
  {
    var c := Candidates(Fields(records, "get").value, parse);
    CandidatesSound(records, parse, t);
    CandidatesSound(records, parse, u);
    var i :| 0 <= i < |c| && c[i] == t;
    var j :| 0 <= j < |c| && c[j] == u;
  }

  lemma StampsFromMixed(records: seq<Json>, parse: Value -> Option<Moment>)
    requires Fields(records, "get").Ok?
    requires Mixed(Candidates(Fields(records, "get").value, parse))
    ensures exists t, u | IsCandidate(records, t, parse) && IsCandidate(records, u, parse) :: t.Naive? && u.Aware?
  {
    var c := Candidates(Fields(records, "get").value, parse);
    var i, j :| 0 <= i < |c| && 0 <= j < |c| && c[i].Naive? && c[j].Aware?;
    CandidatesSound(records, parse, c[i]);
    CandidatesSound(records, parse, c[j]);
  }

  /** build_table's result: the sorted column names and one row per record. */
  datatype Table = Table(columns: seq<string>, rows: seq<map<string, string>>)

  /**
   * One row of the table: every column, holding str() of the record's value, or ""
   * where the record lacks the key.
   */
  function Row(columns: seq<string>, fields: Record): (row: map<string, string>)
    ensures forall c :: c in row <==> c in columns
    ensures forall c | c in row && c in fields :: row[c] == Show(fields[c])
    ensures forall c | c in row && c !in fields :: row[c] == ""
  {
    map c | c in columns :: if c in fields then Show(fields[c]) else ""
  }

  /** All keys of all records. */
  function KeyUnion(fs: seq<Record>): set<string> {
    if fs == [] then {} else KeyUnion(fs[..|fs| - 1]) + fs[|fs| - 1].Keys
  }

  lemma {:induction false} KeyUnionMembers(fs: seq<Record>, c: string)
    ensures c in KeyUnion(fs) <==> exists k | 0 <= k < |fs| :: c in fs[k]
  {
    if fs != [] {
      var n := |fs| - 1;
      KeyUnionMembers(fs[..n], c);
      if c in fs[n] {
      } else if exists k | 0 <= k < |fs| :: c in fs[k] {
        var k :| 0 <= k < |fs| && c in fs[k];
        assert fs[..n][k] == fs[k];
      }
    }
  }

  /** The union of the keys of all records (the first loop of build_table). */
  method ColumnKeys(records: seq<Json>) returns (r: Result<set<string>>)
    ensures r.Raised? <==> exists k | 0 <= k < |records| :: records[k].Other?
    ensures r.Raised? ==> r == Raised(Fields(records, "keys").error)
    ensures r.Ok? ==> forall c :: c in r.value <==> exists k | 0 <= k < |records| :: c in records[k].fields
  {
    var keys: set<string> := {};
    for i := 0 to |records|
      invariant Fields(records[..i], "keys").Ok?
      invariant keys == KeyUnion(Fields(records[..i], "keys").value)
    {
      assert records[..i + 1][..i] == records[..i];
      if records[i].Other? {
        FieldsRaisedPrefix(records, i + 1, "keys");
        return Raised(NoAttribute(records[i].v, "keys"));
      }
      keys := keys + records[i].fields.Keys;
    }
    Whole(records);
    var fs := Fields(records, "keys").value;
    forall c ensures c in keys <==> exists k | 0 <= k < |records| :: c in records[k].fields {
      KeyUnionMembers(fs, c);
    }
    r := Ok(keys);
  }

  /**
   * build_table: the columns are the sorted, duplicate-free union of all keys; one row
   * per record, in order, holding every column, with "" where the record lacks the key.
   * Each cell is str() of the record's value.
   */
  method BuildTable(records: seq<Json>) returns (r: Result<Table>)
    ensures r.Raised? <==> exists k | 0 <= k < |records| :: records[k].Other?
    ensures r.Raised? ==> r == Raised(Fields(records, "keys").error)
    ensures r.Ok? ==> LexOrder.StrictlyAscending(r.value.columns)
    ensures r.Ok? ==> forall c :: c in r.value.columns <==> exists k | 0 <= k < |records| :: c in records[k].fields
    ensures r.Ok? ==> |r.value.rows| == |records|
    ensures r.Ok? ==> forall k | 0 <= k < |records| :: r.value.rows[k] == Row(r.value.columns, records[k].fields)
  {
    var keys := ColumnKeys(records);
    if keys.Raised? {
      return Raised(keys.error);
    }
    var columns := LexOrder.SortStrings(keys.value);
    var rows: seq<map<string, string>> := [];
    for i := 0 to |records|
      invariant |rows| == i
      invariant forall k | 0 <= k < i :: rows[k] == Row(columns, records[k].fields)
    {
      rows := rows + [Row(columns, records[i].fields)];
    }
    r := Ok(Table(columns, rows));
  }
}
