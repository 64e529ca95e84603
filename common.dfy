// Shared vocabulary of the model: optional and raised results, the JSON values
// that the Python code handles as dicts, and Python's truthiness on them.
module Common {

  datatype Option<+T> = None | Some(value: T)

  /** The outcome of a Python call that either returns or raises; `error` is str(exc). */
  datatype Result<+T> = Ok(value: T) | Raised(error: string)

  /**
   * A datetime: an aware one is an instant; a naive one is a wall-clock reading in no
   * zone.
   */
  datatype Moment = Aware(instant: int) | Naive(wall: int)

  /**
   * pytz.timezone on a str: the zone when `knownZone` names it; otherwise
   * UnknownTimeZoneError, a KeyError, whose text is the quoted name.
   */
  function TimeZone(z: string, knownZone: string -> bool): Result<string> {
    if knownZone(z) then Ok(z) else Raised("'" + z + "'")
  }

  /** The outcome of a call whose return value is not used (a send, a sleep). */
  datatype Outcome = Done | Failed(error: string)

  /**
   * A JSON value as json.loads hands it to the code. A nested object only
   * matters through its truthiness and its iteration, so it carries its keys
   * in insertion order.
   */
  datatype Value =
    | Null
    | Bool(b: bool)
    | Int(i: int)
    | Str(s: string)
    | List(items: seq<Value>)
    | Obj(keys: seq<string>)

  /** Python's truth test: None, False, 0, "", [] and {} are false. */
  predicate Truthy(v: Value) {
    match v
    case Null => false
    case Bool(b) => b
    case Int(i) => i != 0
    case Str(s) => s != ""
    case List(items) => items != []
    case Obj(keys) => keys != []
  }

  /** A Python dict decoded from JSON. */
  type Record = map<string, Value>

  /** dict.get(key): the stored value, or None when the key is absent. */
  function Get(r: Record, key: string): Value {
    if key in r then r[key] else Null
  }

  /** A decoded JSON value that is not a dict: json.loads gives a dict as an Object. */
  type NonDict = v: Value | !v.Obj? witness Null

  /** What json.loads returns for one line: a dict, or any other JSON value. */
  datatype Json = Object(fields: Record) | Other(v: NonDict)

  /** Python's type(v).__name__ for a decoded JSON value that is not a dict. */
  function TypeName(v: Value): string {
    match v
    case Null => "NoneType"
    case Bool(_) => "bool"
    case Int(_) => "int"
    case Str(_) => "str"
    case List(_) => "list"
    case Obj(_) => "dict"
  }

  /** The text of the AttributeError raised by `v.<attr>` on a value without that method. */
  function NoAttribute(v: Value, attr: string): string {
    "'" + TypeName(v) + "' object has no attribute '" + attr + "'"
  }

  /** The number of elements of `s` that satisfy `p`. */
  function CountWhere<T>(s: seq<T>, p: T -> bool): (n: nat)
    ensures n <= |s|
  {
    if s == [] then 0 else CountWhere(s[..|s| - 1], p) + (if p(s[|s| - 1]) then 1 else 0)
  }

  /** Counting over one more element. */
  lemma CountWhereSnoc<T>(s: seq<T>, i: nat, p: T -> bool)
    requires i < |s|
    ensures CountWhere(s[..i + 1], p) == CountWhere(s[..i], p) + (if p(s[i]) then 1 else 0)
  {
    assert s[..i + 1][..i] == s[..i];
  }

  /** A predicate that holds wherever another does counts at least as many elements. */
  lemma {:induction false} CountWhereMono<T>(s: seq<T>, p: T -> bool, q: T -> bool)
    requires forall x :: p(x) ==> q(x)
    ensures CountWhere(s, p) <= CountWhere(s, q)
  {
    if s != [] {
      CountWhereMono(s[..|s| - 1], p, q);
    }
  }

  /** The slice up to the length is the whole sequence. */
  lemma Whole<T>(s: seq<T>)
    ensures s[..|s|] == s
  {
  }

  /** Python's `s[:n]` for an int n (a negative n drops |n| elements from the end). */
  function PyPrefix<T>(s: seq<T>, n: int): (r: seq<T>)
    ensures n >= 0 ==> |r| == if n < |s| then n else |s|
    ensures n < 0 ==> |r| == if |s| + n > 0 then |s| + n else 0
    ensures r <= s
  {
    if n >= 0 then (if n < |s| then s[..n] else s)
    else if |s| + n > 0 then s[..|s| + n] else []
  }
}

// String functions with Python's semantics: str.isspace, str.strip, str.splitlines,
// str.join and str(int).
module Text {
  import opened Common


  /** Python's str.isspace() for one character. */
  predicate IsSpace(c: char) {
    c == ' ' || ('\t' <= c <= '\r') || ('\U{1c}' <= c <= '\U{1f}') || c == '\U{85}' || c == '\U{a0}'
    || c == '\U{1680}' || ('\U{2000}' <= c <= '\U{200a}') || c == '\U{2028}' || c == '\U{2029}'
    || c == '\U{202f}' || c == '\U{205f}' || c == '\U{3000}'
  }

  /** The characters at which Python's str.splitlines() ends a line. */
  predicate IsLineBreak(c: char) {
    c == '\n' || c == '\r' || c == '\U{b}' || c == '\U{c}' || ('\U{1c}' <= c <= '\U{1e}')
    || c == '\U{85}' || c == '\U{2028}' || c == '\U{2029}'
  }

  /**
   * The text between line-break characters. Unlike str.splitlines(), "\r\n" gives
   * an extra empty piece and a final break gives a final empty piece; every caller
   * drops blank pieces, so the lines they keep are the same (SplitLinesKept).
   */
  function LinePieces(s: string): (r: seq<string>)
    ensures |r| >= 1
    ensures forall k | 0 <= k < |r| :: forall c | c in r[k] :: !IsLineBreak(c)
  {
    if s == [] then [[]]
    else
      var tail := LinePieces(s[1..]);
      if IsLineBreak(s[0]) then [[]] + tail else [[s[0]] + tail[0]] + tail[1..]
  }

  function TrimStart(s: string): (r: string)
    ensures |r| <= |s|
    ensures r == s[|s| - |r|..]
    ensures r != [] ==> !IsSpace(r[0])
    ensures forall k | 0 <= k < |s| - |r| :: IsSpace(s[k])
  {
    if s != [] && IsSpace(s[0]) then TrimStart(s[1..]) else s
  }

  function TrimEnd(s: string): (r: string)
    ensures |r| <= |s|
    ensures r == s[..|r|]
    ensures r != [] ==> !IsSpace(r[|r| - 1])
    ensures forall k | |r| <= k < |s| :: IsSpace(s[k])
  {
    if s != [] && IsSpace(s[|s| - 1]) then TrimEnd(s[..|s| - 1]) else s
  }

  /** Python's str.strip(): leading and trailing whitespace removed. */
  function Strip(s: string): (r: string)
    ensures |r| <= |s|
    ensures r != [] ==> !IsSpace(r[0]) && !IsSpace(r[|r| - 1])
    ensures r == [] <==> forall c | c in s :: IsSpace(c)
  {
    var t := TrimStart(s);
    var r := TrimEnd(t);
    assert t != [] ==> IsSpace(t[0]) || r != [];
    assert r != [] ==> r[0] in s by {
      if r != [] { assert r[0] == t[0] == s[|s| - |t|]; }
    }
    r
  }

  /**
   * str.strip() keeps one contiguous run of `s`, and everything it removes before or
   * after that run is whitespace.
   */
  lemma StripIsSlice(s: string)
    ensures exists i, j | 0 <= i <= j <= |s| ::
      && Strip(s) == s[i..j]
      && (forall k | 0 <= k < i :: IsSpace(s[k]))
      && (forall k | j <= k < |s| :: IsSpace(s[k]))
  {
    var t := TrimStart(s);
    var r := TrimEnd(t);
    var i, j := |s| - |t|, |s| - |t| + |r|;
    assert t == s[i..];
    assert r == t[..|r|];
    assert r == s[i..j];
    forall k | j <= k < |s| ensures IsSpace(s[k]) {
      assert s[k] == t[k - i];
    }
  }

  /** The stripped, non-blank lines among `pieces`, in order. */
  function KeptLines(pieces: seq<string>): (r: seq<string>)
    ensures |r| <= |pieces|
    ensures forall k | 0 <= k < |r| :: r[k] != []
  {
    if pieces == [] then [] else Kept(pieces[0]) + KeptLines(pieces[1..])
  }

  /** One piece as `line.strip()` keeps it: nothing when it is blank, else the stripped line. */
  function Kept(piece: string): (r: seq<string>)
    ensures |r| <= 1
    ensures forall k | 0 <= k < |r| :: r[k] != []
  {
    var line := Strip(piece);
    if line == [] then [] else [line]
  }

  /** The lines of `text` that are not blank after str.strip(), stripped, in order. */
  function NonBlankLines(text: string): seq<string> {
    KeptLines(LinePieces(text))
  }

  lemma {:induction false} KeptLinesAppend(a: seq<string>, b: seq<string>)
    ensures KeptLines(a + b) == KeptLines(a) + KeptLines(b)
  {
    if a != [] {
      assert (a + b)[0] == a[0];
      assert (a + b)[1..] == a[1..] + b;
      KeptLinesAppend(a[1..], b);
      assert Kept(a[0]) + (KeptLines(a[1..]) + KeptLines(b)) == (Kept(a[0]) + KeptLines(a[1..])) + KeptLines(b);
    } else {
      assert a + b == b;
    }
  }

  /** Extending the pieces by one keeps one more line exactly when that piece is not blank. */
  lemma KeptLinesSnoc(pieces: seq<string>, i: nat)
    requires i < |pieces|
    ensures Strip(pieces[i]) == [] ==> KeptLines(pieces[..i + 1]) == KeptLines(pieces[..i])
    ensures Strip(pieces[i]) != [] ==> KeptLines(pieces[..i + 1]) == KeptLines(pieces[..i]) + [Strip(pieces[i])]
  {
    assert pieces[..i + 1] == pieces[..i] + [pieces[i]];
    KeptLinesAppend(pieces[..i], [pieces[i]]);
    assert [pieces[i]][1..] == [];
    assert KeptLines(pieces[..i]) + [] == KeptLines(pieces[..i]);
  }

  lemma {:induction false} LinePiecesAppend(a: string, br: char, b: string)
    requires IsLineBreak(br)
    ensures LinePieces(a + [br] + b) == LinePieces(a) + LinePieces(b)
  {
    if a == [] {
      assert a + [br] + b == [br] + b;
      assert ([br] + b)[1..] == b;
    } else {
      var s := a + [br] + b;
      assert s[0] == a[0];
      assert s[1..] == a[1..] + [br] + b;
      LinePiecesAppend(a[1..], br, b);
    }
  }

  /** The index of the first line break in `s`, or |s| when there is none. */
  function BreakAt(s: string): (k: nat)
    ensures k <= |s| && forall i | 0 <= i < k :: !IsLineBreak(s[i])
    ensures k < |s| ==> IsLineBreak(s[k])
  {
    if s == [] || IsLineBreak(s[0]) then 0 else 1 + BreakAt(s[1..])
  }

  /**
   * Python's str.splitlines(): the lines without their breaks, "\r\n" ending a line
   * as one break, and no line after a final break (so "" has none).
   */
  function SplitLines(s: string): (r: seq<string>)
    ensures forall k | 0 <= k < |r| :: forall c | c in r[k] :: !IsLineBreak(c)
    decreases |s|
  {
    if s == [] then []
    else
      var k := BreakAt(s);
      if k == |s| then [s]
      else
        [s[..k]] + SplitLines(s[LineEnd(s, k)..])
  }

  lemma {:induction false} LinePiecesUnbroken(s: string)
    requires forall i | 0 <= i < |s| :: !IsLineBreak(s[i])
    ensures LinePieces(s) == [s]
  {
    if s != [] {
      assert forall i | 0 <= i < |s| - 1 :: s[1..][i] == s[i + 1];
      LinePiecesUnbroken(s[1..]);
      assert [s[0]] + s[1..] == s;
    }
  }

  lemma KeptLinesCons(head: string, rest: seq<string>)
    ensures KeptLines([head] + rest) == Kept(head) + KeptLines(rest)
  {
    assert ([head] + rest)[1..] == rest;
  }

  /** An unbroken first line, then a break: that line and the lines after the break. */
  lemma NonBlankLinesCons(head: string, br: char, rest: string)
    requires IsLineBreak(br) && forall i | 0 <= i < |head| :: !IsLineBreak(head[i])
    ensures NonBlankLines(head + [br] + rest) == Kept(head) + NonBlankLines(rest)
  {
    LinePiecesAppend(head, br, rest);
    LinePiecesUnbroken(head);
    KeptLinesCons(head, LinePieces(rest));
  }

  /**
   * The pieces between break characters keep the same non-blank lines as
   * str.splitlines(): the pieces differ only by blank ones (the empty text, the empty
   * piece inside "\r\n", the empty piece after a final break).
   */
  lemma {:induction false} SplitLinesKept(s: string)
    ensures KeptLines(SplitLines(s)) == NonBlankLines(s)
    decreases |s|
  {
    if s == [] {
      assert KeptLines(LinePieces(s)) == Kept([]) + KeptLines([]);
    } else {
      var k := BreakAt(s);
      if k == |s| {
        LinePiecesUnbroken(s);
      } else {
        var next := LineEnd(s, k);
        SplitLinesKept(s[next..]);
        SplitLinesFirst(s, k);
        NonBlankLinesFirst(s, k);
      }
    }
  }

  /** Where the text after the first break starts: past "\r\n" as one break. */
  function LineEnd(s: string, k: nat): (next: nat)
    requires k < |s|
    ensures k < next <= |s|
  {
    if s[k] == '\r' && k + 1 < |s| && s[k + 1] == '\n' then k + 2 else k + 1
  }

  lemma SplitLinesFirst(s: string, k: nat)
    requires k == BreakAt(s) < |s|
    ensures KeptLines(SplitLines(s)) == Kept(s[..k]) + KeptLines(SplitLines(s[LineEnd(s, k)..]))
  {
    assert SplitLines(s) == [s[..k]] + SplitLines(s[LineEnd(s, k)..]);
    KeptLinesCons(s[..k], SplitLines(s[LineEnd(s, k)..]));
  }

  lemma NonBlankLinesFirst(s: string, k: nat)
    requires k == BreakAt(s) < |s|
    ensures NonBlankLines(s) == Kept(s[..k]) + NonBlankLines(s[LineEnd(s, k)..])
  {
    BeforeBreak(s, k);
    AroundIndex(s, k);
    NonBlankLinesCons(s[..k], s[k], s[k + 1..]);
    if LineEnd(s, k) == k + 2 {
      NonBlankLinesBreak(s[k + 1..]);
    }
  }

  /** The text up to its first break holds no break. */
  lemma BeforeBreak(s: string, k: nat)
    requires k == BreakAt(s) < |s|
    ensures forall i | 0 <= i < k :: !IsLineBreak(s[..k][i])
  {
  }

  lemma AroundIndex(s: string, k: nat)
    requires k < |s|
    ensures s == s[..k] + [s[k]] + s[k + 1..]
  {
  }

  /** A leading line break adds no line. */
  lemma NonBlankLinesBreak(s: string)
    requires s != [] && IsLineBreak(s[0])
    ensures NonBlankLines(s) == NonBlankLines(s[1..])
  {
    assert s == [] + [s[0]] + s[1..];
    NonBlankLinesCons([], s[0], s[1..]);
    assert Kept([]) == [];
  }

  /** Splitting two texts joined by a line break gives the lines of each, in order. */
  lemma NonBlankLinesAppend(a: string, br: char, b: string)
    requires IsLineBreak(br)
    ensures NonBlankLines(a + [br] + b) == NonBlankLines(a) + NonBlankLines(b)
  {
    LinePiecesAppend(a, br, b);
    KeptLinesAppend(LinePieces(a), LinePieces(b));
  }

  /** Python's sep.join(parts). */
  function Join(sep: string, parts: seq<string>): string {
    if parts == [] then ""
    else if |parts| == 1 then parts[0]
    else Join(sep, parts[..|parts| - 1]) + sep + parts[|parts| - 1]
  }

  /** Joining two non-empty lists is joining each and putting one separator between. */
  lemma {:induction false} JoinAppend(sep: string, a: seq<string>, b: seq<string>)
    requires a != [] && b != []
    ensures Join(sep, a + b) == Join(sep, a) + sep + Join(sep, b)
  {
    if |b| == 1 {
      assert (a + b)[..|a + b| - 1] == a;
    } else {
      var b' := b[..|b| - 1];
      assert (a + b)[..|a + b| - 1] == a + b';
      JoinAppend(sep, a, b');
    }
  }

  function DigitChar(d: nat): (c: char)
    requires d < 10
    ensures '0' <= c <= '9'
  {
    "0123456789"[d]
  }

  /** Python's str(n) for a non-negative int: decimal digits, no leading zero. */
  function NatToString(n: nat): (r: string)
    ensures r != [] && forall c | c in r :: '0' <= c <= '9'
    ensures |r| > 1 ==> r[0] != '0'
  {
    if n < 10 then [DigitChar(n)] else NatToString(n / 10) + [DigitChar(n % 10)]
  }

  /** Python's str(i) for an int. */
  function IntToString(i: int): (r: string)
    ensures r != []
    ensures (r[0] == '-') <==> i < 0
  {
    if i < 0 then "-" + NatToString(-i)
    else
      var r := NatToString(i);
      assert r[0] in r;
      r
  }

  /**
   * Python's str() of a decoded JSON scalar. Lists and dicts are not rendered here:
   * the model gives them the empty text.
   */
  function Show(v: Value): string {
    match v
    case Null => "None"
    case Bool(b) => if b then "True" else "False"
    case Int(i) => IntToString(i)
    case Str(s) => s
    case List(_) => ""
    case Obj(_) => ""
  }
}

// Python's comparison of str values: code point by code point, a proper prefix first.
module LexOrder {

  predicate Le(a: string, b: string)
    decreases |a|
  {
    a == [] || (b != [] && (a[0] < b[0] || (a[0] == b[0] && Le(a[1..], b[1..]))))
  }

  predicate Lt(a: string, b: string) {
    Le(a, b) && a != b
  }

  lemma {:induction false} Reflexive(a: string)
    ensures Le(a, a)
    decreases |a|
  {
    if a != [] { Reflexive(a[1..]); }
  }

  lemma {:induction false} Total(a: string, b: string)
    ensures Le(a, b) || Le(b, a)
    decreases |a|
  {
    if a != [] && b != [] && a[0] == b[0] { Total(a[1..], b[1..]); }
  }

  lemma {:induction false} Transitive(a: string, b: string, c: string)
    requires Le(a, b) && Le(b, c)
    ensures Le(a, c)
    decreases |a|
  {
    if a != [] && a[0] == b[0] && b[0] == c[0] { Transitive(a[1..], b[1..], c[1..]); }
  }

  lemma {:induction false} Antisymmetric(a: string, b: string)
    requires Le(a, b) && Le(b, a)
    ensures a == b
    decreases |a|
  {
    if a != [] {
      Antisymmetric(a[1..], b[1..]);
      assert a == [a[0]] + a[1..];
      assert b == [b[0]] + b[1..];
    }
  }

  /** Not a <= b means b < a. */
  lemma NotLe(a: string, b: string)
    requires !Le(a, b)
    ensures Lt(b, a)
  {
    Total(a, b);
    if b == a { Reflexive(a); }
  }

  predicate StrictlyAscending(s: seq<string>) {
    forall i, j | 0 <= i < j < |s| :: Lt(s[i], s[j])
  }

  /** Every finite non-empty set of strings has a least element. */
  lemma {:induction false} MinExists(s: set<string>)
    requires s != {}
    ensures exists m :: m in s && forall y | y in s :: Le(m, y)
    decreases |s|
  {
    var x :| x in s;
    if s == {x} {
      Reflexive(x);
      assert forall y | y in s :: Le(x, y);
    } else {
      MinExists(s - {x});
      var m' :| m' in s - {x} && forall y | y in s - {x} :: Le(m', y);
      if Le(x, m') {
        forall y | y in s ensures Le(x, y) {
          if y == x { Reflexive(x); } else { Transitive(x, m', y); }
        }
      } else {
        NotLe(x, m');
        forall y | y in s ensures Le(m', y) {
          if y != x { assert y in s - {x}; }
        }
        assert m' in s;
      }
    }
  }

  /** Python's sorted() applied to a set of str: every member once, in ascending order. */
  method SortStrings(s: set<string>) returns (r: seq<string>)
    ensures StrictlyAscending(r)
    ensures forall x :: x in r <==> x in s
    ensures |r| == |s|
  {
    r := [];
    var rest := s;
    while rest != {}
      invariant rest <= s
      invariant forall x :: x in s <==> x in r || x in rest
      invariant StrictlyAscending(r)
      invariant forall i, y | 0 <= i < |r| && y in rest :: Lt(r[i], y)
      invariant |r| + |rest| == |s|
      decreases |rest|
    {
      MinExists(rest);
      var m :| m in rest && forall y | y in rest :: Le(m, y);
      forall i, y | 0 <= i < |r| && y in rest - {m} ensures Lt(r[i], y) && Lt(m, y) {
        if Le(y, m) { Antisymmetric(y, m); }
      }
      r := r + [m];
      rest := rest - {m};
    }
  }
}
