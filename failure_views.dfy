// The view helpers of the failures router (backend/app/routers/failures.py): how a
// stored file path becomes a public /media URL, how a failure event is serialised
// for the API, how recent files are picked without repeats, and how the latest
// screenshots and logs of a host are labelled.
//
// The file system is an input: `resolve` is Path.resolve() and `dataDir` the
// resolved DATA_DIR; the screenshot and log files a glob finds are given already
// sorted newest first.
module FailureViews {
  import opened Common
  import opened Text
  import CheckService

  /** DATA_DIR / rel. */
  function Joined(base: string, rel: string): string {
    if base == "/" then "/" + rel else base + "/" + rel
  }

  predicate IsAbsolute(p: string) {
    |p| > 0 && p[0] == '/'
  }

  /** The resolved candidate of _public_media_path: a relative path is taken under DATA_DIR. */
  function Resolved(raw: string, dataDir: string, resolve: string -> string): string {
    if IsAbsolute(raw) then resolve(raw) else resolve(Joined(dataDir, raw))
  }

  /**
   * Path.relative_to on resolved paths: "." for the directory itself, the rest of
   * the path for anything inside it, and nothing (the ValueError) otherwise.
   */
  function RelativeTo(p: string, base: string): (r: Option<string>)
    ensures p == base ==> r == Some(".")
    ensures r.Some? && p != base ==> r.value != "" && Joined(base, r.value) == p
  {
    if p == base then Some(".")
    else if base == "/" then
      if |p| > 1 && p[0] == '/' then Some(p[1..]) else None
    else if |p| > |base| + 1 && p[..|base|] == base && p[|base|] == '/' then Some(p[|base| + 1..])
    else None
  }

  /** Every path under the directory is found there again. */
  lemma RelativeJoined(base: string, rel: string)
    requires rel != ""
    ensures RelativeTo(Joined(base, rel), base) == Some(rel)
  {
    var p := Joined(base, rel);
    if base != "/" {
      assert p[..|base|] == base;
      assert p[|base| + 1..] == rel;
    } else {
      assert p[1..] == rel;
    }
  }

  /**
   * _public_media_path: nothing for a missing or empty path or for one that
   * resolves outside DATA_DIR; otherwise "/media/" and the path below DATA_DIR, so
   * that the URL leads back to the resolved file.
   */
  function PublicMediaPath(raw: Option<string>, dataDir: string, resolve: string -> string): (r: Option<string>)
    ensures raw.None? || raw.value == "" ==> r.None?
    ensures r.Some? ==>
      && raw.Some? && raw.value != ""
      && |r.value| > 7 && r.value[..7] == "/media/"
      && var c := Resolved(raw.value, dataDir, resolve);
         && (c == dataDir ==> r.value == "/media/.")
         && (c != dataDir ==> Joined(dataDir, r.value[7..]) == c)
  {
    if raw.None? || raw.value == "" then None
    else
      match RelativeTo(Resolved(raw.value, dataDir, resolve), dataDir)
      case None => None
      case Some(rel) =>
        var url := "/media/" + rel;
        assert url[..7] == "/media/" && url[7..] == rel;
        Some(url)
  }

  /** A path that resolves inside DATA_DIR is published under its relative path. */
  lemma PublicMediaInside(raw: string, dataDir: string, resolve: string -> string, rel: string)
    requires raw != "" && rel != "" && Resolved(raw, dataDir, resolve) == Joined(dataDir, rel)
    ensures PublicMediaPath(Some(raw), dataDir, resolve) == Some("/media/" + rel)
  {
    RelativeJoined(dataDir, rel);
  }

  /** The `log_files` comprehension of _serialize_failure: the URLs of the files that have one, in order. */
  function PublicPaths(files: seq<string>, dataDir: string, resolve: string -> string): (r: seq<string>)
    ensures |r| <= |files|
  {
    if files == [] then []
    else
      var n := |files| - 1;
      var prior := PublicPaths(files[..n], dataDir, resolve);
      match PublicMediaPath(Some(files[n]), dataDir, resolve)
      case None => prior
      case Some(url) => prior + [url]
  }

  /** Every URL listed is the URL of one of the files. */
  lemma {:induction false} PublicPathsSound(files: seq<string>, dataDir: string, resolve: string -> string)
    ensures forall u | u in PublicPaths(files, dataDir, resolve) ::
      exists f | f in files :: PublicMediaPath(Some(f), dataDir, resolve) == Some(u)
  {
    if files != [] {
      var n := |files| - 1;
      PublicPathsSound(files[..n], dataDir, resolve);
      assert forall f | f in files[..n] :: f in files;
      assert files[n] in files;
    }
  }

  /** Every file that has a URL has it listed. */
  lemma {:induction false} PublicPathsComplete(files: seq<string>, dataDir: string, resolve: string -> string)
    ensures forall f | f in files && PublicMediaPath(Some(f), dataDir, resolve).Some? ::
      PublicMediaPath(Some(f), dataDir, resolve).value in PublicPaths(files, dataDir, resolve)
  {
    if files != [] {
      var n := |files| - 1;
      PublicPathsComplete(files[..n], dataDir, resolve);
      assert forall f | f in files :: f in files[..n] || f == files[n];
    }
  }

  /** The URL of one file, as a list of at most one. */
  function UrlOf(f: string, dataDir: string, resolve: string -> string): seq<string> {
    match PublicMediaPath(Some(f), dataDir, resolve)
    case None => []
    case Some(url) => [url]
  }

  /** The last file contributes its URL, if it has one, at the end. */
  lemma PublicPathsSnoc(files: seq<string>, dataDir: string, resolve: string -> string)
    requires files != []
    ensures PublicPaths(files, dataDir, resolve) ==
      PublicPaths(files[..|files| - 1], dataDir, resolve) + UrlOf(files[|files| - 1], dataDir, resolve)
  {
  }

  /** Order is kept: the URLs of two lists one after the other are the two lists' URLs. */
  lemma {:induction false} PublicPathsAppend(a: seq<string>, b: seq<string>, dataDir: string, resolve: string -> string)
    ensures PublicPaths(a + b, dataDir, resolve) == PublicPaths(a, dataDir, resolve) + PublicPaths(b, dataDir, resolve)
    decreases |b|
  {
    if b != [] {
      var n := |b| - 1;
      var ab := a + b;
      assert ab[..|ab| - 1] == a + b[..n];
      assert ab[|ab| - 1] == b[n];
      PublicPathsSnoc(ab, dataDir, resolve);
      PublicPathsSnoc(b, dataDir, resolve);
      PublicPathsAppend(a, b[..n], dataDir, resolve);
      var pa, pb, u := PublicPaths(a, dataDir, resolve), PublicPaths(b[..n], dataDir, resolve), UrlOf(b[n], dataDir, resolve);
      assert (pa + pb) + u == pa + (pb + u);
    } else {
      assert a + b == a;
    }
  }

  /**
   * _serialize_failure: the event with its screenshots and log files published;
   * every other field is copied.
   */
  function SerializeFailure(e: CheckService.FailureEvent, dataDir: string, resolve: string -> string)
    : (p: CheckService.FailureEvent)
    ensures p.id == e.id && p.hostId == e.hostId && p.failureCount == e.failureCount && p.cameraIds == e.cameraIds
    ensures p.failureStart == e.failureStart && p.createdAt == e.createdAt
    ensures p.firstScreenshot.Some? ==> e.firstScreenshot.Some? && |p.firstScreenshot.value| > 7 && p.firstScreenshot.value[..7] == "/media/"
    ensures p.secondScreenshot.Some? ==> e.secondScreenshot.Some? && |p.secondScreenshot.value| > 7 && p.secondScreenshot.value[..7] == "/media/"
    ensures |p.logFiles| <= |e.logFiles|
    ensures forall u | u in p.logFiles :: exists f | f in e.logFiles :: PublicMediaPath(Some(f), dataDir, resolve) == Some(u)
    ensures p.firstScreenshot == PublicMediaPath(e.firstScreenshot, dataDir, resolve)
    ensures p.secondScreenshot == PublicMediaPath(e.secondScreenshot, dataDir, resolve)
    ensures p.logFiles == PublicPaths(e.logFiles, dataDir, resolve)
  {
    PublicPathsSound(e.logFiles, dataDir, resolve);
    e.(firstScreenshot := PublicMediaPath(e.firstScreenshot, dataDir, resolve),
       secondScreenshot := PublicMediaPath(e.secondScreenshot, dataDir, resolve),
       logFiles := PublicPaths(e.logFiles, dataDir, resolve))
  }

  /** No item occurs twice. */
  predicate NoRepeats(s: seq<string>) {
    forall i, j | 0 <= i < j < |s| :: s[i] != s[j]
  }

  /** Where `x` first occurs in `s`. */
  function FirstIndex(s: seq<string>, x: string): (k: nat)
    requires x in s
    ensures k < |s| && s[k] == x && x !in s[..k]
  {
    if s[0] == x then 0
    else
      assert x in s[1..];
      var k := FirstIndex(s[1..], x);
      assert s[..k + 1] == [s[0]] + s[1..][..k];
      k + 1
  }

  /** Extending a list does not move the first occurrence of an item it already has. */
  lemma FirstIndexPrefix(s: seq<string>, n: nat, x: string)
    requires n <= |s| && x in s[..n]
    ensures FirstIndex(s, x) == FirstIndex(s[..n], x)
  {
    var k := FirstIndex(s[..n], x);
    assert s[..n][..k] == s[..k];
  }

  /**
   * The non-empty items of `s`, each once, in the order of their first occurrence in
   * `s`.
   */
  function Distinct(s: seq<string>): (r: seq<string>)
    ensures |r| <= |s|
    ensures forall x :: x in r <==> x in s && x != ""
    ensures NoRepeats(r)
    ensures forall i, j | 0 <= i < j < |r| :: FirstIndex(s, r[i]) < FirstIndex(s, r[j])
  {
    if s == [] then []
    else
      var n := |s| - 1;
      var prior := Distinct(s[..n]);
      assert forall x :: x in s <==> x in s[..n] || x == s[n];
      forall x | x in prior ensures FirstIndex(s, x) == FirstIndex(s[..n], x) < n {
        FirstIndexPrefix(s, n, x);
      }
      if s[n] != "" && s[n] !in prior then
        assert s[n] !in s[..n];
        assert FirstIndex(s, s[n]) == n;
        prior + [s[n]]
      else prior
  }

  /** The distinct items of a prefix are a prefix of the distinct items of the whole. */
  lemma {:induction false} DistinctPrefix(s: seq<string>, k: nat)
    requires k <= |s|
    ensures Distinct(s[..k]) <= Distinct(s)
    decreases |s| - k
  {
    if k < |s| {
      DistinctStep(s, k);
      DistinctPrefix(s, k + 1);
    } else {
      assert s[..k] == s;
    }
  }

  /** `a` is `b` with some items left out. */
  predicate IsSubsequence(a: seq<string>, b: seq<string>)
    decreases |b|
  {
    if a == [] then true
    else if b == [] then false
    else if a[|a| - 1] == b[|b| - 1] then IsSubsequence(a[..|a| - 1], b[..|b| - 1])
    else IsSubsequence(a, b[..|b| - 1])
  }

  /** Distinct keeps the items in the order they came. */
  lemma {:induction false} DistinctSubsequence(s: seq<string>)
    ensures IsSubsequence(Distinct(s), s)
  {
    if s != [] {
      var n := |s| - 1;
      DistinctSubsequence(s[..n]);
      var prior := Distinct(s[..n]);
      assert s[..n] + [s[n]] == s;
      if s[n] != "" && s[n] !in prior {
        assert (prior + [s[n]])[..|prior|] == prior;
      } else {
        SubsequenceExtend(prior, s[..n], s[n]);
      }
    }
  }

  /** An item more at the end of the longer list keeps a subsequence one. */
  lemma {:induction false} SubsequenceExtend(a: seq<string>, b: seq<string>, x: string)
    requires IsSubsequence(a, b)
    ensures IsSubsequence(a, b + [x])
    decreases |b|, 1
  {
    var t := b + [x];
    assert t[..|t| - 1] == b;
    if a != [] && a[|a| - 1] == x {
      SubsequenceDropLast(a, b);
    }
  }

  /** Leaving out the last item of a subsequence keeps a subsequence. */
  lemma {:induction false} SubsequenceDropLast(a: seq<string>, b: seq<string>)
    requires a != [] && IsSubsequence(a, b)
    ensures IsSubsequence(a[..|a| - 1], b)
    decreases |b|, 0
  {
    var m := |a| - 1;
    var n := |b| - 1;
    assert b[..n] + [b[n]] == b;
    if a[m] == b[n] {
      SubsequenceExtend(a[..m], b[..n], b[n]);
    } else {
      SubsequenceDropLast(a, b[..n]);
      SubsequenceExtend(a[..m], b[..n], b[n]);
    }
  }

  /** A growing prefix adds at most one distinct item. */
  lemma DistinctStep(s: seq<string>, n: nat)
    requires n < |s|
    ensures |Distinct(s[..n + 1])| <= |Distinct(s[..n])| + 1
    ensures Distinct(s[..n + 1]) == Distinct(s[..n]) + (if s[n] != "" && s[n] !in Distinct(s[..n]) then [s[n]] else [])
  {
    assert s[..n + 1][..n] == s[..n];
  }

  /**
   * How far the loop of _gather_recent_files reads from item `n` on: up to and
   * including the first item after which `limit` paths were gathered, else all.
   */
  function Stop(paths: seq<string>, limit: int, n: nat): (k: nat)
    requires n <= |paths|
    ensures n <= k <= |paths|
    ensures forall m | n < m < k :: |Distinct(paths[..m])| < limit
    ensures k < |paths| ==> n < k && |Distinct(paths[..k])| >= limit
    decreases |paths| - n
  {
    if n == |paths| then n
    else if |Distinct(paths[..n + 1])| >= limit then n + 1
    else Stop(paths, limit, n + 1)
  }

  /** What _gather_recent_files returns. */
  function Gathered(paths: seq<string>, limit: int): seq<string> {
    Distinct(paths[..Stop(paths, limit, 0)])
  }

  /**
   * The recent files are the first distinct non-empty paths, in order of first
   * occurrence, at most `limit` of them (at most one when the limit is not positive);
   * fewer than `limit` only when every path was read.
   */
  lemma GatheredMeaning(paths: seq<string>, limit: int)
    ensures var r := Gathered(paths, limit);
      && NoRepeats(r) && "" !in r && IsSubsequence(r, paths)
      && r <= Distinct(paths)
      && (limit >= 1 ==> |r| <= limit) && (limit < 1 ==> |r| <= 1)
      && (|r| < limit ==> r == Distinct(paths))
  {
    var k := Stop(paths, limit, 0);
    DistinctPrefix(paths, k);
    DistinctSubsequence(paths[..k]);
    PrefixSubsequence(Gathered(paths, limit), paths, k);
    GatheredSize(paths, limit);
    if k == |paths| {
      assert paths[..k] == paths;
    }
  }

  /** The bound on how many paths are gathered. */
  lemma GatheredSize(paths: seq<string>, limit: int)
    ensures limit >= 1 ==> |Gathered(paths, limit)| <= limit
    ensures limit < 1 ==> |Gathered(paths, limit)| <= 1
  {
    var k := Stop(paths, limit, 0);
    if k > 0 {
      DistinctStep(paths, k - 1);
      if k - 1 == 0 {
        assert paths[..0] == [];
      } else {
        assert |Distinct(paths[..k - 1])| < limit;
      }
    } else {
      assert paths[..0] == [];
    }
  }

  /** A subsequence of a prefix is a subsequence of the whole. */
  lemma {:induction false} PrefixSubsequence(a: seq<string>, s: seq<string>, k: nat)
    requires k <= |s| && IsSubsequence(a, s[..k])
    ensures IsSubsequence(a, s)
    decreases |s| - k
  {
    if k < |s| {
      SubsequenceExtend(a, s[..k], s[k]);
      assert s[..k] + [s[k]] == s[..k + 1];
      PrefixSubsequence(a, s, k + 1);
    } else {
      assert s[..k] == s;
    }
  }

  /** _gather_recent_files. */
  method GatherRecentFiles(paths: seq<string>, limit: int) returns (results: seq<string>)
    ensures results == Gathered(paths, limit)
  {
    results := [];
    var seen: set<string> := {};
    var i := 0;
    while i < |paths|
      invariant 0 <= i <= |paths|
      invariant results == Distinct(paths[..i])
      invariant forall x :: x in seen <==> x in results
      invariant Stop(paths, limit, i) == Stop(paths, limit, 0)
    {
      var raw := paths[i];
      DistinctStep(paths, i);
      if raw != "" && raw !in seen {
        seen := seen + {raw};
        results := results + [raw];
      }
      i := i + 1;
      if |results| >= limit {
        return;
      }
    }
    assert paths[..i] == paths;
  }

  /** The label of the screenshot at that index of the gathered paths. */
  function Label(index: nat): (l: string)
    ensures index == 0 ==> l == "Latest"
    ensures index == 1 ==> l == "Previous"
    ensures index >= 2 ==> l == "Screenshot " + IntToString(index + 1)
  {
    var labels := ["Latest", "Previous"];
    if index < |labels| then labels[index] else "Screenshot " + IntToString(index + 1)
  }

  /** Path(p).name: the last component, "" for none. */
  function Name(p: string): (r: string)
    ensures '/' !in r
  {
    LastComponent(CheckService.SplitOn(p, '/'))
  }

  function LastComponent(pieces: seq<string>): (r: string)
    ensures r == "" || r in pieces
  {
    if pieces == [] then ""
    else
      var n := |pieces| - 1;
      if pieces[n] != "" && pieces[n] != "." then pieces[n] else LastComponent(pieces[..n])
  }

  /** One entry of the media lists: the public URL and its "label". */
  datatype Link = Link(url: string, caption: string)

  /** The screenshot paths a failure contributes: retry first, then initial, when present. */
  function Present(e: CheckService.FailureEvent): seq<string> {
    var second := if e.secondScreenshot.Some? && e.secondScreenshot.value != "" then [e.secondScreenshot.value] else [];
    var first := if e.firstScreenshot.Some? && e.firstScreenshot.value != "" then [e.firstScreenshot.value] else [];
    second + first
  }

  /** The screenshot candidates of the listed failures, in order. */
  function ShotCandidates(failures: seq<CheckService.FailureEvent>): (r: seq<string>)
    ensures "" !in r
  {
    if failures == [] then []
    else
      var n := |failures| - 1;
      ShotCandidates(failures[..n]) + Present(failures[n])
  }

  /** The log candidates of the listed failures, in order. */
  function LogCandidates(failures: seq<CheckService.FailureEvent>): seq<string> {
    if failures == [] then []
    else
      var n := |failures| - 1;
      LogCandidates(failures[..n]) + failures[n].logFiles
  }

  /** The screenshot pool of _latest_media: the candidates, topped up to two from the newest files found. */
  function ShotPool(failures: seq<CheckService.FailureEvent>, found: seq<string>): seq<string> {
    var c := ShotCandidates(failures);
    if |c| < 2 then c + found[..if |found| < 2 - |c| then |found| else 2 - |c|] else c
  }

  /** The log pool of _latest_media: the candidates, or the three newest files found when there are none. */
  function LogPool(failures: seq<CheckService.FailureEvent>, found: seq<string>): seq<string> {
    var c := LogCandidates(failures);
    if c == [] then found[..if |found| < 3 then |found| else 3] else c
  }

  /** The screenshot links: the published paths, labelled by their index among the gathered paths. */
  function ShotLinks(paths: seq<string>, dataDir: string, resolve: string -> string): (r: seq<Link>)
    ensures |r| <= |paths|
    ensures forall l | l in r :: |l.url| > 7 && l.url[..7] == "/media/"
    ensures forall l | l in r :: exists i | 0 <= i < |paths| ::
      l.caption == Label(i) && PublicMediaPath(Some(paths[i]), dataDir, resolve) == Some(l.url)
  {
    if paths == [] then []
    else
      var n := |paths| - 1;
      var prior := ShotLinks(paths[..n], dataDir, resolve);
      assert forall i | 0 <= i < n :: paths[..n][i] == paths[i];
      match PublicMediaPath(Some(paths[n]), dataDir, resolve)
      case None => prior
      case Some(url) => prior + [Link(url, Label(n))]
  }

  /** The log links: the published paths, labelled by their file name. */
  function LogLinks(paths: seq<string>, dataDir: string, resolve: string -> string): (r: seq<Link>)
    ensures |r| <= |paths|
    ensures forall l | l in r :: |l.url| > 7 && l.url[..7] == "/media/"
    ensures forall l | l in r :: exists i | 0 <= i < |paths| ::
      l.caption == Name(paths[i]) && PublicMediaPath(Some(paths[i]), dataDir, resolve) == Some(l.url)
  {
    if paths == [] then []
    else
      var n := |paths| - 1;
      var prior := LogLinks(paths[..n], dataDir, resolve);
      assert forall i | 0 <= i < n :: paths[..n][i] == paths[i];
      match PublicMediaPath(Some(paths[n]), dataDir, resolve)
      case None => prior
      case Some(url) => prior + [Link(url, Name(paths[n]))]
  }

  /** The first loop of _latest_media: the screenshots the listed failures recorded, newest first. */
  method CollectShots(failures: seq<CheckService.FailureEvent>) returns (candidates: seq<string>)
    ensures candidates == ShotCandidates(failures)
  {
    candidates := [];
    for i := 0 to |failures|
      invariant candidates == ShotCandidates(failures[..i])
    {
      assert failures[..i + 1][..i] == failures[..i];
      candidates := candidates + Present(failures[i]);
    }
    Whole(failures);
  }

  /** The second loop of _latest_media: fewer than two candidates are topped up from the files found. */
  method TopUp(candidates: seq<string>, found: seq<string>) returns (pool: seq<string>)
    ensures |candidates| >= 2 ==> pool == candidates
    ensures |candidates| < 2 ==> pool == candidates + found[..if |found| < 2 - |candidates| then |found| else 2 - |candidates|]
  {
    pool := candidates;
    if |pool| < 2 {
      var j := 0;
      while j < |found|
        invariant 0 <= j <= |found| && pool == candidates + found[..j]
        invariant |candidates| + j < 2
      {
        pool := pool + [found[j]];
        j := j + 1;
        assert found[..j] == found[..j - 1] + [found[j - 1]];
        if |pool| >= 2 {
          return;
        }
      }
    }
  }

  /** The screenshot pool of _latest_media, as its two loops build it. */
  method GatherShotPool(failures: seq<CheckService.FailureEvent>, found: seq<string>) returns (candidates: seq<string>)
    ensures candidates == ShotPool(failures, found)
  {
    var recorded := CollectShots(failures);
    candidates := TopUp(recorded, found);
  }

  /** The enumerate loop of _latest_media over the gathered screenshot paths. */
  method LabelShots(paths: seq<string>, dataDir: string, resolve: string -> string) returns (screenshots: seq<Link>)
    ensures screenshots == ShotLinks(paths, dataDir, resolve)
  {
    screenshots := [];
    for index := 0 to |paths|
      invariant screenshots == ShotLinks(paths[..index], dataDir, resolve)
    {
      assert paths[..index + 1][..index] == paths[..index];
      var public := PublicMediaPath(Some(paths[index]), dataDir, resolve);
      if public.Some? {
        screenshots := screenshots + [Link(public.value, Label(index))];
      }
    }
    Whole(paths);
  }

  /** The screenshots of _latest_media: at most two, labelled "Latest" and "Previous". */
  method LatestScreenshots(failures: seq<CheckService.FailureEvent>, found: seq<string>, dataDir: string,
                           resolve: string -> string)
    returns (screenshots: seq<Link>)
    ensures screenshots == ShotLinks(Gathered(ShotPool(failures, found), 2), dataDir, resolve)
    ensures |screenshots| <= 2
    ensures forall l | l in screenshots :: l.caption == "Latest" || l.caption == "Previous"
  {
    var candidates := GatherShotPool(failures, found);
    var paths := GatherRecentFiles(candidates, 2);
    GatheredSize(candidates, 2);
    screenshots := LabelShots(paths, dataDir, resolve);
    forall l | l in screenshots
      ensures l.caption == "Latest" || l.caption == "Previous"
    {
      var i :| 0 <= i < |paths| && l.caption == Label(i) && PublicMediaPath(Some(paths[i]), dataDir, resolve) == Some(l.url);
    }
  }

  /** The log pool of _latest_media, as its loop and its fallback build it. */
  method GatherLogPool(failures: seq<CheckService.FailureEvent>, found: seq<string>) returns (candidates: seq<string>)
    ensures candidates == LogPool(failures, found)
  {
    candidates := [];
    for i := 0 to |failures|
      invariant candidates == LogCandidates(failures[..i])
    {
      assert failures[..i + 1][..i] == failures[..i];
      candidates := candidates + failures[i].logFiles;
    }
    Whole(failures);
    if candidates == [] {
      candidates := found[..if |found| < 3 then |found| else 3];
    }
  }

  /** The loop of _latest_media over the gathered log paths. */
  method LabelLogs(paths: seq<string>, dataDir: string, resolve: string -> string) returns (logs: seq<Link>)
    ensures logs == LogLinks(paths, dataDir, resolve)
  {
    logs := [];
    for index := 0 to |paths|
      invariant logs == LogLinks(paths[..index], dataDir, resolve)
    {
      assert paths[..index + 1][..index] == paths[..index];
      var public := PublicMediaPath(Some(paths[index]), dataDir, resolve);
      if public.Some? {
        logs := logs + [Link(public.value, Name(paths[index]))];
      }
    }
    Whole(paths);
  }

  /** The logs of _latest_media: at most five, labelled by file name. */
  method LatestLogs(failures: seq<CheckService.FailureEvent>, found: seq<string>, dataDir: string,
                    resolve: string -> string)
    returns (logs: seq<Link>)
    ensures logs == LogLinks(Gathered(LogPool(failures, found), 5), dataDir, resolve)
    ensures |logs| <= 5
  {
    var candidates := GatherLogPool(failures, found);
    var paths := GatherRecentFiles(candidates, 5);
    GatheredSize(candidates, 5);
    logs := LabelLogs(paths, dataDir, resolve);
  }
}
