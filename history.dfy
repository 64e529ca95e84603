// The failure history journal of the flat-file generation
// (backend/app/history_manager.py). The journal file is the field `journal`: one
// stored entry per add_entry, in the order they were added.
module History {
  import opened Common
  import opened Text
  import opened Models
  import LexOrder

  /**
   * One journal entry as read back from the file. The keys _to_record reads with a
   * default may be absent from entries written by other means; `None` is an absent key
   * (for failure_started_at and notes, also a null value).
   */
  datatype StoredEntry = StoredEntry(
    id: string,
    hostId: string,
    hostName: string,
    timestamp: string,
    timezone: Option<string>,
    status: Option<string>,
    failingCount: Option<int>,
    failingCameras: Option<seq<int>>,
    failureStartedAt: Option<string>,
    logLocations: Option<seq<LogLocation>>,
    notes: Option<string>)

  function OrElse<T>(o: Option<T>, default: T): T {
    if o.Some? then o.value else default
  }

  /** _to_record: a stored entry back as a record, with the defaults for absent keys. */
  function ToRecord(item: StoredEntry, tzName: string): (r: FailureRecord)
    ensures r.id == item.id && r.hostId == item.hostId && r.timestamp == item.timestamp
    ensures item.timezone.None? ==> r.timezone == tzName
    ensures item.status.None? ==> r.status == "unknown"
    ensures item.failingCount.None? ==> r.failingCount == 0
    ensures item.failingCameras.None? ==> r.failingCameras == []
    ensures item.logLocations.None? ==> r.logLocations == []
  {
    FailureRecord(
      item.id, item.hostId, item.hostName, item.timestamp,
      OrElse(item.timezone, tzName),
      OrElse(item.status, "unknown"),
      OrElse(item.failingCount, 0),
      OrElse(item.failingCameras, []),
      item.failureStartedAt,
      OrElse(item.logLocations, []),
      item.notes)
  }

  /**
   * The payload add_entry writes: every key of the record. Reading it back gives the
   * record again, whatever the manager's time zone.
   */
  function Serialize(r: FailureRecord): (item: StoredEntry)
    ensures forall tzName :: ToRecord(item, tzName) == r
    ensures item.id == r.id && item.hostId == r.hostId && item.timestamp == r.timestamp
  {
    StoredEntry(
      r.id, r.hostId, r.hostName, r.timestamp, Some(r.timezone), Some(r.status),
      Some(r.failingCount), Some(r.failingCameras), r.failureStartedAt,
      Some(r.logLocations), r.notes)
  }

  /** get_entries filters by host only when host_id is truthy (not None, not ""). */
  predicate Filters(hostId: Option<string>) {
    hostId.Some? && hostId.value != ""
  }

  predicate Keeps(hostId: Option<string>, e: StoredEntry) {
    !Filters(hostId) || e.hostId == hostId.value
  }

  /** The entries get_entries keeps before sorting, in journal order. */
  function Select(journal: seq<StoredEntry>, hostId: Option<string>): (r: seq<StoredEntry>)
    ensures forall e :: e in r <==> e in journal && Keeps(hostId, e)
    ensures |r| == CountWhere(journal, (e: StoredEntry) => Keeps(hostId, e))
    ensures !Filters(hostId) ==> r == journal
  {
    if journal == [] then []
    else
      var prior := Select(journal[..|journal| - 1], hostId);
      var last := journal[|journal| - 1];
      assert journal == journal[..|journal| - 1] + [last];
      if Keeps(hostId, last) then prior + [last] else prior
  }

  /** Newest first by timestamp text, as sorted(..., reverse=True) orders str keys. */
  predicate NewestFirst(s: seq<StoredEntry>) {
    forall i, j | 0 <= i < j < |s| :: LexOrder.Le(s[j].timestamp, s[i].timestamp)
  }

  /** Put `x` before the first entry whose timestamp is not greater than its own. */
  function Insert(x: StoredEntry, s: seq<StoredEntry>): (r: seq<StoredEntry>)
    ensures multiset(r) == multiset(s) + multiset{x}
    ensures |r| == |s| + 1
  {
    if s == [] then [x]
    else if LexOrder.Le(s[0].timestamp, x.timestamp) then [x] + s
    else
      assert s == [s[0]] + s[1..];
      [s[0]] + Insert(x, s[1..])
  }

  /** sorted(data, key=timestamp, reverse=True): an insertion sort, stable on equal keys (SortNewestFirstStable). */
  function SortNewestFirst(s: seq<StoredEntry>): (r: seq<StoredEntry>)
    ensures multiset(r) == multiset(s)
    ensures |r| == |s|
  {
    if s == [] then []
    else
      assert s == [s[0]] + s[1..];
      Insert(s[0], SortNewestFirst(s[1..]))
  }

  lemma {:induction false} InsertNewestFirst(x: StoredEntry, s: seq<StoredEntry>)
    requires NewestFirst(s)
    ensures NewestFirst(Insert(x, s))
  {
    if s == [] {
    } else if LexOrder.Le(s[0].timestamp, x.timestamp) {
      var r := [x] + s;
      forall i, j | 0 <= i < j < |r| ensures LexOrder.Le(r[j].timestamp, r[i].timestamp) {
        if i == 0 && j > 1 {
          LexOrder.Transitive(r[j].timestamp, s[0].timestamp, x.timestamp);
        }
      }
    } else {
      LexOrder.NotLe(s[0].timestamp, x.timestamp);
      InsertNewestFirst(x, s[1..]);
      var t := Insert(x, s[1..]);
      var r := [s[0]] + t;
      forall j | 0 <= j < |t| ensures LexOrder.Le(t[j].timestamp, s[0].timestamp) {
        assert t[j] in multiset(s[1..]) + multiset{x};
        if t[j] != x {
          var k :| 0 <= k < |s[1..]| && s[1..][k] == t[j];
          assert s[k + 1] == t[j];
        }
      }
      forall i, j | 0 <= i < j < |r| ensures LexOrder.Le(r[j].timestamp, r[i].timestamp) {
        if i == 0 {
          assert r[j] == t[j - 1];
        } else {
          assert r[i] == t[i - 1] && r[j] == t[j - 1];
        }
      }
    }
  }

  lemma {:induction false} SortNewestFirstOrders(s: seq<StoredEntry>)
    ensures NewestFirst(SortNewestFirst(s))
  {
    if s != [] {
      SortNewestFirstOrders(s[1..]);
      InsertNewestFirst(s[0], SortNewestFirst(s[1..]));
    }
  }

  /** The entries whose timestamp is `t`, in their order in `s`. */
  function WithStamp(s: seq<StoredEntry>, t: string): seq<StoredEntry> {
    if s == [] then []
    else (if s[0].timestamp == t then [s[0]] else []) + WithStamp(s[1..], t)
  }

  /** Insert puts `x` after every entry of its own timestamp that was there, and moves nothing else. */
  lemma {:induction false} InsertWithStamp(x: StoredEntry, s: seq<StoredEntry>, t: string)
    ensures WithStamp(Insert(x, s), t) == (if x.timestamp == t then [x] else []) + WithStamp(s, t)
  {
    var hx: seq<StoredEntry> := if x.timestamp == t then [x] else [];
    if s == [] {
      assert Insert(x, s) == [x];
      assert WithStamp([x], t) == hx + WithStamp([x][1..], t);
    } else if LexOrder.Le(s[0].timestamp, x.timestamp) {
      assert Insert(x, s) == [x] + s;
      assert ([x] + s)[1..] == s;
      assert WithStamp([x] + s, t) == hx + WithStamp(s, t);
    } else {
      LexOrder.Reflexive(x.timestamp);
      var rest := Insert(x, s[1..]);
      var h0: seq<StoredEntry> := if s[0].timestamp == t then [s[0]] else [];
      assert Insert(x, s) == [s[0]] + rest;
      assert ([s[0]] + rest)[1..] == rest;
      assert WithStamp([s[0]] + rest, t) == h0 + WithStamp(rest, t);
      InsertWithStamp(x, s[1..], t);
      assert WithStamp(s, t) == h0 + WithStamp(s[1..], t);
      assert h0 == [] || hx == [];
    }
  }

  /**
   * sorted is stable: entries with equal timestamps come out in their journal order,
   * so a tie at the limit keeps the one added first.
   */
  lemma {:induction false} SortNewestFirstStable(s: seq<StoredEntry>, t: string)
    ensures WithStamp(SortNewestFirst(s), t) == WithStamp(s, t)
  {
    if s != [] {
      SortNewestFirstStable(s[1..], t);
      InsertWithStamp(s[0], SortNewestFirst(s[1..]), t);
    }
  }

  /** `data[:limit]` applied only when the limit is truthy (not None, not 0). */
  function Limit<T>(s: seq<T>, limit: Option<int>): seq<T> {
    if limit.None? || limit.value == 0 then s else PyPrefix(s, limit.value)
  }

  function ToRecords(s: seq<StoredEntry>, tzName: string): (r: seq<FailureRecord>)
    ensures |r| == |s|
    ensures forall k | 0 <= k < |s| :: r[k] == ToRecord(s[k], tzName)
  {
    seq(|s|, k requires 0 <= k < |s| => ToRecord(s[k], tzName))
  }

  /** What get_entries(host_id, limit) returns for a journal. */
  function Entries(journal: seq<StoredEntry>, tzName: string, hostId: Option<string>, limit: Option<int>): seq<FailureRecord> {
    ToRecords(Limit(SortNewestFirst(Select(journal, hostId)), limit), tzName)
  }

  /**
   * get_entries returns records of the requested host only (every host when host_id is
   * None or ""), newest timestamp first.
   */
  lemma EntriesHostAndOrder(journal: seq<StoredEntry>, tzName: string, hostId: Option<string>, limit: Option<int>)
    ensures var r: seq<FailureRecord> := Entries(journal, tzName, hostId, limit);
      && (Filters(hostId) ==> forall k | 0 <= k < |r| :: r[k].hostId == hostId.value)
      && forall i, j | 0 <= i < j < |r| :: LexOrder.Le(r[j].timestamp, r[i].timestamp)
  {
    var sorted := SortNewestFirst(Select(journal, hostId));
    SortNewestFirstOrders(Select(journal, hostId));
    var kept := Limit(sorted, limit);
    assert kept <= sorted;
    forall k | 0 <= k < |kept| ensures Keeps(hostId, kept[k]) {
      assert kept[k] == sorted[k];
      assert sorted[k] in multiset(Select(journal, hostId));
    }
  }

  /**
   * Without a limit every matching journal entry comes back, once per time it was
   * added: the result is a reordering of the matching entries.
   */
  lemma EntriesComplete(journal: seq<StoredEntry>, tzName: string, hostId: Option<string>)
    ensures Entries(journal, tzName, hostId, None) == ToRecords(SortNewestFirst(Select(journal, hostId)), tzName)
    ensures multiset(SortNewestFirst(Select(journal, hostId))) == multiset(Select(journal, hostId))
    ensures |Entries(journal, tzName, hostId, None)| == CountWhere(journal, (e: StoredEntry) => Keeps(hostId, e))
  {
  }

  /** A positive limit n keeps the n newest of them (all when there are fewer). */
  lemma EntriesLimited(journal: seq<StoredEntry>, tzName: string, hostId: Option<string>, n: int)
    requires n > 0
    ensures var all := Entries(journal, tzName, hostId, None);
      Entries(journal, tzName, hostId, Some(n)) == if n < |all| then all[..n] else all
  {
  }

  /**
   * After add_entry(record), when the record's timestamp is greater than that of every
   * earlier entry of its host, get_entries(host, limit=1) returns exactly that record.
   */
  lemma LatestAfterAdd(journal: seq<StoredEntry>, tzName: string, record: FailureRecord)
    requires record.hostId != ""
    requires forall e | e in journal && e.hostId == record.hostId :: LexOrder.Lt(e.timestamp, record.timestamp)
    ensures Entries(journal + [Serialize(record)], tzName, Some(record.hostId), Some(1)) == [record]
  {
    var hostId := Some(record.hostId);
    var j := journal + [Serialize(record)];
    var sel := Select(j, hostId);
    var sorted := SortNewestFirst(sel);
    assert Serialize(record) in j;
    assert Serialize(record) in multiset(sorted);
    SortNewestFirstOrders(sel);
    var y := sorted[0];
    assert y in multiset(sel);
    if y != Serialize(record) {
      var k :| 0 <= k < |sorted| && sorted[k] == Serialize(record);
      assert k > 0;
      assert LexOrder.Le(record.timestamp, y.timestamp);
      assert y in journal;
      LexOrder.Antisymmetric(record.timestamp, y.timestamp);
    }
    assert Limit(sorted, Some(1)) == [Serialize(record)];
  }

  /** Records newest first by timestamp text. */
  predicate RecordsNewestFirst(rs: seq<FailureRecord>) {
    forall i, j | 0 <= i < j < |rs| :: LexOrder.Le(rs[j].timestamp, rs[i].timestamp)
  }

  /** The per-host counters build_summary accumulates. */
  datatype Tally = Tally(checks: nat, failures: nat, cameras: map<string, nat>)

  function Lookup(m: map<string, nat>, key: string): nat {
    if key in m then m[key] else 0
  }

  /** `counts[str(camera)] += 1` for each camera, in order, on a defaultdict(int). */
  function AddCameras(m: map<string, nat>, cameras: seq<int>): map<string, nat> {
    if cameras == [] then m
    else
      var prior := AddCameras(m, cameras[..|cameras| - 1]);
      var key := IntToString(cameras[|cameras| - 1]);
      prior[key := Lookup(prior, key) + 1]
  }

  /** The counters of host `hostId` after the entries `es`, in order. */
  function TallyOf(es: seq<FailureRecord>, hostId: string): Tally {
    if es == [] then Tally(0, 0, map[])
    else
      var t := TallyOf(es[..|es| - 1], hostId);
      var e := es[|es| - 1];
      if e.hostId != hostId then t
      else if e.status == "failure" then Tally(t.checks + 1, t.failures + 1, AddCameras(t.cameras, e.failingCameras))
      else Tally(t.checks + 1, t.failures, t.cameras)
  }

  /** The entries of host `hostId` among `es`, in order. */
  function HostHistory(es: seq<FailureRecord>, hostId: string): (r: seq<FailureRecord>)
    ensures forall k | 0 <= k < |r| :: r[k].hostId == hostId
  {
    if es == [] then []
    else
      var prior := HostHistory(es[..|es| - 1], hostId);
      if es[|es| - 1].hostId == hostId then prior + [es[|es| - 1]] else prior
  }

  /** The card build_summary produces for `host` from the newest-first entries. */
  function SummaryOf(es: seq<FailureRecord>, host: Host): HostSummary {
    var t := TallyOf(es, host.id);
    HostSummary(host, SummaryBucket("lifetime", t.checks, t.failures), t.cameras, PyPrefix(HostHistory(es, host.id), 50))
  }

  /** The number of occurrences of camera `key` in the failure entries of the host. */
  function CameraHits(es: seq<FailureRecord>, hostId: string, key: string): nat {
    if es == [] then 0
    else
      var e := es[|es| - 1];
      CameraHits(es[..|es| - 1], hostId, key)
        + if e.hostId == hostId && e.status == "failure" then CountWhere(e.failingCameras, (c: int) => IntToString(c) == key) else 0
  }

  lemma {:induction false} AddCamerasCounts(m: map<string, nat>, cameras: seq<int>, key: string)
    ensures Lookup(AddCameras(m, cameras), key) == Lookup(m, key) + CountWhere(cameras, (c: int) => IntToString(c) == key)
    ensures key in AddCameras(m, cameras) <==> key in m || CountWhere(cameras, (c: int) => IntToString(c) == key) > 0
  {
    if cameras != [] {
      AddCamerasCounts(m, cameras[..|cameras| - 1], key);
    }
  }

  /**
   * The totals of a host count its entries and, among them, those with status
   * "failure"; failures never exceed checks.
   */
  lemma {:induction false} TallyCounts(es: seq<FailureRecord>, hostId: string)
    ensures TallyOf(es, hostId).checks == CountWhere(es, (e: FailureRecord) => e.hostId == hostId)
    ensures TallyOf(es, hostId).failures == CountWhere(es, (e: FailureRecord) => e.hostId == hostId && e.status == "failure")
    ensures TallyOf(es, hostId).failures <= TallyOf(es, hostId).checks
  {
    if es != [] {
      TallyCounts(es[..|es| - 1], hostId);
    }
  }

  /**
   * failure_counts_by_camera maps str(camera) to the number of failure entries of the
   * host that name the camera; cameras of non-failure entries are never counted, and a
   * key is present exactly when its count is positive.
   */
  lemma {:induction false} TallyCameras(es: seq<FailureRecord>, hostId: string, key: string)
    ensures Lookup(TallyOf(es, hostId).cameras, key) == CameraHits(es, hostId, key)
    ensures key in TallyOf(es, hostId).cameras <==> CameraHits(es, hostId, key) > 0
    ensures key in TallyOf(es, hostId).cameras ==> TallyOf(es, hostId).cameras[key] > 0
  {
    if es != [] {
      var e := es[|es| - 1];
      TallyCameras(es[..|es| - 1], hostId, key);
      if e.hostId == hostId && e.status == "failure" {
        AddCamerasCounts(TallyOf(es[..|es| - 1], hostId).cameras, e.failingCameras, key);
      }
    }
  }

  /**
   * The history on a card holds at most 50 entries, all of the card's host, newest
   * first when the entries are.
   */
  lemma SummaryHistory(es: seq<FailureRecord>, host: Host)
    requires RecordsNewestFirst(es)
    ensures |SummaryOf(es, host).history| <= 50
    ensures forall k | 0 <= k < |SummaryOf(es, host).history| :: SummaryOf(es, host).history[k].hostId == host.id
    ensures RecordsNewestFirst(SummaryOf(es, host).history)
  {
    var all := HostHistory(es, host.id);
    HostHistorySubsequence(es, host.id);
    var h := PyPrefix(all, 50);
    assert forall k | 0 <= k < |h| :: h[k] == all[k];
  }

  lemma {:induction false} HostHistorySubsequence(es: seq<FailureRecord>, hostId: string)
    requires RecordsNewestFirst(es)
    ensures RecordsNewestFirst(HostHistory(es, hostId))
    ensures forall e | e in HostHistory(es, hostId) :: e in es
  {
    if es != [] {
      var n := |es| - 1;
      HostHistorySubsequence(es[..n], hostId);
      var prior := HostHistory(es[..n], hostId);
      assert forall e | e in prior :: e in es by {
        forall e | e in prior ensures e in es {
          assert e in es[..n];
        }
      }
      if es[n].hostId == hostId {
        var h := prior + [es[n]];
        forall i, j | 0 <= i < j < |h| ensures LexOrder.Le(h[j].timestamp, h[i].timestamp) {
          if j == |prior| {
            assert h[i] == prior[i];
            assert prior[i] in es[..n];
            var k :| 0 <= k < n && es[..n][k] == h[i];
            assert es[k] == h[i] && h[j] == es[n];
          } else {
            assert h[i] == prior[i] && h[j] == prior[j];
          }
        }
      }
    }
  }

  /** The manager of the journal file. */
  class HistoryManager {
    var journal: seq<StoredEntry>
    var tzName: string

    /** Opens the journal; a missing file starts as an empty journal. */
    constructor(existing: Option<seq<StoredEntry>>, tzName: string)
      ensures journal == (if existing.Some? then existing.value else [])
      ensures this.tzName == tzName
    {
      journal := if existing.Some? then existing.value else [];
      this.tzName := tzName;
    }

    method SetTimezone(tzName: string)
      modifies this
      ensures this.tzName == tzName && journal == old(journal)
    {
      this.tzName := tzName;
    }

    /** add_entry: appends the record's payload to the journal and returns the record. */
    method AddEntry(record: FailureRecord) returns (r: FailureRecord)
      modifies this
      ensures r == record
      ensures journal == old(journal) + [Serialize(record)]
      ensures tzName == old(tzName)
    {
      journal := journal + [Serialize(record)];
      r := record;
    }

    /**
     * get_entries: the records of the requested host (every host for None or ""),
     * newest first, cut to the limit when it is truthy.
     */
    function GetEntries(hostId: Option<string>, limit: Option<int>): (r: seq<FailureRecord>)
      reads this
      ensures Filters(hostId) ==> forall k | 0 <= k < |r| :: r[k].hostId == hostId.value
      ensures forall i, j | 0 <= i < j < |r| :: LexOrder.Le(r[j].timestamp, r[i].timestamp)
      ensures limit.Some? && limit.value > 0 ==> |r| <= limit.value
    {
      EntriesHostAndOrder(journal, tzName, hostId, limit);
      Entries(journal, tzName, hostId, limit)
    }

    /**
     * build_summary: one card per host, in the order given, counting every journal
     * entry of that host; `now` is the clock reading for generated_at. Looking up the
     * manager's zone for generated_at raises when the zone is unknown.
     */
    method BuildSummary(hosts: seq<Host>, now: string, knownZone: string -> bool) returns (r: Result<SummaryResponse>)
      ensures r.Raised? <==> !knownZone(tzName)
      ensures r.Raised? ==> r.error == "'" + tzName + "'"
      ensures r.Ok? ==> r.value.generatedAt == now && r.value.timezone == tzName
      ensures r.Ok? ==> |r.value.hosts| == |hosts|
      ensures r.Ok? ==> forall k | 0 <= k < |hosts| :: r.value.hosts[k] == SummaryOf(GetEntries(None, None), hosts[k])
    {
      var entries := GetEntries(None, None);
      var aggregated, latest := Aggregate(entries);
      var summaries: seq<HostSummary> := [];
      for k := 0 to |hosts|
        invariant |summaries| == k
        invariant forall m | 0 <= m < k :: summaries[m] == SummaryOf(entries, hosts[m])
      {
        var host := hosts[k];
        var meta := if host.id in aggregated then aggregated[host.id] else Tally(0, 0, map[]);
        var history := if host.id in latest then latest[host.id] else [];
        summaries := summaries + [HostSummary(host, SummaryBucket("lifetime", meta.checks, meta.failures), meta.cameras, PyPrefix(history, 50))];
      }
      var zone := TimeZone(tzName, knownZone);
      if zone.Raised? {
        return Raised(zone.error);
      }
      r := Ok(SummaryResponse(now, tzName, summaries));
    }
  }

  lemma TallyStep(es: seq<FailureRecord>, i: nat, hostId: string)
    requires i < |es|
    ensures TallyOf(es[..i + 1], hostId) ==
      var t := TallyOf(es[..i], hostId);
      var e := es[i];
      if e.hostId != hostId then t
      else if e.status == "failure" then Tally(t.checks + 1, t.failures + 1, AddCameras(t.cameras, e.failingCameras))
      else Tally(t.checks + 1, t.failures, t.cameras)
    ensures HostHistory(es[..i + 1], hostId) ==
      if es[i].hostId == hostId then HostHistory(es[..i], hostId) + [es[i]] else HostHistory(es[..i], hostId)
  {
    assert es[..i + 1][..i] == es[..i];
  }

  /** `counts[str(camera)] += 1` for the cameras of one failure entry. */
  method CountCameras(counts: map<string, nat>, cameras: seq<int>) returns (r: map<string, nat>)
    ensures r == AddCameras(counts, cameras)
  {
    r := counts;
    for c := 0 to |cameras|
      invariant r == AddCameras(counts, cameras[..c])
    {
      assert cameras[..c + 1][..c] == cameras[..c];
      var key := IntToString(cameras[c]);
      r := r[key := Lookup(r, key) + 1];
    }
    assert cameras[..|cameras|] == cameras;
  }

  /** The per-host counters agree with TallyOf over `es`; a host without a key has none. */
  ghost predicate TalliesAgree(aggregated: map<string, Tally>, es: seq<FailureRecord>) {
    && (forall h | h in aggregated :: aggregated[h] == TallyOf(es, h))
    && (forall h | h !in aggregated :: TallyOf(es, h) == Tally(0, 0, map[]))
  }

  /** The per-host lists agree with HostHistory over `es`; a host without a key has none. */
  ghost predicate HistoriesAgree(latest: map<string, seq<FailureRecord>>, es: seq<FailureRecord>) {
    && (forall h | h in latest :: latest[h] == HostHistory(es, h))
    && (forall h | h !in latest :: HostHistory(es, h) == [])
  }

  /** `aggregated[host_id]` updated for entry i: one more check, and one more failure with its cameras. */
  method Count(entries: seq<FailureRecord>, i: nat, aggregated: map<string, Tally>) returns (aggregated': map<string, Tally>)
    requires i < |entries|
    requires TalliesAgree(aggregated, entries[..i])
    ensures TalliesAgree(aggregated', entries[..i + 1])
  {
    var entry := entries[i];
    var t := if entry.hostId in aggregated then aggregated[entry.hostId] else Tally(0, 0, map[]);
    if entry.status == "failure" {
      var cameras := CountCameras(t.cameras, entry.failingCameras);
      t := Tally(t.checks + 1, t.failures + 1, cameras);
    } else {
      t := Tally(t.checks + 1, t.failures, t.cameras);
    }
    aggregated' := aggregated[entry.hostId := t];
    forall h | h in aggregated'
      ensures aggregated'[h] == TallyOf(entries[..i + 1], h)
    {
      TallyStep(entries, i, h);
    }
    forall h | h !in aggregated'
      ensures TallyOf(entries[..i + 1], h) == Tally(0, 0, map[])
    {
      TallyStep(entries, i, h);
    }
  }

  /** `latest[host_id]` with entry i appended. */
  method File(entries: seq<FailureRecord>, i: nat, latest: map<string, seq<FailureRecord>>)
    returns (latest': map<string, seq<FailureRecord>>)
    requires i < |entries|
    requires HistoriesAgree(latest, entries[..i])
    ensures HistoriesAgree(latest', entries[..i + 1])
  {
    var entry := entries[i];
    var history := if entry.hostId in latest then latest[entry.hostId] else [];
    latest' := latest[entry.hostId := history + [entry]];
    forall h | h in latest'
      ensures latest'[h] == HostHistory(entries[..i + 1], h)
    {
      TallyStep(entries, i, h);
    }
    forall h | h !in latest'
      ensures HostHistory(entries[..i + 1], h) == []
    {
      TallyStep(entries, i, h);
    }
  }

  /** One pass of the build_summary loop: count entry i and add it to its host's list. */
  method Absorb(entries: seq<FailureRecord>, i: nat, aggregated: map<string, Tally>,
                latest: map<string, seq<FailureRecord>>)
    returns (aggregated': map<string, Tally>, latest': map<string, seq<FailureRecord>>)
    requires i < |entries|
    requires TalliesAgree(aggregated, entries[..i]) && HistoriesAgree(latest, entries[..i])
    ensures TalliesAgree(aggregated', entries[..i + 1]) && HistoriesAgree(latest', entries[..i + 1])
  {
    aggregated' := Count(entries, i, aggregated);
    latest' := File(entries, i, latest);
  }

  /**
   * The loop of build_summary over the entries: the per-host counters and the per-host
   * entry lists; a host with no entry has no key, which reads as zero counters and an
   * empty list.
   */
  method Aggregate(entries: seq<FailureRecord>) returns (aggregated: map<string, Tally>, latest: map<string, seq<FailureRecord>>)
    ensures forall h | h in aggregated :: aggregated[h] == TallyOf(entries, h)
    ensures forall h | h !in aggregated :: TallyOf(entries, h) == Tally(0, 0, map[])
    ensures forall h | h in latest :: latest[h] == HostHistory(entries, h)
    ensures forall h | h !in latest :: HostHistory(entries, h) == []
  {
    aggregated := map[];
    latest := map[];
    for i := 0 to |entries|
      invariant TalliesAgree(aggregated, entries[..i]) && HistoriesAgree(latest, entries[..i])
    {
      aggregated, latest := Absorb(entries, i, aggregated, latest);
    }
    Whole(entries);
  }
}
