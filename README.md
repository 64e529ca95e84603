# Frigate monitor — a Dafny model of its decision and bookkeeping layer

The program watches Frigate NVR dashboards. It opens each host's dashboard in a
browser, counts the camera cards that say no frames were received, and looks a
second time after a delay. When more than one camera is still failing, it
fetches the go2rtc, nginx and frigate logs, estimates when the failure started,
and alerts a Telegram chat. The repository holds two generations of this
monitor, and they differ in details, so each is modelled in its own modules.

**Flat-file generation.** Settings and hosts live in one JSON file, and every
check appends to a JSON history journal.

- `FlatMonitor` (backend/app/monitor.py) models the two-snapshot check of a host.
  It keeps the per-host alert signatures that suppress repeated alerts, appends
  service logs to per-host files, and writes one journal entry per checked host
  in a cycle or a manual trigger. The `MonitorService` class holds the signature
  map, the log files and the notifier's outbox.
- `History` (history_manager.py) models the journal: append, filter by host,
  newest-first sort, limit, and the per-host summary counters. The
  `HistoryManager` class owns the journal.
- `FlatConfig` (config_manager.py) models the settings dict and the host list,
  with their merge, update-by-id, append and delete-all-matching operations.
- `Api` (main.py) models the endpoints that compute something: the 404 mapping
  of updates and triggers, the per-day and per-camera aggregation of a host's
  history, the latest status of each host, and the log viewer.
- `JsonLines` (utils.py) models the JSON-lines parser, the onset estimate and
  the table builder.
- `Notifier` (notifier.py) models the mention formatting.

**SQL generation.** Checks are rows of a HostCheck table with a progress log, a
confirmed failure is a FailureEvent row, and log lines are LogEntry rows.

- `CheckService` (services/monitor.py) models these parts:
  - the check record and its updates;
  - the recorder;
  - `run_host_check` with its status mapping;
  - the two-visit `check_host`, covering its log collection, stored event and
    Telegram requests;
  - the queueing of scheduled checks for enabled hosts.

  The `Monitor` class holds the tables, the saved files and the Telegram
  requests sent. Its `services` field is set by the constructor to go2rtc,
  nginx and frigate, the list `check_host` loops over.
- `LogService` (services/logs.py) models the line parser, the timestamp reader,
  the onset estimate, the LogEntry field mapping and the saved log file.
- `FailureViews` (routers/failures.py) models the helpers of the failures
  router:
  - the publication of stored paths as `/media/` URLs;
  - the serialisation of a failure event;
  - the gathering of recent files without repeats;
  - the labels of the latest screenshots and logs.
- `AppSettings` (config.py) models the configuration defaults and the
  alias-aware partial update. The reported zone is always `Etc/GMT+3`
  (`AppSettings.Timezone`).

`Common`, `Text` and `LexOrder` (common.dfy) hold these shared definitions:

- JSON values and Python truthiness;
- `str.strip`, `splitlines` and `join`;
- `str()` of integers;
- the code-point order of strings that `sorted` uses.

Several collaborators are parameters of the model rather than code in it:

- the browser, HTTP and Telegram calls;
- `json.loads`;
- ISO-8601 parsing and time zone conversion;
- `Path.resolve`;
- the clock.

Instants are integers (seconds). Journal timestamps stay the ISO-8601 text the
journal stores, because the journal sorts by that text and main.py buckets by
its date prefix.

## Model

| member | source | states |
|---|---|---|
| FlatMonitor.LookupZone | backend/app/monitor.py:104-105 | The zone resolves exactly when the setting is a str naming a known zone. Otherwise it raises, with the quoted name as the KeyError text for an unknown str. |
| FlatMonitor.SafeName | backend/app/monitor.py:191 | The file-name form of a host name has the same length, holds only `[A-Za-z0-9_-]`, and keeps every such character in place. |
| FlatMonitor.SafeNameIdempotent | backend/app/monitor.py:191 | A name made only of kept characters is its own safe name, so applying SafeName twice equals applying it once. |
| FlatMonitor.TrimSlashes | backend/app/monitor.py:188 | `rstrip("/")` gives a prefix with no trailing slash, and only slashes were removed. |
| FlatMonitor.Appended | backend/app/monitor.py:204-207 | Appending a block to a log file adds the file if it is missing, extends only that file, and leaves every other file as it was. |
| FlatMonitor.Locations | backend/app/monitor.py:203-208 | One location per service, in order, with the path `logs/<safe name>-<service>.log`. |
| FlatMonitor.StepFacts | backend/app/monitor.py:195-212 | One pass of the log loop raises exactly when that service breaks it: its request raises something other than HTTPError, or the onset estimate of its log raises. An HTTPError adds no location; a body adds that service's location. |
| FlatMonitor.GatherError | backend/app/monitor.py:193-212 | The log loop stops with an exception exactly when some service breaks it: a request error other than HTTPError, or a log holding a non-dict record or both naive and aware stamps. |
| FlatMonitor.CollectRaises | backend/app/monitor.py:193-216 | `_collect_logs` raises exactly when its loop does, or when the estimates of the answered services mix naive and aware datetimes so that `min()` raises TypeError. |
| FlatMonitor.GatherLocations | backend/app/monitor.py:193-208 | Without a raise, the locations are exactly those of the services that answered, in the order go2rtc, nginx, frigate. A service that raised HTTPError is skipped. |
| FlatMonitor.EstimatesMembers | backend/app/monitor.py:209-212 | An onset candidate is exactly an estimate that some answered service's log yields. |
| FlatMonitor.GatherCandidates | backend/app/monitor.py:209-214 | Without a raise, the candidates are the estimates of the answered services' logs, in order. |
| FlatMonitor.GatherStopsAt | backend/app/monitor.py:193-212 | Once the loop has raised, the later services change nothing. |
| FlatMonitor.Onset | backend/app/monitor.py:214-216 | The onset is None exactly when there are no candidates. It raises the naive-versus-aware TypeError exactly when the candidates mix both kinds. Otherwise it is the earliest candidate, all of its kind, made aware in the configured zone. |
| FlatMonitor.MixedEstimatesRecordError | backend/app/monitor.py:113-131 | A confirmed failure whose service estimates mix naive and aware stamps gives an "error" record with the TypeError text as its notes and no onset. No alert is sent, and the host's signature is dropped. |
| FlatMonitor.SortInts | backend/app/monitor.py:121 | `sorted()` of the cameras is ascending and a permutation of them. |
| FlatMonitor.InsertInt | backend/app/monitor.py:121 | One insertion step adds exactly the new camera to the list. |
| FlatMonitor.HeadIsLeast | backend/app/monitor.py:121 | The head of an ascending list is no larger than any of its elements. |
| FlatMonitor.NumberTexts | backend/app/monitor.py:121 | The list repr holds `str()` of each camera number, in order. |
| FlatMonitor.InsertAscending | backend/app/monitor.py:121 | Inserting into an ascending list keeps it ascending. |
| FlatMonitor.AscendingUnique | backend/app/monitor.py:121 | Two ascending lists with the same elements are equal, so the sorted order is unique. |
| FlatMonitor.SignatureIgnoresOrder | backend/app/monitor.py:121 | The signature `"{host.id}:{sorted(cameras)}"` depends on which cameras fail, not on the order the page listed them. |
| FlatMonitor.LocationLines | backend/app/monitor.py:248-250 | One `<b>Log service:</b> path` line per location, in order. |
| FlatMonitor.AlertShape | backend/app/monitor.py:238-253 | The alert names the host and the number of failing cameras. It has the estimated-onset line exactly when there is an onset, then the detection time, one line per log location in order, and the mentions last when there are any. |
| FlatMonitor.NotifySpec | backend/app/monitor.py:219-255 | `_notify_failure` hands at most one message to the notifier and never alters earlier ones. |
| FlatMonitor.MentionIds | backend/app/notifier.py:40 | What iterating the ids setting gives: the str() of each list item, each character of a str, each key of a dict in order. An int, a bool or None raises TypeError. |
| FlatMonitor.Mentions | backend/app/monitor.py:232-236 | The mention line is non-empty, and so appended to the alert, exactly when mention_user_ids and mention_name are both truthy. It raises exactly when both are truthy and the ids are an int or a bool. A dict of ids mentions each of its keys under the name. |
| FlatMonitor.CheckRecordShape | backend/app/monitor.py:103-150 | `_check_host` raises exactly when the configured zone cannot be resolved, and then changes nothing. Otherwise the record is of this host, `failing_count == len(failing_cameras)`, the cameras are those of the last snapshot taken (even on error), and the status is ok, failure or error. |
| FlatMonitor.FailureNeedsBothSnapshots | backend/app/monitor.py:114-119 | Status "failure" needs both snapshots taken, each with more than one failing camera, and records the second snapshot's cameras. |
| FlatMonitor.QuietFirstSnapshot | backend/app/monitor.py:114-126 | A first snapshot with at most one failing camera gives "ok" with those cameras, no logs and no onset. It removes the host's signature, changes nothing else, and takes no second snapshot. |
| FlatMonitor.QuietSecondSnapshot | backend/app/monitor.py:115-119 | A second snapshot with at most one failing camera gives "ok" and leaves the signatures, log files and outbox unchanged. The stored signature is not cleared. |
| FlatMonitor.ErrorRecordShape | backend/app/monitor.py:127-132 | An "error" record has no log locations and no onset, carries the exception text in notes, and leaves no signature for the host. Either snapshot raising gives "error". Other records have no notes. |
| FlatMonitor.FailureStoresSignature | backend/app/monitor.py:118-124 | A confirmed failure leaves its signature stored for the host. At most one message is sent, and only when the stored signature differed. |
| FlatMonitor.ConfirmFacts | backend/app/monitor.py:119-124 | The confirmed branch keeps the cameras and stores their signature when it does not raise. It sends at most one alert, and only when the stored signature differs. |
| FlatMonitor.NotifiesOnce | backend/app/monitor.py:121-124 | Two consecutive failures of a host with the same camera set, in any order, alert once. |
| FlatMonitor.HostOf | backend/app/monitor.py:268 | `Host(**host)` succeeds only with str id, name and address, and the address must be a URL. |
| FlatMonitor.ListHosts | backend/app/monitor.py:267-268 | Every host dict validated in order, or a failure when any one is invalid. |
| FlatMonitor.IntervalMinutes | backend/app/monitor.py:67 | The interval is at least one minute and defaults to 10. An int setting gives max(1, it). A setting that is neither int nor bool raises TypeError. |
| FlatMonitor.FindHost | backend/app/monitor.py:259 | The first host with the id (no earlier host has it), or none exactly when no host has it. |
| FlatMonitor.Checks | backend/app/monitor.py:81-82 | One result per host. A result is an exception exactly when the zone cannot be resolved, and it carries that error. |
| FlatMonitor.ErrorEntry | backend/app/monitor.py:87-100 | An exception result becomes a record of host "unknown" with status "error", no cameras and the exception text as notes. |
| FlatMonitor.CycleEntries | backend/app/monitor.py:83-101 | One journal entry per result, in order: records as they are, exceptions as error entries. |
| FlatMonitor.RecordEntries | backend/app/monitor.py:83-85 | The journal entries of a cycle whose results are all records, in order. |
| FlatMonitor.MonitorService.constructor | backend/app/monitor.py:28-43 | A new service has no signatures and has sent nothing. |
| FlatMonitor.MonitorService.CollectLogs | backend/app/monitor.py:185-217 | The log files and the result are those of the log loop followed by `min()` and `ensure_timezone`: the loop's exception, the mixed-stamp TypeError, or the locations and the onset. Signatures and outbox are untouched. |
| FlatMonitor.MonitorService.NotifyFailure | backend/app/monitor.py:219-255 | The outbox and the outcome are those NotifySpec gives. |
| FlatMonitor.MonitorService.Attempt | backend/app/monitor.py:113-132 | The try block of `_check_host`: the cameras, the outcome (including an exception of the log collection, mixed stamps among them) and the new state are those of TryCheck. |
| FlatMonitor.MonitorService.CheckHost | backend/app/monitor.py:103-150 | The record and the new state are those of CheckSpec. A raise, which only the zone lookup causes, leaves the state unchanged. |
| FlatMonitor.MonitorService.CheckAll | backend/app/monitor.py:81-82 | One check per host, in host order, each starting from the state the previous one left. |
| FlatMonitor.MonitorService.RunCycle | backend/app/monitor.py:80-101 | As written: with a resolvable zone, one journal entry per host in order. With an unresolvable zone and at least one host, the cycle raises and writes nothing. |
| FlatMonitor.MonitorService.RunCycleCorrected | backend/app/monitor.py:80-101 | Exactly one journal entry per host, in order, with exception results as "unknown" error records. |
| FlatMonitor.MonitorService.ManualTrigger | backend/app/monitor.py:257-265 | An unknown id raises ValueError and changes nothing. Otherwise the host is checked once, its record is appended to the journal exactly once and returned, or the check's exception escapes with no entry written. |
| FlatMonitor.UnknownZoneLosesEntries | backend/app/monitor.py:86-88 | With an unresolvable zone the as-written cycle has an exception result for which it writes no entry, where the intended cycle writes one. |
| History.ToRecord | backend/app/history_manager.py:60-78 | A stored entry reads back with defaults for absent keys: the manager's zone, status "unknown", count 0, no cameras, no locations. |
| History.Serialize | backend/app/history_manager.py:40-44 | The payload `add_entry` writes reads back as the same record, whatever the manager's zone. |
| History.Select | backend/app/history_manager.py:53-54 | Filtering keeps exactly the entries of the host, and all entries when `host_id` is None or "". |
| History.SortNewestFirst | backend/app/history_manager.py:55 | Sorting is a permutation of the entries. |
| History.Insert | backend/app/history_manager.py:55 | One insertion step adds exactly the new entry. |
| History.InsertNewestFirst | backend/app/history_manager.py:55 | Inserting into a newest-first list keeps it newest first. |
| History.SortNewestFirstOrders | backend/app/history_manager.py:55 | The sorted entries are newest first by timestamp text. |
| History.InsertWithStamp | backend/app/history_manager.py:55 | Inserting one entry leaves the entries of every other timestamp in their order and puts it before those of its own timestamp. |
| History.SortNewestFirstStable | backend/app/history_manager.py:55 | The sort is stable: the entries of any one timestamp come out in their journal order. |
| History.ToRecords | backend/app/history_manager.py:58 | One record per entry, in order. |
| History.EntriesHostAndOrder | backend/app/history_manager.py:51-58 | `get_entries` returns only records of the requested host, newest timestamp first. |
| History.EntriesComplete | backend/app/history_manager.py:51-58 | Without a limit, every matching journal entry comes back once per time it was added. |
| History.EntriesLimited | backend/app/history_manager.py:56-57 | A positive limit n keeps the n newest, or all when there are fewer. |
| History.LatestAfterAdd | backend/app/history_manager.py:40-58 | After `add_entry` of a record newer than every earlier entry of its host, `get_entries(host, 1)` returns exactly that record. |
| History.HostHistory | backend/app/history_manager.py:95 | The per-host list holds only that host's entries. |
| History.AddCamerasCounts | backend/app/history_manager.py:93-94 | Each camera adds one to the count of its `str()` key, and nothing else changes. |
| History.TallyCounts | backend/app/history_manager.py:89-92 | `total_checks` counts the host's entries and `failures` its "failure" entries, so failures never exceed checks. |
| History.TallyCameras | backend/app/history_manager.py:91-94 | A camera count is the number of times the camera is listed by the host's "failure" entries. A key is present exactly when that count is positive. |
| History.SummaryHistory | backend/app/history_manager.py:109 | A card's history holds at most 50 entries, all of its host, newest first. |
| History.HostHistorySubsequence | backend/app/history_manager.py:95 | The per-host list keeps the newest-first order and holds only journal entries. |
| History.HistoryManager.constructor | backend/app/history_manager.py:17-23 | A missing journal starts empty. |
| History.HistoryManager.SetTimezone | backend/app/history_manager.py:25-26 | Only the zone name changes. |
| History.HistoryManager.AddEntry | backend/app/history_manager.py:40-49 | Exactly one entry is appended at the end, earlier entries are unchanged, and the argument is returned. |
| History.HistoryManager.GetEntries | backend/app/history_manager.py:51-58 | The records are of the host, newest first, and at most `limit` of them for a positive limit. |
| History.HistoryManager.BuildSummary | backend/app/history_manager.py:80-117 | One card per host, in input order, each the summary of that host over all entries. An unknown zone name raises its KeyError. |
| History.CountCameras | backend/app/history_manager.py:93-94 | The camera loop adds the counts AddCameras defines. |
| History.Aggregate | backend/app/history_manager.py:89-95 | The loop's per-host counters and lists equal TallyOf and HostHistory. A host without a key has zero counters and no entries. |
| FlatConfig.DefaultSettings | backend/app/config_manager.py:6-17 | The default settings have exactly the seven keys, an interval of 10, zone America/Sao_Paulo and filter "frigate". |
| FlatConfig.Merge | backend/app/config_manager.py:51-73 | `{**a, **b}` has the keys of both, with b's value wherever b has the key. |
| FlatConfig.FirstMatch | backend/app/config_manager.py:71-72 | The index of the first host with the id, or none exactly when no host has it. |
| FlatConfig.WithoutAppend | backend/app/config_manager.py:91 | Filtering a concatenation filters each part, so relative order is kept. |
| FlatConfig.WithoutRemovesExactly | backend/app/config_manager.py:87-93 | Every host with the id goes, and every other host stays as often as it occurred. |
| FlatConfig.WithoutAbsent | backend/app/config_manager.py:91 | Deleting an id no host has changes nothing. |
| FlatConfig.ConfigManager.constructor | backend/app/config_manager.py:23-28 | A missing file becomes the default settings with no hosts. |
| FlatConfig.ConfigManager.UpdateSettings | backend/app/config_manager.py:48-53 | The payload's keys overwrite, every other setting stays, the hosts are untouched, and the merged settings are returned. |
| FlatConfig.ConfigManager.UpdateHost | backend/app/config_manager.py:67-77 | The first host with the id becomes `{**host, **payload}` and is returned. With no match, KeyError is raised and nothing is written. |
| FlatConfig.ConfigManager.AddHost | backend/app/config_manager.py:79-85 | The payload is appended at the end and the other hosts are unchanged. |
| FlatConfig.ConfigManager.DeleteHost | backend/app/config_manager.py:87-93 | The host list becomes the list without the id's hosts. |
| Notifier.Tags | backend/app/notifier.py:39-41 | One `tg://user?id=` tag per user id, in order, all with the same name. |
| Notifier.FormatMentions | backend/app/notifier.py:38-42 | The tags joined by single spaces. |
| Notifier.MentionsShape | backend/app/notifier.py:38-42 | No ids give "" and one id gives its tag alone. Two id lists give their mentions joined by one space. |
| Notifier.TagsAppend | backend/app/notifier.py:40-41 | The tags of two id lists are the tags of each, in order. |
| JsonLines.DecodeAllPointwise | backend/app/utils.py:24-27 | Line k yields record k: the decoded JSON, or `{"message": line}` when decoding fails. |
| JsonLines.DecodeAll | backend/app/utils.py:24-27 | One record per line. |
| JsonLines.DecodeAllAppend | backend/app/utils.py:20-28 | The records of two line lists are the records of each, in order. |
| JsonLines.ParseJsonLines | backend/app/utils.py:18-28 | One record per line that is non-blank after `strip()`, in order. |
| JsonLines.DecodedLinesAppend | backend/app/utils.py:20-28 | Two logs joined by a line break parse to the records of each, in order. |
| JsonLines.Fields | backend/app/utils.py:35-49 | The dict view of the records, or the AttributeError of the first record that is not a dict. |
| JsonLines.Min | backend/app/utils.py:43 | `min()` is an element and no larger than any. |
| JsonLines.Earliest | backend/app/utils.py:43 | `min()` of datetimes raises the naive-versus-aware TypeError exactly when the list mixes both kinds. Otherwise the result is in the list, of the kind of every element, and no later than any. |
| JsonLines.ExtractFailureStart | backend/app/utils.py:31-43 | The loop computes what FailureStart specifies: the AttributeError of the first non-dict record, None without candidates, the mixed-stamp TypeError of `min()`, or the earliest candidate. |
| JsonLines.KeyCandidatesSound | backend/app/utils.py:34-40 | A record's candidates are exactly the parseable truthy values under ts, time, timestamp and date. |
| JsonLines.CandidatesSound | backend/app/utils.py:33-40 | The candidates are exactly those of some record. |
| JsonLines.NoneExactly | backend/app/utils.py:32-42 | None exactly when every record is a dict and none has a truthy, parseable stamp. Unparseable values are skipped, never fatal. |
| JsonLines.EarliestCandidate | backend/app/utils.py:41-43 | Otherwise the result is a candidate of the same kind as every candidate and no later than any. |
| JsonLines.MixedCandidates | backend/app/utils.py:33-43 | The collected timestamps mix naive and aware datetimes exactly when two records' stamps are one naive and one aware. |
| JsonLines.RaisesExactly | backend/app/utils.py:33-43 | It raises exactly when some record is not a dict, or when two candidates are one naive and one aware stamp. With every record a dict, the error is that TypeError. |
| JsonLines.FieldsRaisedPrefix | backend/app/utils.py:33-35 | Once a record raises, every longer list of records raises the same error. |
| JsonLines.Row | backend/app/utils.py:53 | A row has exactly the columns as keys. A cell is str() of the record's value, or "" where the record lacks the key. |
| JsonLines.KeyUnionMembers | backend/app/utils.py:47-49 | A key is in the union exactly when some record has it. |
| JsonLines.ColumnKeys | backend/app/utils.py:47-49 | The key loop gives the union of all keys, or raises on a non-dict. |
| JsonLines.BuildTable | backend/app/utils.py:46-55 | The columns are the sorted, duplicate-free union of keys. There is one row per record, in order. A non-dict raises. |
| LexOrder.SortStrings | backend/app/utils.py:50 | `sorted(keys)` is strictly ascending and holds exactly the keys. |
| Text.LinePieces | backend/app/utils.py:20 | The text between line-break characters: at least one piece, and no piece holds a line break. |
| Text.SplitLines | backend/app/utils.py:20 | `splitlines()`: no line holds a line break. |
| Text.SplitLinesKept | backend/app/utils.py:20-23 | The pieces between line breaks keep exactly the non-blank stripped lines of `splitlines()`, in order. |
| Text.KeptLines | backend/app/utils.py:20-21 | Only non-empty stripped lines are kept, and never more than there were. |
| Text.IntToString | backend/app/history_manager.py:94 | `str()` of an integer is non-empty and starts with '-' exactly for a negative number. |
| Text.Strip | backend/app/utils.py:21 | `strip()` removes exactly the leading and trailing whitespace. |
| Text.StripIsSlice | backend/app/utils.py:21 | `strip()` keeps one contiguous run of the text. Everything it removes before and after that run is whitespace. |
| Common.PyPrefix | backend/app/history_manager.py:57 | `s[:n]` is a prefix with Python's length for negative and oversized n. |
| Api.UpdateHost | backend/app/main.py:61-67 | An unknown id is a 404 with the KeyError text and changes nothing. Otherwise the first matching host is merged and returned, or a 500 when the merged dict is no valid Host. |
| Api.TriggerHost | backend/app/main.py:89-95 | An unknown host or an invalid host list is a 404. Otherwise the record of exactly one check is journalled and returned. A failure writes no entry. |
| Api.FailuresAtMostChecks | backend/app/main.py:126-131 | A day never has more failures than checks. |
| Api.NoChecksWithoutEntries | backend/app/main.py:126-129 | A date has no checks exactly when no entry carries it. |
| Api.DaysTalliedSnoc | backend/app/main.py:127-131 | One more entry keeps `by_day` equal to the counts of every date seen. |
| Api.CamerasTalliedSnoc | backend/app/main.py:130-133 | One more entry keeps `by_camera` equal to the failure counts per camera. |
| Api.AggregateHostHistory | backend/app/main.py:123-140 | One element per date, in ascending order, counting that date's entries and failure entries. Per camera, the number of times failure entries list it. |
| Api.HostHistory | backend/app/main.py:111-120 | Every journal entry of the host, newest first. No entries give an empty aggregation; otherwise it aggregates exactly those entries. |
| Api.NewestIsLatest | backend/app/main.py:175-177 | A host's status is its newest record, none newer. |
| Api.StatusesShape | backend/app/main.py:172-177 | One status per host that has entries, and each is the newest record of one of the hosts. |
| Api.Status | backend/app/main.py:170-181 | The loop yields the newest record of each host, in host order. |
| Api.LastHost | backend/app/main.py:145-146 | The dict by id finds the last host with the id (no later host has it), or none exactly when no host has it. |
| Api.SpacesToUnderscores | backend/app/main.py:151 | `replace(" ", "_")` changes exactly the spaces. |
| Api.Targets | backend/app/main.py:152-153 | One candidate file per service, in order. |
| Api.Existing | backend/app/main.py:154-155 | Only targets whose file exists are kept. |
| Api.ExistingComplete | backend/app/main.py:152-155 | Every target whose file exists is kept. |
| Api.ReadTables | backend/app/main.py:152-163 | One table per existing file, in order. It raises exactly when some existing file holds a non-dict record. |
| Api.ReadLogs | backend/app/main.py:143-167 | As written: 404 for an unknown host; otherwise the tables of the files named with spaces turned into underscores, a missing file skipped. |
| Api.ReadLogsCorrected | backend/app/main.py:143-167 | With the file name the monitor writes, every log file written for the host's services is shown. |
| Api.DottedNameMissed | backend/app/main.py:151-153 | For host "a.b", read_logs opens a different file than the one `_collect_logs` writes, so that log is never shown. |
| AppSettings.FieldNamesListed | backend/app/config.py:13-20 | The field list names exactly the configuration fields, each once. |
| AppSettings.Defaults | backend/app/config.py:13-20 | The defaults are empty token and chat id, interval 10 and retry delay 5, under exactly the field names. |
| AppSettings.NormalizedPicks | backend/app/config.py:57-63 | A non-None alias value wins, else a non-None field-name value, else the field is left out. |
| AppSettings.NormalizedFresh | backend/app/config.py:57-63 | A name that is not a field never becomes a key. |
| AppSettings.NormalizedKeys | backend/app/config.py:57-63 | Only field names become keys, so unknown keys are ignored. |
| AppSettings.ConfigManager.constructor | backend/app/config.py:28-34 | A missing file gives the defaults. |
| AppSettings.ConfigManager.Update | backend/app/config.py:56-67 | The new configuration is the old one updated by the normalised payload, and `get()` returns it. |
| AppSettings.UpdateField | backend/app/config.py:56-67 | After update, a field holds the alias value, else the field-name value, else its old value. The key set stays the field set. |
| LogService.ReplaceZ | backend/app/services/logs.py:28 | No "Z" is left, and text without one is unchanged. |
| LogService.ReplaceZAppend | backend/app/services/logs.py:28 | The replacement works piecewise. |
| LogService.ZuluIsUtc | backend/app/services/logs.py:26-30 | A trailing "Z" reads as "+00:00", and rewritten text reads the same again. |
| LogService.EntryOf | backend/app/services/logs.py:43-57 | A line starting with "{" that decodes is its dict. Any other line is `{"message": line, "timestamp": ...}`, with the timestamp null exactly when the scan finds none. |
| LogService.DecodeOnlyBraces | backend/app/services/logs.py:47-51 | JSON decoding is only tried on lines starting with "{". |
| LogService.EntriesPointwise | backend/app/services/logs.py:42-58 | Entry k is made of line k. |
| LogService.EntriesOf | backend/app/services/logs.py:42-58 | One entry per line. |
| LogService.ParseLogEntries | backend/app/services/logs.py:40-59 | One entry per non-blank stripped line, in order. |
| LogService.EstimateFailureStart | backend/app/services/logs.py:89-101 | The loop computes what Estimate specifies. |
| LogService.InstantsRaisedPrefix | backend/app/services/logs.py:91-98 | Once an entry raises, the whole estimate raises the same. |
| LogService.InstantsAllOk | backend/app/services/logs.py:91-98 | When the estimate does not raise, no entry raises. |
| LogService.InstantsEmpty | backend/app/services/logs.py:97-100 | There are no instants exactly when no entry yields one. |
| LogService.InstantsSound | backend/app/services/logs.py:91-98 | The instants are exactly those of the entries. |
| LogService.EstimateMeaning | backend/app/services/logs.py:89-101 | It raises exactly when some entry's timestamp is truthy and not a str. It is None exactly when no entry has a parseable timestamp. Otherwise it is the earliest instant, with naive values read in the zone. |
| LogService.InstantsRaisedWitness | backend/app/services/logs.py:91-98 | A raise comes from some entry. |
| LogService.Or | backend/app/services/logs.py:77-78 | Python's `a or b`. |
| LogService.RowOf | backend/app/services/logs.py:69-80 | A row keeps the whole entry and parses a str timestamp. Level falls back to "severity" and message to "msg". |
| LogService.RowsPointwise | backend/app/services/logs.py:68-82 | One row per entry, row k made of entry k. |
| LogService.LogFilesPerService | backend/app/services/logs.py:20-21 | Different services of a host get different files. |
| LogService.LogStore.SaveLogFile | backend/app/services/logs.py:18-23 | The file `<hostname>-<service>.log` holds exactly the content afterwards, and nothing else changes. |
| LogService.LogStore.PersistLogEntries | backend/app/services/logs.py:62-86 | One row per entry, in order, appended to the table and returned. |
| CheckService.Apply | backend/app/services/monitor.py:107-129 | The log only grows, by one line exactly when a message is given. `started_at` is set once. Status, summary, finished_at and failure_event_id change only when supplied. |
| CheckService.Initial | backend/app/services/monitor.py:73-88 | The check is pending with one line: "Manual check requested" exactly for a manual trigger, otherwise "Scheduled check queued". |
| CheckService.ExtendsNoted | backend/app/services/monitor.py:111-114 | A progress line keeps the check's earlier log and the other checks. |
| CheckService.FindHost | backend/app/services/monitor.py:181 | The host with the id, or none exactly when there is none. |
| CheckService.EnabledHosts | backend/app/services/monitor.py:427 | The selection is no longer than the table. |
| CheckService.EnabledHostsSelect | backend/app/services/monitor.py:427 | Exactly the enabled hosts are selected. |
| CheckService.QueuedChecks | backend/app/services/monitor.py:429-431 | The queued checks are new, one per host in order, each pending and scheduled for its host. Existing checks are untouched. |
| CheckService.QueuedThenRun | backend/app/services/monitor.py:429-435 | Queueing and then running each queued check: the new ids are the queued ones, each finished with its host and trigger. Older checks are untouched. |
| CheckService.QueuedSnoc | backend/app/services/monitor.py:429-431 | One more enabled host adds exactly its scheduled check under the next id. |
| CheckService.SplitOn | backend/app/services/monitor.py:388 | `split(",")` gives at least one piece, none containing the separator. |
| CheckService.SplitJoin | backend/app/services/monitor.py:388 | Joining the pieces gives the text back. |
| CheckService.MentionLine | backend/app/services/monitor.py:387-390 | A falsy value gives no line and a truthy non-str raises. Otherwise the line holds one tag per stripped non-empty id. |
| CheckService.AlertLines | backend/app/services/monitor.py:374-390 | The header, host, count and identifiers lines come first, then the onset line when there is one, the mention name when truthy, and the mentions. |
| CheckService.FirstNonStr | backend/app/services/monitor.py:393 | The first item that is not a str. |
| CheckService.JoinLines | backend/app/services/monitor.py:393 | `"\n".join` succeeds exactly when every line is a str. |
| CheckService.Wall | backend/app/services/monitor.py:345-352 | The Etc/GMT+3 wall reading of an instant localises back to it. |
| CheckService.Screening | backend/app/services/monitor.py:233-309 | The check goes on only when both visits see more than one failing camera, both screenshots are taken and the retry wait does not raise. An unloadable page is an error; at most one failing camera at either visit is a success. A `retry_delay_minutes` that is not an int or a bool raises the TypeError of the wait after the first screenshot. |
| CheckService.RetryWaitError | backend/app/services/monitor.py:272 | `asyncio.sleep(retry_delay_minutes * 60)` raises exactly when the value is neither an int nor a bool: the comparison TypeError for a str or a list, the multiplication TypeError for a dict or None. |
| CheckService.ParsedAll | backend/app/services/monitor.py:315-335 | One entry list per service. |
| CheckService.LogPaths | backend/app/services/monitor.py:332-333 | One saved path per service, even when the fetch failed. |
| CheckService.SavedFilesHold | backend/app/services/monitor.py:315-333 | Each service's file holds exactly its text, or "" when the request failed. Other files are unchanged. |
| CheckService.OnsetMeaning | backend/app/services/monitor.py:339-343 | The onset raises exactly when some estimate raises. It is None exactly when every estimate is None. Otherwise it is the earliest estimate. |
| CheckService.OnsetRaisedPrefix | backend/app/services/monitor.py:339-343 | Once an estimate raises, the onset raises the same. |
| CheckService.EstimateOnset | backend/app/services/monitor.py:339-343 | The min-onset loop computes Onset. |
| CheckService.CheckOutcome | backend/app/services/monitor.py:221-422 | The status is success, failure or error, with a non-empty summary. "failure" means an event was stored and the mentions were built. The event's count and ids are the second visit's, with one log path per service. |
| CheckService.Deliveries | backend/app/services/monitor.py:392-416 | Requests are sent exactly when an event was stored and its mentions were built. At most three are sent, the log files last. |
| CheckService.Close | backend/app/services/monitor.py:192-209 | The closing status is failure or success exactly when check_host returned that status, and error for anything else. A raise gives "Unexpected error during check". Only failure carries an event id. |
| CheckService.Monitor.constructor | backend/app/services/monitor.py:315 | Empty tables, with the services go2rtc, nginx and frigate. |
| CheckService.Monitor.CreateHostCheck | backend/app/services/monitor.py:73-93 | A new pending check under a fresh id, with nothing else changed. |
| CheckService.Monitor.UpdateCheckRecord | backend/app/services/monitor.py:96-129 | None for an unknown id, otherwise the Apply result. Only that check changes. |
| CheckService.Monitor.Progress | backend/app/services/monitor.py:146-147 | A progress line only extends the check's log. |
| CheckService.Monitor.ScreenHost | backend/app/services/monitor.py:233-309 | The two visits end as Screening says, including the raise of the retry wait, writing only progress lines. |
| CheckService.Monitor.FetchLog | backend/app/services/monitor.py:319-337 | One service's file is saved and its rows are appended. |
| CheckService.Monitor.CollectLogs | backend/app/services/monitor.py:315-337 | One path per service, the files saved and the rows appended in service order. |
| CheckService.Monitor.SendFailure | backend/app/services/monitor.py:394-397 | A failed send only notes a line. |
| CheckService.Monitor.Notify | backend/app/services/monitor.py:384-416 | The mention line is built and the requests of Deliveries are sent. |
| CheckService.Monitor.StoreEvent | backend/app/services/monitor.py:354-368 | The event is stored under the next id, with the second visit's ids and both screenshots. |
| CheckService.Monitor.Announce | backend/app/services/monitor.py:354-422 | The event is stored before the mentions are built, so a raising mention split leaves it stored. |
| CheckService.Monitor.Escalate | backend/app/services/monitor.py:311-422 | The confirmed branch gives CheckOutcome, stores the event, saves the logs and sends Deliveries. |
| CheckService.Monitor.CheckHost | backend/app/services/monitor.py:221-422 | The result is CheckOutcome. Logs are touched only for a confirmed failure, and the check's log only grows. |
| CheckService.Monitor.RunHostCheck | backend/app/services/monitor.py:175-209 | An unknown check is untouched. A missing host ends "error" with "Host not found". A scheduled check of a disabled host is "skipped", while manual checks ignore the flag. Otherwise the check is started, runs, and is completed with the mapped status. Every existing check ends finished. It keeps its host and trigger. |
| CheckService.Monitor.Conduct | backend/app/services/monitor.py:191-209 | A started check gets the start line first, the closing line last, and the mapped status, summary and event id. |
| CheckService.Monitor.Begin | backend/app/services/monitor.py:137-144 | Running, a start line, and started_at set once. |
| CheckService.Monitor.Finish | backend/app/services/monitor.py:200-209 | The closing line, then finished with the mapped status. |
| CheckService.Monitor.Enqueue | backend/app/services/monitor.py:429-431 | An enabled host gets the next scheduled check. A disabled one gets none. |
| CheckService.Monitor.QueueChecks | backend/app/services/monitor.py:426-431 | One scheduled check per enabled host, in table order, under consecutive ids. Nothing else changes. |
| CheckService.Monitor.RunMonitoring | backend/app/services/monitor.py:425-438 | One scheduled check per enabled host, in table order, under consecutive ids. Each is then run and ends finished, still of its host and scheduled. The checks there were are untouched. |
| CheckService.Monitor.RunEach | backend/app/services/monitor.py:432-435 | Each listed check is run: each ends finished with its host and trigger. The other checks are untouched. |
| CheckService.HostCheckRecorder.constructor | backend/app/services/monitor.py:133-135 | The recorder writes into its check. |
| CheckService.HostCheckRecorder.Start | backend/app/services/monitor.py:137-144 | The check is running with a start line. |
| CheckService.HostCheckRecorder.Log | backend/app/services/monitor.py:146-147 | One progress line. |
| CheckService.HostCheckRecorder.Complete | backend/app/services/monitor.py:149-163 | The final status and summary, finished. |
| CheckService.HostCheckRecorder.Skip | backend/app/services/monitor.py:165-172 | Skipped with a summary, finished. |
| FailureViews.RelativeTo | backend/app/routers/failures.py:29-31 | "." for the directory itself. Any other result joined back under the directory gives the path. |
| FailureViews.RelativeJoined | backend/app/routers/failures.py:29 | Every path under the directory is found there again. |
| FailureViews.PublicMediaPath | backend/app/routers/failures.py:20-32 | None for a missing or empty path. A URL always starts with "/media/" and leads back to the resolved file under DATA_DIR. |
| FailureViews.PublicMediaInside | backend/app/routers/failures.py:20-32 | A path resolving inside DATA_DIR is published as "/media/" plus its relative path. |
| FailureViews.PublicPaths | backend/app/routers/failures.py:39-41 | Exactly the URLs of the files that have one. |
| FailureViews.PublicPathsAppend | backend/app/routers/failures.py:39-41 | Their order is kept. |
| FailureViews.SerializeFailure | backend/app/routers/failures.py:35-42 | Other fields are copied. Each screenshot becomes the public URL of its stored path (PublicMediaPath). The log files become PublicPaths of the stored ones: only those with a URL, in order. |
| FailureViews.Distinct | backend/app/routers/failures.py:53-56 | The non-empty items, each once, in the order of their first occurrence. |
| FailureViews.DistinctSubsequence | backend/app/routers/failures.py:53-56 | They keep their input order. |
| FailureViews.Stop | backend/app/routers/failures.py:57-58 | The loop stops right after the item that reaches the limit. |
| FailureViews.GatheredMeaning | backend/app/routers/failures.py:50-59 | The result has no repeats and no empty strings, and is a subsequence of the input. It has at most `limit` items (at most one for a limit below one), and is short only when every path was read. It is a prefix of the distinct non-empty paths in first-occurrence order. |
| FailureViews.GatheredSize | backend/app/routers/failures.py:57-58 | The size bound alone. |
| FailureViews.GatherRecentFiles | backend/app/routers/failures.py:50-59 | The loop computes Gathered. |
| FailureViews.Label | backend/app/routers/failures.py:88-98 | Latest, Previous, then "Screenshot n". |
| FailureViews.Name | backend/app/routers/failures.py:117 | The name holds no "/". |
| FailureViews.LastComponent | backend/app/routers/failures.py:117 | The file name is one of the path's components, or empty. |
| FailureViews.ShotCandidates | backend/app/routers/failures.py:63-71 | No empty candidate. |
| FailureViews.ShotLinks | backend/app/routers/failures.py:89-99 | Each link is a "/media/" URL of a gathered path, labelled by that path's index. |
| FailureViews.LogLinks | backend/app/routers/failures.py:114-118 | Each link is a "/media/" URL of a gathered path, labelled by its file name. |
| FailureViews.GatherShotPool | backend/app/routers/failures.py:63-83 | The candidates, topped up to two from the files found. |
| FailureViews.LabelShots | backend/app/routers/failures.py:89-99 | The enumerate loop computes ShotLinks. |
| FailureViews.LatestScreenshots | backend/app/routers/failures.py:62-99 | At most two screenshots, labelled Latest and Previous. |
| FailureViews.LatestLogs | backend/app/routers/failures.py:101-118 | At most five logs, labelled by file name. |

## Left out

- Browser automation: the dashboard JavaScript, Playwright and the screenshot files. Each visit's camera list, or its exception, and whether each screenshot was taken are inputs.
- HTTP and Telegram transport: `httpx`, `send_message` and `send_media`. A log fetch's body or error, and each send's outcome, are inputs.
- Concurrency and timing:
  - `asyncio.gather` and `create_task`: the checks of a cycle and the checks queued by `run_monitoring` run one after another in the model, in order. The source only logs the exceptions `gather` collects, and the modelled `run_host_check` never raises.
  - The five-minute and `retry_delay_minutes` waits themselves; only the TypeError of a `retry_delay_minutes` that is not an int or a bool is modelled (RetryWaitError).
  - `start`, `stop`, `restart` and `_stop_event` of the flat monitor's loop. Only the interval of `_run` is modelled (IntervalMinutes).
  - The locks.
- Time zones and ISO-8601 parsing:
  - `dateutil.isoparse`, `datetime.fromisoformat`, `isoformat` and `strftime` are opaque functions, and instants are integers.
  - `ensure_timezone`: an aware onset keeps its instant, since `astimezone` changes only how it is written. A naive one is read in the configured zone by pytz's `localize`, an opaque function of the zone name and the wall reading (FlatMonitor.Localized).
  - The SQL generation's naive-versus-aware reading uses `Localize` and `Wall`, a fixed three-hour offset.
- `json.loads` is an opaque partial function.
- `TIMESTAMP_PATTERN` is an opaque scan. Its doubled backslashes make it match literal text rather than digits, so it is not modelled as a timestamp matcher.
- SQL sessions, commits and refreshes: tables are fields, and ids are handed out in order. The `list_failures`, `failure_stats`, `get_failure`, `failure_logs`, `host_logs` and `host_summary` queries are not part of this model.
- Globbing and mtime sorting in `_latest_media`: the files found arrive already sorted newest first. `captured_at` reads a file's mtime and is not modelled.
- `Path.resolve` is a parameter. `relative_to` and `as_posix` work on the resolved text as a prefix relation.
- pydantic:
  - Validation is modelled only for the Host fields that the flat API reads; `isUrl` is its URL check.
  - `model_dump` and `from_orm` are identities on the datatypes.
  - AppConfig's own field validation is not part of this model, since `copy(update=...)` skips it.
- The clock is read once per check run (`Clock`) and given as an input wherever the source reads it.
- The credentials seeded into the flat default configuration are a parameter (`FlatConfig.Identity`).
- `ConfigManager.get_config`, `replace_hosts` and `save_config` of the flat store are not used by the modelled endpoints and are left out. So are `read_config`, `write_config` and `reload` of the SQL store: the file round trip is the identity here.
- Process wiring and the endpoints that only hand a value through: `list_hosts`, `create_host`, `delete_host`, `get_settings`, `update_settings`, `history` and `history_summary`. Their logic is the store and journal operations above.
- `str()` of containers and of exceptions: error texts other than the KeyError and TypeError texts named in the model are inputs.
- JsonLines.Row: str() of a list or dict value is the empty text in the model (Text.Show). JSON numbers with a fraction or an exponent are not part of the value model.
- FlatMonitor.Mentions: a mention_name that is a list or a dict is rendered as the empty text (Text.Show), not as its str().
- FlatMonitor.LookupZone: the KeyError text is the name between single quotes. Python's repr switches to double quotes or escapes for names holding quotes or backslashes, and pytz's case-insensitive lookup and `_plus_`/`_minus_` renaming of the name are not modelled. History.HistoryManager.BuildSummary writes the same text, and FlatConfig.HostNotFound quotes its message the same way.
- CheckService.Monitor.CheckHost: the progress lines are stated only as growth of the check's log (Extends), not line by line.
- CheckService.EnabledHosts: its own contract states only the length bound. The selection itself is stated by EnabledHostsSelect.
- FlatMonitor.NotifySpec: its own contract states only that at most one message is appended. The message text is stated by AlertShape, and when a message is sent is stated by FailureStoresSignature and ConfirmFacts.

## Findings

| source | as written | input that shows it | evidently intended | confidence | as-written member | corrected member |
|---|---|---|---|---|---|---|
| backend/app/monitor.py:86-88 | The exception branch of `_run_cycle` calls `tz_get` again on the same settings. The only exception `_check_host` lets escape is that zone lookup failing, so the branch raises again. The cycle ends with no error record for that result or any later one. | A `timezone` setting such as "Mars/Base" with one host: the check raises UnknownTimeZoneError, and so does the error-record branch. The journal gets no entry. | One error entry per failed result, as the loop's own branch and the journal's one-entry-per-check design say. | not executed | FlatMonitor.MonitorService.RunCycle, FlatMonitor.UnknownZoneLosesEntries | FlatMonitor.MonitorService.RunCycleCorrected |
| backend/app/main.py:151 | `read_logs` looks for `<name with spaces as underscores>-<service>.log`. `_collect_logs` writes `<name with every char outside [A-Za-z0-9_-] as underscore>-<service>.log` (monitor.py:191). | A host named "a.b": the monitor writes `a_b-go2rtc.log`, and read_logs looks for `a.b-go2rtc.log`, so the log is never shown. | read_logs opens the file the monitor wrote. | not executed | Api.ReadLogs, Api.DottedNameMissed | Api.ReadLogsCorrected |
