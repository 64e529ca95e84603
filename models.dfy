// The records the flat-file generation passes between its parts (backend/app/models.py).
// Instants are kept as the ISO-8601 text the journal stores for them, since that text
// is what the journal is sorted and bucketed by.
module Models {
  import opened Common

  /** A monitored Frigate instance; `address` is the base URL. */
  datatype Host = Host(id: string, name: string, address: string, notes: Option<string>)

  /** Where the logs of one service were written for a check. */
  datatype LogLocation = LogLocation(service: string, path: string)

  /** One confirmed check outcome as the history journal keeps it. */
  datatype FailureRecord = FailureRecord(
    id: string,
    hostId: string,
    hostName: string,
    timestamp: string,
    timezone: string,
    status: string,
    failingCount: int,
    failingCameras: seq<int>,
    failureStartedAt: Option<string>,
    logLocations: seq<LogLocation>,
    notes: Option<string>)

  /** Lifetime counters of one host. */
  datatype SummaryBucket = SummaryBucket(period: string, totalChecks: nat, failures: nat)

  /** The dashboard card of one host: its counters, failures per camera, recent history. */
  datatype HostSummary = HostSummary(
    host: Host,
    totals: SummaryBucket,
    failureCountsByCamera: map<string, nat>,
    history: seq<FailureRecord>)

  datatype SummaryResponse = SummaryResponse(generatedAt: string, timezone: string, hosts: seq<HostSummary>)
}
