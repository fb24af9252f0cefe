/** Query-execution records as the analyzer loads them, and the issues its
    detectors report. Missing values (SQL NULL, pandas NaN) are `None`. */
module Telemetry {

  datatype Option<+T> = None | Some(value: T) {
    /** The `x if pd.notna(x) else default` idiom of the analyzer. */
    function GetOr(default: T): T {
      match this
      case Some(v) => v
      case None => default
    }
  }

  function Max(a: int, b: int): (m: int)
    ensures m >= a && m >= b && (m == a || m == b)
  {
    if a >= b then a else b
  }

  /** `x / d > t` for a positive divisor, without the division. */
  lemma QuotientAbove(x: real, d: real, t: real)
    requires d > 0.0
    ensures x / d > t <==> x > t * d
  {
    var q := x / d;
    assert q * d == x;
    if q > t {
      assert (q - t) * d > 0.0;
    }
    if x > t * d {
      assert (q - t) * d > 0.0;
    }
  }

  /** `x / d < t` for a positive divisor, without the division. */
  lemma QuotientBelow(x: real, d: real, t: real)
    requires d > 0.0
    ensures x / d < t <==> x < t * d
  {
    var q := x / d;
    assert q * d == x;
    if q < t {
      assert (t - q) * d > 0.0;
    }
    if x < t * d {
      assert (t - q) * d > 0.0;
    }
  }

  /** One row of the query history: the columns the detectors read.
      Durations are milliseconds, sizes are bytes. */
  datatype QueryRecord = QueryRecord(
    queryId: string,
    queryText: Option<string>,
    userName: Option<string>,
    warehouseName: Option<string>,
    warehouseSize: Option<string>,
    totalElapsedMs: Option<int>,
    executionMs: Option<int>,
    compilationMs: Option<int>,
    queuedOverloadMs: Option<int>,
    bytesScanned: Option<int>,
    bytesSpilledLocal: Option<int>,
    bytesSpilledRemote: Option<int>,
    partitionsScanned: Option<int>,
    partitionsTotal: Option<int>,
    percentScannedFromCache: Option<real>,
    rowsProduced: Option<int>)

  /** The derived column EXECUTION_TIME_SEC: execution time divided by 1000,
      missing (NaN) when the execution time is missing. */
  function ExecutionSeconds(r: QueryRecord): (s: Option<real>)
    ensures s.Some? <==> r.executionMs.Some?
    ensures s.Some? ==> s.value * 1000.0 == r.executionMs.value as real
  {
    match r.executionMs
    case Some(ms) => Some(ms as real / 1000.0)
    case None => None
  }

  datatype Severity = Critical | High | Medium | Low

  /** Why a query was flagged as a potential cartesian join; the REASON
      column joins these in this order. */
  datatype JoinReason = MissingJoinCondition | ExplicitCrossJoin | RowExplosion

  /** One row of a detector's issue table. Every constructor carries the
      SEVERITY column; the display-only columns (rounded gigabytes, reason and
      recommendation strings) are left out. */
  datatype Issue =
    | CartesianJoin(queryId: string, userName: Option<string>, warehouse: Option<string>,
                    executionMs: Option<int>, rowsProduced: int, severity: Severity,
                    reasons: seq<JoinReason>)
    | MemorySpilling(queryId: string, userName: Option<string>, warehouse: Option<string>,
                     warehouseSize: Option<string>, executionMs: Option<int>,
                     localSpillBytes: int, remoteSpillBytes: int, severity: Severity)
    | OversizedWarehouse(warehouseName: string, size: string, avgExecSeconds: real,
                         queryCount: nat, severity: Severity)
    | WarehouseQueuing(warehouseName: string, size: string, queuedMs: int,
                       queryCount: nat, severity: Severity)
    | PoorPruning(queryId: string, userName: Option<string>, warehouse: Option<string>,
                  executionMs: Option<int>, partitionsScanned: int, partitionsTotal: int,
                  scanPercentage: real, severity: Severity)
    | LowCacheUsage(queryId: string, userName: Option<string>, warehouse: Option<string>,
                    executionMs: Option<int>, cachePercentage: real, severity: Severity)
    | LongCompilation(queryId: string, userName: Option<string>, compilationMs: int,
                      compilationPct: real, severity: Severity)
  {
    /** The QUERY_ID column; the warehouse tables have none. */
    function QueryId(): Option<string> {
      if OversizedWarehouse? || WarehouseQueuing? then None else Some(queryId)
    }
  }
}
