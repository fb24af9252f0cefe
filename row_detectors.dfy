/** The five per-row detectors of the analyzer. Each scans the records in
    order and appends at most one issue per record; the firing test of each
    one is a function of the record alone. */
module RowDetectors {
  import opened Telemetry
  import opened SqlText

  // ---------------------------------------------------------------------
  // The table a per-row scan builds, and which rows it picks

  /** The issues `f` finds in `rs`, in record order. */
  function Collect(f: QueryRecord -> Option<Issue>, rs: seq<QueryRecord>): (issues: seq<Issue>)
    ensures |issues| <= |rs|
    decreases |rs|
  {
    if rs == [] then []
    else
      var prev := Collect(f, rs[..|rs| - 1]);
      match f(rs[|rs| - 1])
      case Some(issue) => prev + [issue]
      case None => prev
  }

  /** The indices of the records `f` raises an issue for, ascending. */
  function Picked(f: QueryRecord -> Option<Issue>, rs: seq<QueryRecord>): seq<nat>
    decreases |rs|
  {
    if rs == [] then []
    else
      var prev := Picked(f, rs[..|rs| - 1]);
      if f(rs[|rs| - 1]).Some? then prev + [|rs| - 1] else prev
  }

  lemma {:induction false} PickedLength(f: QueryRecord -> Option<Issue>, rs: seq<QueryRecord>)
    ensures |Collect(f, rs)| == |Picked(f, rs)| <= |rs|
    decreases |rs|
  {
    if rs != [] {
      PickedLength(f, rs[..|rs| - 1]);
    }
  }

  lemma {:induction false} PickedBounds(f: QueryRecord -> Option<Issue>, rs: seq<QueryRecord>)
    ensures forall k :: 0 <= k < |Picked(f, rs)| ==> Picked(f, rs)[k] < |rs|
    ensures forall k, l :: 0 <= k < l < |Picked(f, rs)| ==> Picked(f, rs)[k] < Picked(f, rs)[l]
    decreases |rs|
  {
    if rs != [] {
      PickedBounds(f, rs[..|rs| - 1]);
    }
  }

  lemma {:induction false} PickedIssues(f: QueryRecord -> Option<Issue>, rs: seq<QueryRecord>)
    ensures |Collect(f, rs)| == |Picked(f, rs)|
    ensures forall k :: 0 <= k < |Picked(f, rs)| ==>
              Picked(f, rs)[k] < |rs| && f(rs[Picked(f, rs)[k]]) == Some(Collect(f, rs)[k])
    decreases |rs|
  {
    PickedLength(f, rs);
    PickedBounds(f, rs);
    if rs != [] {
      var front := rs[..|rs| - 1];
      PickedIssues(f, front);
      PickedBounds(f, front);
      forall k | 0 <= k < |Picked(f, front)|
        ensures f(rs[Picked(f, rs)[k]]) == Some(Collect(f, rs)[k])
      {
        assert Picked(f, rs)[k] == Picked(f, front)[k];
        assert Collect(f, rs)[k] == Collect(f, front)[k];
        assert rs[Picked(f, front)[k]] == front[Picked(f, front)[k]];
      }
    }
  }

  lemma {:induction false} PickedExactly(f: QueryRecord -> Option<Issue>, rs: seq<QueryRecord>)
    ensures forall i :: 0 <= i < |rs| ==> (f(rs[i]).Some? <==> i in Picked(f, rs))
    decreases |rs|
  {
    if rs != [] {
      var front := rs[..|rs| - 1];
      PickedExactly(f, front);
      PickedBounds(f, front);
      assert forall i :: 0 <= i < |front| ==> rs[i] == front[i];
    }
  }

  /** A scan emits at most one issue per record, in record order: the k-th
      issue is the one found in the k-th picked record, the picked indices
      ascend, and a record is picked exactly when `f` raises an issue for it. */
  lemma CollectShape(f: QueryRecord -> Option<Issue>, rs: seq<QueryRecord>)
    ensures |Collect(f, rs)| == |Picked(f, rs)| <= |rs|
    ensures forall k, l :: 0 <= k < l < |Picked(f, rs)| ==> Picked(f, rs)[k] < Picked(f, rs)[l]
    ensures forall k :: 0 <= k < |Picked(f, rs)| ==>
              Picked(f, rs)[k] < |rs| && f(rs[Picked(f, rs)[k]]) == Some(Collect(f, rs)[k])
    ensures forall i :: 0 <= i < |rs| ==> (f(rs[i]).Some? <==> i in Picked(f, rs))
  {
    PickedLength(f, rs);
    PickedBounds(f, rs);
    PickedIssues(f, rs);
    PickedExactly(f, rs);
  }

  /** A scan's table is empty exactly when no record fires; in particular an
      empty snapshot gives an empty table. */
  lemma CollectEmptyIff(f: QueryRecord -> Option<Issue>, rs: seq<QueryRecord>)
    ensures Collect(f, rs) == [] <==> forall i :: 0 <= i < |rs| ==> f(rs[i]).None?
  {
    CollectShape(f, rs);
    if Collect(f, rs) != [] {
      var i := Picked(f, rs)[0];
      assert f(rs[i]).Some?;
    }
  }

  /** `f` copies the QUERY_ID of the record it flags into its issue. */
  ghost predicate KeepsQueryId(f: QueryRecord -> Option<Issue>) {
    forall r :: f(r).Some? ==> f(r).value.QueryId() == Some(r.queryId)
  }

  /** Every issue of a scan carries the QUERY_ID of the record it was found in. */
  lemma CollectQueryIds(f: QueryRecord -> Option<Issue>, rs: seq<QueryRecord>)
    requires KeepsQueryId(f)
    ensures |Collect(f, rs)| == |Picked(f, rs)|
    ensures forall k :: 0 <= k < |Collect(f, rs)| ==>
              Picked(f, rs)[k] < |rs| && Collect(f, rs)[k].QueryId() == Some(rs[Picked(f, rs)[k]].queryId)
  {
    CollectShape(f, rs);
  }

  // ---------------------------------------------------------------------
  // Cartesian joins (analyze_cartesian_joins)

  /** JOIN appears but neither ON nor USING does. */
  predicate LacksJoinCondition(text: string) {
    Contains(text, "JOIN") && !(Contains(text, "ON") || Contains(text, "USING"))
  }

  predicate HasCrossJoin(text: string) {
    Contains(text, "CROSS JOIN")
  }

  /** Many rows produced per byte scanned; missing rows count as 0 and
      missing bytes as 1. */
  predicate HighRowExplosion(r: QueryRecord) {
    var rows := r.rowsProduced.GetOr(0);
    var bytes := r.bytesScanned.GetOr(1);
    rows > 1000000 && (rows as real) / (Max(bytes, 1) as real) > 10.0
  }

  function CartesianFinding(r: QueryRecord): (found: Option<Issue>)
    ensures found.Some? ==> found.value.CartesianJoin? && found.value.QueryId() == Some(r.queryId)
  {
    var text := UpperText(r);
    var missing := LacksJoinCondition(text);
    var cross := HasCrossJoin(text);
    var explosion := HighRowExplosion(r);
    if missing || cross || explosion then
      var reasons := (if missing then [MissingJoinCondition] else [])
                     + (if cross then [ExplicitCrossJoin] else [])
                     + (if explosion then [RowExplosion] else []);
      Some(CartesianJoin(r.queryId, r.userName, r.warehouseName, r.executionMs,
                         r.rowsProduced.GetOr(0), if missing || cross then Critical else High,
                         reasons))
    else None
  }

  /** The row-explosion test in integers: more than a million rows, and more
      than ten rows per byte scanned (at least one byte). It never fires when
      the row count is missing. */
  lemma RowExplosionIff(r: QueryRecord)
    ensures HighRowExplosion(r) <==>
              r.rowsProduced.Some? && r.rowsProduced.value > 1000000 &&
              r.rowsProduced.value > 10 * Max(r.bytesScanned.GetOr(1), 1)
  {
    var rows := r.rowsProduced.GetOr(0);
    var den := Max(r.bytesScanned.GetOr(1), 1);
    QuotientAbove(rows as real, den as real, 10.0);
  }

  /** The textual signal of a cartesian join: JOIN without any ON or USING,
      or an explicit CROSS JOIN. */
  ghost predicate TextualJoinSignal(text: string) {
    (Mentions(text, "JOIN") && !Mentions(text, "ON") && !Mentions(text, "USING"))
    || Mentions(text, "CROSS JOIN")
  }

  /** A record is flagged iff its text shows a textual join signal or it
      produced more than a million rows and more than ten per byte scanned;
      the issue is CRITICAL iff the signal was textual, HIGH otherwise, and its
      reasons name exactly the tests that fired. */
  lemma CartesianFindingIff(r: QueryRecord)
    ensures var rows := r.rowsProduced;
            var explosion := rows.Some? && rows.value > 1000000 &&
                             rows.value > 10 * Max(r.bytesScanned.GetOr(1), 1);
            var textual := TextualJoinSignal(UpperText(r));
            var found := CartesianFinding(r);
            (found.Some? <==> textual || explosion) &&
            (found.Some? ==>
               (found.value.severity == Critical <==> textual) &&
               (found.value.severity == High <==> !textual) &&
               found.value.reasons != [] &&
               (MissingJoinCondition in found.value.reasons <==>
                  Mentions(UpperText(r), "JOIN") && !Mentions(UpperText(r), "ON") &&
                  !Mentions(UpperText(r), "USING")) &&
               (ExplicitCrossJoin in found.value.reasons <==> Mentions(UpperText(r), "CROSS JOIN")) &&
               (RowExplosion in found.value.reasons <==> explosion))
  {
    var text := UpperText(r);
    ContainsIffMentions(text, "JOIN");
    ContainsIffMentions(text, "ON");
    ContainsIffMentions(text, "USING");
    ContainsIffMentions(text, "CROSS JOIN");
    RowExplosionIff(r);
  }

  method AnalyzeCartesianJoins(rs: seq<QueryRecord>) returns (issues: seq<Issue>)
    ensures issues == Collect(CartesianFinding, rs)
    ensures |issues| <= |rs|
  {
    issues := [];
    var i := 0;
    while i < |rs|
      invariant 0 <= i <= |rs|
      invariant issues == Collect(CartesianFinding, rs[..i])
    {
      assert rs[..i + 1][..i] == rs[..i];
      var found := CartesianFinding(rs[i]);
      if found.Some? {
        issues := issues + [found.value];
      }
      i := i + 1;
    }
    assert rs[..i] == rs;
    CollectShape(CartesianFinding, rs);
  }

  // ---------------------------------------------------------------------
  // Memory spilling (analyze_spilling)

  /** A byte count that is present and positive. */
  predicate Positive(bytes: Option<int>) {
    bytes.Some? && bytes.value > 0
  }

  function SpillFinding(r: QueryRecord): (found: Option<Issue>)
    ensures found.Some? <==> Positive(r.bytesSpilledLocal) || Positive(r.bytesSpilledRemote)
    ensures found.Some? ==>
              found.value.MemorySpilling? && found.value.QueryId() == Some(r.queryId) &&
              (found.value.severity == Critical <==> Positive(r.bytesSpilledRemote)) &&
              (found.value.severity == Medium <==> !Positive(r.bytesSpilledRemote))
  {
    var local := r.bytesSpilledLocal.GetOr(0);
    var remote := r.bytesSpilledRemote.GetOr(0);
    if local > 0 || remote > 0 then
      Some(MemorySpilling(r.queryId, r.userName, r.warehouseName, r.warehouseSize, r.executionMs,
                          local, remote, if remote > 0 then Critical else Medium))
    else None
  }

  method AnalyzeSpilling(rs: seq<QueryRecord>) returns (issues: seq<Issue>)
    ensures issues == Collect(SpillFinding, rs)
    ensures |issues| <= |rs|
  {
    issues := [];
    var i := 0;
    while i < |rs|
      invariant 0 <= i <= |rs|
      invariant issues == Collect(SpillFinding, rs[..i])
    {
      assert rs[..i + 1][..i] == rs[..i];
      var found := SpillFinding(rs[i]);
      if found.Some? {
        issues := issues + [found.value];
      }
      i := i + 1;
    }
    assert rs[..i] == rs;
    CollectShape(SpillFinding, rs);
  }

  // ---------------------------------------------------------------------
  // Poor partition pruning (analyze_poor_pruning)

  function PruningFinding(r: QueryRecord): (found: Option<Issue>)
    ensures found.Some? ==>
              found.value.PoorPruning? && found.value.QueryId() == Some(r.queryId) &&
              found.value.severity == Medium
  {
    var scanned := r.partitionsScanned.GetOr(0);
    var total := r.partitionsTotal.GetOr(0);
    if total > 0 then
      var pct := (scanned as real / total as real) * 100.0;
      if pct > 50.0 && total > 100 then
        Some(PoorPruning(r.queryId, r.userName, r.warehouseName, r.executionMs,
                         scanned, total, pct, Medium))
      else None
    else None
  }

  /** A record is flagged iff its partition total is present and above 100
      and more than half of the partitions were scanned (missing scanned
      counts as 0). A missing or non-positive total is never divided by. */
  lemma PruningFindingIff(r: QueryRecord)
    ensures PruningFinding(r).Some? <==>
              r.partitionsTotal.Some? && r.partitionsTotal.value > 100 &&
              r.partitionsScanned.GetOr(0) * 100 > 50 * r.partitionsTotal.value
  {
    var scanned := r.partitionsScanned.GetOr(0);
    var total := r.partitionsTotal.GetOr(0);
    if total > 0 {
      QuotientAbove(scanned as real, total as real, 0.5);
      assert (scanned as real / total as real) * 100.0 > 50.0 <==> scanned as real / total as real > 0.5;
    }
  }

  method AnalyzePoorPruning(rs: seq<QueryRecord>) returns (issues: seq<Issue>)
    ensures issues == Collect(PruningFinding, rs)
    ensures |issues| <= |rs|
  {
    issues := [];
    var i := 0;
    while i < |rs|
      invariant 0 <= i <= |rs|
      invariant issues == Collect(PruningFinding, rs[..i])
    {
      assert rs[..i + 1][..i] == rs[..i];
      var found := PruningFinding(rs[i]);
      if found.Some? {
        issues := issues + [found.value];
      }
      i := i + 1;
    }
    assert rs[..i] == rs;
    CollectShape(PruningFinding, rs);
  }

  // ---------------------------------------------------------------------
  // Low cache usage (analyze_cache_efficiency)

  function CacheFinding(r: QueryRecord): (found: Option<Issue>)
    ensures found.Some? ==>
              found.value.LowCacheUsage? && found.value.QueryId() == Some(r.queryId) &&
              found.value.severity == Low
  {
    var cache := r.percentScannedFromCache.GetOr(0.0);
    var seconds := ExecutionSeconds(r);
    if cache < 20.0 && seconds.Some? && seconds.value > 10.0 then
      Some(LowCacheUsage(r.queryId, r.userName, r.warehouseName, r.executionMs, cache, Low))
    else None
  }

  /** A record is flagged iff less than 20 % was read from cache (missing
      counts as 0) and it executed for more than 10 000 ms; a missing
      execution time compares as NaN and never fires. */
  lemma CacheFindingIff(r: QueryRecord)
    ensures CacheFinding(r).Some? <==>
              r.percentScannedFromCache.GetOr(0.0) < 20.0 &&
              r.executionMs.Some? && r.executionMs.value > 10000
  {
  }

  method AnalyzeCacheEfficiency(rs: seq<QueryRecord>) returns (issues: seq<Issue>)
    ensures issues == Collect(CacheFinding, rs)
    ensures |issues| <= |rs|
  {
    issues := [];
    var i := 0;
    while i < |rs|
      invariant 0 <= i <= |rs|
      invariant issues == Collect(CacheFinding, rs[..i])
    {
      assert rs[..i + 1][..i] == rs[..i];
      var found := CacheFinding(rs[i]);
      if found.Some? {
        issues := issues + [found.value];
      }
      i := i + 1;
    }
    assert rs[..i] == rs;
    CollectShape(CacheFinding, rs);
  }

  // ---------------------------------------------------------------------
  // Long compilation (analyze_long_compilation)

  function CompilationFinding(r: QueryRecord): (found: Option<Issue>)
    ensures found.Some? ==>
              found.value.LongCompilation? && found.value.QueryId() == Some(r.queryId) &&
              found.value.severity == Medium
  {
    var compilation := r.compilationMs.GetOr(0);
    var total := r.totalElapsedMs.GetOr(1);
    var pct := (compilation as real / Max(total, 1) as real) * 100.0;
    if pct > 30.0 && compilation > 5000 then
      Some(LongCompilation(r.queryId, r.userName, compilation, pct, Medium))
    else None
  }

  /** A record is flagged iff it compiled for more than 5 000 ms and for more
      than 30 % of its elapsed time (missing elapsed time counts as 1 ms,
      and the divisor is at least 1). */
  lemma CompilationFindingIff(r: QueryRecord)
    ensures CompilationFinding(r).Some? <==>
              r.compilationMs.Some? && r.compilationMs.value > 5000 &&
              r.compilationMs.value * 100 > 30 * Max(r.totalElapsedMs.GetOr(1), 1)
  {
    var compilation := r.compilationMs.GetOr(0);
    var den := Max(r.totalElapsedMs.GetOr(1), 1);
    QuotientAbove(compilation as real, den as real, 0.3);
    assert (compilation as real / den as real) * 100.0 > 30.0 <==> compilation as real / den as real > 0.3;
  }

  method AnalyzeLongCompilation(rs: seq<QueryRecord>) returns (issues: seq<Issue>)
    ensures issues == Collect(CompilationFinding, rs)
    ensures |issues| <= |rs|
  {
    issues := [];
    var i := 0;
    while i < |rs|
      invariant 0 <= i <= |rs|
      invariant issues == Collect(CompilationFinding, rs[..i])
    {
      assert rs[..i + 1][..i] == rs[..i];
      var found := CompilationFinding(rs[i]);
      if found.Some? {
        issues := issues + [found.value];
      }
      i := i + 1;
    }
    assert rs[..i] == rs;
    CollectShape(CompilationFinding, rs);
  }

  // ---------------------------------------------------------------------

  /** Every per-row detector copies the flagged record's QUERY_ID into its
      issue, so each of their tables traces back to its records in order
      (CollectQueryIds). */
  lemma PerRowDetectorsKeepQueryIds()
    ensures KeepsQueryId(CartesianFinding) && KeepsQueryId(SpillFinding) &&
            KeepsQueryId(PruningFinding) && KeepsQueryId(CacheFinding) &&
            KeepsQueryId(CompilationFinding)
  {
  }
}
