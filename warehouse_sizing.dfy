/** The aggregate detector (analyze_warehouse_sizing): records are grouped by
    (warehouse name, warehouse size), each group's execution times and
    overload-queue times are aggregated, and each group may yield an
    "Oversized Warehouse" and a "Warehouse Queuing" issue. */
module WarehouseSizing {
  import opened Telemetry

  datatype GroupKey = GroupKey(warehouse: string, size: string)

  /** A record belongs to a group only when both key columns are present;
      the grouping drops rows whose name or size is missing. */
  function KeyOf(r: QueryRecord): Option<GroupKey> {
    if r.warehouseName.Some? && r.warehouseSize.Some? then
      Some(GroupKey(r.warehouseName.value, r.warehouseSize.value))
    else None
  }

  // ---------------------------------------------------------------------
  // Group order: groups come out sorted by key, strings compared code point
  // by code point as Python compares them

  predicate StrLess(a: string, b: string)
    decreases |a|
  {
    if a == [] then b != []
    else if b == [] then false
    else if a[0] != b[0] then a[0] < b[0]
    else StrLess(a[1..], b[1..])
  }

  lemma {:induction false} StrLessIrreflexive(a: string)
    ensures !StrLess(a, a)
    decreases |a|
  {
    if a != [] {
      StrLessIrreflexive(a[1..]);
    }
  }

  lemma {:induction false} StrLessTransitive(a: string, b: string, c: string)
    requires StrLess(a, b) && StrLess(b, c)
    ensures StrLess(a, c)
    decreases |a|
  {
    if a != [] && a[0] == b[0] && b[0] == c[0] {
      StrLessTransitive(a[1..], b[1..], c[1..]);
    }
  }

  lemma {:induction false} StrLessTotal(a: string, b: string)
    ensures a == b || StrLess(a, b) || StrLess(b, a)
    decreases |a|
  {
    if a != [] && b != [] && a[0] == b[0] {
      StrLessTotal(a[1..], b[1..]);
      if a[1..] == b[1..] {
        assert a == [a[0]] + a[1..];
        assert b == [b[0]] + b[1..];
      }
    }
  }

  /** Lexicographic order on (warehouse, size). */
  predicate KeyLess(x: GroupKey, y: GroupKey) {
    StrLess(x.warehouse, y.warehouse) || (x.warehouse == y.warehouse && StrLess(x.size, y.size))
  }

  lemma KeyLessIrreflexive(x: GroupKey)
    ensures !KeyLess(x, x)
  {
    StrLessIrreflexive(x.warehouse);
    StrLessIrreflexive(x.size);
  }

  lemma KeyLessTransitive(x: GroupKey, y: GroupKey, z: GroupKey)
    requires KeyLess(x, y) && KeyLess(y, z)
    ensures KeyLess(x, z)
  {
    if StrLess(x.warehouse, y.warehouse) && StrLess(y.warehouse, z.warehouse) {
      StrLessTransitive(x.warehouse, y.warehouse, z.warehouse);
    } else if x.warehouse == y.warehouse && y.warehouse == z.warehouse {
      StrLessTransitive(x.size, y.size, z.size);
    }
  }

  lemma KeyLessTotal(x: GroupKey, y: GroupKey)
    ensures x == y || KeyLess(x, y) || KeyLess(y, x)
  {
    StrLessTotal(x.warehouse, y.warehouse);
    StrLessTotal(x.size, y.size);
  }

  ghost predicate StrictlyAscending(ks: seq<GroupKey>) {
    forall i, j :: 0 <= i < j < |ks| ==> KeyLess(ks[i], ks[j])
  }

  /** Adds `k` to an ascending key list unless it is already there. */
  function InsertKey(ks: seq<GroupKey>, k: GroupKey): (out: seq<GroupKey>)
    ensures |ks| <= |out| <= |ks| + 1
    decreases |ks|
  {
    if ks == [] then [k]
    else if ks[0] == k then ks
    else if KeyLess(k, ks[0]) then [k] + ks
    else [ks[0]] + InsertKey(ks[1..], k)
  }

  lemma {:induction false} InsertKeyCorrect(ks: seq<GroupKey>, k: GroupKey)
    requires StrictlyAscending(ks)
    ensures StrictlyAscending(InsertKey(ks, k))
    ensures forall x :: x in InsertKey(ks, k) <==> x in ks || x == k
    decreases |ks|
  {
    if ks == [] || ks[0] == k {
    } else if KeyLess(k, ks[0]) {
      forall j | 1 <= j < |ks|
        ensures KeyLess(k, ks[j])
      {
        KeyLessTransitive(k, ks[0], ks[j]);
      }
    } else {
      KeyLessTotal(k, ks[0]);
      var rest := ks[1..];
      InsertKeyCorrect(rest, k);
      var tail := InsertKey(rest, k);
      forall j | 0 <= j < |tail|
        ensures KeyLess(ks[0], tail[j])
      {
        if tail[j] != k {
          assert tail[j] in rest;
          var m :| 0 <= m < |rest| && rest[m] == tail[j];
          assert ks[m + 1] == tail[j];
        }
      }
      assert InsertKey(ks, k) == [ks[0]] + tail;
      assert forall x :: x in ks <==> x == ks[0] || x in rest;
    }
  }

  /** The distinct keys of the snapshot, ascending. */
  function GroupKeys(rs: seq<QueryRecord>): (keys: seq<GroupKey>)
    ensures |keys| <= |rs|
    decreases |rs|
  {
    if rs == [] then []
    else
      var prev := GroupKeys(rs[..|rs| - 1]);
      match KeyOf(rs[|rs| - 1])
      case Some(k) => InsertKey(prev, k)
      case None => prev
  }

  /** The groups are exactly the keys some record carries, each once, in
      ascending key order; a record with a missing name or size forms none. */
  lemma {:induction false} GroupKeysCorrect(rs: seq<QueryRecord>)
    ensures StrictlyAscending(GroupKeys(rs))
    ensures forall k :: k in GroupKeys(rs) <==> exists i :: 0 <= i < |rs| && KeyOf(rs[i]) == Some(k)
    decreases |rs|
  {
    if rs != [] {
      var front := rs[..|rs| - 1];
      GroupKeysCorrect(front);
      assert forall i :: 0 <= i < |front| ==> rs[i] == front[i];
      match KeyOf(rs[|rs| - 1])
      case Some(k) =>
        InsertKeyCorrect(GroupKeys(front), k);
      case None =>
    }
  }

  // ---------------------------------------------------------------------
  // Per-group aggregates: mean, count and sum as the grouping computes them,
  // missing values skipped

  /** Sum of the present execution times of the records keyed `k`. */
  function ExecSumMs(rs: seq<QueryRecord>, k: GroupKey): int
    decreases |rs|
  {
    if rs == [] then 0
    else (if KeyOf(rs[0]) == Some(k) then rs[0].executionMs.GetOr(0) else 0) + ExecSumMs(rs[1..], k)
  }

  /** Number of records keyed `k` whose execution time is present (the
      non-missing count of EXECUTION_TIME_SEC). */
  function ExecCount(rs: seq<QueryRecord>, k: GroupKey): nat
    decreases |rs|
  {
    if rs == [] then 0
    else (if KeyOf(rs[0]) == Some(k) && rs[0].executionMs.Some? then 1 else 0) + ExecCount(rs[1..], k)
  }

  /** Sum of the present overload-queue times of the records keyed `k`. */
  function QueuedSumMs(rs: seq<QueryRecord>, k: GroupKey): int
    decreases |rs|
  {
    if rs == [] then 0
    else (if KeyOf(rs[0]) == Some(k) then rs[0].queuedOverloadMs.GetOr(0) else 0) + QueuedSumMs(rs[1..], k)
  }

  /** One row of the grouped table. */
  datatype GroupRow = GroupRow(key: GroupKey, execSumMs: int, execCount: nat, queuedSumMs: int)

  function Grouped(rs: seq<QueryRecord>): (gs: seq<GroupRow>)
    ensures |gs| == |GroupKeys(rs)|
    ensures forall i :: 0 <= i < |gs| ==> gs[i].key == GroupKeys(rs)[i]
    ensures forall i :: 0 <= i < |gs| ==>
              gs[i].execSumMs == ExecSumMs(rs, gs[i].key) && gs[i].execCount == ExecCount(rs, gs[i].key) &&
              gs[i].queuedSumMs == QueuedSumMs(rs, gs[i].key)
  {
    var ks := GroupKeys(rs);
    seq(|ks|, i requires 0 <= i < |ks| =>
      GroupRow(ks[i], ExecSumMs(rs, ks[i]), ExecCount(rs, ks[i]), QueuedSumMs(rs, ks[i])))
  }

  /** The group's mean EXECUTION_TIME_SEC; missing (NaN) when it has no
      execution time at all. */
  function MeanExecSeconds(g: GroupRow): (mean: Option<real>)
    ensures mean.Some? <==> g.execCount > 0
    ensures mean.Some? ==> mean.value * 1000.0 * g.execCount as real == g.execSumMs as real
  {
    if g.execCount == 0 then None
    else Some((g.execSumMs as real / 1000.0) / g.execCount as real)
  }

  const LARGE_SIZES: seq<string> := ["LARGE", "X-LARGE", "2X-LARGE", "3X-LARGE", "4X-LARGE"]

  /** The first half of the oversized test: the group's mean execution time
      is defined and below 5 s. */
  predicate FastGroup(g: GroupRow) {
    var mean := MeanExecSeconds(g);
    mean.Some? && mean.value < 5.0
  }

  /** The issues one group yields, in the order they are appended. */
  function GroupIssues(g: GroupRow): (issues: seq<Issue>)
    ensures |issues| <= 2
    ensures forall i :: 0 <= i < |issues| ==>
              AboutGroup(issues[i], g.key) && issues[i].queryCount == g.execCount
  {
    (if FastGroup(g) && g.key.size in LARGE_SIZES
     then [OversizedWarehouse(g.key.warehouse, g.key.size, MeanExecSeconds(g).value, g.execCount, Medium)]
     else [])
    + (if g.queuedSumMs > 30000
       then [WarehouseQueuing(g.key.warehouse, g.key.size, g.queuedSumMs, g.execCount, High)]
       else [])
  }

  /** The mean is below 5 s iff the summed execution time is below 5 000 ms
      per counted query. */
  lemma MeanBelowFiveSeconds(g: GroupRow)
    ensures (MeanExecSeconds(g).Some? && MeanExecSeconds(g).value < 5.0) <==>
              g.execCount > 0 && g.execSumMs < 5000 * g.execCount
  {
    if g.execCount > 0 {
      QuotientBelow(g.execSumMs as real / 1000.0, g.execCount as real, 5.0);
    }
  }

  /** A group yields at most two issues: an "Oversized Warehouse" (MEDIUM)
      first iff its mean execution time is under 5 s and its size is LARGE or
      larger, then a "Warehouse Queuing" (HIGH) iff its summed overload-queue
      time exceeds 30 000 ms. Both name the group and its query count. */
  lemma GroupIssuesIff(g: GroupRow)
    ensures var oversized := g.execCount > 0 && g.execSumMs < 5000 * g.execCount &&
                             g.key.size in LARGE_SIZES;
            var queuing := g.queuedSumMs > 30000;
            var issues := GroupIssues(g);
            |issues| == (if oversized then 1 else 0) + (if queuing then 1 else 0) &&
            (oversized ==> issues[0].OversizedWarehouse? && issues[0].severity == Medium &&
                           issues[0].avgExecSeconds == MeanExecSeconds(g).value) &&
            (queuing ==> issues[|issues| - 1].WarehouseQueuing? && issues[|issues| - 1].severity == High &&
                         issues[|issues| - 1].queuedMs == g.queuedSumMs) &&
            (forall i :: 0 <= i < |issues| ==>
               AboutGroup(issues[i], g.key) && issues[i].queryCount == g.execCount)
  {
    MeanBelowFiveSeconds(g);
  }

  /** `issue` is a sizing issue about the group keyed `k`. */
  predicate AboutGroup(issue: Issue, k: GroupKey) {
    (issue.OversizedWarehouse? || issue.WarehouseQueuing?) &&
    issue.warehouseName == k.warehouse && issue.size == k.size
  }

  /** The sizing table: each group's issues, group after group. */
  function SizingIssues(gs: seq<GroupRow>): seq<Issue>
    decreases |gs|
  {
    if gs == [] then [] else SizingIssues(gs[..|gs| - 1]) + GroupIssues(gs[|gs| - 1])
  }

  /** The sizing table holds at most two issues per group, and every issue
      names the warehouse and size of one of the groups. */
  lemma {:induction false} SizingIssuesBounded(gs: seq<GroupRow>)
    ensures |SizingIssues(gs)| <= 2 * |gs|
    ensures forall i :: 0 <= i < |SizingIssues(gs)| ==>
              exists j :: 0 <= j < |gs| && AboutGroup(SizingIssues(gs)[i], gs[j].key)
    decreases |gs|
  {
    if gs != [] {
      var front := gs[..|gs| - 1];
      var last := gs[|gs| - 1];
      SizingIssuesBounded(front);
      GroupIssuesIff(last);
      var prev := SizingIssues(front);
      forall i | 0 <= i < |SizingIssues(gs)|
        ensures exists j :: 0 <= j < |gs| && AboutGroup(SizingIssues(gs)[i], gs[j].key)
      {
        if i < |prev| {
          var j :| 0 <= j < |front| && AboutGroup(prev[i], front[j].key);
          assert SizingIssues(gs)[i] == prev[i] && gs[j] == front[j];
        } else {
          assert SizingIssues(gs)[i] == GroupIssues(last)[i - |prev|];
          assert AboutGroup(SizingIssues(gs)[i], gs[|gs| - 1].key);
        }
      }
    }
  }

  /** The sizing table is empty iff no group yields an issue. */
  lemma {:induction false} SizingIssuesEmptyIff(gs: seq<GroupRow>)
    ensures SizingIssues(gs) == [] <==> forall j :: 0 <= j < |gs| ==> GroupIssues(gs[j]) == []
    decreases |gs|
  {
    if gs != [] {
      var front := gs[..|gs| - 1];
      SizingIssuesEmptyIff(front);
      assert forall j :: 0 <= j < |front| ==> gs[j] == front[j];
    }
  }

  method AnalyzeWarehouseSizing(rs: seq<QueryRecord>) returns (issues: seq<Issue>)
    ensures issues == SizingIssues(Grouped(rs))
    ensures |issues| <= 2 * |GroupKeys(rs)|
  {
    var grouped := Grouped(rs);
    issues := [];
    for i := 0 to |grouped|
      invariant issues == SizingIssues(grouped[..i])
    {
      assert grouped[..i + 1][..i] == grouped[..i];
      var g := grouped[i];
      var mean := MeanExecSeconds(g);
      if mean.Some? && mean.value < 5.0 && g.key.size in LARGE_SIZES {
        issues := issues + [OversizedWarehouse(g.key.warehouse, g.key.size, mean.value, g.execCount, Medium)];
      }
      if g.queuedSumMs > 30000 {
        issues := issues + [WarehouseQueuing(g.key.warehouse, g.key.size, g.queuedSumMs, g.execCount, High)];
      }
    }
    assert grouped[..|grouped|] == grouped;
    SizingIssuesBounded(grouped);
  }

  // ---------------------------------------------------------------------
  // The sizing detector as written

  /** After the two-level aggregation of lines 161-164, `row['WAREHOUSE_SIZE']`
      at line 168 is a partial column key, so `size` is a one-element Series
      and not a string. The membership test `size in [...]` at line 174 then
      asks for the truth value of a Series, which pandas refuses with an
      error. The test runs only when the mean is below 5 s, because `and`
      stops early, so the scan stops at the first such group. */
  datatype SizingOutcome = SizingTable(issues: seq<Issue>) | SizeTestRaises(group: GroupKey)

  function SizingAsWritten(gs: seq<GroupRow>): (out: SizingOutcome)
    ensures out.SizeTestRaises? ==> exists j :: 0 <= j < |gs| && gs[j].key == out.group && FastGroup(gs[j])
    decreases |gs|
  {
    if gs == [] then SizingTable([])
    else
      var last := gs[|gs| - 1];
      match SizingAsWritten(gs[..|gs| - 1])
      case SizeTestRaises(k) =>
        assert forall j :: 0 <= j < |gs| - 1 ==> gs[..|gs| - 1][j] == gs[j];
        SizeTestRaises(k)
      case SizingTable(prev) =>
        if FastGroup(last) then SizeTestRaises(last.key) else SizingTable(prev + GroupIssues(last))
  }

  /** As written, the detector returns a table iff no group is fast, and then
      that table is the intended one; otherwise it stops at the first fast
      group in key order. */
  lemma {:induction false} SizingAsWrittenAgrees(gs: seq<GroupRow>)
    ensures SizingAsWritten(gs).SizingTable? <==> forall j :: 0 <= j < |gs| ==> !FastGroup(gs[j])
    ensures SizingAsWritten(gs).SizingTable? ==> SizingAsWritten(gs).issues == SizingIssues(gs)
    ensures SizingAsWritten(gs).SizeTestRaises? ==>
              exists j :: 0 <= j < |gs| && FastGroup(gs[j]) && gs[j].key == SizingAsWritten(gs).group &&
                          forall i :: 0 <= i < j ==> !FastGroup(gs[i])
    decreases |gs|
  {
    if gs != [] {
      var front := gs[..|gs| - 1];
      SizingAsWrittenAgrees(front);
      assert forall j :: 0 <= j < |front| ==> gs[j] == front[j];
      if SizingAsWritten(front).SizeTestRaises? {
        var j :| 0 <= j < |front| && FastGroup(front[j]) && front[j].key == SizingAsWritten(front).group &&
                 forall i :: 0 <= i < j ==> !FastGroup(front[i]);
        assert gs[j] == front[j];
      } else if FastGroup(gs[|gs| - 1]) {
        assert forall i :: 0 <= i < |gs| - 1 ==> !FastGroup(gs[i]);
      }
    }
  }

  /** One LARGE-warehouse query of 1 000 ms: the intended detector reports an
      oversized warehouse, while the code as written stops with an error. */
  lemma OneFastLargeQueryRaises()
    ensures var r := QueryRecord("q1", Some("SELECT 1"), Some("ANALYST"), Some("WH"), Some("LARGE"),
                                 Some(1000), Some(1000), Some(0), Some(0), Some(0), Some(0), Some(0),
                                 Some(1), Some(1), Some(100.0), Some(1));
            SizingAsWritten(Grouped([r])) == SizeTestRaises(GroupKey("WH", "LARGE")) &&
            SizingIssues(Grouped([r])) == [OversizedWarehouse("WH", "LARGE", 1.0, 1, Medium)]
  {
    var r := QueryRecord("q1", Some("SELECT 1"), Some("ANALYST"), Some("WH"), Some("LARGE"),
                         Some(1000), Some(1000), Some(0), Some(0), Some(0), Some(0), Some(0),
                         Some(1), Some(1), Some(100.0), Some(1));
    var k := GroupKey("WH", "LARGE");
    assert [r][..0] == [];
    assert GroupKeys([r]) == [k];
    assert [r][1..] == [];
    assert ExecSumMs([r], k) == 1000 && ExecCount([r], k) == 1 && QueuedSumMs([r], k) == 0;
    var g := Grouped([r])[0];
    assert g == GroupRow(k, 1000, 1, 0);
    assert Grouped([r]) == [g];
    assert "LARGE" in LARGE_SIZES;
    assert GroupIssues(g) == [OversizedWarehouse("WH", "LARGE", 1.0, 1, Medium)];
  }
}
