/** The analysis pass over one snapshot: every detector runs once over the
    same records, and the "Key Recommendations Summary" gets one line per
    non-empty issue table, or the all-clear message when every table is empty. */
module Analysis {
  import opened Telemetry
  import opened RowDetectors
  import opened WarehouseSizing
  import opened TopOffenders

  /** The six issue tables, one per detector. */
  datatype IssueTables = IssueTables(
    cartesian: seq<Issue>,
    spilling: seq<Issue>,
    warehouse: seq<Issue>,
    pruning: seq<Issue>,
    cache: seq<Issue>,
    compilation: seq<Issue>)

  /** What each detector yields on the snapshot. */
  function Tables(rs: seq<QueryRecord>): IssueTables {
    IssueTables(Collect(CartesianFinding, rs), Collect(SpillFinding, rs),
                SizingIssues(Grouped(rs)), Collect(PruningFinding, rs),
                Collect(CacheFinding, rs), Collect(CompilationFinding, rs))
  }

  method RunDetectors(rs: seq<QueryRecord>) returns (t: IssueTables)
    ensures t == Tables(rs)
    ensures |t.cartesian| <= |rs| && |t.spilling| <= |rs| && |t.pruning| <= |rs|
    ensures |t.cache| <= |rs| && |t.compilation| <= |rs| && |t.warehouse| <= 2 * |GroupKeys(rs)|
  {
    var cartesian := AnalyzeCartesianJoins(rs);
    var spilling := AnalyzeSpilling(rs);
    var warehouse := AnalyzeWarehouseSizing(rs);
    var pruning := AnalyzePoorPruning(rs);
    var cache := AnalyzeCacheEfficiency(rs);
    var compilation := AnalyzeLongCompilation(rs);
    t := IssueTables(cartesian, spilling, warehouse, pruning, cache, compilation);
  }

  // ---------------------------------------------------------------------
  // Critical spills

  /** The number of CRITICAL rows of a table. */
  function CriticalCount(issues: seq<Issue>): (n: nat)
    ensures n <= |issues|
    ensures n == 0 <==> forall i :: 0 <= i < |issues| ==> issues[i].severity != Critical
    decreases |issues|
  {
    if issues == [] then 0
    else CriticalCount(issues[..|issues| - 1]) + (if issues[|issues| - 1].severity == Critical then 1 else 0)
  }

  /** The number of records that spilled to remote storage. */
  function RemoteSpillCount(rs: seq<QueryRecord>): nat
    decreases |rs|
  {
    if rs == [] then 0
    else RemoteSpillCount(rs[..|rs| - 1]) + (if Positive(rs[|rs| - 1].bytesSpilledRemote) then 1 else 0)
  }

  /** The summary's critical-spill count is the number of records with
      remote spill bytes above zero. */
  lemma {:induction false} CriticalSpillsAreRemoteSpills(rs: seq<QueryRecord>)
    ensures CriticalCount(Collect(SpillFinding, rs)) == RemoteSpillCount(rs)
    decreases |rs|
  {
    if rs != [] {
      var front := rs[..|rs| - 1];
      CriticalSpillsAreRemoteSpills(front);
      var prev := Collect(SpillFinding, front);
      match SpillFinding(rs[|rs| - 1])
      case Some(issue) =>
        assert (prev + [issue])[..|prev|] == prev;
      case None =>
    }
  }

  // ---------------------------------------------------------------------
  // The recommendations summary

  datatype SummaryLine =
    | CartesianLine(count: nat)
    | SpillingLine(count: nat, critical: nat)
    | WarehouseLine(count: nat)
    | PruningLine(count: nat)
    | CacheLine(count: nat)
    | CompilationLine(count: nat)

  datatype Recommendations = Recommend(lines: seq<SummaryLine>) | AllClear

  const TABLE_COUNT: nat := 6

  /** The position of a line's table in the summary. */
  function Rank(line: SummaryLine): (k: nat)
    ensures k < TABLE_COUNT
  {
    match line
    case CartesianLine(_) => 0
    case SpillingLine(_, _) => 1
    case WarehouseLine(_) => 2
    case PruningLine(_) => 3
    case CacheLine(_) => 4
    case CompilationLine(_) => 5
  }

  /** The table a summary line of rank `k` reports on. */
  function Table(t: IssueTables, k: nat): seq<Issue>
    requires k < TABLE_COUNT
  {
    if k == 0 then t.cartesian
    else if k == 1 then t.spilling
    else if k == 2 then t.warehouse
    else if k == 3 then t.pruning
    else if k == 4 then t.cache
    else t.compilation
  }

  predicate AllEmpty(t: IssueTables) {
    t.cartesian == [] && t.spilling == [] && t.warehouse == [] &&
    t.pruning == [] && t.cache == [] && t.compilation == []
  }

  /** Every line reports on one of the first `upTo` tables. */
  ghost predicate RanksBelow(lines: seq<SummaryLine>, upTo: nat) {
    forall i :: 0 <= i < |lines| ==> Rank(lines[i]) < upTo
  }

  /** Each of the first `upTo` tables has a line iff it is non-empty. */
  ghost predicate Covers(t: IssueTables, lines: seq<SummaryLine>, upTo: nat)
    requires upTo <= TABLE_COUNT
  {
    forall k :: 0 <= k < upTo ==>
      (Table(t, k) != [] <==> exists i :: 0 <= i < |lines| && Rank(lines[i]) == k)
  }

  /** The lines follow table order, so no table has two lines. */
  ghost predicate InTableOrder(lines: seq<SummaryLine>) {
    forall i, j :: 0 <= i < j < |lines| ==> Rank(lines[i]) < Rank(lines[j])
  }

  /** Each line carries its table's size, the spilling line the number of
      CRITICAL spills. */
  ghost predicate Counted(t: IssueTables, lines: seq<SummaryLine>) {
    (forall i :: 0 <= i < |lines| ==> lines[i].count == |Table(t, Rank(lines[i]))|) &&
    (forall i :: 0 <= i < |lines| && lines[i].SpillingLine? ==> lines[i].critical == CriticalCount(t.spilling))
  }

  /** The lines report exactly the non-empty tables among the first `upTo`,
      in table order, each with its table's size, the spilling line with the
      number of CRITICAL spills. */
  ghost predicate Reported(t: IssueTables, lines: seq<SummaryLine>, upTo: nat)
    requires upTo <= TABLE_COUNT
  {
    RanksBelow(lines, upTo) && Covers(t, lines, upTo) && InTableOrder(lines) && Counted(t, lines)
  }

  /** Appending the line for table `k` exactly when that table is non-empty
      extends the report to table `k`. */
  lemma ReportStep(t: IssueTables, lines: seq<SummaryLine>, k: nat, next: seq<SummaryLine>)
    requires k < TABLE_COUNT && Reported(t, lines, k)
    requires if Table(t, k) == [] then next == [] else
               |next| == 1 && Rank(next[0]) == k && next[0].count == |Table(t, k)| &&
               (next[0].SpillingLine? ==> next[0].critical == CriticalCount(t.spilling))
    ensures Reported(t, lines + next, k + 1)
  {
    var all := lines + next;
    assert RanksBelow(all, k + 1) by {
      forall i | 0 <= i < |all| ensures Rank(all[i]) < k + 1 {
        if i < |lines| { assert all[i] == lines[i]; }
      }
    }
    assert InTableOrder(all) by {
      forall i, j | 0 <= i < j < |all| ensures Rank(all[i]) < Rank(all[j]) {
        if j < |lines| { assert all[i] == lines[i] && all[j] == lines[j]; }
        else { assert all[i] == lines[i]; }
      }
    }
    assert Counted(t, all) by {
      forall i | 0 <= i < |all| ensures all[i].count == |Table(t, Rank(all[i]))| {
        if i < |lines| { assert all[i] == lines[i]; }
      }
      forall i | 0 <= i < |all| && all[i].SpillingLine? ensures all[i].critical == CriticalCount(t.spilling) {
        if i < |lines| { assert all[i] == lines[i]; }
      }
    }
    assert Covers(t, all, k + 1) by {
      forall j | 0 <= j < k + 1
        ensures Table(t, j) != [] <==> exists i :: 0 <= i < |all| && Rank(all[i]) == j
      {
        if j < k {
          if Table(t, j) != [] {
            var i :| 0 <= i < |lines| && Rank(lines[i]) == j;
            assert all[i] == lines[i];
          }
          if exists i :: 0 <= i < |all| && Rank(all[i]) == j {
            var i :| 0 <= i < |all| && Rank(all[i]) == j;
            assert i < |lines| && all[i] == lines[i];
          }
        } else if Table(t, k) != [] {
          assert Rank(all[|lines|]) == k;
        }
      }
    }
  }

  /** The line the summary shows for table `k`: none when it is empty. */
  function LineFor(t: IssueTables, k: nat): seq<SummaryLine>
    requires k < TABLE_COUNT
  {
    var n := |Table(t, k)|;
    if n == 0 then []
    else if k == 0 then [CartesianLine(n)]
    else if k == 1 then [SpillingLine(n, CriticalCount(t.spilling))]
    else if k == 2 then [WarehouseLine(n)]
    else if k == 3 then [PruningLine(n)]
    else if k == 4 then [CacheLine(n)]
    else [CompilationLine(n)]
  }

  /** The lines for the first `k` tables. */
  function LinesUpTo(t: IssueTables, k: nat): seq<SummaryLine>
    requires k <= TABLE_COUNT
    decreases k
  {
    if k == 0 then [] else LinesUpTo(t, k - 1) + LineFor(t, k - 1)
  }

  lemma {:induction false} LinesUpToReported(t: IssueTables, k: nat)
    requires k <= TABLE_COUNT
    ensures Reported(t, LinesUpTo(t, k), k)
    decreases k
  {
    if k > 0 {
      LinesUpToReported(t, k - 1);
      ReportStep(t, LinesUpTo(t, k - 1), k - 1, LineFor(t, k - 1));
    }
  }

  /** A complete report has no line iff every table is empty. */
  lemma ReportedEmptyIff(t: IssueTables, lines: seq<SummaryLine>)
    requires Reported(t, lines, TABLE_COUNT)
    ensures lines == [] <==> AllEmpty(t)
  {
    if lines != [] {
      var k := Rank(lines[0]);
      assert Table(t, k) != [];
    } else {
      assert Table(t, 0) == [] && Table(t, 1) == [] && Table(t, 2) == [];
      assert Table(t, 3) == [] && Table(t, 4) == [] && Table(t, 5) == [];
    }
  }

  /** The complete list of lines reports every table, and is empty iff every
      table is. */
  lemma SummaryLinesCorrect(t: IssueTables)
    ensures Reported(t, LinesUpTo(t, TABLE_COUNT), TABLE_COUNT)
    ensures LinesUpTo(t, TABLE_COUNT) == [] <==> AllEmpty(t)
  {
    LinesUpToReported(t, TABLE_COUNT);
    ReportedEmptyIff(t, LinesUpTo(t, TABLE_COUNT));
  }

  /** The summary is the all-clear message iff every table is empty.
      Otherwise it has one line per non-empty table, in table order, each
      carrying its table's size, and the spilling line carries the number of
      CRITICAL spills. */
  method Summarize(t: IssueTables) returns (out: Recommendations)
    ensures out.AllClear? <==> AllEmpty(t)
    ensures out.Recommend? ==> out.lines != [] && Reported(t, out.lines, TABLE_COUNT)
  {
    var all: seq<SummaryLine> := [];
    if t.cartesian != [] {
      all := all + [CartesianLine(|t.cartesian|)];
    }
    assert all == LinesUpTo(t, 1);
    if t.spilling != [] {
      var critical := CriticalCount(t.spilling);
      all := all + [SpillingLine(|t.spilling|, critical)];
    }
    assert all == LinesUpTo(t, 2);
    if t.warehouse != [] {
      all := all + [WarehouseLine(|t.warehouse|)];
    }
    assert all == LinesUpTo(t, 3);
    if t.pruning != [] {
      all := all + [PruningLine(|t.pruning|)];
    }
    assert all == LinesUpTo(t, 4);
    if t.cache != [] {
      all := all + [CacheLine(|t.cache|)];
    }
    assert all == LinesUpTo(t, 5);
    if t.compilation != [] {
      all := all + [CompilationLine(|t.compilation|)];
    }
    assert all == LinesUpTo(t, 6);
    SummaryLinesCorrect(t);
    if all != [] {
      out := Recommend(all);
    } else {
      out := AllClear;
    }
  }

  /** The all-clear message appears for a snapshot iff no record triggers any
      per-row detector and no warehouse group triggers a sizing issue. */
  lemma AllClearIff(rs: seq<QueryRecord>)
    ensures AllEmpty(Tables(rs)) <==>
              (forall j :: 0 <= j < |Grouped(rs)| ==> GroupIssues(Grouped(rs)[j]) == []) &&
              forall i :: 0 <= i < |rs| ==>
                CartesianFinding(rs[i]).None? && SpillFinding(rs[i]).None? &&
                PruningFinding(rs[i]).None? && CacheFinding(rs[i]).None? &&
                CompilationFinding(rs[i]).None?
  {
    SizingIssuesEmptyIff(Grouped(rs));
    CollectEmptyIff(CartesianFinding, rs);
    CollectEmptyIff(SpillFinding, rs);
    CollectEmptyIff(PruningFinding, rs);
    CollectEmptyIff(CacheFinding, rs);
    CollectEmptyIff(CompilationFinding, rs);
  }

  // ---------------------------------------------------------------------
  // The whole pass

  /** What the dashboard shows: nothing but a warning for an empty snapshot,
      otherwise the issue tables, the top offenders and the summary. */
  datatype Dashboard =
    | NoData
    | Analysed(tables: IssueTables, top: seq<Offender>, summary: Recommendations)

  method AnalyzeSnapshot(rs: seq<QueryRecord>) returns (d: Dashboard)
    ensures d.NoData? <==> rs == []
    ensures d.Analysed? ==> d.tables == Tables(rs) && d.top == TopQueries(rs)
    ensures d.Analysed? ==> (d.summary.AllClear? <==> AllEmpty(Tables(rs)))
    ensures d.Analysed? ==> |d.top| == ShownCount(rs)
    ensures d.Analysed? && d.summary.Recommend? ==> Reported(Tables(rs), d.summary.lines, TABLE_COUNT)
    ensures d.Analysed? && d.summary.Recommend? ==>
              forall i :: 0 <= i < |d.summary.lines| && d.summary.lines[i].SpillingLine? ==>
                d.summary.lines[i].critical == RemoteSpillCount(rs)
  {
    if rs == [] {
      return NoData;
    }
    var tables := RunDetectors(rs);
    var top := TopQueries(rs);
    var summary := Summarize(tables);
    CriticalSpillsAreRemoteSpills(rs);
    d := Analysed(tables, top, summary);
  }
}
