/** The "Top 20 Most Expensive Queries" table: the records with the largest
    EXECUTION_TIME_SEC, largest first, with bytes scanned shown in GB. */
module TopOffenders {
  import opened Telemetry

  const TOP_N: nat := 20

  /** `a` ranks ahead of `b` when selecting the largest execution times: a
      present time ranks ahead of a smaller or missing one, and missing times
      rank last. */
  predicate Slower(a: QueryRecord, b: QueryRecord) {
    a.executionMs.Some? && (b.executionMs.None? || a.executionMs.value > b.executionMs.value)
  }

  /** No record ranks ahead of one placed before it. */
  ghost predicate Descending(s: seq<QueryRecord>) {
    forall i, j :: 0 <= i < j < |s| ==> !Slower(s[j], s[i])
  }

  /** Places `r` after every record that does not rank below it, so `r` goes
      after the records of equal time inserted before it. */
  function InsertByTime(s: seq<QueryRecord>, r: QueryRecord): (out: seq<QueryRecord>)
    ensures |out| == |s| + 1
    decreases |s|
  {
    if s == [] then [r]
    else if Slower(r, s[0]) then [r] + s
    else [s[0]] + InsertByTime(s[1..], r)
  }

  lemma {:induction false} InsertByTimeMultiset(s: seq<QueryRecord>, r: QueryRecord)
    ensures multiset(InsertByTime(s, r)) == multiset(s) + multiset{r}
    decreases |s|
  {
    if s != [] && !Slower(r, s[0]) {
      InsertByTimeMultiset(s[1..], r);
      assert s == [s[0]] + s[1..];
    }
  }

  /** No record of `s` ranks ahead of `x`. */
  ghost predicate NoneAhead(s: seq<QueryRecord>, x: QueryRecord) {
    forall j :: 0 <= j < |s| ==> !Slower(s[j], x)
  }

  lemma {:induction false} InsertByTimeNoneAhead(s: seq<QueryRecord>, r: QueryRecord, x: QueryRecord)
    requires NoneAhead(s, x) && !Slower(r, x)
    ensures NoneAhead(InsertByTime(s, r), x)
    decreases |s|
  {
    if s != [] && !Slower(r, s[0]) {
      InsertByTimeNoneAhead(s[1..], r, x);
      var tail := InsertByTime(s[1..], r);
      assert forall j :: 1 <= j < |tail| + 1 ==> ([s[0]] + tail)[j] == tail[j - 1];
    }
  }

  lemma {:induction false} InsertByTimeCorrect(s: seq<QueryRecord>, r: QueryRecord)
    requires Descending(s)
    ensures Descending(InsertByTime(s, r))
    ensures multiset(InsertByTime(s, r)) == multiset(s) + multiset{r}
    decreases |s|
  {
    InsertByTimeMultiset(s, r);
    if s == [] {
    } else if Slower(r, s[0]) {
      var all := [r] + s;
      forall i, j | 0 <= i < j < |all| ensures !Slower(all[j], all[i]) {
        if i > 0 { assert all[i] == s[i - 1] && all[j] == s[j - 1]; }
        else if j > 1 { assert !Slower(s[j - 1], s[0]); }
      }
    } else {
      var rest := s[1..];
      InsertByTimeCorrect(rest, r);
      InsertByTimeNoneAhead(rest, r, s[0]);
      var tail := InsertByTime(rest, r);
      var all := [s[0]] + tail;
      forall i, j | 0 <= i < j < |all| ensures !Slower(all[j], all[i]) {
        if i > 0 { assert all[i] == tail[i - 1] && all[j] == tail[j - 1]; }
        else { assert all[j] == tail[j - 1]; }
      }
    }
  }

  /** The snapshot ordered by execution time, largest first. The model
      breaks ties by input order, which pandas fixes only when the snapshot
      has more than 20 records, missing times included. */
  function SortByTime(rs: seq<QueryRecord>): (sorted: seq<QueryRecord>)
    ensures |sorted| == |rs|
    decreases |rs|
  {
    if rs == [] then [] else InsertByTime(SortByTime(rs[..|rs| - 1]), rs[|rs| - 1])
  }

  lemma {:induction false} SortByTimeCorrect(rs: seq<QueryRecord>)
    ensures Descending(SortByTime(rs))
    ensures multiset(SortByTime(rs)) == multiset(rs)
    decreases |rs|
  {
    if rs != [] {
      var front := rs[..|rs| - 1];
      SortByTimeCorrect(front);
      InsertByTimeCorrect(SortByTime(front), rs[|rs| - 1]);
      assert rs == front + [rs[|rs| - 1]];
    }
  }

  function ShownCount(rs: seq<QueryRecord>): nat {
    if |rs| < TOP_N then |rs| else TOP_N
  }

  /** The records shown: the first TOP_N of the ordering. */
  function Selected(rs: seq<QueryRecord>): (shown: seq<QueryRecord>)
    ensures |shown| == ShownCount(rs) <= TOP_N
    ensures shown <= SortByTime(rs)
  {
    SortByTime(rs)[..ShownCount(rs)]
  }

  /** The records left out of the table. */
  function Excluded(rs: seq<QueryRecord>): seq<QueryRecord> {
    SortByTime(rs)[ShownCount(rs)..]
  }

  /** The table holds min(20, n) of the snapshot's records, largest time
      first; together with the records left out they are the whole snapshot,
      and no record left out ran longer than any record shown. */
  lemma SelectedCorrect(rs: seq<QueryRecord>)
    ensures |Selected(rs)| == ShownCount(rs)
    ensures Descending(Selected(rs))
    ensures multiset(Selected(rs)) + multiset(Excluded(rs)) == multiset(rs)
    ensures forall a, b :: a in Selected(rs) && b in Excluded(rs) ==> !Slower(b, a)
  {
    var sorted := SortByTime(rs);
    SortByTimeCorrect(rs);
    var n := ShownCount(rs);
    var shown, rest := Selected(rs), Excluded(rs);
    assert sorted == shown + rest;
    forall a, b | a in shown && b in rest
      ensures !Slower(b, a)
    {
      var i :| 0 <= i < |shown| && shown[i] == a;
      var j :| 0 <= j < |rest| && rest[j] == b;
      assert sorted[i] == a && sorted[n + j] == b;
    }
  }

  /** One row of the table; BYTES_SCANNED_GB is bytes scanned / 1024^3
      (the rounding to two decimals is display only). */
  datatype Offender = Offender(
    queryId: string,
    userName: Option<string>,
    warehouseName: Option<string>,
    warehouseSize: Option<string>,
    executionMs: Option<int>,
    rowsProduced: Option<int>,
    bytesScannedGb: Option<real>)

  const BYTES_PER_GB: int := 1024 * 1024 * 1024

  function ToOffender(r: QueryRecord): (o: Offender)
    ensures o.queryId == r.queryId && o.executionMs == r.executionMs
    ensures o.bytesScannedGb.Some? <==> r.bytesScanned.Some?
    ensures o.bytesScannedGb.Some? ==> o.bytesScannedGb.value * BYTES_PER_GB as real == r.bytesScanned.value as real
  {
    Offender(r.queryId, r.userName, r.warehouseName, r.warehouseSize, r.executionMs, r.rowsProduced,
             match r.bytesScanned
             case Some(b) => Some(b as real / BYTES_PER_GB as real)
             case None => None)
  }

  /** The top-offenders table (streamlit_app.py nlargest + GB column). */
  function TopQueries(rs: seq<QueryRecord>): (top: seq<Offender>)
    ensures |top| == |Selected(rs)| == ShownCount(rs)
    ensures forall i :: 0 <= i < |top| ==> top[i] == ToOffender(Selected(rs)[i])
  {
    SelectedCorrect(rs);
    var shown := Selected(rs);
    seq(|shown|, i requires 0 <= i < |shown| => ToOffender(shown[i]))
  }
}
