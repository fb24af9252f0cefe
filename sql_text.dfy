/** The lexical tests the cartesian-join detector applies to query text:
    upper-casing and Python's substring operator `in`. */
module SqlText {
  import opened Telemetry

  function UpperChar(c: char): char {
    if 'a' <= c <= 'z' then (c as int - 32) as char else c
  }

  /** `str.upper()` on the letters a to z. */
  function Upper(s: string): (u: string)
    ensures |u| == |s|
    ensures forall i :: 0 <= i < |s| ==> u[i] == UpperChar(s[i])
  {
    if s == [] then [] else [UpperChar(s[0])] + Upper(s[1..])
  }

  /** `str(row['QUERY_TEXT']).upper()`: a missing text prints as "None". */
  function UpperText(r: QueryRecord): (t: string)
    ensures |t| == |r.queryText.GetOr("None")|
    ensures forall i :: 0 <= i < |t| ==> t[i] == UpperChar(r.queryText.GetOr("None")[i])
    ensures r.queryText.None? ==> t == "NONE"
  {
    Upper(r.queryText.GetOr("None"))
  }

  /** `p` occurs in `s` starting at index `i`. */
  predicate OccursAt(s: string, p: string, i: int) {
    0 <= i && i + |p| <= |s| && s[i..i + |p|] == p
  }

  /** The meaning of `p in s`: some index of `s` starts an occurrence. */
  ghost predicate Mentions(s: string, p: string) {
    exists i :: OccursAt(s, p, i)
  }

  /** `p in s`, scanning `s` from the left. */
  function Contains(s: string, p: string): bool
    decreases |s|
  {
    if |p| <= |s| && s[..|p|] == p then true
    else if s == [] then false
    else Contains(s[1..], p)
  }

  lemma {:induction false} ContainsIffMentions(s: string, p: string)
    ensures Contains(s, p) <==> Mentions(s, p)
    decreases |s|
  {
    if |p| <= |s| && s[..|p|] == p {
      assert OccursAt(s, p, 0);
    } else if s != [] {
      ContainsIffMentions(s[1..], p);
      if Contains(s[1..], p) {
        var i :| OccursAt(s[1..], p, i);
        assert s[i + 1..i + 1 + |p|] == s[1..][i..i + |p|];
        assert OccursAt(s, p, i + 1);
      }
      if Mentions(s, p) {
        var i :| OccursAt(s, p, i);
        assert i != 0;
        assert s[1..][i - 1..i - 1 + |p|] == s[i..i + |p|];
        assert OccursAt(s[1..], p, i - 1);
      }
    }
  }

  /** A missing query text ("NONE" once upper-cased) mentions no JOIN, so
      neither textual join test can fire on it. */
  lemma MissingTextHasNoJoin(r: QueryRecord)
    requires r.queryText.None?
    ensures !Contains(UpperText(r), "JOIN") && !Contains(UpperText(r), "CROSS JOIN")
  {
    var t := UpperText(r);
    assert t == "NONE";
    ContainsIffMentions(t, "JOIN");
    ContainsIffMentions(t, "CROSS JOIN");
  }
}
