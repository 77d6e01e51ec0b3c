/** What has been started and not ended since: two flags per step of a run, and what one more step does to them. */
module Since {

  /** Step `k` started it, and no later step has ended it. */
  ghost predicate Unended(starts: seq<bool>, ends: seq<bool>, k: nat)
    requires |starts| == |ends|
  {
    k < |starts| && starts[k] && forall j :: k < j < |ends| ==> !ends[j]
  }

  lemma {:induction false} UnendedExtends(starts: seq<bool>, ends: seq<bool>, start: bool, end: bool)
    requires |starts| == |ends|
    ensures (exists k :: Unended(starts + [start], ends + [end], k)) <==>
            start || (!end && exists k :: Unended(starts, ends, k))
  {
    var s, e, n := starts + [start], ends + [end], |starts|;
    if k: nat :| Unended(starts, ends, k) {
      assert !end ==> Unended(s, e, k);
    }
    if k: nat :| Unended(s, e, k) && k < n {
      assert e[n] == end;
      assert forall j :: k < j < n ==> ends[j] == e[j];
      assert Unended(starts, ends, k);
    }
    if start {
      assert Unended(s, e, n);
    }
  }
}
