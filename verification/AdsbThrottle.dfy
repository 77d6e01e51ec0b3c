/** The per-aircraft ADS-B rebroadcast throttle, and the proof that pruning its map changes no decision. */
module AdsbThrottle {
  import opened FmuTypes

  const FORWARD_INTERVAL_MS: nat := 1000

  /** A peer report at local time `now`: whether the callsign is our own, whether its coordinates are usable. */
  datatype Report = Report(own: bool, valid: bool, icao: nat, now: nat)

  predicate Considered(r: Report) {
    !r.own && r.valid
  }

  predicate Forwards(m: map<nat, nat>, r: Report) {
    Considered(r) && (r.icao !in m || Elapsed(r.now, m[r.icao]) >= FORWARD_INTERVAL_MS)
  }

  function Prune(m: map<nat, nat>, now: nat): map<nat, nat> {
    map icao | icao in m && Elapsed(now, m[icao]) < FORWARD_INTERVAL_MS :: m[icao]
  }

  function Note(m: map<nat, nat>, r: Report): map<nat, nat> {
    if Forwards(m, r) then m[r.icao := r.now] else m
  }

  /** The throttle map as the code keeps it. */
  function Pruned(reports: seq<Report>): map<nat, nat> {
    if reports == [] then map[]
    else
      var before := Pruned(reports[..|reports| - 1]);
      var r := reports[|reports| - 1];
      if Considered(r) then Prune(Note(before, r), r.now) else before
  }

  /** The throttle map if nothing were ever removed: the time of each aircraft's last forward. */
  function Unpruned(reports: seq<Report>): map<nat, nat> {
    if reports == [] then map[]
    else Note(Unpruned(reports[..|reports| - 1]), reports[|reports| - 1])
  }

  /** Whether report `i` of a run is forwarded. */
  predicate ForwardedAt(reports: seq<Report>, i: nat)
    requires i < |reports|
  {
    Forwards(Pruned(reports[..i]), reports[i])
  }

  /** The clock does not run backwards, and fits 64 bits. */
  predicate ClockMonotone(reports: seq<Report>) {
    && (forall i :: 0 <= i < |reports| ==> reports[i].now < TWO_64)
    && forall i, j :: 0 <= i < j < |reports| ==> reports[i].now <= reports[j].now
  }

  /** The pruned map is the young part of the unpruned one, as of `now`. */
  ghost predicate Agree(pruned: map<nat, nat>, full: map<nat, nat>, now: nat) {
    && (forall k :: k in full ==> full[k] <= now < TWO_64)
    && (forall k :: k in pruned ==> k in full && pruned[k] == full[k])
    && (forall k :: k in full && now - full[k] < FORWARD_INTERVAL_MS ==> k in pruned)
  }

  lemma {:induction false} StepAgrees(pruned: map<nat, nat>, full: map<nat, nat>, r: Report, before: nat)
    requires Agree(pruned, full, before) && before <= r.now < TWO_64
    ensures Forwards(pruned, r) <==> Forwards(full, r)
    ensures Agree(if Considered(r) then Prune(Note(pruned, r), r.now) else pruned, Note(full, r), r.now)
  {
  }

  lemma {:induction false} RunsAgree(reports: seq<Report>)
    requires ClockMonotone(reports)
    ensures Agree(Pruned(reports), Unpruned(reports), if reports == [] then 0 else reports[|reports| - 1].now)
  {
    if reports != [] {
      var before := reports[..|reports| - 1];
      RunsAgree(before);
      StepAgrees(Pruned(before), Unpruned(before), reports[|reports| - 1],
                 if before == [] then 0 else before[|before| - 1].now);
    }
  }

  /**
    Pruning is invisible: over every run with a non-decreasing clock each report is forwarded exactly when a
    map that never forgets would forward it, while after each considered report no entry is as old as the
    interval.
   */
  lemma {:induction false} PruningIsInvisible(reports: seq<Report>, r: Report)
    requires ClockMonotone(reports + [r])
    ensures Forwards(Pruned(reports), r) <==> Forwards(Unpruned(reports), r)
    ensures Considered(r) ==>
              forall k :: k in Pruned(reports + [r]) ==> Elapsed(r.now, Pruned(reports + [r])[k]) < FORWARD_INTERVAL_MS
  {
    var all := reports + [r];
    assert all[..|reports|] == reports;
    assert forall i :: 0 <= i < |reports| ==> all[i] == reports[i];
    assert ClockMonotone(reports) && all[|reports|] == r;
    RunsAgree(reports);
    StepAgrees(Pruned(reports), Unpruned(reports), r, if reports == [] then 0 else reports[|reports| - 1].now);
  }

  lemma {:induction false} LastForwardIsNoted(reports: seq<Report>, i: nat)
    requires ClockMonotone(reports) && i < |reports| && ForwardedAt(reports, i)
    ensures var full := Unpruned(reports); reports[i].icao in full && reports[i].now <= full[reports[i].icao]
  {
    var n := |reports| - 1;
    var before := reports[..n];
    RunsAgree(before);
    StepAgrees(Pruned(before), Unpruned(before), reports[n], if before == [] then 0 else before[|before| - 1].now);
    if i < n {
      assert before[..i] == reports[..i];
      LastForwardIsNoted(before, i);
    }
  }

  /** Two forwards of one aircraft are at least the interval apart. */
  lemma {:induction false} ForwardsAreSpaced(reports: seq<Report>, i: nat, j: nat)
    requires ClockMonotone(reports) && i < j < |reports|
    requires ForwardedAt(reports, i) && ForwardedAt(reports, j) && reports[i].icao == reports[j].icao
    ensures reports[i].now + FORWARD_INTERVAL_MS <= reports[j].now
  {
    var before := reports[..j];
    assert before[..i] == reports[..i];
    RunsAgree(before);
    LastForwardIsNoted(before, i);
    StepAgrees(Pruned(before), Unpruned(before), reports[j], before[|before| - 1].now);
  }

  lemma {:induction false} NotedByAForward(reports: seq<Report>, icao: nat) returns (i: nat)
    requires ClockMonotone(reports) && icao in Unpruned(reports)
    ensures i < |reports| && ForwardedAt(reports, i)
    ensures reports[i].icao == icao && reports[i].now == Unpruned(reports)[icao]
  {
    var n := |reports| - 1;
    var before := reports[..n];
    RunsAgree(before);
    StepAgrees(Pruned(before), Unpruned(before), reports[n], if before == [] then 0 else before[|before| - 1].now);
    if Forwards(Unpruned(before), reports[n]) && reports[n].icao == icao {
      i := n;
    } else {
      i := NotedByAForward(before, icao);
      assert before[..i] == reports[..i];
    }
  }

  /** A report is held back only behind a recent forward of the same aircraft. */
  lemma {:induction false} HeldBackOnlyBehindAForward(reports: seq<Report>, r: Report)
    requires ClockMonotone(reports + [r]) && Considered(r) && !Forwards(Pruned(reports), r)
    ensures exists i :: 0 <= i < |reports| && ForwardedAt(reports, i) && reports[i].icao == r.icao
                        && r.now < reports[i].now + FORWARD_INTERVAL_MS
  {
    var all := reports + [r];
    assert forall i :: 0 <= i < |reports| ==> all[i] == reports[i];
    RunsAgree(reports);
    var i := NotedByAForward(reports, r.icao);
    assert all[|reports|] == r;
  }

  /**
    Which reports are forwarded, over every run: exactly those of another aircraft's usable position with no forward of
    that aircraft in the second before.
   */
  lemma {:induction false} ForwardedExactlyWhen(reports: seq<Report>, r: Report)
    requires ClockMonotone(reports + [r])
    ensures Forwards(Pruned(reports), r) <==>
            && !r.own && r.valid
            && forall i :: 0 <= i < |reports| && ForwardedAt(reports, i) && reports[i].icao == r.icao ==>
                 reports[i].now + FORWARD_INTERVAL_MS <= r.now
  {
    var all := reports + [r];
    assert all[..|reports|] == reports && all[|reports|] == r;
    if !r.own && r.valid && !Forwards(Pruned(reports), r) {
      HeldBackOnlyBehindAForward(reports, r);
    }
    if Forwards(Pruned(reports), r) {
      forall i | 0 <= i < |reports| && ForwardedAt(reports, i) && reports[i].icao == r.icao
        ensures reports[i].now + FORWARD_INTERVAL_MS <= r.now
      {
        assert all[..i] == reports[..i];
        ForwardsAreSpaced(all, i, |reports|);
      }
    }
  }

  /** The dispatcher's throttle, pruned entry by entry after every considered report. */
  class Throttle {
    var lastForwarded: map<nat, nat>

    constructor ()
      ensures lastForwarded == Pruned([])
    {
      lastForwarded := map[];
    }

    method PruneEntries(now: nat)
      modifies this
      ensures lastForwarded == Prune(old(lastForwarded), now)
    {
      var left := lastForwarded.Keys;
      while left != {}
        invariant left <= lastForwarded.Keys <= old(lastForwarded).Keys
        invariant forall k :: k in lastForwarded ==> lastForwarded[k] == old(lastForwarded)[k]
        invariant forall k :: k in lastForwarded && k !in left ==> Elapsed(now, lastForwarded[k]) < FORWARD_INTERVAL_MS
        invariant forall k :: k in old(lastForwarded) && k !in lastForwarded ==>
                    Elapsed(now, old(lastForwarded)[k]) >= FORWARD_INTERVAL_MS
        decreases left
      {
        var icao :| icao in left;
        left := left - {icao};
        if Elapsed(now, lastForwarded[icao]) >= FORWARD_INTERVAL_MS {
          lastForwarded := lastForwarded - {icao};
        }
      }
    }

    method OtherAircraft(r: Report) returns (forwarded: bool)
      modifies this
      ensures forwarded == Forwards(old(lastForwarded), r)
      ensures lastForwarded == if Considered(r) then Prune(Note(old(lastForwarded), r), r.now) else old(lastForwarded)
    {
      forwarded := false;
      if !r.own {
        if !r.valid {
          return;
        }
        if r.icao !in lastForwarded || Elapsed(r.now, lastForwarded[r.icao]) >= FORWARD_INTERVAL_MS {
          forwarded := true;
          lastForwarded := lastForwarded[r.icao := r.now];
        }
        PruneEntries(r.now);
      }
    }
  }
}
