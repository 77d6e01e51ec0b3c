/**
  Mission layout: which item each requested sequence number is answered with, how many items are
  advertised, and where an interrupted search resumes.
 */
module MissionPlan {

  type Uint16 = n: nat | n < 0x1_0000

  datatype Mode = SearchMission | GotoMission

  datatype Item = Takeoff | SearchPoint(index: nat) | GotoWaypoint | ReturnHome

  /** Search points follow the two setup items. */
  const FIRST_POINT: nat := 2

  function Truncate16(n: nat): Uint16 {
    n % 0x1_0000
  }

  /** Sequence number of a search point, in the 16-bit field it is sent in. */
  function PointSeq(index: nat): Uint16 {
    Truncate16(index + FIRST_POINT)
  }

  /** The point to resume from once item `reached` has been reached. */
  function NextPointAfter(reached: Uint16): nat
    requires FIRST_POINT <= reached
  {
    reached - FIRST_POINT + 1
  }

  function ItemFor(seqNo: nat, points: nat, mode: Mode): Item {
    if mode == GotoMission then
      if seqNo >= 2 then ReturnHome else GotoWaypoint
    else if seqNo <= 1 then Takeoff
    else if seqNo > points + 1 then ReturnHome
    else SearchPoint(seqNo - 2)
  }

  function CountFor(points: nat, mode: Mode): nat {
    if mode == GotoMission then 3 else points + 3
  }

  /** MISSION_COUNT is a 16-bit field. */
  function AdvertisedCount(points: nat, mode: Mode): Uint16 {
    Truncate16(CountFor(points, mode))
  }

  /** What an autopilot that requests 0 .. advertised-1 in order is given. */
  function Served(points: nat, mode: Mode): seq<Item> {
    seq(AdvertisedCount(points, mode), i requires 0 <= i => ItemFor(i, points, mode))
  }

  function SearchPoints(n: nat): seq<Item> {
    if n == 0 then [] else SearchPoints(n - 1) + [SearchPoint(n - 1)]
  }

  lemma {:induction false} SearchPointsAt(n: nat, k: nat)
    requires k < n
    ensures |SearchPoints(n)| == n && SearchPoints(n)[k] == SearchPoint(k)
  {
    if 1 < n {
      SearchPointsAt(n - 1, if k < n - 1 then k else 0);
    }
  }

  /**
    The items that make up a search mission: two takeoffs, every point in order and one return home. That is so
    exactly when the count fits its field: a longer search is cut short and never told to return home. A request past
    the last point is answered with the return home.
   */
  lemma {:induction false} SearchLayout(points: nat)
    ensures points + 3 < 0x1_0000 <==>
            Served(points, SearchMission) == [Takeoff, Takeoff] + SearchPoints(points) + [ReturnHome]
    ensures ReturnHome in Served(points, SearchMission) <==> points + 3 < 0x1_0000
    ensures forall seqNo: nat :: points + 2 <= seqNo ==> ItemFor(seqNo, points, SearchMission) == ReturnHome
  {
    var served := Served(points, SearchMission);
    var full := [Takeoff, Takeoff] + SearchPoints(points) + [ReturnHome];
    if points > 0 {
      SearchPointsAt(points, 0);
    }
    if points + 3 < 0x1_0000 {
      forall i | 0 <= i < |served| ensures served[i] == full[i] {
        if 2 <= i < points + 2 {
          SearchPointsAt(points, i - 2);
        }
      }
      assert served == full;
      assert served[points + 2] == ReturnHome;
    } else {
      assert |served| < |full|;
      forall i | 0 <= i < |served| ensures served[i] != ReturnHome {
        assert i < points + 2;
      }
    }
  }

  lemma GotoLayout(points: nat)
    ensures Served(points, GotoMission) == [GotoWaypoint, GotoWaypoint, ReturnHome]
    ensures forall seqNo: nat :: 2 <= seqNo ==> ItemFor(seqNo, points, GotoMission) == ReturnHome
  {
  }

  // ---------------------------------------------------------------------------
  // Progress through a search
  // ---------------------------------------------------------------------------

  /** `SMMSearch` as far as its progress goes: its waypoint count, its resume point, and whether it is finished. */
  datatype Progress = Progress(points: nat, current: nat, complete: bool)

  /** `SMMSearch::reachedPoint`: reaching past the last point completes the search, once. */
  function ReachPoint(p: Progress, point: nat): Progress {
    if !p.complete && point >= p.points then p.(complete := true) else p.(current := point)
  }

  /** A MISSION_ITEM_REACHED from the autopilot: setup items are dropped. */
  function Reach(p: Progress, reached: Uint16): Progress {
    if reached < FIRST_POINT then p else ReachPoint(p, NextPointAfter(reached))
  }

  function ReachAll(p: Progress, reached: seq<Uint16>): Progress {
    if reached == [] then p else Reach(ReachAll(p, reached[..|reached| - 1]), reached[|reached| - 1])
  }

  /** Where a re-uploaded search is resumed. */
  function ResumeSeq(p: Progress): Uint16 {
    PointSeq(p.current)
  }

  /** Until the search completes, its resume point is one of its points. */
  lemma {:induction false} ReachStaysInRange(points: nat, reached: seq<Uint16>)
    requires 1 <= points
    ensures var p := ReachAll(Progress(points, 0, false), reached);
            p.points == points && (!p.complete ==> p.current < points)
  {
    if reached != [] {
      ReachStaysInRange(points, reached[..|reached| - 1]);
    }
  }

  /** The point after the search item last reached, the first one before any was: items 0 and 1 are setup. */
  function PointAfterLast(reached: seq<Uint16>): nat {
    if reached == [] then 0
    else if reached[|reached| - 1] >= 2 then reached[|reached| - 1] - 1
    else PointAfterLast(reached[..|reached| - 1])
  }

  /**
    Progress, exactly: a search is complete once its last point's item, or a later one, was ever reached; until then it
    resumes at the point after the search item last reached, setup items counting for nothing.
   */
  lemma {:induction false} ProgressIsTheLastReached(points: nat, reached: seq<Uint16>)
    requires 1 <= points
    ensures var p := ReachAll(Progress(points, 0, false), reached);
            && (p.complete <==> exists k :: 0 <= k < |reached| && reached[k] > points)
            && (!p.complete ==> p.current == PointAfterLast(reached))
  {
    if reached != [] {
      var before, last := reached[..|reached| - 1], reached[|reached| - 1];
      ProgressIsTheLastReached(points, before);
      ReachStaysInRange(points, before);
      assert reached == before + [last];
      if k :| 0 <= k < |before| && before[k] > points {
        assert reached[k] > points;
      }
    }
  }

  /** The items an upload of `points` points advertises. */
  predicate Advertised(points: nat, reached: seq<Uint16>) {
    forall i :: 0 <= i < |reached| ==> reached[i] < AdvertisedCount(points, SearchMission)
  }

  lemma {:induction false} AdvertisedReachFits(points: nat, reached: seq<Uint16>)
    requires 1 <= points && Advertised(points, reached)
    ensures ReachAll(Progress(points, 0, false), reached).current + FIRST_POINT < 0x1_0000
  {
    if reached != [] {
      AdvertisedReachFits(points, reached[..|reached| - 1]);
    }
  }

  /**
    Resuming an unfinished search selects the item of its current point, never a setup item and never the return
    home: whatever its size, after any run of reached events for items its upload advertised.
   */
  lemma {:induction false} ResumeIsSound(points: nat, reached: seq<Uint16>)
    requires 1 <= points && Advertised(points, reached)
    requires !ReachAll(Progress(points, 0, false), reached).complete
    ensures var p := ReachAll(Progress(points, 0, false), reached);
            ItemFor(ResumeSeq(p), points, SearchMission) == SearchPoint(p.current)
  {
    ReachStaysInRange(points, reached);
    AdvertisedReachFits(points, reached);
  }

  /**
    And after any run of reached events at all, advertised or not, exactly when the current point's sequence number
    fits 16 bits; a search whose count fits always meets that, and the resumed item is one it advertised.
   */
  lemma {:induction false} ResumeLandsOnCurrentPoint(points: nat, reached: seq<Uint16>)
    requires 1 <= points
    requires !ReachAll(Progress(points, 0, false), reached).complete
    ensures var p := ReachAll(Progress(points, 0, false), reached);
            && (ItemFor(ResumeSeq(p), points, SearchMission) == SearchPoint(p.current)
                <==> p.current + FIRST_POINT < 0x1_0000)
            && (points + 3 < 0x1_0000 ==>
                  p.current + FIRST_POINT < 0x1_0000 && ResumeSeq(p) < AdvertisedCount(points, SearchMission))
  {
    ReachStaysInRange(points, reached);
  }

  /** The point resumed from is the one after the most recently reached search item. */
  lemma {:induction false} ResumeFollowsLastReached(points: nat, reached: seq<Uint16>, last: Uint16)
    requires 1 <= points && FIRST_POINT <= last && last <= points
    requires !ReachAll(Progress(points, 0, false), reached).complete
    ensures var p := ReachAll(Progress(points, 0, false), reached + [last]);
            && !p.complete
            && ItemFor(last, points, SearchMission) == SearchPoint(p.current - 1)
  {
    ReachStaysInRange(points, reached);
    assert (reached + [last])[..|reached|] == reached;
  }

  /**
    An item that was never advertised can lead elsewhere: 65536 points advertise a count of 3, yet a reached event
    for item 65535 would resume them at a takeoff.
   */
  lemma {:induction false} LongSearchResumesAtTakeoff()
    ensures var p := ReachAll(Progress(0x1_0000, 0, false), [0xFFFF]);
            && AdvertisedCount(0x1_0000, SearchMission) == 3
            && !p.complete && ItemFor(ResumeSeq(p), 0x1_0000, SearchMission) == Takeoff
  {
    assert [0xFFFF][..0] == [];
    assert ReachAll(Progress(0x1_0000, 0, false), [0xFFFF])
        == Reach(Progress(0x1_0000, 0, false), 0xFFFF);
  }

  /** The progress fields of `SMMSearch`, updated in place. */
  class SmmSearch {
    const points: nat
    var currentPoint: nat
    var handleOpen: bool

    ghost function View(): Progress
      reads this
    {
      Progress(points, currentPoint, !handleOpen)
    }

    constructor (n: nat)
      ensures View() == Progress(n, 0, false)
    {
      points := n;
      currentPoint := 0;
      handleOpen := true;
    }

    method ReachedPoint(point: nat) returns (completed: bool)
      modifies this
      ensures View() == ReachPoint(old(View()), point)
      ensures completed <==> View().complete && !old(View()).complete
    {
      if handleOpen && point >= points {
        handleOpen := false;
        return true;
      }
      currentPoint := point;
      return false;
    }

    /** `mav_connection::report_reached` followed by `SMMSearch::reachedPoint`. */
    method ReachedItem(reached: Uint16) returns (completed: bool)
      modifies this
      ensures View() == Reach(old(View()), reached)
      ensures completed <==> View().complete && !old(View()).complete
    {
      completed := false;
      if reached >= FIRST_POINT {
        completed := ReachedPoint(NextPointAfter(reached));
      }
    }
  }
}
