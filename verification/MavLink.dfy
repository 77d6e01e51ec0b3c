/**
  Recovery of the autopilot link: the heartbeat loop that reports the link and retires a silent socket, and the
  reconnector that tears a retired socket down and dials with a growing backoff.

  The reconnector's pass is three steps (decide, stamp the attempt, finish the dial), so heartbeat ticks, sends
  and received heartbeats may fall between them. A step its thread is not ready for changes nothing.
 */
module MavLink {
  import opened FmuTypes
  import opened Since

  const HEARTBEAT_TIMEOUT_MS: nat := 5000
  const TWO_16: nat := 0x1_0000

  /** Where the reconnector is: between passes, about to dial, or inside a dial. */
  datatype Phase = Resting | Due | Dialling

  /**
    The link's fields; after them what has happened so far: the statuses reported, the time of every dial, and
    how each finished dial ended (the time its socket became usable, or `None`).
   */
  datatype Link = Link(
    fdOpen: bool,
    lastHeartbeat: nat,
    connectedSince: nat,
    commsOk: bool,
    broken: bool,
    retryCount: nat,
    lastTried: nat,
    phase: Phase,
    reports: seq<bool>,
    dials: seq<nat>,
    outcomes: seq<Option<nat>>)

  /** Before `start` makes the first dial; that dial is not one of the reconnector's. */
  const INITIAL := Link(false, 0, 0, true, false, 0, 0, Due, [], [], [])

  predicate CommsIsUp(fdOpen: bool, now: nat, lastHeartbeat: nat) {
    fdOpen && (now < lastHeartbeat || now - lastHeartbeat <= HEARTBEAT_TIMEOUT_MS)
  }

  function LastContact(s: Link): nat {
    if s.lastHeartbeat < s.connectedSince then s.connectedSince else s.lastHeartbeat
  }

  predicate ShouldRetire(s: Link, now: nat) {
    s.fdOpen && LastContact(s) <= now && now - LastContact(s) > HEARTBEAT_TIMEOUT_MS
  }

  function BackoffMs(retryCount: nat): nat {
    match retryCount
    case 0 => 1000
    case 1 => 2000
    case 2 => 4000
    case 3 => 8000
    case 4 => 15000
    case _ => 30000
  }

  predicate DialIsDue(s: Link, now: nat) {
    !s.fdOpen && Elapsed(now, s.lastTried) > BackoffMs(s.retryCount)
  }

  /** One heartbeat-loop pass; `sent` is whether the heartbeat send it starts with went through. */
  function HeartbeatTick(s: Link, now: nat, sent: bool): Link {
    var up := CommsIsUp(s.fdOpen, now, s.lastHeartbeat);
    s.(commsOk := up,
       reports := if up == s.commsOk then s.reports else s.reports + [up],
       broken := s.broken || (s.fdOpen && !sent) || ShouldRetire(s, now))
  }

  function Decide(s: Link, now: nat): Link {
    var t := if s.broken then s.(fdOpen := false, broken := false) else s;
    if DialIsDue(t, now) then t.(retryCount := (t.retryCount + 1) % TWO_16, phase := Due) else t
  }

  function StampDial(s: Link, at: nat): Link {
    s.(lastTried := at, dials := s.dials + [at], phase := Dialling)
  }

  /** The dial ends: `answers` says which of the resolved addresses, in order, would accept. */
  function FinishDial(s: Link, done: nat, answers: seq<bool>): Link {
    if true in answers then
      s.(retryCount := 0, broken := false, connectedSince := done, fdOpen := true, phase := Resting,
         outcomes := s.outcomes + [Some(done)])
    else
      s.(phase := Resting, outcomes := s.outcomes + [None])
  }

  datatype Event =
    | Tick(now: nat, sent: bool)
    | Heard(now: nat)
    | SendFailed
    | RecvEnded
    | Pass(now: nat)
    | Stamp(now: nat)
    | Finish(now: nat, answers: seq<bool>)

  function Step(s: Link, e: Event): Link {
    match e
    case Tick(now, sent) => HeartbeatTick(s, now, sent)
    case Heard(now) => s.(lastHeartbeat := now)
    case SendFailed => s.(broken := s.broken || s.fdOpen)
    case RecvEnded => s.(broken := true)
    case Pass(now) => if s.phase == Resting then Decide(s, now) else s
    case Stamp(now) => if s.phase == Due then StampDial(s, now) else s
    case Finish(now, answers) => if s.phase == Dialling then FinishDial(s, now, answers) else s
  }

  function Run(s: Link, events: seq<Event>): Link {
    if events == [] then s else Step(Run(s, events[..|events| - 1]), events[|events| - 1])
  }

  /** The time of the last timed event, 0 before the first. */
  function Clock(events: seq<Event>): nat {
    if events == [] then 0
    else
      var e := events[|events| - 1];
      if e.SendFailed? || e.RecvEnded? then Clock(events[..|events| - 1]) else e.now
  }

  /** The clock does not run backwards, and fits 64 bits. */
  predicate Timely(events: seq<Event>) {
    if events == [] then true
    else
      var before := events[..|events| - 1];
      Timely(before) && Clock(before) <= Clock(events) < TWO_64
  }

  /** When the autopilot was last heard, 0 if never. */
  function LastHeard(events: seq<Event>): nat {
    if events == [] then 0
    else if events[|events| - 1].Heard? then events[|events| - 1].now
    else LastHeard(events[..|events| - 1])
  }

  /** Dials that failed since the last that connected, leaving out the very first dial. */
  function FailuresInARow(outcomes: seq<Option<nat>>): nat {
    if |outcomes| <= 1 || outcomes[|outcomes| - 1].Some? then 0
    else 1 + FailuresInARow(outcomes[..|outcomes| - 1])
  }

  /**
    The backoff in force once the dials in `outcomes` have finished: 1, 2, 4, 8, 15 and then 30 seconds for each failure
    in a row, starting over when their number no longer fits 16 bits.
   */
  function BackoffAfter(outcomes: seq<Option<nat>>): nat {
    var steps, failures := [1000, 2000, 4000, 8000, 15000], FailuresInARow(outcomes) % TWO_16;
    if failures < |steps| then steps[failures] else 30000
  }

  ghost predicate Reporting(s: Link) {
    && (forall i :: 0 <= i < |s.reports| ==> (s.reports[i] <==> i % 2 == 1))
    && (s.commsOk <==> |s.reports| % 2 == 0)
  }

  ghost predicate Stamps(s: Link, clock: nat) {
    && s.lastHeartbeat <= clock && s.connectedSince <= clock && s.lastTried <= clock < TWO_64
    && (s.fdOpen ==> s.phase == Resting && s.retryCount == 0 && s.lastTried <= s.connectedSince)
    && (s.fdOpen ==> s.outcomes != [] && s.outcomes[|s.outcomes| - 1] == Some(s.connectedSince))
  }

  ghost predicate Counted(s: Link) {
    && |s.dials| == |s.outcomes| + (if s.phase == Dialling then 1 else 0)
    && (s.phase == Resting ==> s.outcomes != [])
    && (s.dials != [] ==> s.lastTried == s.dials[|s.dials| - 1])
    && s.retryCount == (if s.outcomes == [] then 0
                        else (FailuresInARow(s.outcomes) + if s.phase == Resting then 0 else 1) % TWO_16)
  }

  ghost predicate SpacedAt(s: Link, i: nat)
    requires i + 1 < |s.dials| && i < |s.outcomes|
  {
    s.dials[i + 1] - s.dials[i] > BackoffAfter(s.outcomes[..i + 1])
  }

  ghost predicate Spaced(s: Link, clock: nat) {
    && |s.outcomes| <= |s.dials| <= |s.outcomes| + 1
    && (forall i: nat :: i + 1 < |s.dials| ==> SpacedAt(s, i))
    && (s.phase == Due && s.dials != [] ==> clock - s.dials[|s.dials| - 1] > BackoffAfter(s.outcomes))
  }

  lemma {:induction false} StepReports(s: Link, e: Event)
    requires Reporting(s)
    ensures Reporting(Step(s, e))
  {
  }

  lemma {:induction false} StepStamps(s: Link, e: Event, clock: nat)
    requires Stamps(s, clock)
    requires !e.SendFailed? && !e.RecvEnded? ==> clock <= e.now < TWO_64
    ensures Stamps(Step(s, e), if e.SendFailed? || e.RecvEnded? then clock else e.now)
  {
  }

  lemma {:induction false} FailuresAppend(outcomes: seq<Option<nat>>, o: Option<nat>)
    ensures FailuresInARow(outcomes + [o])
         == if outcomes == [] || o.Some? then 0 else FailuresInARow(outcomes) + 1
  {
    assert (outcomes + [o])[..|outcomes|] == outcomes;
  }

  lemma {:induction false} FinishCounts(s: Link, now: nat, answers: seq<bool>)
    requires Counted(s) && s.phase == Dialling
    ensures Counted(FinishDial(s, now, answers))
  {
    FailuresAppend(s.outcomes, if true in answers then Some(now) else None);
  }

  lemma {:induction false} DecideCounts(s: Link, now: nat)
    requires Counted(s) && s.phase == Resting
    ensures Counted(Decide(s, now))
  {
  }

  lemma {:induction false} StepCounts(s: Link, e: Event)
    requires Counted(s)
    ensures Counted(Step(s, e))
  {
    if e.Finish? && s.phase == Dialling {
      FinishCounts(s, e.now, e.answers);
    } else if e.Pass? && s.phase == Resting {
      DecideCounts(s, e.now);
    } else {
      var t := Step(s, e);
      assert t.outcomes == s.outcomes && t.retryCount == s.retryCount;
    }
  }

  lemma {:induction false} StampSpaces(s: Link, at: nat, clock: nat)
    requires Counted(s) && Spaced(s, clock) && clock <= at && s.phase == Due
    ensures Spaced(StampDial(s, at), at)
  {
    var t := StampDial(s, at);
    forall i: nat | i + 1 < |t.dials| ensures SpacedAt(t, i) {
      if i + 1 < |s.dials| {
        assert SpacedAt(s, i);
      } else {
        assert s.outcomes[..i + 1] == s.outcomes;
      }
    }
  }

  lemma {:induction false} FinishSpaces(s: Link, now: nat, answers: seq<bool>, clock: nat)
    requires Counted(s) && Spaced(s, clock) && s.phase == Dialling
    ensures Spaced(FinishDial(s, now, answers), now)
  {
    var t := FinishDial(s, now, answers);
    forall i: nat | i + 1 < |t.dials| ensures SpacedAt(t, i) {
      assert SpacedAt(s, i);
      assert t.outcomes[..i + 1] == s.outcomes[..i + 1];
    }
  }

  lemma {:induction false} StepSpaces(s: Link, e: Event, clock: nat)
    requires Stamps(s, clock) && Counted(s) && Spaced(s, clock)
    requires !e.SendFailed? && !e.RecvEnded? ==> clock <= e.now < TWO_64
    ensures Spaced(Step(s, e), if e.SendFailed? || e.RecvEnded? then clock else e.now)
  {
    if e.Stamp? && s.phase == Due {
      StampSpaces(s, e.now, clock);
    } else if e.Finish? && s.phase == Dialling {
      FinishSpaces(s, e.now, e.answers, clock);
    } else {
      var t := Step(s, e);
      assert t.dials == s.dials && t.outcomes == s.outcomes;
      forall i: nat | i + 1 < |t.dials| ensures SpacedAt(t, i) {
        assert SpacedAt(s, i);
      }
    }
  }

  lemma {:induction false} RunKeepsInv(events: seq<Event>)
    requires Timely(events)
    ensures var s := Run(INITIAL, events);
            Stamps(s, Clock(events)) && Counted(s) && Spaced(s, Clock(events)) && s.lastHeartbeat == LastHeard(events)
  {
    if events != [] {
      var before, e := events[..|events| - 1], events[|events| - 1];
      RunKeepsInv(before);
      var s := Run(INITIAL, before);
      StepStamps(s, e, Clock(before));
      StepCounts(s, e);
      StepSpaces(s, e, Clock(before));
    }
  }

  /** The statuses reported strictly alternate, failure first: status `i` is "ok" exactly when `i` is odd. */
  lemma {:induction false} ReportsAlternate(events: seq<Event>)
    ensures var s := Run(INITIAL, events);
            && (forall i :: 0 <= i < |s.reports| ==> (s.reports[i] <==> i % 2 == 1))
            && (s.commsOk <==> |s.reports| % 2 == 0)
  {
    if events != [] {
      ReportsAlternate(events[..|events| - 1]);
      StepReports(Run(INITIAL, events[..|events| - 1]), events[|events| - 1]);
    }
  }

  /**
    What a heartbeat tick does, in terms of the run before it. The status standing afterwards is the truth: open
    and heard within the timeout. The socket is flagged exactly when it was already, its own send failed, or it is
    open and both its age and the autopilot's silence exceed the timeout; and it is never flagged for silence
    while the link is still reported up.
   */
  lemma {:induction false} TickTellsAndRetires(events: seq<Event>, now: nat, sent: bool)
    requires Timely(events + [Tick(now, sent)])
    ensures var s, t := Run(INITIAL, events), Run(INITIAL, events + [Tick(now, sent)]);
            var silent := s.fdOpen && now - LastHeard(events) > HEARTBEAT_TIMEOUT_MS
                                   && now - s.connectedSince > HEARTBEAT_TIMEOUT_MS;
            && (t.commsOk <==> s.fdOpen && now - LastHeard(events) <= HEARTBEAT_TIMEOUT_MS)
            && (t.broken <==> s.broken || (s.fdOpen && !sent) || silent)
            && (silent ==> t.reports != [] && !t.reports[|t.reports| - 1])
  {
    var all := events + [Tick(now, sent)];
    assert all[..|events|] == events && all[|events|] == Tick(now, sent);
    RunKeepsInv(events);
    ReportsAlternate(all);
  }

  /**
    When a pass dials: exactly when it starts with the socket flagged or closed and the backoff of the failures
    so far has run out since the last dial. It leaves an open socket alone exactly when nothing flagged it.
   */
  lemma {:induction false} PassDialsExactlyWhenDue(events: seq<Event>, now: nat)
    requires Timely(events + [Pass(now)])
    requires Run(INITIAL, events).phase == Resting
    ensures var s, t := Run(INITIAL, events), Run(INITIAL, events + [Pass(now)]);
            && s.dials != []
            && (t.phase == Due <==>
                (s.broken || !s.fdOpen) && now - s.dials[|s.dials| - 1] > BackoffAfter(s.outcomes))
            && (t.fdOpen <==> s.fdOpen && !s.broken)
            && !t.broken
  {
    var all := events + [Pass(now)];
    assert all[..|events|] == events && all[|events|] == Pass(now);
    RunKeepsInv(events);
  }

  /**
    Dials are never closer together than the backoff of the failures that went before, however often passes,
    failures and successful connects alternate.
   */
  lemma {:induction false} DialsAreSpaced(events: seq<Event>, i: nat)
    requires Timely(events)
    requires i + 1 < |Run(INITIAL, events).dials|
    ensures var s := Run(INITIAL, events);
            i < |s.outcomes| && s.dials[i + 1] - s.dials[i] > BackoffAfter(s.outcomes[..i + 1])
  {
    RunKeepsInv(events);
    assert SpacedAt(Run(INITIAL, events), i);
  }

  /** What a run can leave standing: the socket open, or flagged for the reconnector to close. */
  datatype Standing = SocketOpen | SocketFlagged

  predicate Stands(s: Link, what: Standing) {
    if what.SocketOpen? then s.fdOpen else s.broken
  }

  /** A dial that some address accepts opens; a failed send, the end of receiving, or a silent socket flags. */
  predicate Starts(s: Link, e: Event, what: Standing) {
    match e
    case Finish(_, answers) => what.SocketOpen? && s.phase == Dialling && true in answers
    case RecvEnded => what.SocketFlagged?
    case SendFailed => what.SocketFlagged? && s.fdOpen
    case Tick(now, sent) =>
      && what.SocketFlagged? && s.fdOpen
      && (!sent || (s.lastHeartbeat + HEARTBEAT_TIMEOUT_MS < now && s.connectedSince + HEARTBEAT_TIMEOUT_MS < now))
    case _ => false
  }

  /** The reconnector's pass closes a flagged socket and clears the flag; so does opening a new one. */
  predicate Ends(s: Link, e: Event, what: Standing) {
    match e
    case Pass(_) => s.phase == Resting && (what.SocketOpen? ==> s.broken)
    case Finish(_, answers) => what.SocketFlagged? && s.phase == Dialling && true in answers
    case _ => false
  }

  lemma {:induction false} StepStands(s: Link, e: Event, what: Standing)
    ensures Stands(Step(s, e), what) <==> Starts(s, e, what) || (Stands(s, what) && !Ends(s, e, what))
  {
  }

  /** Which events of a run started what stands. */
  function Startings(events: seq<Event>, what: Standing): (starts: seq<bool>)
    ensures |starts| == |events|
  {
    if events == [] then []
    else
      var before := events[..|events| - 1];
      Startings(before, what) + [Starts(Run(INITIAL, before), events[|events| - 1], what)]
  }

  /** Which events of a run ended it. */
  function Endings(events: seq<Event>, what: Standing): (ends: seq<bool>)
    ensures |ends| == |events|
  {
    if events == [] then []
    else
      var before := events[..|events| - 1];
      Endings(before, what) + [Ends(Run(INITIAL, before), events[|events| - 1], what)]
  }

  /** Event `k` started what no later event has ended. */
  ghost predicate StandsSince(events: seq<Event>, what: Standing, k: nat) {
    Unended(Startings(events, what), Endings(events, what), k)
  }

  lemma {:induction false} StandsExtends(events: seq<Event>, before: seq<Event>, what: Standing)
    requires events != [] && before == events[..|events| - 1]
    ensures var s, e := Run(INITIAL, before), events[|before|];
            (exists k :: StandsSince(events, what, k)) <==>
            Starts(s, e, what) || (!Ends(s, e, what) && exists k :: StandsSince(before, what, k))
  {
    var s, e := Run(INITIAL, before), events[|before|];
    var starts, ends := Startings(before, what), Endings(before, what);
    var start, end := Starts(s, e, what), Ends(s, e, what);
    assert Startings(events, what) == starts + [start] && Endings(events, what) == ends + [end];
    UnendedExtends(starts, ends, start, end);
    assert forall k :: StandsSince(before, what, k) <==> Unended(starts, ends, k);
    assert forall k :: StandsSince(events, what, k) <==> Unended(starts + [start], ends + [end], k);
  }

  /**
    Over every run the socket is open, and flagged, each exactly when some event made it so and none since has ended
    that.
   */
  lemma {:induction false} StandsExactlyWhen(events: seq<Event>, what: Standing)
    ensures Stands(Run(INITIAL, events), what) <==> exists k :: StandsSince(events, what, k)
  {
    if events != [] {
      var before := events[..|events| - 1];
      StandsExactlyWhen(before, what);
      StepStands(Run(INITIAL, before), events[|before|], what);
      StandsExtends(events, before, what);
    }
  }

  predicate HasPass(events: seq<Event>) {
    exists i :: 0 <= i < |events| && events[i].Pass?
  }

  /** What stays put between a retirement and the pass that acts on it. */
  ghost predicate Flagged(s: Link, since: nat) {
    && s.fdOpen && s.broken && s.phase == Resting && s.retryCount == 0 && s.lastTried <= since
  }

  lemma {:induction false} FlagStands(s: Link, events: seq<Event>, since: nat)
    requires Flagged(s, since) && !HasPass(events)
    ensures Flagged(Run(s, events), since) && Run(s, events).dials == s.dials
  {
    if events != [] {
      var before := events[..|events| - 1];
      assert forall i :: 0 <= i < |before| ==> before[i] == events[i];
      FlagStands(s, before, since);
    }
  }

  lemma {:induction false} RunAppends(s: Link, first: seq<Event>, second: seq<Event>)
    ensures Run(s, first + second) == Run(Run(s, first), second)
    decreases |second|
  {
    if second == [] {
      assert first + second == first;
    } else {
      var all := first + second;
      assert all[..|all| - 1] == first + second[..|second| - 1];
      RunAppends(s, first, second[..|second| - 1]);
    }
  }

  lemma {:induction false} TimelyPrefix(first: seq<Event>, second: seq<Event>)
    requires Timely(first + second)
    ensures Timely(first) && Clock(first) <= Clock(first + second)
    decreases |second|
  {
    if second == [] {
      assert first + second == first;
    } else {
      var all := first + second;
      assert all[..|all| - 1] == first + second[..|second| - 1];
      TimelyPrefix(first, second[..|second| - 1]);
    }
  }

  /**
    Recovery: once a tick has found the open socket silent for longer than the timeout, the reconnector's very
    next pass, whatever ticks, sends and heartbeats come before it, closes the socket and goes on to dial. The
    connect that opened the socket zeroed the backoff, and the silence itself has outlasted what is left of it.
   */
  lemma {:induction false} SilentLinkIsRedialled(
    events: seq<Event>, now: nat, sent: bool, between: seq<Event>, later: nat)
    requires Timely(events + [Tick(now, sent)] + between + [Pass(later)])
    requires ShouldRetire(Run(INITIAL, events), now)
    requires !HasPass(between)
    ensures var t := Run(INITIAL, events + [Tick(now, sent)] + between + [Pass(later)]);
            !t.fdOpen && t.phase == Due && t.dials == Run(INITIAL, events).dials
  {
    var ticked := events + [Tick(now, sent)];
    var all := ticked + between + [Pass(later)];
    assert all[..|all| - 1] == ticked + between;
    assert ticked[..|events|] == events && ticked[|events|] == Tick(now, sent);
    TimelyPrefix(ticked, between);
    RunKeepsInv(events);
    var s := Run(INITIAL, ticked);
    FlagStands(s, between, now - HEARTBEAT_TIMEOUT_MS);
    RunAppends(INITIAL, ticked, between);
    assert later == Clock(all) && Clock(ticked) == now <= later < TWO_64;
  }

  /** The connection's link state, updated in place by the heartbeat, receive, send and reconnect threads. */
  class AutopilotLink {
    var fdOpen: bool
    var lastHeartbeat: nat
    var connectedSince: nat
    var commsOk: bool
    var broken: bool
    var retryCount: nat
    var lastTried: nat
    var phase: Phase
    var reports: seq<bool>
    var dials: seq<nat>
    var outcomes: seq<Option<nat>>

    ghost function View(): Link
      reads this
    {
      Link(fdOpen, lastHeartbeat, connectedSince, commsOk, broken, retryCount, lastTried, phase, reports,
           dials, outcomes)
    }

    constructor ()
      ensures View() == INITIAL
    {
      fdOpen, lastHeartbeat, connectedSince, commsOk, broken := false, 0, 0, true, false;
      retryCount, lastTried, phase, reports, dials, outcomes := 0, 0, Due, [], [], [];
    }

    method Tick(now: nat, sent: bool)
      modifies this
      ensures View() == Step(old(View()), Event.Tick(now, sent))
    {
      if fdOpen && !sent {
        broken := true;
      }
      var up := CommsIsUp(fdOpen, now, lastHeartbeat);
      if up != commsOk {
        commsOk := up;
        reports := reports + [up];
      }
      var lastContact := if lastHeartbeat < connectedSince then connectedSince else lastHeartbeat;
      if fdOpen && lastContact <= now && now - lastContact > HEARTBEAT_TIMEOUT_MS {
        broken := true;
      }
    }

    /** Tries the resolved addresses in order and stops at the first that accepts. */
    method DialInTurn(answers: seq<bool>) returns (accepted: Option<nat>)
      ensures accepted.Some? <==> true in answers
      ensures accepted.Some? ==>
                && accepted.value < |answers| && answers[accepted.value]
                && forall i :: 0 <= i < accepted.value ==> !answers[i]
    {
      accepted := None;
      var i := 0;
      while i < |answers|
        invariant i <= |answers|
        invariant forall j :: 0 <= j < i ==> !answers[j]
      {
        if answers[i] {
          accepted := Some(i);
          return;
        }
        i := i + 1;
      }
    }

    method ConnectToMav(at: nat, done: nat, answers: seq<bool>)
      requires phase == Due
      modifies this
      ensures View() == FinishDial(StampDial(old(View()), at), done, answers)
    {
      lastTried := at;
      dials := dials + [at];
      var accepted := DialInTurn(answers);
      phase := Resting;
      if accepted.None? {
        outcomes := outcomes + [None];
        return;
      }
      retryCount := 0;
      broken := false;
      connectedSince := done;
      fdOpen := true;
      outcomes := outcomes + [Some(done)];
    }

    method DisconnectFromMav()
      modifies this
      ensures View() == old(View()).(fdOpen := false)
    {
      fdOpen := false;
    }

    /** A pass with nothing in between: its three steps in a row. */
    method AttemptReconnect(now: nat, at: nat, done: nat, answers: seq<bool>)
      requires phase == Resting
      modifies this
      ensures View() == Step(Step(Step(old(View()), Pass(now)), Stamp(at)), Finish(done, answers))
    {
      if broken {
        DisconnectFromMav();
        broken := false;
      }
      if !fdOpen {
        if Elapsed(now, lastTried) > BackoffMs(retryCount) {
          retryCount := (retryCount + 1) % TWO_16;
          phase := Due;
          ConnectToMav(at, done, answers);
        }
      }
    }
  }
}
