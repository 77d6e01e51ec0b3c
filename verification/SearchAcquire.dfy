/**
  The search worker: acquiring a search from the search-management server, holding it, resuming it, and letting
  it go.

  The worker's tasks run one after the other, but the searching role is granted and revoked by another thread at
  any moment, and the server answers what it likes. Every read of the role and every answer is therefore an
  input (`Attempt`, one per fetch), so a statement over all inputs is one over all interleavings.
 */
module SearchAcquire {
  import opened FmuTypes
  import MissionPlan

  const RETRY_INTERVAL_MS: nat := 5000
  const MAX_FETCHES: nat := 3

  datatype OperatorCommand = AbandonSearch | MissionComplete | Ignored(code: nat)

  /** What the worker does to the outside, in order. A search handle is named by how many were fetched before. */
  datatype Act =
    | FetchedNone
    | Fetched(handle: nat)
    | ReadRole(granted: bool)
    | Committed(handle: nat, accepted: bool)
    | Published(handle: nat)
    | Loaded(handle: nat)
    | Destroyed(handle: nat)
    | Completed(handle: nat)
    | Dropped(handle: nat)
    | Tasked
    | RtlReport
    | Operator(command: OperatorCommand)
    | Reported(now: nat)

  datatype Held = Held(handle: nat, progress: MissionPlan.Progress)

  /**
    One trip round the acquire loop: what the fetch returns and how many points it has, whether they are valid,
    whether the server accepts, what the three reads of the role see, and the time when it is over.
   */
  datatype Attempt = Attempt(found: bool, points: nat, valid: bool, accepted: bool,
                             wanted: bool, stillWanted: bool, wantedAfter: bool, now: nat)

  type Oracle = nat -> Attempt

  /** The worker's fields, the number of handles fetched so far, the log of its acts, and two counts over the log. */
  datatype Worker = Worker(asset: bool, retryTs: nat, held: Option<Held>, cachedPoints: nat,
                           lastCommand: OperatorCommand, lastReport: nat, handles: nat, log: seq<Act>,
                           fetches: nat, rtlReports: nat)

  const UNKNOWN_COMMAND := Ignored(0)

  const INITIAL := Worker(false, 0, None, 0, UNKNOWN_COMMAND, 0, 0, [], 0, 0)

  function Emit(w: Worker, act: Act): Worker {
    w.(log := w.log + [act],
       fetches := w.fetches + (if act.Fetched? || act.FetchedNone? then 1 else 0),
       rtlReports := w.rtlReports + (if act.RtlReport? then 1 else 0))
  }

  function Fetch(w: Worker, found: bool): Worker {
    if found then Emit(w, Fetched(w.handles)).(handles := w.handles + 1) else Emit(w, FetchedNone)
  }

  function Keep(w: Worker, held: Option<Held>): Worker {
    w.(held := held, cachedPoints := if held.Some? then held.value.progress.points else 0)
  }

  /** The loop's tail: nothing was acquired; stop if the role is gone, else fall back to RTL. */
  function GiveUp(w: Worker, now: nat): Worker {
    Emit(w, RtlReport).(retryTs := now + RETRY_INTERVAL_MS)
  }

  function Acquired(w: Worker, handle: nat, points: nat): Worker {
    var held := Held(handle, MissionPlan.Progress(points, 0, false));
    Emit(Keep(Emit(w, Published(handle)), Some(held)), Loaded(handle)).(retryTs := 0)
  }

  /** The part of an attempt up to the commit, for a fetch that found a search while the role was granted. */
  function Offer(w: Worker, a: Attempt, handle: nat): Worker {
    var r := Emit(w, ReadRole(a.stillWanted));
    if a.stillWanted && a.valid then Emit(r, Committed(handle, a.accepted)) else r
  }

  predicate Succeeds(a: Attempt) {
    a.found && a.wanted && a.stillWanted && a.valid && a.accepted
  }

  /** The offered search was not taken on: fall back to RTL if that was the last try, and let it go. */
  function Refused(w: Worker, a: Attempt, handle: nat, last: bool): Worker {
    var q := Emit(w, ReadRole(a.wantedAfter));
    Emit(if a.wantedAfter && last then GiveUp(q, a.now) else q, Destroyed(handle))
  }

  function Started(w: Worker, a: Attempt): Worker {
    Emit(Fetch(w, a.found), ReadRole(a.wanted))
  }

  /** One trip round the acquire loop. */
  function Trip(w: Worker, a: Attempt, last: bool): Worker {
    var r := Started(w, a);
    if !a.wanted then
      if a.found then Emit(r, Destroyed(w.handles)) else r
    else if !a.found then GiveUp(r, a.now)
    else if Succeeds(a) then Acquired(Offer(r, a, w.handles), w.handles, a.points)
    else Refused(Offer(r, a, w.handles), a, w.handles, last)
  }

  /** Whether a trip calls for another one. */
  predicate Again(a: Attempt) {
    a.wanted && a.found && !Succeeds(a) && a.wantedAfter
  }

  /** Trips round the loop from number `tries`. */
  function AttemptFrom(w: Worker, world: Oracle, tries: nat): Worker
    requires tries < MAX_FETCHES
    decreases MAX_FETCHES - tries
  {
    var a := world(tries);
    var last := tries + 1 == MAX_FETCHES;
    var r := Trip(w, a, last);
    if Again(a) && !last then AttemptFrom(r, world, tries + 1) else r
  }

  function TryAcquire(w: Worker, now: nat, world: Oracle): Worker {
    if w.retryTs > now then w
    else if !w.asset then GiveUp(w, now)
    else AttemptFrom(w, world, 0)
  }

  function MaybeAcquire(w: Worker, active: bool, now: nat, world: Oracle): Worker {
    var r := Emit(w, ReadRole(active));
    if active && r.held.None? then TryAcquire(r, now, world) else r
  }

  function DoSearch(w: Worker, now: nat, world: Oracle): Worker {
    var r := Emit(w, Tasked).(retryTs := 0);
    if r.held.Some? then Emit(r, Loaded(r.held.value.handle)) else TryAcquire(r, now, world)
  }

  function DoReachedPoint(w: Worker, point: nat): Worker {
    if w.held.None? then w
    else
      var progress := MissionPlan.ReachPoint(w.held.value.progress, point);
      if progress.complete && !w.held.value.progress.complete then
        Emit(Keep(Emit(w, Completed(w.held.value.handle)), None), RtlReport)
      else w.(held := Some(w.held.value.(progress := progress)))
  }

  function Drop(w: Worker): Worker {
    if w.held.None? then Keep(w, None) else Keep(Emit(w, Dropped(w.held.value.handle)), None)
  }

  function CheckOperatorCommand(w: Worker, command: OperatorCommand): Worker {
    if command == w.lastCommand then w
    else
      var r := w.(lastCommand := command);
      match command
      case AbandonSearch => Emit(Drop(r).(retryTs := 0), Operator(command))
      case MissionComplete => Emit(r, Operator(command))
      case Ignored(_) => r
  }

  function SendReport(w: Worker, now: nat, command: OperatorCommand): Worker {
    Emit(CheckOperatorCommand(w, command), Reported(now)).(lastReport := now)
  }

  function DoReportPosition(w: Worker, interval: nat, now: nat, command: OperatorCommand, active: bool, later: nat,
                            world: Oracle): Worker {
    var r := if w.asset && w.lastReport + interval <= now then SendReport(w, now, command) else w;
    MaybeAcquire(r, active, later, world)
  }

  /** The worker's tasks, each with what its reads and calls will see. */
  datatype Event =
    | Connect(found: bool)
    | ReportPosition(interval: nat, now: nat, command: OperatorCommand, active: bool, later: nat, world: Oracle)
    | ReachedPoint(point: nat)
    | Search(later: nat, world: Oracle)
    | RetryPending(active: bool, later: nat, world: Oracle)

  function Step(w: Worker, e: Event): Worker {
    match e
    case Connect(found) => w.(asset := found)
    case ReportPosition(interval, now, command, active, later, world) =>
      DoReportPosition(w, interval, now, command, active, later, world)
    case ReachedPoint(point) => DoReachedPoint(w, point)
    case Search(later, world) => DoSearch(w, later, world)
    case RetryPending(active, later, world) => MaybeAcquire(w, active, later, world)
  }

  function Run(w: Worker, events: seq<Event>): Worker {
    if events == [] then w else Step(Run(w, events[..|events| - 1]), events[|events| - 1])
  }

  // What every log obeys.

  predicate Releases(act: Act, handle: nat) {
    act == Destroyed(handle) || act == Completed(handle) || act == Dropped(handle)
  }

  function ReleaseCount(log: seq<Act>, handle: nat): nat {
    if log == [] then 0
    else ReleaseCount(log[..|log| - 1], handle) + if Releases(log[|log| - 1], handle) then 1 else 0
  }

  function Last(log: seq<Act>): Option<Act> {
    if log == [] then None else Some(log[|log| - 1])
  }

  /** What an RTL report comes directly after. */
  predicate CallsForRtl(act: Act) {
    act == ReadRole(true) || act.Completed? || act == Tasked
  }

  /**
    What may follow what: a commit comes directly after a read that saw the role granted; a search is published
    directly after, and always after, a commit the server accepted; it is handed over for flying directly after, and
    always after, that, or else at the start of a search task; an RTL report comes directly after a read that saw the
    role granted, the completion of the held search, or the start of a search task.
   */
  predicate MayFollow(previous: Option<Act>, act: Act) {
    && (act.Committed? ==> previous == Some(ReadRole(true)))
    && (act.Published? ==> previous == Some(Committed(act.handle, true)))
    && (act.RtlReport? ==> previous.Some? && CallsForRtl(previous.value))
    && (previous.Some? && previous.value.Committed? && previous.value.accepted ==>
          act == Published(previous.value.handle))
    && (act.Loaded? ==> previous == Some(Published(act.handle)) || previous == Some(Tasked))
    && (previous.Some? && previous.value.Published? ==> act == Loaded(previous.value.handle))
  }

  ghost predicate Lawful(log: seq<Act>) {
    forall i {:trigger log[i]} :: 0 <= i < |log| ==> MayFollow(Last(log[..i]), log[i])
  }

  predicate Settled(log: seq<Act>) {
    log != [] ==> !(log[|log| - 1].Committed? && log[|log| - 1].accepted) && !log[|log| - 1].Published?
  }

  /** Searches handed to the autopilot side were accepted by the server, and not yet let go. */
  ghost predicate LoadsAreLive(log: seq<Act>) {
    forall i {:trigger log[i]} :: 0 <= i < |log| && log[i].Loaded? ==>
      Published(log[i].handle) in log[..i] && ReleaseCount(log[..i], log[i].handle) == 0
  }

  function HeldHandle(w: Worker): Option<nat> {
    if w.held.Some? then Some(w.held.value.handle) else None
  }

  /** Every fetched handle is let go exactly once, save the held one and the one in hand. */
  ghost predicate Tidy(log: seq<Act>, handles: nat, held: Option<nat>, inHand: Option<nat>) {
    forall h: nat {:trigger ReleaseCount(log, h)} ::
      ReleaseCount(log, h) == if h < handles && held != Some(h) && inHand != Some(h) then 1 else 0
  }

  ghost predicate LogInv(log: seq<Act>, handles: nat, held: Option<nat>, inHand: Option<nat>) {
    && Lawful(log) && LoadsAreLive(log) && Tidy(log, handles, held, inHand)
    && (held.Some? ==> held.value < handles && Published(held.value) in log)
  }

  ghost predicate Inv(w: Worker, inHand: Option<nat>) {
    && LogInv(w.log, w.handles, HeldHandle(w), inHand)
    && w.cachedPoints == if w.held.Some? then w.held.value.progress.points else 0
  }

  lemma {:induction false} EmitKeepsLogLaws(log: seq<Act>, act: Act)
    requires Lawful(log) && LoadsAreLive(log) && MayFollow(Last(log), act)
    requires act.Loaded? ==> Published(act.handle) in log && ReleaseCount(log, act.handle) == 0
    ensures Lawful(log + [act]) && LoadsAreLive(log + [act])
  {
    var all := log + [act];
    forall i | 0 <= i < |all|
      ensures MayFollow(Last(all[..i]), all[i])
      ensures all[i].Loaded? ==> Published(all[i].handle) in all[..i] && ReleaseCount(all[..i], all[i].handle) == 0
    {
      if i < |log| {
        assert all[..i] == log[..i] && all[i] == log[i];
      } else {
        assert all[..i] == log;
      }
    }
  }

  lemma {:induction false} EmitCounts(log: seq<Act>, act: Act, handle: nat)
    ensures ReleaseCount(log + [act], handle) == ReleaseCount(log, handle) + if Releases(act, handle) then 1 else 0
  {
    assert (log + [act])[..|log|] == log;
  }

  lemma {:induction false} LogEmit(log: seq<Act>, act: Act, handles: nat, held: Option<nat>, inHand: Option<nat>)
    requires LogInv(log, handles, held, inHand) && MayFollow(Last(log), act)
    requires !act.Destroyed? && !act.Completed? && !act.Dropped?
    requires act.Loaded? ==> held == Some(act.handle)
    ensures LogInv(log + [act], handles, held, inHand)
  {
    if act.Loaded? {
      assert ReleaseCount(log, act.handle) == 0;
    }
    EmitKeepsLogLaws(log, act);
    forall h: nat ensures ReleaseCount(log + [act], h) == ReleaseCount(log, h) {
      EmitCounts(log, act, h);
    }
  }

  lemma {:induction false} LogFetch(log: seq<Act>, handles: nat, held: Option<nat>)
    requires LogInv(log, handles, held, None)
    ensures LogInv(log, handles + 1, held, Some(handles))
  {
    forall h: nat
      ensures ReleaseCount(log, h) == if h < handles + 1 && held != Some(h) && handles != h then 1 else 0
    {
    }
  }

  lemma {:induction false} ReleaseTidies(log: seq<Act>, act: Act, handle: nat, handles: nat, held: Option<nat>)
    requires Tidy(log, handles, held, Some(handle)) && handle < handles && held != Some(handle)
    requires Releases(act, handle)
    ensures Tidy(log + [act], handles, held, None)
  {
    forall h: nat
      ensures ReleaseCount(log + [act], h) == if h < handles && held != Some(h) && None != Some(h) then 1 else 0
    {
      EmitCounts(log, act, h);
      assert ReleaseCount(log, h) == if h < handles && held != Some(h) && h != handle then 1 else 0;
    }
  }

  lemma {:induction false} LogRelease(log: seq<Act>, act: Act, handle: nat, handles: nat, held: Option<nat>)
    requires LogInv(log, handles, held, Some(handle)) && handle < handles && held != Some(handle)
    requires Releases(act, handle) && MayFollow(Last(log), act)
    ensures LogInv(log + [act], handles, held, None)
  {
    EmitKeepsLogLaws(log, act);
    ReleaseTidies(log, act, handle, handles, held);
  }

  /** A held handle and one in hand are the same to the count. */
  lemma {:induction false} LogHand(log: seq<Act>, handle: nat, handles: nat)
    requires handle < handles
    ensures Tidy(log, handles, Some(handle), None) <==> Tidy(log, handles, None, Some(handle))
  {
    if Tidy(log, handles, Some(handle), None) {
      forall h: nat ensures ReleaseCount(log, h) == if h < handles && h != handle then 1 else 0 {
      }
    }
    if Tidy(log, handles, None, Some(handle)) {
      forall h: nat ensures ReleaseCount(log, h) == if h < handles && h != handle then 1 else 0 {
      }
    }
  }

  /** An act that is neither a fetch nor a release leaves the handles as they are. */
  lemma {:induction false} EmitKeepsInv(w: Worker, act: Act, inHand: Option<nat>)
    requires Inv(w, inHand) && MayFollow(Last(w.log), act)
    requires !act.Destroyed? && !act.Completed? && !act.Dropped?
    requires act.Loaded? ==> HeldHandle(w) == Some(act.handle)
    ensures Inv(Emit(w, act), inHand)
  {
    LogEmit(w.log, act, w.handles, HeldHandle(w), inHand);
  }

  lemma {:induction false} FetchKeepsInv(w: Worker, found: bool)
    requires Inv(w, None) && Settled(w.log)
    ensures Inv(Fetch(w, found), if found then Some(w.handles) else None)
  {
    if found {
      LogFetch(w.log, w.handles, HeldHandle(w));
      LogEmit(w.log, Fetched(w.handles), w.handles + 1, HeldHandle(w), Some(w.handles));
    } else {
      EmitKeepsInv(w, FetchedNone, None);
    }
  }

  lemma {:induction false} DestroyKeepsInv(w: Worker, handle: nat)
    requires Inv(w, Some(handle)) && handle < w.handles && HeldHandle(w) != Some(handle) && Settled(w.log)
    ensures Inv(Emit(w, Destroyed(handle)), None)
  {
    LogRelease(w.log, Destroyed(handle), handle, w.handles, HeldHandle(w));
  }

  /** The held search is let go, by completion or by abandonment. */
  lemma {:induction false} ReleaseHeldKeepsInv(w: Worker, act: Act)
    requires Inv(w, None) && w.held.Some? && Settled(w.log)
    requires act == Completed(w.held.value.handle) || act == Dropped(w.held.value.handle)
    ensures Inv(Keep(Emit(w, act), None), None)
  {
    LogHand(w.log, w.held.value.handle, w.handles);
    LogRelease(w.log, act, w.held.value.handle, w.handles, None);
  }

  lemma {:induction false} AcquiredKeepsInv(w: Worker, handle: nat, points: nat)
    requires Inv(w, Some(handle)) && handle < w.handles && w.held.None? && Last(w.log) == Some(Committed(handle, true))
    ensures Inv(Acquired(w, handle, points), None) && Settled(Acquired(w, handle, points).log)
  {
    LogEmit(w.log, Published(handle), w.handles, None, Some(handle));
    var log := w.log + [Published(handle)];
    LogHand(log, handle, w.handles);
    assert log[|w.log|] == Published(handle);
    LogEmit(log, Loaded(handle), w.handles, Some(handle), None);
  }

  lemma {:induction false} CommitKeepsInv(w: Worker, accepted: bool, handle: nat)
    requires Inv(w, Some(handle)) && Last(w.log) == Some(ReadRole(true))
    ensures Inv(Emit(w, Committed(handle, accepted)), Some(handle))
  {
    EmitKeepsInv(w, Committed(handle, accepted), Some(handle));
  }

  lemma {:induction false} OfferFrame(w: Worker, a: Attempt, handle: nat)
    requires Settled(w.log)
    ensures var o := Offer(w, a, handle);
            && (if a.stillWanted && a.valid then Last(o.log) == Some(Committed(handle, a.accepted)) else Settled(o.log))
            && o.held == w.held && o.handles == w.handles && o.retryTs == w.retryTs
  {
  }

  lemma {:induction false} OfferKeepsInv(w: Worker, a: Attempt, handle: nat)
    requires Inv(w, Some(handle)) && Settled(w.log)
    ensures Inv(Offer(w, a, handle), Some(handle))
  {
    EmitKeepsInv(w, ReadRole(a.stillWanted), Some(handle));
    if a.stillWanted && a.valid {
      CommitKeepsInv(Emit(w, ReadRole(a.stillWanted)), a.accepted, handle);
    }
  }

  lemma {:induction false} GiveUpKeepsInv(w: Worker, now: nat, inHand: Option<nat>)
    requires Inv(w, inHand) && Settled(w.log) && w.log != [] && CallsForRtl(w.log[|w.log| - 1])
    ensures Inv(GiveUp(w, now), inHand) && Settled(GiveUp(w, now).log)
  {
    EmitKeepsInv(w, RtlReport, inHand);
    assert Inv(Emit(w, RtlReport), inHand);
  }

  lemma {:induction false} RefusedKeepsInv(o: Worker, a: Attempt, handle: nat, last: bool)
    requires Inv(o, Some(handle)) && Settled(o.log) && handle < o.handles && o.held.None?
    ensures Inv(Refused(o, a, handle, last), None)
  {
    EmitKeepsInv(o, ReadRole(a.wantedAfter), Some(handle));
    var q := Emit(o, ReadRole(a.wantedAfter));
    if a.wantedAfter && last {
      GiveUpKeepsInv(q, a.now, Some(handle));
      DestroyKeepsInv(GiveUp(q, a.now), handle);
    } else {
      DestroyKeepsInv(q, handle);
    }
  }

  lemma {:induction false} StartedKeepsInv(w: Worker, a: Attempt)
    requires Inv(w, None) && Settled(w.log)
    ensures Inv(Started(w, a), if a.found then Some(w.handles) else None)
  {
    FetchKeepsInv(w, a.found);
    EmitKeepsInv(Fetch(w, a.found), ReadRole(a.wanted), if a.found then Some(w.handles) else None);
  }

  lemma {:induction false} StartedFrame(w: Worker, a: Attempt)
    ensures var r := Started(w, a);
            && Last(r.log) == Some(ReadRole(a.wanted))
            && r.handles == w.handles + (if a.found then 1 else 0)
            && r.held == w.held && r.retryTs == w.retryTs
  {
  }

  lemma {:induction false} OfferedTripKeepsInv(r: Worker, a: Attempt, handle: nat, last: bool)
    requires Inv(r, Some(handle)) && Settled(r.log) && handle < r.handles && r.held.None?
    requires a.wanted && a.found
    ensures var o := Offer(r, a, handle);
            Inv(if Succeeds(a) then Acquired(o, handle, a.points) else Refused(o, a, handle, last), None)
  {
    OfferKeepsInv(r, a, handle);
    OfferFrame(r, a, handle);
    if Succeeds(a) {
      AcquiredKeepsInv(Offer(r, a, handle), handle, a.points);
    } else {
      RefusedKeepsInv(Offer(r, a, handle), a, handle, last);
    }
  }

  lemma {:induction false} TripKeepsInv(w: Worker, a: Attempt, last: bool)
    requires Inv(w, None) && Settled(w.log) && w.held.None?
    ensures Inv(Trip(w, a, last), None)
  {
    StartedKeepsInv(w, a);
    StartedFrame(w, a);
    var r := Started(w, a);
    if !a.wanted {
      if a.found {
        DestroyKeepsInv(r, w.handles);
      }
    } else if !a.found {
      GiveUpKeepsInv(r, a.now, None);
    } else {
      OfferedTripKeepsInv(r, a, w.handles, last);
    }
  }

  lemma {:induction false} TripSettles(w: Worker, a: Attempt, last: bool)
    ensures Settled(Trip(w, a, last).log)
    ensures w.held.None? && Again(a) ==> Trip(w, a, last).held.None?
  {
  }

  lemma {:induction false} AttemptsKeepInv(w: Worker, world: Oracle, tries: nat)
    requires tries < MAX_FETCHES && Inv(w, None) && Settled(w.log) && w.held.None?
    ensures Inv(AttemptFrom(w, world, tries), None) && Settled(AttemptFrom(w, world, tries).log)
    decreases MAX_FETCHES - tries
  {
    var a := world(tries);
    var last := tries + 1 == MAX_FETCHES;
    TripKeepsInv(w, a, last);
    TripSettles(w, a, last);
    if Again(a) && !last {
      AttemptsKeepInv(Trip(w, a, last), world, tries + 1);
    }
  }

  lemma {:induction false} TryAcquireKeepsInv(w: Worker, now: nat, world: Oracle)
    requires Inv(w, None) && Settled(w.log) && w.held.None?
    requires w.log != [] && CallsForRtl(w.log[|w.log| - 1])
    ensures Inv(TryAcquire(w, now, world), None) && Settled(TryAcquire(w, now, world).log)
  {
    if w.retryTs <= now {
      if !w.asset {
        GiveUpKeepsInv(w, now, None);
      } else {
        AttemptsKeepInv(w, world, 0);
      }
    }
  }

  lemma {:induction false} MaybeAcquireKeepsInv(w: Worker, active: bool, now: nat, world: Oracle)
    requires Inv(w, None) && Settled(w.log)
    ensures Inv(MaybeAcquire(w, active, now, world), None) && Settled(MaybeAcquire(w, active, now, world).log)
  {
    EmitKeepsInv(w, ReadRole(active), None);
    if active && w.held.None? {
      TryAcquireKeepsInv(Emit(w, ReadRole(active)), now, world);
    }
  }

  lemma {:induction false} ResumeKeepsInv(w: Worker, handle: nat)
    requires Inv(w, None) && Last(w.log) == Some(Tasked) && HeldHandle(w) == Some(handle)
    ensures Inv(Emit(w, Loaded(handle)), None) && Settled(Emit(w, Loaded(handle)).log)
  {
    EmitKeepsInv(w, Loaded(handle), None);
  }

  lemma {:induction false} TaskedKeepsInv(w: Worker)
    requires Inv(w, None) && Settled(w.log)
    ensures var r := Emit(w, Tasked).(retryTs := 0);
            Inv(r, None) && Settled(r.log) && r.log != [] && Last(r.log) == Some(Tasked) && r.held == w.held
  {
    EmitKeepsInv(w, Tasked, None);
  }

  lemma {:induction false} DoSearchKeepsInv(w: Worker, now: nat, world: Oracle)
    requires Inv(w, None) && Settled(w.log)
    ensures Inv(DoSearch(w, now, world), None) && Settled(DoSearch(w, now, world).log)
  {
    TaskedKeepsInv(w);
    var r := Emit(w, Tasked).(retryTs := 0);
    if r.held.Some? {
      ResumeKeepsInv(r, r.held.value.handle);
    } else {
      TryAcquireKeepsInv(r, now, world);
    }
  }

  lemma {:induction false} DoReachedPointKeepsInv(w: Worker, point: nat)
    requires Inv(w, None) && Settled(w.log)
    ensures Inv(DoReachedPoint(w, point), None) && Settled(DoReachedPoint(w, point).log)
  {
    if w.held.Some? {
      if point >= w.held.value.progress.points && !w.held.value.progress.complete {
        ReleaseHeldKeepsInv(w, Completed(w.held.value.handle));
        EmitKeepsInv(Keep(Emit(w, Completed(w.held.value.handle)), None), RtlReport, None);
      } else {
        var r := DoReachedPoint(w, point);
        assert HeldHandle(r) == HeldHandle(w);
      }
    }
  }

  lemma {:induction false} CheckKeepsInv(w: Worker, command: OperatorCommand)
    requires Inv(w, None) && Settled(w.log)
    ensures Inv(CheckOperatorCommand(w, command), None) && Settled(CheckOperatorCommand(w, command).log)
  {
    if command != w.lastCommand {
      var r := w.(lastCommand := command);
      assert Inv(r, None);
      if command.AbandonSearch? {
        if w.held.Some? {
          ReleaseHeldKeepsInv(r, Dropped(w.held.value.handle));
        }
        var d := Drop(r).(retryTs := 0);
        assert Inv(d, None);
        EmitKeepsInv(d, Operator(command), None);
      } else if command.MissionComplete? {
        EmitKeepsInv(r, Operator(command), None);
      }
    }
  }

  lemma {:induction false} SendReportKeepsInv(w: Worker, now: nat, command: OperatorCommand)
    requires Inv(w, None) && Settled(w.log)
    ensures Inv(SendReport(w, now, command), None) && Settled(SendReport(w, now, command).log)
  {
    CheckKeepsInv(w, command);
    EmitKeepsInv(CheckOperatorCommand(w, command), Reported(now), None);
  }

  lemma {:induction false} DoReportPositionKeepsInv(
      w: Worker, interval: nat, now: nat, command: OperatorCommand, active: bool, later: nat, world: Oracle)
    requires Inv(w, None) && Settled(w.log)
    ensures var r := DoReportPosition(w, interval, now, command, active, later, world); Inv(r, None) && Settled(r.log)
  {
    if w.asset && w.lastReport + interval <= now {
      SendReportKeepsInv(w, now, command);
      MaybeAcquireKeepsInv(SendReport(w, now, command), active, later, world);
    } else {
      MaybeAcquireKeepsInv(w, active, later, world);
    }
  }

  lemma {:induction false} StepKeepsInv(w: Worker, e: Event)
    requires Inv(w, None) && Settled(w.log)
    ensures Inv(Step(w, e), None) && Settled(Step(w, e).log)
  {
    match e
    case Connect(found) =>
      assert Step(w, e) == w.(asset := found);
    case ReportPosition(interval, now, command, active, later, world) =>
      DoReportPositionKeepsInv(w, interval, now, command, active, later, world);
    case ReachedPoint(point) => DoReachedPointKeepsInv(w, point);
    case Search(later, world) => DoSearchKeepsInv(w, later, world);
    case RetryPending(active, later, world) => MaybeAcquireKeepsInv(w, active, later, world);
  }

  lemma {:induction false} RunKeepsInv(events: seq<Event>)
    ensures Inv(Run(INITIAL, events), None) && Settled(Run(INITIAL, events).log)
  {
    if events != [] {
      RunKeepsInv(events[..|events| - 1]);
      StepKeepsInv(Run(INITIAL, events[..|events| - 1]), events[|events| - 1]);
    }
  }

  lemma {:induction false} FollowsAt(log: seq<Act>, i: nat)
    requires Lawful(log) && i < |log|
    ensures MayFollow(if i == 0 then None else Some(log[i - 1]), log[i])
  {
    assert MayFollow(Last(log[..i]), log[i]);
  }

  /**
    Whatever tasks run and however the role changes meanwhile, the server is only ever asked to commit a search
    directly after a read that saw the role granted; and RTL is only ever reported directly after such a read, after
    completing the held search, or as the first act of a search task.
   */
  lemma {:induction false} CommitsFollowAGrantedRole(events: seq<Event>, i: nat)
    requires i < |Run(INITIAL, events).log|
    ensures var log := Run(INITIAL, events).log;
            && (log[i].Committed? ==> i > 0 && log[i - 1] == ReadRole(true))
            && (log[i].RtlReport? ==>
                  i > 0 && (log[i - 1] == ReadRole(true) || log[i - 1].Completed? || log[i - 1] == Tasked))
  {
    RunKeepsInv(events);
    FollowsAt(Run(INITIAL, events).log, i);
  }

  /** An act of no report and no operator command. */
  predicate Unnoted(act: Act) {
    !act.Operator? && !act.Reported?
  }

  /** `r` is `w` after some such acts. */
  ghost predicate Adds(w: Worker, r: Worker) {
    && w.log <= r.log && (forall i :: |w.log| <= i < |r.log| ==> Unnoted(r.log[i]))
    && r.lastCommand == w.lastCommand && r.lastReport == w.lastReport && r.asset == w.asset
  }

  lemma {:induction false} AddsThenAdds(w: Worker, m: Worker, r: Worker)
    requires Adds(w, m) && Adds(m, r)
    ensures Adds(w, r)
  {
    forall i | |w.log| <= i < |r.log| ensures Unnoted(r.log[i]) {
      if i < |m.log| {
        assert r.log[i] == m.log[i];
      }
    }
  }

  lemma {:induction false} EmitAdds(w: Worker, act: Act)
    requires Unnoted(act)
    ensures Adds(w, Emit(w, act))
  {
  }

  lemma {:induction false} FetchAdds(w: Worker, found: bool)
    ensures Adds(w, Fetch(w, found))
    ensures var log := Fetch(w, found).log;
            |log| == |w.log| + 1 && (log[|w.log|].Fetched? || log[|w.log|].FetchedNone?)
  {
  }

  lemma {:induction false} GiveUpAdds(w: Worker, now: nat)
    ensures Adds(w, GiveUp(w, now))
  {
  }

  lemma {:induction false} OfferAdds(w: Worker, a: Attempt, handle: nat)
    ensures Adds(w, Offer(w, a, handle))
  {
    var r := Emit(w, ReadRole(a.stillWanted));
    EmitAdds(w, ReadRole(a.stillWanted));
    EmitAdds(r, Committed(handle, a.accepted));
    AddsThenAdds(w, r, Emit(r, Committed(handle, a.accepted)));
  }

  lemma {:induction false} AcquiredAdds(w: Worker, handle: nat, points: nat)
    ensures Adds(w, Acquired(w, handle, points))
  {
    var held := Held(handle, MissionPlan.Progress(points, 0, false));
    var p := Keep(Emit(w, Published(handle)), Some(held));
    EmitAdds(w, Published(handle));
    EmitAdds(p, Loaded(handle));
    AddsThenAdds(w, p, Emit(p, Loaded(handle)));
  }

  lemma {:induction false} RefusedAdds(w: Worker, a: Attempt, handle: nat, last: bool)
    ensures Adds(w, Refused(w, a, handle, last))
  {
    var q := Emit(w, ReadRole(a.wantedAfter));
    EmitAdds(w, ReadRole(a.wantedAfter));
    GiveUpAdds(q, a.now);
    var g := if a.wantedAfter && last then GiveUp(q, a.now) else q;
    AddsThenAdds(w, q, g);
    EmitAdds(g, Destroyed(handle));
    AddsThenAdds(w, g, Emit(g, Destroyed(handle)));
  }

  lemma {:induction false} StartedAdds(w: Worker, a: Attempt)
    ensures Adds(Fetch(w, a.found), Started(w, a))
  {
    EmitAdds(Fetch(w, a.found), ReadRole(a.wanted));
  }

  lemma {:induction false} OfferedAdds(r: Worker, a: Attempt, handle: nat, last: bool)
    ensures var o := Offer(r, a, handle);
            Adds(r, if Succeeds(a) then Acquired(o, handle, a.points) else Refused(o, a, handle, last))
  {
    var o := Offer(r, a, handle);
    OfferAdds(r, a, handle);
    if Succeeds(a) {
      AcquiredAdds(o, handle, a.points);
      AddsThenAdds(r, o, Acquired(o, handle, a.points));
    } else {
      RefusedAdds(o, a, handle, last);
      AddsThenAdds(r, o, Refused(o, a, handle, last));
    }
  }

  lemma {:induction false} TripAdds(w: Worker, a: Attempt, last: bool)
    ensures Adds(Started(w, a), Trip(w, a, last))
  {
    var r := Started(w, a);
    if !a.wanted {
      EmitAdds(r, Destroyed(w.handles));
    } else if !a.found {
      GiveUpAdds(r, a.now);
    } else {
      OfferedAdds(r, a, w.handles, last);
    }
  }

  /** A trip starts by fetching, and everything it does follows. */
  lemma {:induction false} TripAddsToAFetch(w: Worker, a: Attempt, last: bool)
    ensures Adds(Fetch(w, a.found), Trip(w, a, last)) && Adds(w, Trip(w, a, last))
  {
    FetchAdds(w, a.found);
    StartedAdds(w, a);
    TripAdds(w, a, last);
    AddsThenAdds(Fetch(w, a.found), Started(w, a), Trip(w, a, last));
    AddsThenAdds(w, Fetch(w, a.found), Trip(w, a, last));
  }

  lemma {:induction false} AttemptsAdd(w: Worker, world: Oracle, tries: nat, r: Worker)
    requires tries < MAX_FETCHES && r == AttemptFrom(w, world, tries)
    ensures Adds(Fetch(w, world(tries).found), r) && Adds(w, r)
    decreases MAX_FETCHES - tries
  {
    var a, last := world(tries), tries + 1 == MAX_FETCHES;
    var t := Trip(w, a, last);
    TripAddsToAFetch(w, a, last);
    if Again(a) && !last {
      AttemptsAdd(t, world, tries + 1, r);
      AddsThenAdds(Fetch(w, a.found), t, r);
      AddsThenAdds(w, t, r);
    }
  }

  lemma {:induction false} FirstActIsAFetch(w: Worker, world: Oracle, r: Worker)
    requires r == AttemptFrom(w, world, 0)
    ensures |r.log| > |w.log| && r.log[..|w.log|] == w.log
    ensures r.log[|w.log|].Fetched? || r.log[|w.log|].FetchedNone?
  {
    AttemptsAdd(w, world, 0, r);
    FetchAdds(w, world(0).found);
  }

  /**
    The last of these is the exception: a search task reports RTL without looking at the role. It does so exactly
    when it starts with nothing held and the server disconnected.
   */
  lemma {:induction false} RtlWithoutLookingExactlyWhen(w: Worker, now: nat, world: Oracle)
    ensures DoSearch(w, now, world).log == w.log + [Tasked, RtlReport] <==> w.held.None? && !w.asset
  {
    var r := Emit(w, Tasked).(retryTs := 0);
    if w.held.None? && !w.asset {
      assert (w.log + [Tasked]) + [RtlReport] == w.log + [Tasked, RtlReport];
    } else if w.held.Some? {
      assert DoSearch(w, now, world).log[|w.log| + 1].Loaded?;
    } else {
      FirstActIsAFetch(r, world, DoSearch(w, now, world));
    }
  }

  /** And it hands over a search without fetching any exactly when one is held, and then that one. */
  lemma {:induction false} ResumesExactlyWhen(w: Worker, now: nat, world: Oracle, handle: nat)
    ensures DoSearch(w, now, world).log == w.log + [Tasked, Loaded(handle)]
            <==> w.held.Some? && w.held.value.handle == handle
  {
    var r := Emit(w, Tasked).(retryTs := 0);
    if w.held.Some? {
      assert (w.log + [Tasked]) + [Loaded(w.held.value.handle)] == w.log + [Tasked, Loaded(w.held.value.handle)];
      assert (w.log + [Tasked, Loaded(handle)])[|w.log| + 1] == Loaded(handle);
    } else if !w.asset {
      assert DoSearch(w, now, world).log[|w.log| + 1] == RtlReport;
    } else {
      FirstActIsAFetch(r, world, DoSearch(w, now, world));
    }
  }

  /** And the role may have been revoked: a run in which it is reported right after a read that saw that. */
  lemma {:induction false} RevokedRoleStillReportsRtl(world: Oracle)
    ensures Run(INITIAL, [RetryPending(false, 0, world), Search(0, world)]).log == [ReadRole(false), Tasked, RtlReport]
  {
    var first, both := [RetryPending(false, 0, world)], [RetryPending(false, 0, world), Search(0, world)];
    assert first[..0] == [] && both[..1] == first;
    assert Run(INITIAL, first) == Step(INITIAL, first[0]);
    assert Run(INITIAL, both) == Step(Step(INITIAL, both[0]), both[1]);
  }

  /**
    Publication happens exactly when the commit succeeds, directly after it; and the search published, and no other but
    at the start of a search task, is handed over for flying directly after that.
   */
  lemma {:induction false} PublishedExactlyWhenAccepted(events: seq<Event>, i: nat, handle: nat)
    requires i < |Run(INITIAL, events).log|
    ensures var log := Run(INITIAL, events).log;
            && (log[i] == Committed(handle, true) ==> i + 1 < |log| && log[i + 1] == Published(handle))
            && (log[i] == Published(handle) ==> i > 0 && log[i - 1] == Committed(handle, true))
            && (log[i] == Published(handle) ==> i + 1 < |log| && log[i + 1] == Loaded(handle))
            && (log[i] == Loaded(handle) ==> i > 0 && (log[i - 1] == Published(handle) || log[i - 1] == Tasked))
  {
    RunKeepsInv(events);
    var log := Run(INITIAL, events).log;
    FollowsAt(log, i);
    if i + 1 < |log| {
      FollowsAt(log, i + 1);
    }
  }

  /**
    Handles are conserved: between tasks every search ever fetched has been let go exactly once (destroyed
    uncommitted, completed, or dropped), except the one held, which has not been; and nothing else ever is.
   */
  lemma {:induction false} HandlesAreConserved(events: seq<Event>, handle: nat)
    ensures var w := Run(INITIAL, events);
            && ReleaseCount(w.log, handle) == (if handle < w.handles && HeldHandle(w) != Some(handle) then 1 else 0)
            && (HeldHandle(w) == Some(handle) ==> handle < w.handles && Published(handle) in w.log)
            && w.cachedPoints == (if w.held.Some? then w.held.value.progress.points else 0)
  {
    RunKeepsInv(events);
  }

  /** Every search handed over for flying, fresh or resumed, was accepted by the server and not yet let go. */
  lemma {:induction false} LoadedSearchesAreLive(events: seq<Event>, i: nat)
    requires i < |Run(INITIAL, events).log| && Run(INITIAL, events).log[i].Loaded?
    ensures var log := Run(INITIAL, events).log;
            var handle := log[i].handle;
            && (exists j :: 0 <= j < i && log[j] == Committed(handle, true))
            && ReleaseCount(log[..i], handle) == 0
  {
    RunKeepsInv(events);
    var log := Run(INITIAL, events).log;
    var handle := log[i].handle;
    var k :| 0 <= k < i && log[..i][k] == Published(handle);
    PublishedExactlyWhenAccepted(events, k, handle);
  }

  // How one call ends.

  /** A trip that ends the call with the RTL fallback. */
  predicate FallsBack(a: Attempt, last: bool) {
    a.wanted && (!a.found || (!Succeeds(a) && a.wantedAfter && last))
  }

  ghost predicate EndsLike(w: Worker, r: Worker, a: Attempt, last: bool) {
    && r.fetches == w.fetches + 1
    && r.rtlReports == w.rtlReports + (if FallsBack(a, last) then 1 else 0)
    && r.held == (if Succeeds(a) then Some(Held(w.handles, MissionPlan.Progress(a.points, 0, false))) else w.held)
    && r.handles == w.handles + (if a.found then 1 else 0)
    && r.retryTs == (if Succeeds(a) then 0 else if FallsBack(a, last) then a.now + RETRY_INTERVAL_MS else w.retryTs)
  }

  lemma {:induction false} TripEnds(w: Worker, a: Attempt, last: bool)
    ensures EndsLike(w, Trip(w, a, last), a, last)
  {
  }

  /** The trip at which a call ends: the first that does not call for another, or the third. */
  function FinalTrip(world: Oracle, tries: nat): (k: nat)
    requires tries < MAX_FETCHES
    ensures tries <= k < MAX_FETCHES
    ensures forall j :: tries <= j < k ==> Again(world(j))
    ensures k + 1 < MAX_FETCHES ==> !Again(world(k))
    decreases MAX_FETCHES - tries
  {
    if Again(world(tries)) && tries + 1 < MAX_FETCHES then FinalTrip(world, tries + 1) else tries
  }

  ghost predicate CallEnds(w: Worker, r: Worker, world: Oracle, tries: nat, k: nat)
    requires tries <= k
  {
    var fallsBack := FallsBack(world(k), k + 1 == MAX_FETCHES);
    && r.fetches == w.fetches + k + 1 - tries
    && r.rtlReports == w.rtlReports + (if fallsBack then 1 else 0)
    && (r.held.Some? <==> Succeeds(world(k)))
    && r.retryTs == if Succeeds(world(k)) then 0
                    else if fallsBack then world(k).now + RETRY_INTERVAL_MS
                    else w.retryTs
  }

  lemma {:induction false} OneTripEndsCall(w: Worker, r: Worker, world: Oracle, tries: nat)
    requires tries < MAX_FETCHES && w.held.None?
    requires EndsLike(w, r, world(tries), tries + 1 == MAX_FETCHES)
    ensures CallEnds(w, r, world, tries, tries)
  {
    assert r.held.Some? <==> Succeeds(world(tries));
  }

  lemma {:induction false} TripThenCall(w: Worker, t: Worker, r: Worker, world: Oracle, tries: nat, k: nat)
    requires tries + 1 < MAX_FETCHES && w.held.None? && tries + 1 <= k
    requires EndsLike(w, t, world(tries), false) && Again(world(tries))
    requires CallEnds(t, r, world, tries + 1, k)
    ensures CallEnds(w, r, world, tries, k)
  {
    assert !FallsBack(world(tries), false);
    assert t.retryTs == w.retryTs && t.rtlReports == w.rtlReports;
  }

  lemma {:induction false} Unroll(w: Worker, world: Oracle, tries: nat) returns (t: Worker)
    requires tries < MAX_FETCHES
    ensures EndsLike(w, t, world(tries), tries + 1 == MAX_FETCHES)
    ensures AttemptFrom(w, world, tries)
         == if Again(world(tries)) && tries + 1 < MAX_FETCHES then AttemptFrom(t, world, tries + 1) else t
  {
    t := Trip(w, world(tries), tries + 1 == MAX_FETCHES);
    TripEnds(w, world(tries), tries + 1 == MAX_FETCHES);
  }

  lemma {:induction false} AttemptsEnd(w: Worker, world: Oracle, tries: nat, r: Worker)
    requires tries < MAX_FETCHES && w.held.None? && r == AttemptFrom(w, world, tries)
    ensures CallEnds(w, r, world, tries, FinalTrip(world, tries))
    decreases MAX_FETCHES - tries
  {
    var t := Unroll(w, world, tries);
    if Again(world(tries)) && tries + 1 < MAX_FETCHES {
      AttemptsEnd(t, world, tries + 1, r);
      TripThenCall(w, t, r, world, tries, FinalTrip(world, tries + 1));
    } else {
      OneTripEndsCall(w, t, world, tries);
    }
  }

  /**
    How a call ends, for every sequence of answers and role reads. While a backoff runs it does nothing; with no server
    it reports RTL once and backs off. Otherwise it makes at most three fetches, one more only after a search that was
    not taken on while the role stayed granted, and ends in exactly one of three ways: it holds a search, with the retry
    timer cleared; or it has reported RTL once and backed off; or the role was revoked, and it has done neither and left
    the timer alone.
   */
  lemma {:induction false} AcquireEndsOneWay(w: Worker, now: nat, world: Oracle)
    requires w.held.None?
    ensures var r := TryAcquire(w, now, world);
            && (now < w.retryTs ==> r == w)
            && (w.retryTs <= now && !w.asset ==>
                  && r.held.None? && r.fetches == w.fetches
                  && r.rtlReports == w.rtlReports + 1 && r.retryTs == now + RETRY_INTERVAL_MS)
    ensures w.retryTs <= now && w.asset ==>
              var r, k := TryAcquire(w, now, world), FinalTrip(world, 0);
              var a := world(k);
              var taken := a.found && a.wanted && a.stillWanted && a.valid && a.accepted;
              var revoked := !a.wanted || (a.found && !taken && !a.wantedAfter);
              && 1 <= r.fetches - w.fetches == k + 1 <= MAX_FETCHES
              && (k + 1 < MAX_FETCHES ==> taken || revoked || !a.found)
              && (r.held.Some? <==> taken)
              && (taken ==> r.retryTs == 0 && r.rtlReports == w.rtlReports)
              && (revoked ==> r.retryTs == w.retryTs && r.rtlReports == w.rtlReports)
              && (!taken && !revoked ==>
                    r.retryTs == a.now + RETRY_INTERVAL_MS && r.rtlReports == w.rtlReports + 1)
  {
    if w.retryTs <= now && w.asset {
      AttemptsEnd(w, world, 0, TryAcquire(w, now, world));
    }
  }

  lemma {:induction false} FinalTripTakes(world: Oracle, last: nat)
    requires last == FinalTrip(world, 0)
    ensures Succeeds(world(last)) <==>
            exists k: nat ::
              && k < MAX_FETCHES
              && world(k).found && world(k).wanted && world(k).stillWanted && world(k).valid && world(k).accepted
              && forall j: nat :: j < k ==>
                   && world(j).found && world(j).wanted && world(j).wantedAfter
                   && !(world(j).stillWanted && world(j).valid && world(j).accepted)
  {
    assert forall j: nat :: j < last ==> Again(world(j));
    if k: nat :| k < MAX_FETCHES && Succeeds(world(k)) && forall j: nat :: j < k ==> Again(world(j)) {
      assert !Again(world(k));
      assert k == last;
    }
  }

  /** A search is acquired exactly when some trip succeeds and every one before it called for another. */
  lemma {:induction false} AcquiresExactlyWhen(w: Worker, now: nat, world: Oracle)
    requires w.held.None?
    ensures TryAcquire(w, now, world).held.Some? <==>
            && w.asset && w.retryTs <= now
            && exists k: nat ::
                 && k < MAX_FETCHES
                 && world(k).found && world(k).wanted && world(k).stillWanted && world(k).valid && world(k).accepted
                 && forall j: nat :: j < k ==>
                      && world(j).found && world(j).wanted && world(j).wantedAfter
                      && !(world(j).stillWanted && world(j).valid && world(j).accepted)
  {
    if w.asset && w.retryTs <= now {
      AttemptsEnd(w, world, 0, TryAcquire(w, now, world));
    }
    FinalTripTakes(world, FinalTrip(world, 0));
  }

  // Backing off.

  /** A task that leaves a backoff standing: one that comes before `until`, and is no new search nor an abandon. */
  predicate Respects(e: Event, until: nat) {
    match e
    case Connect(_) => true
    case ReportPosition(_, _, command, _, later, _) => !command.AbandonSearch? && later < until
    case ReachedPoint(_) => true
    case Search(_, _) => false
    case RetryPending(_, later, _) => later < until
  }

  /** Still without a search, backed off to the same time, and nothing fetched or reported in between. */
  ghost predicate SameRound(w: Worker, r: Worker) {
    && r.held.None? && r.retryTs == w.retryTs
    && r.fetches == w.fetches && r.rtlReports == w.rtlReports
  }

  lemma {:induction false} ReportRespects(w: Worker, now: nat, command: OperatorCommand)
    requires w.held.None? && !command.AbandonSearch?
    ensures SameRound(w, SendReport(w, now, command))
  {
  }

  lemma {:induction false} RetryRespects(w: Worker, active: bool, later: nat, world: Oracle)
    requires w.held.None? && later < w.retryTs
    ensures SameRound(w, MaybeAcquire(w, active, later, world))
  {
  }

  lemma {:induction false} StepRespects(w: Worker, e: Event)
    requires w.held.None? && Respects(e, w.retryTs)
    ensures SameRound(w, Step(w, e))
  {
    match e
    case ReportPosition(interval, now, command, active, later, world) =>
      ReportRespects(w, now, command);
      var r := if w.asset && w.lastReport + interval <= now then SendReport(w, now, command) else w;
      RetryRespects(r, active, later, world);
    case RetryPending(active, later, world) =>
      RetryRespects(w, active, later, world);
    case _ =>
  }

  /**
    A failed acquire is not repeated early: until its backoff runs out, no number of position reports, retries,
    reconnects or reached points fetches again or reports RTL again. Only a new search task or an abandon command
    can cut it short.
   */
  lemma {:induction false} BackoffHolds(w: Worker, events: seq<Event>)
    requires w.held.None?
    requires forall i :: 0 <= i < |events| ==> Respects(events[i], w.retryTs)
    ensures SameRound(w, Run(w, events))
  {
    if events != [] {
      var before := events[..|events| - 1];
      assert forall i :: 0 <= i < |before| ==> before[i] == events[i];
      BackoffHolds(w, before);
      StepRespects(Run(w, before), events[|events| - 1]);
    }
  }

  /** A retry fetches exactly when the role is granted, nothing is held, the server is there and no backoff runs. */
  lemma {:induction false} RetryFetchesExactlyWhen(w: Worker, active: bool, now: nat, world: Oracle)
    ensures MaybeAcquire(w, active, now, world).fetches > w.fetches <==>
            active && w.held.None? && w.asset && w.retryTs <= now
  {
    if active && w.held.None? && w.asset && w.retryTs <= now {
      var r := Emit(w, ReadRole(active));
      AttemptsEnd(r, world, 0, TryAcquire(r, now, world));
    }
  }

  /** A search task fetches exactly when nothing is held and the server is there: no backoff holds it up. */
  lemma {:induction false} SearchFetchesExactlyWhen(w: Worker, now: nat, world: Oracle)
    ensures DoSearch(w, now, world).fetches > w.fetches <==> w.held.None? && w.asset
  {
    if w.held.None? && w.asset {
      var r := Emit(w, Tasked).(retryTs := 0);
      AttemptsEnd(r, world, 0, TryAcquire(r, now, world));
    }
  }

  // Reports and operator commands.

  function Reports(log: seq<Act>): seq<nat> {
    if log == [] then []
    else
      var act := log[|log| - 1];
      Reports(log[..|log| - 1]) + if act.Reported? then [act.now] else []
  }

  function Acted(log: seq<Act>): seq<OperatorCommand> {
    if log == [] then []
    else
      var act := log[|log| - 1];
      Acted(log[..|log| - 1]) + if act.Operator? then [act.command] else []
  }

  /** A report that is due, and the operator command the asset shows just before it. */
  datatype Reading = Reading(now: nat, command: OperatorCommand)

  /** The reports due over a run. */
  function Readings(events: seq<Event>): seq<Reading> {
    if events == [] then []
    else
      var before, e := events[..|events| - 1], events[|events| - 1];
      var w := Run(INITIAL, before);
      Readings(before)
      + if e.ReportPosition? && w.asset && w.lastReport + e.interval <= e.now then [Reading(e.now, e.command)] else []
  }

  function Times(readings: seq<Reading>): seq<nat> {
    if readings == [] then [] else Times(readings[..|readings| - 1]) + [readings[|readings| - 1].now]
  }

  /** The command shown by the last reading. */
  function LastShown(readings: seq<Reading>): OperatorCommand {
    if readings == [] then UNKNOWN_COMMAND else readings[|readings| - 1].command
  }

  /** The commands that differ from the one shown before, less those the FMU does not act on. */
  function Edges(readings: seq<Reading>): seq<OperatorCommand> {
    if readings == [] then []
    else
      var before, command := readings[..|readings| - 1], readings[|readings| - 1].command;
      Edges(before) + if command != LastShown(before) && !command.Ignored? then [command] else []
  }

  ghost predicate Notes(w: Worker, readings: seq<Reading>) {
    && Acted(w.log) == Edges(readings) && Reports(w.log) == Times(readings)
    && w.lastCommand == LastShown(readings)
    && w.lastReport == if readings == [] then 0 else readings[|readings| - 1].now
  }

  lemma {:induction false} EmitNotes(log: seq<Act>, act: Act)
    ensures Reports(log + [act]) == Reports(log) + if act.Reported? then [act.now] else []
    ensures Acted(log + [act]) == Acted(log) + if act.Operator? then [act.command] else []
  {
    assert (log + [act])[..|log|] == log;
  }

  lemma {:induction false} UnnotedSuffix(log: seq<Act>, longer: seq<Act>)
    requires log <= longer && forall i :: |log| <= i < |longer| ==> Unnoted(longer[i])
    ensures Reports(longer) == Reports(log) && Acted(longer) == Acted(log)
  {
    if |log| < |longer| {
      assert Unnoted(longer[|longer| - 1]);
      UnnotedSuffix(log, longer[..|longer| - 1]);
    } else {
      assert log == longer;
    }
  }

  lemma {:induction false} AddsKeepsNotes(w: Worker, r: Worker, readings: seq<Reading>)
    requires Adds(w, r) && Notes(w, readings)
    ensures Notes(r, readings)
  {
    UnnotedSuffix(w.log, r.log);
  }

  lemma {:induction false} TryAcquireAdds(w: Worker, now: nat, world: Oracle)
    ensures Adds(w, TryAcquire(w, now, world))
  {
    if w.retryTs <= now {
      GiveUpAdds(w, now);
      AttemptsAdd(w, world, 0, AttemptFrom(w, world, 0));
    }
  }

  lemma {:induction false} MaybeAcquireAdds(w: Worker, active: bool, now: nat, world: Oracle)
    ensures Adds(w, MaybeAcquire(w, active, now, world))
  {
    var r := Emit(w, ReadRole(active));
    EmitAdds(w, ReadRole(active));
    TryAcquireAdds(r, now, world);
    AddsThenAdds(w, r, MaybeAcquire(w, active, now, world));
  }

  lemma {:induction false} DoSearchAdds(w: Worker, now: nat, world: Oracle)
    ensures Adds(w, DoSearch(w, now, world))
  {
    var r := Emit(w, Tasked).(retryTs := 0);
    EmitAdds(w, Tasked);
    assert Adds(w, r);
    if r.held.Some? {
      EmitAdds(r, Loaded(r.held.value.handle));
    } else {
      TryAcquireAdds(r, now, world);
    }
    AddsThenAdds(w, r, DoSearch(w, now, world));
  }

  lemma {:induction false} DoReachedPointAdds(w: Worker, point: nat)
    ensures Adds(w, DoReachedPoint(w, point))
  {
    if w.held.Some? {
      var k := Keep(Emit(w, Completed(w.held.value.handle)), None);
      EmitAdds(w, Completed(w.held.value.handle));
      EmitAdds(k, RtlReport);
      AddsThenAdds(w, k, Emit(k, RtlReport));
    }
  }

  lemma {:induction false} DropNotes(w: Worker)
    ensures var d := Drop(w);
            && Reports(d.log) == Reports(w.log) && Acted(d.log) == Acted(w.log)
            && d.lastCommand == w.lastCommand && d.lastReport == w.lastReport
  {
    if w.held.Some? {
      EmitNotes(w.log, Dropped(w.held.value.handle));
    }
  }

  lemma {:induction false} AbandonNotes(w: Worker)
    requires w.lastCommand != AbandonSearch
    ensures var c := CheckOperatorCommand(w, AbandonSearch);
            && Reports(c.log) == Reports(w.log) && Acted(c.log) == Acted(w.log) + [AbandonSearch]
            && c.lastCommand == AbandonSearch && c.lastReport == w.lastReport
  {
    var r := w.(lastCommand := AbandonSearch);
    DropNotes(r);
    EmitNotes(Drop(r).log, Operator(AbandonSearch));
  }

  lemma {:induction false} CheckNotes(w: Worker, command: OperatorCommand)
    ensures var c := CheckOperatorCommand(w, command);
            && Reports(c.log) == Reports(w.log) && c.lastCommand == command && c.lastReport == w.lastReport
            && Acted(c.log) == Acted(w.log) + if command != w.lastCommand && !command.Ignored? then [command] else []
  {
    if command != w.lastCommand {
      if command.AbandonSearch? {
        AbandonNotes(w);
      } else {
        EmitNotes(w.log, Operator(command));
      }
    }
  }

  lemma {:induction false} ReadingExtends(readings: seq<Reading>, reading: Reading)
    ensures var longer := readings + [reading];
            && Times(longer) == Times(readings) + [reading.now]
            && LastShown(longer) == reading.command
            && Edges(longer) == Edges(readings)
               + if reading.command != LastShown(readings) && !reading.command.Ignored? then [reading.command] else []
  {
    assert (readings + [reading])[..|readings|] == readings;
  }

  lemma {:induction false} SendReportNotes(w: Worker, now: nat, command: OperatorCommand, readings: seq<Reading>)
    requires Notes(w, readings)
    ensures Notes(SendReport(w, now, command), readings + [Reading(now, command)])
  {
    CheckNotes(w, command);
    EmitNotes(CheckOperatorCommand(w, command).log, Reported(now));
    ReadingExtends(readings, Reading(now, command));
  }

  lemma {:induction false} ReportNotes(w: Worker, e: Event, readings: seq<Reading>)
    requires e.ReportPosition? && Notes(w, readings)
    ensures Notes(Step(w, e), readings + if w.asset && w.lastReport + e.interval <= e.now
                                         then [Reading(e.now, e.command)] else [])
  {
    if w.asset && w.lastReport + e.interval <= e.now {
      SendReportNotes(w, e.now, e.command, readings);
      MaybeAcquireAdds(SendReport(w, e.now, e.command), e.active, e.later, e.world);
      AddsKeepsNotes(SendReport(w, e.now, e.command), Step(w, e), readings + [Reading(e.now, e.command)]);
    } else {
      assert readings + [] == readings;
      MaybeAcquireAdds(w, e.active, e.later, e.world);
      AddsKeepsNotes(w, Step(w, e), readings);
    }
  }

  lemma {:induction false} OtherKeepsNotes(w: Worker, e: Event, readings: seq<Reading>)
    requires !e.ReportPosition? && Notes(w, readings)
    ensures Notes(Step(w, e), readings)
  {
    match e
    case Connect(_) =>
    case ReachedPoint(point) =>
      DoReachedPointAdds(w, point);
      AddsKeepsNotes(w, Step(w, e), readings);
    case Search(later, world) =>
      DoSearchAdds(w, later, world);
      AddsKeepsNotes(w, Step(w, e), readings);
    case RetryPending(active, later, world) =>
      MaybeAcquireAdds(w, active, later, world);
      AddsKeepsNotes(w, Step(w, e), readings);
  }

  lemma {:induction false} RunNotes(events: seq<Event>)
    ensures Notes(Run(INITIAL, events), Readings(events))
  {
    if events != [] {
      var before, e := events[..|events| - 1], events[|events| - 1];
      RunNotes(before);
      if e.ReportPosition? {
        ReportNotes(Run(INITIAL, before), e, Readings(before));
      } else {
        OtherKeepsNotes(Run(INITIAL, before), e, Readings(before));
        assert Readings(before) + [] == Readings(before);
      }
    }
  }

  /**
    Over every run the operator's abandon and mission-complete commands are acted on once each time the asset comes
    to show them, however long it goes on showing them.
   */
  lemma {:induction false} OperatorIsHeardOnEdges(events: seq<Event>)
    ensures Acted(Run(INITIAL, events).log) == Edges(Readings(events))
  {
    RunNotes(events);
  }

  lemma {:induction false} ReadingsAreSpaced(events: seq<Event>, interval: nat, i: nat)
    requires forall j :: 0 <= j < |events| && events[j].ReportPosition? ==> events[j].interval == interval
    requires i + 1 < |Readings(events)|
    ensures Readings(events)[i].now + interval <= Readings(events)[i + 1].now
  {
    var before := events[..|events| - 1];
    if i + 1 < |Readings(before)| {
      ReadingsAreSpaced(before, interval, i);
    } else {
      RunNotes(before);
    }
  }

  lemma {:induction false} TimesSize(readings: seq<Reading>)
    ensures |Times(readings)| == |readings|
  {
    if readings != [] {
      TimesSize(readings[..|readings| - 1]);
    }
  }

  lemma {:induction false} TimesAt(readings: seq<Reading>, i: nat)
    requires i < |readings|
    ensures |Times(readings)| == |readings| && Times(readings)[i] == readings[i].now
  {
    TimesSize(readings[..|readings| - 1]);
    if i < |readings| - 1 {
      TimesAt(readings[..|readings| - 1], i);
    }
  }

  lemma {:induction false} TimesAreSpaced(readings: seq<Reading>, interval: nat, i: nat)
    requires i + 1 < |readings| ==> readings[i].now + interval <= readings[i + 1].now
    ensures var reports := Times(readings); i + 1 < |reports| ==> reports[i] + interval <= reports[i + 1]
  {
    TimesSize(readings);
    if i + 1 < |readings| {
      TimesAt(readings, i);
      TimesAt(readings, i + 1);
    }
  }

  lemma {:induction false} ReportsAreReadings(events: seq<Event>)
    ensures Reports(Run(INITIAL, events).log) == Times(Readings(events))
  {
    RunNotes(events);
  }

  /** Positions are reported exactly when one is due, and never more often than the configured interval. */
  lemma {:induction false} ReportsAreSpaced(events: seq<Event>, interval: nat, i: nat)
    requires forall j :: 0 <= j < |events| && events[j].ReportPosition? ==> events[j].interval == interval
    ensures var reports := Reports(Run(INITIAL, events).log);
            && reports == Times(Readings(events))
            && (i + 1 < |reports| ==> reports[i] + interval <= reports[i + 1])
  {
    ReportsAreReadings(events);
    if i + 1 < |Readings(events)| {
      ReadingsAreSpaced(events, interval, i);
    }
    TimesAreSpaced(Readings(events), interval, i);
  }

  // What becomes of the held search.

  /** With a search held, a retry only looks at the role. */
  lemma {:induction false} HeldStays(w: Worker, active: bool, now: nat, world: Oracle)
    requires w.held.Some?
    ensures MaybeAcquire(w, active, now, world) == Emit(w, ReadRole(active))
  {
  }

  predicate Unfinished(w: Worker) {
    w.held.Some? ==> !w.held.value.progress.complete
  }

  lemma {:induction false} TripStartsUnfinished(w: Worker, world: Oracle, tries: nat, r: Worker)
    requires tries < MAX_FETCHES && w.held.None? && r == AttemptFrom(w, world, tries)
    ensures Unfinished(r)
    decreases MAX_FETCHES - tries
  {
    var t := Unroll(w, world, tries);
    if Again(world(tries)) && tries + 1 < MAX_FETCHES {
      TripStartsUnfinished(t, world, tries + 1, r);
    }
  }

  lemma {:induction false} AcquireLeavesUnfinished(w: Worker, now: nat, world: Oracle)
    requires w.held.None?
    ensures Unfinished(TryAcquire(w, now, world))
  {
    if w.retryTs <= now && w.asset {
      TripStartsUnfinished(w, world, 0, AttemptFrom(w, world, 0));
    }
  }

  lemma {:induction false} MaybeLeavesUnfinished(w: Worker, active: bool, now: nat, world: Oracle)
    requires Unfinished(w)
    ensures Unfinished(MaybeAcquire(w, active, now, world))
  {
    if w.held.None? {
      AcquireLeavesUnfinished(Emit(w, ReadRole(active)), now, world);
    }
  }

  lemma {:induction false} StepLeavesUnfinished(w: Worker, e: Event)
    requires Unfinished(w)
    ensures Unfinished(Step(w, e))
  {
    match e
    case ReportPosition(interval, now, command, active, later, world) =>
      MaybeLeavesUnfinished(w, active, later, world);
      MaybeLeavesUnfinished(SendReport(w, now, command), active, later, world);
    case Search(later, world) =>
      if w.held.None? {
        AcquireLeavesUnfinished(Emit(w, Tasked).(retryTs := 0), later, world);
      }
    case RetryPending(active, later, world) => MaybeLeavesUnfinished(w, active, later, world);
    case _ =>
  }

  lemma {:induction false} HeldIsUnfinished(events: seq<Event>)
    ensures Unfinished(Run(INITIAL, events))
  {
    if events != [] {
      HeldIsUnfinished(events[..|events| - 1]);
      StepLeavesUnfinished(Run(INITIAL, events[..|events| - 1]), events[|events| - 1]);
    }
  }

  /**
    Over every run a reached point past the last one completes the held search, lets it go, and reports RTL; any other
    only moves the point to resume from.
   */
  lemma {:induction false} LastPointCompletes(events: seq<Event>, point: nat)
    ensures var w, w' := Run(INITIAL, events), Step(Run(INITIAL, events), ReachedPoint(point));
            && (w.held.None? ==> w' == w)
            && (w.held.Some? ==>
                  var h := w.held.value;
                  if h.progress.points <= point
                  then w'.held.None? && w'.cachedPoints == 0 && w'.log == w.log + [Completed(h.handle), RtlReport]
                  else w'.held == Some(h.(progress := h.progress.(current := point))) && w'.log == w.log)
  {
    HeldIsUnfinished(events);
    var w := Run(INITIAL, events);
    if w.held.Some? {
      var done, rtl := Completed(w.held.value.handle), RtlReport;
      assert (w.log + [done]) + [rtl] == w.log + [done, rtl];
    }
  }

  lemma {:induction false} AbandonDrops(w: Worker, now: nat)
    requires w.lastCommand != AbandonSearch
    ensures var r := SendReport(w, now, AbandonSearch);
            && r.held.None? && r.retryTs == 0 && r.fetches == w.fetches && r.asset == w.asset
            && (w.held.Some? ==> |w.log| < |r.log| && r.log[|w.log|] == Dropped(w.held.value.handle))
  {
  }

  lemma {:induction false} OtherCommandKeeps(w: Worker, now: nat, command: OperatorCommand)
    requires command != AbandonSearch || w.lastCommand == AbandonSearch
    ensures SendReport(w, now, command).held == w.held
  {
  }

  /**
    Over every run a report that comes to show an abandon lets the held search go, and fetches another at once if the
    role is granted, whatever backoff ran; and no other report lets a held search go.
   */
  lemma {:induction false} AbandonLetsGo(events: seq<Event>, e: Event)
    requires e.ReportPosition?
    ensures var w, w' := Run(INITIAL, events), Step(Run(INITIAL, events), e);
            var due := w.asset && w.lastReport + e.interval <= e.now;
            if due && e.command == AbandonSearch && LastShown(Readings(events)) != AbandonSearch then
              && (w.held.Some? ==> |w.log| < |w'.log| && w'.log[|w.log|] == Dropped(w.held.value.handle))
              && (w'.fetches > w.fetches <==> e.active)
            else w.held.Some? ==> w'.held == w.held
  {
    RunNotes(events);
    var w := Run(INITIAL, events);
    if w.asset && w.lastReport + e.interval <= e.now {
      var r := SendReport(w, e.now, e.command);
      if e.command == AbandonSearch && w.lastCommand != AbandonSearch {
        AbandonDrops(w, e.now);
        RetryFetchesExactlyWhen(r, e.active, e.later, e.world);
        MaybeAcquireAdds(r, e.active, e.later, e.world);
      } else {
        OtherCommandKeeps(w, e.now, e.command);
        if w.held.Some? {
          HeldStays(r, e.active, e.later, e.world);
        }
      }
    } else if w.held.Some? {
      HeldStays(w, e.active, e.later, e.world);
    }
  }

  /** Whether the last connect found the asset. */
  predicate LastConnected(events: seq<Event>) {
    if events == [] then false
    else
      var last := events[|events| - 1];
      if last.Connect? then last.found else LastConnected(events[..|events| - 1])
  }

  lemma {:induction false} StepKeepsServer(w: Worker, e: Event)
    requires !e.Connect?
    ensures Step(w, e).asset == w.asset
  {
    match e
    case ReportPosition(interval, now, command, active, later, world) =>
      MaybeAcquireAdds(w, active, later, world);
      MaybeAcquireAdds(SendReport(w, now, command), active, later, world);
    case Search(later, world) => DoSearchAdds(w, later, world);
    case RetryPending(active, later, world) => MaybeAcquireAdds(w, active, later, world);
    case ReachedPoint(point) => DoReachedPointAdds(w, point);
  }

  /** Over every run the server is there exactly when the last connect found the asset. */
  lemma {:induction false} ServerIsAsLastConnected(events: seq<Event>)
    ensures Run(INITIAL, events).asset <==> LastConnected(events)
  {
    if events != [] {
      var before, e := events[..|events| - 1], events[|events| - 1];
      ServerIsAsLastConnected(before);
      if !e.Connect? {
        StepKeepsServer(Run(INITIAL, before), e);
      }
    }
  }

  /** The search worker's fields, updated in place by its tasks. */
  class SearchWorker {
    var asset: bool
    var retryTs: nat
    var held: Option<Held>
    var cachedPoints: nat
    var lastCommand: OperatorCommand
    var lastReport: nat
    var handles: nat
    var log: seq<Act>
    ghost var fetches: nat
    ghost var rtlReports: nat

    ghost function View(): Worker
      reads this
    {
      Worker(asset, retryTs, held, cachedPoints, lastCommand, lastReport, handles, log, fetches, rtlReports)
    }

    constructor ()
      ensures View() == INITIAL
    {
      asset, retryTs, held, cachedPoints := false, 0, None, 0;
      lastCommand, lastReport, handles, log, fetches, rtlReports := UNKNOWN_COMMAND, 0, 0, [], 0, 0;
    }

    method Note(act: Act)
      modifies this`log, this`fetches, this`rtlReports
      ensures View() == Emit(old(View()), act)
    {
      log := log + [act];
      fetches := fetches + if act.Fetched? || act.FetchedNone? then 1 else 0;
      rtlReports := rtlReports + if act.RtlReport? then 1 else 0;
    }

    method FetchSearch(found: bool)
      modifies this`log, this`handles, this`fetches, this`rtlReports
      ensures View() == Fetch(old(View()), found)
    {
      if found {
        Note(Fetched(handles));
        handles := handles + 1;
      } else {
        Note(FetchedNone);
      }
    }

    method PublishSearch(acquired: Option<Held>)
      modifies this`held, this`cachedPoints
      ensures View() == Keep(old(View()), acquired)
    {
      held := acquired;
      cachedPoints := if acquired.Some? then acquired.value.progress.points else 0;
    }

    method FallBack(now: nat)
      modifies this`log, this`retryTs, this`fetches, this`rtlReports
      ensures View() == GiveUp(old(View()), now)
    {
      Note(RtlReport);
      retryTs := now + RETRY_INTERVAL_MS;
    }

    /** From the re-check of the role to the end of the trip, for a search that was found while wanted. */
    method OfferSearch(a: Attempt, handle: nat, last: bool) returns (again: bool)
      requires a.wanted && a.found
      modifies this
      ensures View() == (var o := Offer(old(View()), a, handle);
                         if Succeeds(a) then Acquired(o, handle, a.points) else Refused(o, a, handle, last))
      ensures again == (Again(a) && !last)
    {
      again := false;
      Note(ReadRole(a.stillWanted));
      if a.stillWanted && a.valid {
        Note(Committed(handle, a.accepted));
        if a.accepted {
          Note(Published(handle));
          PublishSearch(Some(Held(handle, MissionPlan.Progress(a.points, 0, false))));
          Note(Loaded(handle));
          retryTs := 0;
          return;
        }
      }
      Note(ReadRole(a.wantedAfter));
      if a.wantedAfter {
        if last {
          FallBack(a.now);
        } else {
          again := true;
        }
      }
      Note(Destroyed(handle));
    }

    method TryOnce(a: Attempt, last: bool) returns (again: bool)
      modifies this
      ensures View() == Trip(old(View()), a, last)
      ensures again == (Again(a) && !last)
    {
      again := false;
      var handle := handles;
      FetchSearch(a.found);
      Note(ReadRole(a.wanted));
      if !a.wanted {
        if a.found {
          Note(Destroyed(handle));
        }
        return;
      }
      if !a.found {
        FallBack(a.now);
        return;
      }
      again := OfferSearch(a, handle, last);
    }

    method TryAcquireSearch(now: nat, world: Oracle)
      modifies this
      ensures View() == TryAcquire(old(View()), now, world)
    {
      if retryTs > now {
        return;
      }
      if !asset {
        FallBack(now);
        return;
      }
      var retries := 0;
      var again := true;
      while again
        invariant retries <= MAX_FETCHES
        invariant again ==> retries < MAX_FETCHES
        invariant again ==> AttemptFrom(View(), world, retries) == AttemptFrom(old(View()), world, 0)
        invariant !again ==> View() == AttemptFrom(old(View()), world, 0)
        decreases MAX_FETCHES - retries, again
      {
        again := TryOnce(world(retries), retries + 1 == MAX_FETCHES);
        retries := retries + 1;
      }
    }

    method MaybeAcquireSearch(active: bool, now: nat, world: Oracle)
      modifies this
      ensures View() == MaybeAcquire(old(View()), active, now, world)
    {
      Note(ReadRole(active));
      if active && held.None? {
        TryAcquireSearch(now, world);
      }
    }

    method StartSearch(now: nat, world: Oracle)
      modifies this
      ensures View() == DoSearch(old(View()), now, world)
    {
      Note(Tasked);
      retryTs := 0;
      if held.Some? {
        Note(Loaded(held.value.handle));
        return;
      }
      TryAcquireSearch(now, world);
    }

    method ReachPoint(point: nat)
      modifies this
      ensures View() == DoReachedPoint(old(View()), point)
    {
      if held.Some? {
        if !held.value.progress.complete && point >= held.value.progress.points {
          Note(Completed(held.value.handle));
          PublishSearch(None);
          Note(RtlReport);
        } else {
          held := Some(held.value.(progress := held.value.progress.(current := point)));
        }
      }
    }

    method CheckCommand(command: OperatorCommand)
      modifies this
      ensures View() == CheckOperatorCommand(old(View()), command)
    {
      if command == lastCommand {
        return;
      }
      lastCommand := command;
      if command.AbandonSearch? {
        if held.Some? {
          Note(Dropped(held.value.handle));
        }
        PublishSearch(None);
        retryTs := 0;
        Note(Operator(command));
      } else if command.MissionComplete? {
        Note(Operator(command));
      }
    }

    method ReportPositionTask(interval: nat, now: nat, command: OperatorCommand, active: bool, later: nat,
                              world: Oracle)
      modifies this
      ensures View() == DoReportPosition(old(View()), interval, now, command, active, later, world)
    {
      if asset && lastReport + interval <= now {
        CheckCommand(command);
        Note(Reported(now));
        lastReport := now;
      }
      MaybeAcquireSearch(active, later, world);
    }

    method RunTask(e: Event)
      modifies this
      ensures View() == Step(old(View()), e)
    {
      match e
      case Connect(found) => asset := found;
      case ReportPosition(interval, now, command, active, later, world) =>
        ReportPositionTask(interval, now, command, active, later, world);
      case ReachedPoint(point) => ReachPoint(point);
      case Search(later, world) => StartSearch(later, world);
      case RetryPending(active, later, world) => MaybeAcquireSearch(active, later, world);
    }
  }
}
