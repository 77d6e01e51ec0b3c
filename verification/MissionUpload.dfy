/**
  The mission upload machine of `mav_connection`: the ground-station side of the MAVLink mission
  protocol's "Upload a Mission to the Vehicle", with the takeovers, supersedes, restarts and link losses
  that race its acknowledgements.

  Every handler is a composition of the regions the source runs under `state_lock`. Results about whole
  handlers take each handler as one atomic step; results about regions hold however the regions of
  different threads interleave.
 */
module MissionUpload {
  import opened FmuTypes
  import opened Since
  import MissionPlan

  datatype Mode = ModeRtl | ModeManual | ModeHold | ModeAuto

  /** A search by identity (`id` stands for the pointer) and waypoints. */
  datatype Search = Search(id: nat, points: seq<Point>)

  datatype Waypoint =
    | TakeoffItem(isCurrent: bool)
    | PointItem(at: Point, isCurrent: bool)
    | GotoItem(at: Point)
    | HomeItem

  /** A message handed to the link; whether it got through is a separate question. */
  datatype Msg =
    | SetMode(mode: Mode)
    | MissionCount(count: MissionPlan.Uint16)
    | MissionItem(seqNo: MissionPlan.Uint16, waypoint: Waypoint)
    | SetCurrent(seqNo: MissionPlan.Uint16)
    | ArmDisarm(force: bool)
    | FlightTermination
    | ChangeAltitude(feet: nat)

  datatype Upload = GotoUpload(at: Point) | SearchUpload(search: Search)

  datatype Cause = Accepted | Rejected | Dropped | LinkLost

  /** The life of uploads, as a ledger kept beside the state. */
  datatype Entry = Opened(upload: Upload) | Closed(upload: Upload, cause: Cause) | AutoCommanded

  /** The fields `state_lock` guards, and three of history: the open upload, the messages sent, the ledger. */
  datatype Conn = Conn(
    gotoActive: bool,
    gotoPosition: Point,
    gotoAckPending: bool,
    search: Option<Search>,
    searchLoading: bool,
    searchLoaded: bool,
    pendingMode: Option<Mode>,
    typeKnown: bool,
    lastBoot: nat,
    open: Option<Upload>,
    sent: seq<Msg>,
    ledger: seq<Entry>)

  const INITIAL := Conn(false, Point(0.0, 0.0), false, None, false, false, None, false, 0, None, [], [])

  /** How far the autopilot's uptime must go backwards to count as a restart. */
  const RESTART_MARGIN_MS: nat := 3000

  function CloseOpen(c: Conn, cause: Cause): seq<Entry> {
    match c.open
    case Some(u) => c.ledger + [Closed(u, cause)]
    case None => c.ledger
  }

  // ---------------------------------------------------------------------------
  // Regions: what one holding of state_lock does
  // ---------------------------------------------------------------------------

  /** `invalidateInFlightUploadLocked`. */
  function DropUpload(c: Conn): Conn {
    c.(search := if c.searchLoading then None else c.search,
       gotoActive := false, gotoAckPending := false, searchLoading := false, searchLoaded := false,
       open := None, ledger := CloseOpen(c, Dropped))
  }

  function DropIf(c: Conn, clear: bool): Conn {
    if clear then DropUpload(c) else c
  }

  function DeferMode(c: Conn, mode: Mode, clear: bool): Conn {
    DropIf(c.(pendingMode := Some(mode)), clear)
  }

  function FinishMode(c: Conn, clear: bool): Conn {
    DropIf(c.(pendingMode := None), clear)
  }

  function BeginGoto(c: Conn, at: Point): Conn {
    c.(gotoPosition := at, gotoActive := true, searchLoaded := false)
  }

  function AwaitGotoAck(c: Conn): Conn {
    var u := GotoUpload(c.gotoPosition);
    c.(gotoAckPending := true, open := Some(u), ledger := c.ledger + [Opened(u)])
  }

  predicate AlreadyLoaded(c: Conn, s: Search) {
    c.search == Some(s) && c.searchLoaded
  }

  function NoteSearch(c: Conn, s: Search): Conn {
    if AlreadyLoaded(c, s) then c else c.(search := Some(s))
  }

  function BeginSearch(c: Conn, s: Search): Conn {
    c.(gotoActive := false, gotoAckPending := false, searchLoaded := false,
       search := Some(s), searchLoading := true,
       open := Some(SearchUpload(s)), ledger := CloseOpen(c, Dropped) + [Opened(SearchUpload(s))])
  }

  function TakeAck(c: Conn, accepted: bool): Conn {
    c.(gotoAckPending := false,
       gotoActive := c.gotoActive && !c.gotoAckPending,
       searchLoading := false,
       searchLoaded := c.searchLoaded || (c.searchLoading && accepted),
       search := if c.searchLoading && !accepted then None else c.search,
       open := None, ledger := CloseOpen(c, if accepted then Accepted else Rejected))
  }

  function FinishReplay(c: Conn, mode: Mode): Conn {
    c.(pendingMode := if c.pendingMode == Some(mode) then None else c.pendingMode,
       searchLoaded := c.searchLoaded && mode == ModeAuto)
  }

  function LoseGotoAck(c: Conn): Conn {
    if !c.gotoAckPending then c
    else c.(gotoAckPending := false, open := None, ledger := CloseOpen(c, LinkLost))
  }

  // ---------------------------------------------------------------------------
  // Handlers
  // ---------------------------------------------------------------------------

  function Send(c: Conn, m: Msg): Conn {
    c.(sent := c.sent + [m])
  }

  function SetResolvedMode(c: Conn, mode: Mode, clear: bool): Conn {
    if c.typeKnown then FinishMode(Send(c, SetMode(mode)), clear) else DeferMode(c, mode, clear)
  }

  function CommandAuto(c: Conn): Conn {
    SetResolvedMode(c.(ledger := c.ledger + [AutoCommanded]), ModeAuto, false)
  }

  function CommandGoto(c: Conn, at: Point, countSent: bool): Conn {
    var begun := BeginGoto(SetResolvedMode(c, ModeRtl, true), at);
    var counted := Send(begun, MissionCount(MissionPlan.AdvertisedCount(0, MissionPlan.GotoMission)));
    if countSent then AwaitGotoAck(counted) else counted
  }

  function LoadSearch(c: Conn, s: Search): Conn {
    if AlreadyLoaded(c, s) then c
    else
      var begun := BeginSearch(SetResolvedMode(NoteSearch(c, s), ModeRtl, true), s);
      Send(begun, MissionCount(MissionPlan.AdvertisedCount(|s.points|, MissionPlan.SearchMission)))
  }

  function MissionAck(c: Conn, accepted: bool, currentPoint: nat): Conn {
    var acked := TakeAck(c, accepted);
    var gotoDone := if c.gotoAckPending && accepted then CommandAuto(Send(acked, SetCurrent(0))) else acked;
    if c.searchLoading && accepted then
      CommandAuto(Send(gotoDone, SetCurrent(if acked.search.Some? then MissionPlan.PointSeq(currentPoint) else 0)))
    else gotoDone
  }

  function Heartbeat(c: Conn, known: bool): Conn {
    var seen := c.(typeKnown := known);
    if known && c.pendingMode.Some? then FinishReplay(Send(seen, SetMode(c.pendingMode.value)), c.pendingMode.value)
    else seen
  }

  predicate Restarted(last: nat, now: nat) {
    last != 0 && now != 0 && now < last && last - now > RESTART_MARGIN_MS
  }

  function NoteTimeBoot(c: Conn, bootMs: nat): Conn {
    if bootMs == 0 then c
    else (if Restarted(c.lastBoot, bootMs) then DropUpload(c) else c).(lastBoot := bootMs)
  }

  /** The mission item a request is answered with; none while no upload is being served. */
  function ItemRequested(c: Conn, seqNo: MissionPlan.Uint16): Option<MissionPlan.Item> {
    if !c.gotoActive && !c.searchLoading then None
    else
      var points := if c.search.Some? then |c.search.value.points| else 0;
      var mode := if c.gotoActive then MissionPlan.GotoMission else MissionPlan.SearchMission;
      Some(MissionPlan.ItemFor(seqNo, points, mode))
  }

  /** A search being uploaded is one we hold. */
  predicate SearchHeld(c: Conn) {
    c.searchLoading ==> c.search.Some?
  }

  function WaypointFor(c: Conn, item: MissionPlan.Item, seqNo: MissionPlan.Uint16, currentPoint: nat): Waypoint
    requires SearchHeld(c) && ItemRequested(c, seqNo) == Some(item)
  {
    match item
    case ReturnHome => HomeItem
    case GotoWaypoint => GotoItem(c.gotoPosition)
    case Takeoff => TakeoffItem(seqNo == 1 && currentPoint == 0)
    case SearchPoint(i) => PointItem(c.search.value.points[i], currentPoint == i)
  }

  function SendWaypoint(c: Conn, seqNo: MissionPlan.Uint16, currentPoint: nat): Conn
    requires SearchHeld(c)
  {
    match ItemRequested(c, seqNo)
    case None => c
    case Some(item) => Send(c, MissionItem(seqNo, WaypointFor(c, item, seqNo, currentPoint)))
  }

  /** One handler, run to completion. */
  datatype Call =
    | TakeOver(mode: Mode)
    | Goto(at: Point, countSent: bool)
    | Disarm(force: bool)
    | Terminate
    | Altitude(feet: nat)
    | Load(search: Search)
    | Beat(known: bool)
    | Ack(accepted: bool, currentPoint: nat)
    | Request(seqNo: MissionPlan.Uint16, currentPoint: nat)
    | BootTime(bootMs: nat)
    | LinkDown
  {
    /** RTL, manual and hold are commanded; AUTO is only ever engaged by an acknowledgement. */
    predicate Legal() {
      TakeOver? ==> mode != ModeAuto
    }

    /** Driven by a message from the autopilot. */
    predicate Inbound() {
      Beat? || Ack? || Request? || BootTime?
    }
  }

  function Handle(c: Conn, call: Call): Conn
    requires SearchHeld(c)
  {
    match call
    case TakeOver(mode) => SetResolvedMode(c, mode, true)
    case Goto(at, countSent) => CommandGoto(c, at, countSent)
    case Disarm(force) => DropUpload(Send(c, ArmDisarm(force)))
    case Terminate => DropUpload(Send(c, FlightTermination))
    case Altitude(feet) => Send(c, ChangeAltitude(feet))
    case Load(s) => LoadSearch(c, s)
    case Beat(known) => Heartbeat(c, known)
    case Ack(accepted, currentPoint) => MissionAck(c, accepted, currentPoint)
    case Request(seqNo, currentPoint) => SendWaypoint(c, seqNo, currentPoint)
    case BootTime(bootMs) => NoteTimeBoot(c, bootMs)
    case LinkDown => LoseGotoAck(c)
  }

  // ---------------------------------------------------------------------------
  // What every handler keeps
  // ---------------------------------------------------------------------------

  /** At most one upload is open, an open one is being served, and a loaded search excludes both. */
  predicate Inv(c: Conn) {
    && (c.gotoAckPending ==> c.gotoActive && c.open == Some(GotoUpload(c.gotoPosition)))
    && !(c.gotoActive && c.searchLoading)
    && (c.searchLoading ==> c.search.Some? && !c.searchLoaded && c.open == Some(SearchUpload(c.search.value)))
    && (c.open.Some? ==> c.gotoAckPending || c.searchLoading)
    && (c.searchLoaded ==> c.search.Some? && !c.gotoActive)
  }

  /**
    The ledger is well bracketed and leaves `open` open: an upload opens only when none is open and is
    closed once, only a goto is lost to a link drop, and AUTO is commanded directly after an accepting
    close and never otherwise.
   */
  ghost predicate Bracketed(ledger: seq<Entry>, open: Option<Upload>) {
    if ledger == [] then open.None?
    else
      var before := ledger[..|ledger| - 1];
      match ledger[|ledger| - 1]
      case Opened(u) => open == Some(u) && Settled(before)
      case Closed(u, cause) => open.None? && Bracketed(before, Some(u)) && (cause == LinkLost ==> u.GotoUpload?)
      case AutoCommanded =>
        && open.None? && Bracketed(before, None)
        && before != [] && before[|before| - 1].Closed? && before[|before| - 1].cause == Accepted
  }

  /** Nothing is open and every accepted upload has had its AUTO. */
  ghost predicate Settled(ledger: seq<Entry>) {
    && Bracketed(ledger, None)
    && (ledger != [] ==> !(ledger[|ledger| - 1].Closed? && ledger[|ledger| - 1].cause == Accepted))
  }

  ghost predicate Accounted(c: Conn) {
    if c.open.Some? then Bracketed(c.ledger, c.open) else Settled(c.ledger)
  }

  predicate Idle(c: Conn) {
    !c.gotoActive && !c.gotoAckPending && !c.searchLoading && !c.searchLoaded && c.open.None?
  }

  lemma {:induction false} DropAccounts(c: Conn)
    requires Accounted(c)
    ensures Idle(DropUpload(c)) && Accounted(DropUpload(c))
  {
    if c.open.Some? {
      assert DropUpload(c).ledger[..|c.ledger|] == c.ledger;
    }
  }

  lemma {:induction false} TakeOverAccounts(c: Conn, mode: Mode)
    requires Accounted(c)
    ensures var c' := SetResolvedMode(c, mode, true); Idle(c') && Accounted(c')
  {
    DropAccounts(c);
  }

  /** After the acknowledgement itself: nothing is open, and an accepted upload is still due its AUTO. */
  lemma {:induction false} TakeAckAccounts(c: Conn, accepted: bool)
    requires Inv(c) && Accounted(c)
    ensures var t := TakeAck(c, accepted);
            && Inv(t) && Bracketed(t.ledger, None)
            && (if c.open.Some? && accepted
                then t.ledger == c.ledger + [Closed(c.open.value, Accepted)]
                else Settled(t.ledger))
  {
    if c.open.Some? {
      var closed := c.ledger + [Closed(c.open.value, if accepted then Accepted else Rejected)];
      assert closed[..|c.ledger|] == c.ledger;
    }
  }

  lemma {:induction false} AutoAccounts(c: Conn, u: Upload, ledger: seq<Entry>)
    requires Inv(c) && c.open.None? && Bracketed(c.ledger, None) && c.ledger == ledger + [Closed(u, Accepted)]
    ensures Inv(CommandAuto(c)) && Accounted(CommandAuto(c))
  {
    assert CommandAuto(c).ledger == c.ledger + [AutoCommanded];
    assert (c.ledger + [AutoCommanded])[..|c.ledger|] == c.ledger;
  }

  /** Only one of the two acknowledgement branches can run, since only one upload can be open. */
  lemma {:induction false} AckIs(c: Conn, accepted: bool, currentPoint: nat)
    requires Inv(c)
    ensures MissionAck(c, accepted, currentPoint)
         == if !accepted || c.open.None? then TakeAck(c, accepted)
            else CommandAuto(Send(TakeAck(c, accepted),
                                  SetCurrent(if c.gotoAckPending then 0 else MissionPlan.PointSeq(currentPoint))))
  {
  }

  lemma {:induction false} AckAccounts(c: Conn, accepted: bool, currentPoint: nat)
    requires Inv(c) && Accounted(c)
    ensures var c' := MissionAck(c, accepted, currentPoint); Inv(c') && Accounted(c')
  {
    AckIs(c, accepted, currentPoint);
    TakeAckAccounts(c, accepted);
    if accepted && c.open.Some? {
      var cur := SetCurrent(if c.gotoAckPending then 0 else MissionPlan.PointSeq(currentPoint));
      AutoAccounts(Send(TakeAck(c, accepted), cur), c.open.value, c.ledger);
    }
  }

  lemma {:induction false} OpeningAccounts(c: Conn, ledger: seq<Entry>)
    requires c.open.Some? && Settled(ledger) && c.ledger == ledger + [Opened(c.open.value)]
    ensures Accounted(c)
  {
    assert c.ledger[..|ledger|] == ledger;
  }

  lemma {:induction false} GotoAccounts(c: Conn, at: Point, countSent: bool)
    requires Inv(c) && Accounted(c)
    ensures Inv(CommandGoto(c, at, countSent)) && Accounted(CommandGoto(c, at, countSent))
  {
    TakeOverAccounts(c, ModeRtl);
    if countSent {
      OpeningAccounts(CommandGoto(c, at, countSent), SetResolvedMode(c, ModeRtl, true).ledger);
    }
  }

  lemma {:induction false} LoadAccounts(c: Conn, s: Search)
    requires Inv(c) && Accounted(c)
    ensures Inv(LoadSearch(c, s)) && Accounted(LoadSearch(c, s))
  {
    if !AlreadyLoaded(c, s) {
      TakeOverAccounts(NoteSearch(c, s), ModeRtl);
      OpeningAccounts(LoadSearch(c, s), SetResolvedMode(NoteSearch(c, s), ModeRtl, true).ledger);
    }
  }

  lemma {:induction false} LinkDownAccounts(c: Conn)
    requires Inv(c) && Accounted(c)
    ensures Inv(LoseGotoAck(c)) && Accounted(LoseGotoAck(c))
  {
    if c.gotoAckPending {
      assert LoseGotoAck(c).ledger[..|c.ledger|] == c.ledger;
    }
  }

  lemma {:induction false} BootAccounts(c: Conn, bootMs: nat)
    requires Inv(c) && Accounted(c)
    ensures Inv(NoteTimeBoot(c, bootMs)) && Accounted(NoteTimeBoot(c, bootMs))
  {
    DropAccounts(c);
  }

  lemma {:induction false} HandleAccounts(c: Conn, call: Call)
    requires Inv(c) && Accounted(c)
    ensures Inv(Handle(c, call)) && Accounted(Handle(c, call))
  {
    match call {
      case TakeOver(mode) => TakeOverAccounts(c, mode);
      case Goto(at, countSent) => GotoAccounts(c, at, countSent);
      case Disarm(force) => DropAccounts(Send(c, ArmDisarm(force)));
      case Terminate => DropAccounts(Send(c, FlightTermination));
      case Load(s) => LoadAccounts(c, s);
      case Ack(accepted, currentPoint) => AckAccounts(c, accepted, currentPoint);
      case BootTime(bootMs) => BootAccounts(c, bootMs);
      case LinkDown => LinkDownAccounts(c);
      case _ =>
    }
  }

  /** The state after a run of handlers, which all find a search they are uploading held. */
  function Run(calls: seq<Call>): (c: Conn)
    ensures Inv(c) && Accounted(c)
  {
    if calls == [] then INITIAL
    else
      var before := Run(calls[..|calls| - 1]);
      HandleAccounts(before, calls[|calls| - 1]);
      Handle(before, calls[|calls| - 1])
  }

  // ---------------------------------------------------------------------------
  // Conservation
  // ---------------------------------------------------------------------------

  function Opens(ledger: seq<Entry>): nat {
    if ledger == [] then 0 else Opens(ledger[..|ledger| - 1]) + if ledger[|ledger| - 1].Opened? then 1 else 0
  }

  function Closes(ledger: seq<Entry>, cause: Cause): nat {
    if ledger == [] then 0
    else
      var last := ledger[|ledger| - 1];
      Closes(ledger[..|ledger| - 1], cause) + if last.Closed? && last.cause == cause then 1 else 0
  }

  function Autos(ledger: seq<Entry>): nat {
    if ledger == [] then 0 else Autos(ledger[..|ledger| - 1]) + if ledger[|ledger| - 1].AutoCommanded? then 1 else 0
  }

  function AllCloses(ledger: seq<Entry>): nat {
    Closes(ledger, Accepted) + Closes(ledger, Rejected) + Closes(ledger, Dropped) + Closes(ledger, LinkLost)
  }

  ghost predicate AwaitsAuto(ledger: seq<Entry>) {
    ledger != [] && ledger[|ledger| - 1].Closed? && ledger[|ledger| - 1].cause == Accepted
  }

  lemma {:induction false} BracketsBalance(ledger: seq<Entry>, open: Option<Upload>)
    requires Bracketed(ledger, open)
    ensures Opens(ledger) == AllCloses(ledger) + if open.Some? then 1 else 0
    ensures Closes(ledger, Accepted) == Autos(ledger) + if AwaitsAuto(ledger) then 1 else 0
  {
    if ledger != [] {
      var before := ledger[..|ledger| - 1];
      match ledger[|ledger| - 1]
      case Opened(u) => BracketsBalance(before, None);
      case Closed(u, cause) =>
        BracketsBalance(before, Some(u));
        assert !AwaitsAuto(before);
      case AutoCommanded => BracketsBalance(before, None);
    }
  }

  /**
    Upload conservation. Over every run each opened upload is closed once, by an accepted or rejected
    acknowledgement, a drop or (a goto only) a link loss, or is the one still open; AUTO has been commanded
    once per accepted upload, so never more often than uploads were opened; and the two flags that mark an
    upload open are never both set.
   */
  lemma {:induction false} UploadsAreConserved(calls: seq<Call>)
    ensures var c := Run(calls);
            && Bracketed(c.ledger, c.open)
            && (c.open.Some? <==> c.gotoAckPending || c.searchLoading)
            && !(c.gotoAckPending && c.searchLoading)
            && Opens(c.ledger) == AllCloses(c.ledger) + (if c.open.Some? then 1 else 0)
            && Autos(c.ledger) == Closes(c.ledger, Accepted) <= Opens(c.ledger)
  {
    var c := Run(calls);
    BracketsBalance(c.ledger, c.open);
  }

  function AutoSends(sent: seq<Msg>): nat {
    if sent == [] then 0 else AutoSends(sent[..|sent| - 1]) + if sent[|sent| - 1] == SetMode(ModeAuto) then 1 else 0
  }

  function AutoDeferred(c: Conn): nat {
    if c.pendingMode == Some(ModeAuto) then 1 else 0
  }

  lemma {:induction false} SendCounts(sent: seq<Msg>, m: Msg)
    ensures AutoSends(sent + [m]) == AutoSends(sent) + if m == SetMode(ModeAuto) then 1 else 0
  {
    assert (sent + [m])[..|sent|] == sent;
  }

  lemma {:induction false} EntryCounts(ledger: seq<Entry>, e: Entry)
    ensures Autos(ledger + [e]) == Autos(ledger) + if e.AutoCommanded? then 1 else 0
  {
    assert (ledger + [e])[..|ledger|] == ledger;
  }

  /** Sent and deferred AUTO mode changes, against the AUTO commands that may cause them. */
  ghost predicate Backed(c: Conn) {
    AutoSends(c.sent) + AutoDeferred(c) <= Autos(c.ledger)
  }

  lemma {:induction false} DropBacked(c: Conn)
    requires Backed(c)
    ensures Backed(DropUpload(c))
  {
    if c.open.Some? {
      EntryCounts(c.ledger, Closed(c.open.value, Dropped));
    }
  }

  lemma {:induction false} TakeOverBacked(c: Conn, mode: Mode)
    requires Backed(c) && mode != ModeAuto
    ensures Backed(SetResolvedMode(c, mode, true))
  {
    SendCounts(c.sent, SetMode(mode));
    DropBacked(FinishMode(Send(c, SetMode(mode)), false));
    DropBacked(DeferMode(c, mode, false));
  }

  lemma {:induction false} SendBacked(c: Conn, m: Msg)
    requires Backed(c) && m != SetMode(ModeAuto)
    ensures Backed(Send(c, m))
  {
    SendCounts(c.sent, m);
  }

  lemma {:induction false} TakeAckBacked(c: Conn, accepted: bool)
    requires Backed(c)
    ensures Backed(TakeAck(c, accepted))
  {
    if c.open.Some? {
      EntryCounts(c.ledger, Closed(c.open.value, if accepted then Accepted else Rejected));
    }
  }

  lemma {:induction false} AutoBacked(c: Conn)
    requires Backed(c)
    ensures Backed(CommandAuto(c))
  {
    EntryCounts(c.ledger, AutoCommanded);
    SendCounts(c.sent, SetMode(ModeAuto));
  }

  lemma {:induction false} AckBacked(c: Conn, accepted: bool, currentPoint: nat)
    requires Inv(c) && Backed(c)
    ensures Backed(MissionAck(c, accepted, currentPoint))
  {
    AckIs(c, accepted, currentPoint);
    TakeAckBacked(c, accepted);
    if accepted && c.open.Some? {
      var cur := SetCurrent(if c.gotoAckPending then 0 else MissionPlan.PointSeq(currentPoint));
      SendBacked(TakeAck(c, accepted), cur);
      AutoBacked(Send(TakeAck(c, accepted), cur));
    }
  }

  lemma {:induction false} GotoBacked(c: Conn, at: Point, countSent: bool)
    requires Backed(c)
    ensures Backed(CommandGoto(c, at, countSent))
  {
    TakeOverBacked(c, ModeRtl);
    var rtl := SetResolvedMode(c, ModeRtl, true);
    SendCounts(rtl.sent, MissionCount(MissionPlan.AdvertisedCount(0, MissionPlan.GotoMission)));
    EntryCounts(rtl.ledger, Opened(GotoUpload(at)));
  }

  lemma {:induction false} LoadBacked(c: Conn, s: Search)
    requires Backed(c) && !AlreadyLoaded(c, s)
    ensures Backed(LoadSearch(c, s))
  {
    TakeOverBacked(NoteSearch(c, s), ModeRtl);
    var rtl := SetResolvedMode(NoteSearch(c, s), ModeRtl, true);
    SendCounts(rtl.sent, MissionCount(MissionPlan.AdvertisedCount(|s.points|, MissionPlan.SearchMission)));
    EntryCounts(rtl.ledger, Opened(SearchUpload(s)));
  }

  lemma {:induction false} WaypointBacked(c: Conn, seqNo: MissionPlan.Uint16, currentPoint: nat)
    requires SearchHeld(c) && Backed(c)
    ensures Backed(SendWaypoint(c, seqNo, currentPoint))
  {
    var item := ItemRequested(c, seqNo);
    if item.Some? {
      SendCounts(c.sent, MissionItem(seqNo, WaypointFor(c, item.value, seqNo, currentPoint)));
    }
  }

  lemma {:induction false} BeatBacked(c: Conn, known: bool)
    requires Backed(c)
    ensures Backed(Heartbeat(c, known))
  {
    if c.pendingMode.Some? {
      SendCounts(c.sent, SetMode(c.pendingMode.value));
    }
  }

  lemma {:induction false} LinkDownBacked(c: Conn)
    requires Inv(c) && Backed(c)
    ensures Backed(LoseGotoAck(c))
  {
    if c.gotoAckPending {
      EntryCounts(c.ledger, Closed(c.open.value, LinkLost));
    }
  }

  lemma {:induction false} ShutdownBacked(c: Conn, m: Msg)
    requires Backed(c) && m != SetMode(ModeAuto)
    ensures Backed(DropUpload(Send(c, m)))
  {
    SendBacked(c, m);
    DropBacked(Send(c, m));
  }

  lemma {:induction false} BootBacked(c: Conn, bootMs: nat)
    requires Backed(c)
    ensures Backed(NoteTimeBoot(c, bootMs))
  {
    DropBacked(c);
  }

  lemma {:induction false} HandleBacked(c: Conn, call: Call)
    requires Inv(c) && Backed(c) && call.Legal()
    ensures Backed(Handle(c, call))
  {
    match call {
      case TakeOver(mode) => TakeOverBacked(c, mode);
      case Goto(at, countSent) => GotoBacked(c, at, countSent);
      case Disarm(force) => ShutdownBacked(c, ArmDisarm(force));
      case Terminate => ShutdownBacked(c, FlightTermination);
      case Altitude(feet) => SendBacked(c, ChangeAltitude(feet));
      case Load(s) =>
        if !AlreadyLoaded(c, s) {
          LoadBacked(c, s);
        }
      case Beat(known) => BeatBacked(c, known);
      case Ack(accepted, currentPoint) => AckBacked(c, accepted, currentPoint);
      case Request(seqNo, currentPoint) => WaypointBacked(c, seqNo, currentPoint);
      case BootTime(bootMs) => BootBacked(c, bootMs);
      case LinkDown => LinkDownBacked(c);
    }
  }

  lemma {:induction false} AutosAreBacked(calls: seq<Call>)
    requires forall i :: 0 <= i < |calls| ==> calls[i].Legal()
    ensures Backed(Run(calls))
  {
    if calls != [] {
      var before := calls[..|calls| - 1];
      AutosAreBacked(before);
      HandleBacked(Run(before), calls[|calls| - 1]);
    }
  }

  /**
    Every AUTO mode change the link is handed, at once or after being deferred for an unknown autopilot
    type, answers a different accepted upload: there are never more of them than accepted uploads.
   */
  lemma {:induction false} AutoNeedsAnAcceptedUpload(calls: seq<Call>)
    requires forall i :: 0 <= i < |calls| ==> calls[i].Legal()
    ensures var c := Run(calls); AutoSends(c.sent) + AutoDeferred(c) <= Closes(c.ledger, Accepted)
  {
    AutosAreBacked(calls);
    UploadsAreConserved(calls);
  }

  // ---------------------------------------------------------------------------
  // loadSearch's skip
  // ---------------------------------------------------------------------------

  /** A handler that ends the autopilot's hold on whatever search it has loaded. */
  predicate Displaces(c: Conn, call: Call) {
    match call
    case TakeOver(_) => true
    case Goto(_, _) => true
    case Disarm(_) => true
    case Terminate => true
    case Load(s) => !AlreadyLoaded(c, s)
    case Beat(known) => known && c.pendingMode.Some? && c.pendingMode != Some(ModeAuto)
    case BootTime(bootMs) => Restarted(c.lastBoot, bootMs)
    case _ => false
  }

  /** `states[j]` is the state before call `j` of a run from the start. */
  ghost predicate IsTrace(states: seq<Conn>, calls: seq<Call>) {
    && |states| == |calls| + 1
    && states[0] == INITIAL
    && (forall j :: 0 <= j < |states| ==> Inv(states[j]) && Accounted(states[j]))
    && forall j :: 0 <= j < |calls| ==> states[j + 1] == Handle(states[j], calls[j])
  }

  /** At step `k` an upload of exactly `s` was accepted, and nothing has displaced it since. */
  ghost predicate LoadedAt(states: seq<Conn>, calls: seq<Call>, s: Search, k: nat)
    requires |calls| <= |states|
  {
    && k < |calls|
    && calls[k].Ack? && calls[k].accepted && states[k].open == Some(SearchUpload(s))
    && forall j :: k < j < |calls| ==> !Displaces(states[j], calls[j])
  }

  lemma {:induction false} StepLoads(c: Conn, call: Call, s: Search)
    requires Inv(c)
    ensures AlreadyLoaded(Handle(c, call), s) <==>
            || (call.Ack? && call.accepted && c.open == Some(SearchUpload(s)))
            || (AlreadyLoaded(c, s) && !Displaces(c, call))
  {
  }

  /** One more call: what was loaded stays so unless displaced, and an accepted upload of `s` loads it. */
  lemma {:induction false} LoadedAtExtends(
    states: seq<Conn>, calls: seq<Call>, states0: seq<Conn>, calls0: seq<Call>, s: Search)
    requires IsTrace(states, calls) && calls != []
    requires states0 == states[..|calls|] && calls0 == calls[..|calls| - 1]
    ensures (exists k :: LoadedAt(states, calls, s, k)) <==>
            || (calls[|calls0|].Ack? && calls[|calls0|].accepted && states[|calls0|].open == Some(SearchUpload(s)))
            || (!Displaces(states[|calls0|], calls[|calls0|]) && exists k :: LoadedAt(states0, calls0, s, k))
  {
    var n := |calls0|;
    if k: nat :| LoadedAt(states0, calls0, s, k) {
      assert LoadedAt(states, calls, s, k) <==> !Displaces(states[n], calls[n]);
    }
    if calls[n].Ack? && calls[n].accepted && states[n].open == Some(SearchUpload(s)) {
      assert LoadedAt(states, calls, s, n);
    }
    if k: nat :| LoadedAt(states, calls, s, k) && k < n {
      assert LoadedAt(states0, calls0, s, k);
    }
  }

  lemma {:induction false} LoadedSince(states: seq<Conn>, calls: seq<Call>, s: Search)
    requires IsTrace(states, calls)
    ensures AlreadyLoaded(states[|calls|], s) <==> exists k :: LoadedAt(states, calls, s, k)
  {
    if calls != [] {
      var n := |calls| - 1;
      var states0, calls0 := states[..n + 1], calls[..n];
      assert states[n + 1] == Handle(states[n], calls[n]);
      LoadedSince(states0, calls0, s);
      StepLoads(states[n], calls[n], s);
      LoadedAtExtends(states, calls, states0, calls0, s);
    }
  }

  lemma {:induction false} LoadOpens(c: Conn, s: Search)
    requires Accounted(c) && !AlreadyLoaded(c, s)
    ensures Opens(LoadSearch(c, s).ledger) == Opens(c.ledger) + 1
  {
    var dropped := SetResolvedMode(NoteSearch(c, s), ModeRtl, true).ledger;
    if c.open.Some? {
      assert dropped[..|c.ledger|] == c.ledger;
    }
    assert (dropped + [Opened(SearchUpload(s))])[..|dropped|] == dropped;
  }

  /**
    loadSearch skips the upload of `s` (opening none, changing nothing) exactly when an acknowledgement
    accepted an upload of `s` and no takeover, goto, other upload or detected restart has happened since.
   */
  lemma {:induction false} SkipIsSound(states: seq<Conn>, calls: seq<Call>, s: Search)
    requires IsTrace(states, calls)
    ensures var c := states[|calls|];
            && (LoadSearch(c, s) == c <==> exists k :: LoadedAt(states, calls, s, k))
            && (LoadSearch(c, s) != c ==> LoadSearch(c, s).open == Some(SearchUpload(s)))
  {
    LoadedSince(states, calls, s);
    var c := states[|calls|];
    if !AlreadyLoaded(c, s) {
      LoadOpens(c, s);
    }
  }

  lemma {:induction false} TraceExtends(states: seq<Conn>, calls: seq<Call>, c: Conn)
    requires calls != [] && IsTrace(states, calls[..|calls| - 1])
    requires c == Handle(states[|calls| - 1], calls[|calls| - 1]) && Inv(c) && Accounted(c)
    ensures IsTrace(states + [c], calls)
  {
    var all, before := states + [c], calls[..|calls| - 1];
    forall j | 0 <= j < |calls| ensures Inv(all[j]) && all[j + 1] == Handle(all[j], calls[j]) {
      if j < |before| {
        assert states[j + 1] == Handle(states[j], before[j]);
      }
    }
  }

  /** Every run has such a trace, and it ends where the run does. */
  lemma {:induction false} RunHasATrace(calls: seq<Call>) returns (states: seq<Conn>)
    ensures IsTrace(states, calls) && states[|calls|] == Run(calls)
  {
    if calls == [] {
      states := [INITIAL];
    } else {
      var before := RunHasATrace(calls[..|calls| - 1]);
      TraceExtends(before, calls, Run(calls));
      states := before + [Run(calls)];
    }
  }

  // ---------------------------------------------------------------------------
  // Serving waypoints, under any interleaving of regions
  // ---------------------------------------------------------------------------

  /** One holding of `state_lock`, by whichever thread. */
  datatype Region =
    | RDefer(mode: Mode, clear: bool)
    | RFinish(clear: bool)
    | RDrop
    | RBeginGoto(at: Point)
    | RAwaitGotoAck
    | RNote(search: Search)
    | RBeginSearch(search: Search)
    | RTakeAck(accepted: bool)
    | RFinishReplay(mode: Mode)
    | RLoseGotoAck

  function Enter(c: Conn, r: Region): Conn {
    match r
    case RDefer(mode, clear) => DeferMode(c, mode, clear)
    case RFinish(clear) => FinishMode(c, clear)
    case RDrop => DropUpload(c)
    case RBeginGoto(at) => BeginGoto(c, at)
    case RAwaitGotoAck => AwaitGotoAck(c)
    case RNote(s) => NoteSearch(c, s)
    case RBeginSearch(s) => BeginSearch(c, s)
    case RTakeAck(accepted) => TakeAck(c, accepted)
    case RFinishReplay(mode) => FinishReplay(c, mode)
    case RLoseGotoAck => LoseGotoAck(c)
  }

  function EnterAll(c: Conn, rs: seq<Region>): Conn {
    if rs == [] then c else Enter(EnterAll(c, rs[..|rs| - 1]), rs[|rs| - 1])
  }

  /** The regions a handler enters, in order. */
  function RegionsOf(c: Conn, call: Call): seq<Region> {
    var rtl := if c.typeKnown then RFinish(true) else RDefer(ModeRtl, true);
    var auto := if c.typeKnown then RFinish(false) else RDefer(ModeAuto, false);
    match call
    case TakeOver(mode) => [if c.typeKnown then RFinish(true) else RDefer(mode, true)]
    case Goto(at, countSent) => [rtl, RBeginGoto(at)] + if countSent then [RAwaitGotoAck] else []
    case Disarm(_) => [RDrop]
    case Terminate => [RDrop]
    case Altitude(_) => []
    case Load(s) => if AlreadyLoaded(c, s) then [RNote(s)] else [RNote(s), rtl, RBeginSearch(s)]
    case Beat(known) => if known && c.pendingMode.Some? then [RFinishReplay(c.pendingMode.value)] else []
    case Ack(accepted, _) =>
      [RTakeAck(accepted)] + if accepted && (c.gotoAckPending || c.searchLoading) then [auto] else []
    case Request(_, _) => []
    case BootTime(bootMs) => if Restarted(c.lastBoot, bootMs) then [RDrop] else []
    case LinkDown => [RLoseGotoAck]
  }

  lemma {:induction false} EnterThree(c: Conn, a: Region, b: Region, d: Region)
    ensures EnterAll(c, [a]) == Enter(c, a)
    ensures EnterAll(c, [a, b]) == Enter(Enter(c, a), b)
    ensures EnterAll(c, [a, b, d]) == Enter(Enter(Enter(c, a), b), d)
  {
    assert [a][..0] == [] && [a, b][..1] == [a] && [a, b, d][..2] == [a, b];
  }

  /** Agreement on everything a region may write but the history. */
  predicate SameGuarded(c: Conn, d: Conn) {
    && c.gotoActive == d.gotoActive && c.gotoPosition == d.gotoPosition && c.gotoAckPending == d.gotoAckPending
    && c.search == d.search && c.searchLoading == d.searchLoading && c.searchLoaded == d.searchLoaded
    && c.pendingMode == d.pendingMode
  }

  lemma {:induction false} UploadIsItsRegions(c: Conn, call: Call)
    requires Inv(c) && (call.Goto? || call.Load?)
    ensures SameGuarded(Handle(c, call), EnterAll(c, RegionsOf(c, call)))
  {
    var rtl := if c.typeKnown then RFinish(true) else RDefer(ModeRtl, true);
    if call.Goto? {
      EnterThree(c, rtl, RBeginGoto(call.at), RAwaitGotoAck);
      assert [rtl, RBeginGoto(call.at)] + [RAwaitGotoAck] == [rtl, RBeginGoto(call.at), RAwaitGotoAck];
    } else {
      EnterThree(c, RNote(call.search), rtl, RBeginSearch(call.search));
    }
  }

  lemma {:induction false} AckIsItsRegions(c: Conn, call: Call)
    requires Inv(c) && call.Ack?
    ensures SameGuarded(Handle(c, call), EnterAll(c, RegionsOf(c, call)))
  {
    var auto := if c.typeKnown then RFinish(false) else RDefer(ModeAuto, false);
    EnterThree(c, RTakeAck(call.accepted), auto, auto);
    assert [RTakeAck(call.accepted)] + [auto] == [RTakeAck(call.accepted), auto];
  }

  lemma {:induction false} DropIsItsRegions(c: Conn, call: Call)
    requires Inv(c) && (call.TakeOver? || call.Disarm? || call.Terminate? || call.BootTime?)
    ensures SameGuarded(Handle(c, call), EnterAll(c, RegionsOf(c, call)))
  {
    var rs := RegionsOf(c, call);
    if rs != [] {
      EnterThree(c, rs[0], rs[0], rs[0]);
      assert rs == [rs[0]];
    }
  }

  lemma {:induction false} BeatIsItsRegions(c: Conn, call: Call)
    requires Inv(c) && (call.Beat? || call.LinkDown?)
    ensures SameGuarded(Handle(c, call), EnterAll(c, RegionsOf(c, call)))
  {
    var rs := RegionsOf(c, call);
    if rs != [] {
      EnterThree(c, rs[0], rs[0], rs[0]);
      assert rs == [rs[0]];
    }
  }

  /** A handler does to the guarded fields exactly what its regions do. */
  lemma {:induction false} HandlerIsItsRegions(c: Conn, call: Call)
    requires Inv(c)
    ensures SameGuarded(Handle(c, call), EnterAll(c, RegionsOf(c, call)))
  {
    match call
    case Goto(_, _) => UploadIsItsRegions(c, call);
    case Load(_) => UploadIsItsRegions(c, call);
    case Ack(_, _) => AckIsItsRegions(c, call);
    case Beat(_) => BeatIsItsRegions(c, call);
    case LinkDown => BeatIsItsRegions(c, call);
    case Altitude(_) =>
    case Request(_, _) =>
    case _ => DropIsItsRegions(c, call);
  }

  lemma {:induction false} EnterHoldsSearch(c: Conn, r: Region)
    requires SearchHeld(c)
    ensures SearchHeld(Enter(c, r))
  {
  }

  lemma {:induction false} RegionsHoldSearch(rs: seq<Region>)
    ensures SearchHeld(EnterAll(INITIAL, rs))
  {
    if rs != [] {
      RegionsHoldSearch(rs[..|rs| - 1]);
      EnterHoldsSearch(EnterAll(INITIAL, rs[..|rs| - 1]), rs[|rs| - 1]);
    }
  }

  /**
    However the regions of all threads interleave, and whatever sequence number is requested, an item that
    is built from a search is built from one that is held and from a point it has.
   */
  lemma {:induction false} WaypointsAreServable(rs: seq<Region>, seqNo: MissionPlan.Uint16)
    ensures var c := EnterAll(INITIAL, rs);
            var item := ItemRequested(c, seqNo);
            && SearchHeld(c)
            && (item.Some? && (item.value.Takeoff? || item.value.SearchPoint?) ==> c.searchLoading && c.search.Some?)
            && (item.Some? && item.value.SearchPoint? ==> item.value.index < |c.search.value.points|)
            && (item.None? <==> !c.gotoActive && !c.searchLoading)
  {
    RegionsHoldSearch(rs);
  }

  // ---------------------------------------------------------------------------
  // When a goto's two flags come apart
  // ---------------------------------------------------------------------------

  /** An acknowledgement is awaited for a goto that is no longer being served. */
  predicate Split(c: Conn) {
    c.gotoAckPending && !c.gotoActive
  }

  /** A region that brings the two flags back together, whatever they were. */
  predicate Mends(r: Region) {
    match r
    case RDefer(_, clear) => clear
    case RFinish(clear) => clear
    case RDrop => true
    case RBeginGoto(_) => true
    case RBeginSearch(_) => true
    case RTakeAck(_) => true
    case RLoseGotoAck => true
    case _ => false
  }

  lemma {:induction false} EnterSplits(c: Conn, r: Region)
    ensures Split(Enter(c, r)) <==> (r.RAwaitGotoAck? && !c.gotoActive) || (Split(c) && !Mends(r))
  {
  }

  /** The goto whose acknowledgement region `k` awaits had been ended by then, and nothing has mended that since. */
  ghost predicate SplitBy(rs: seq<Region>, k: nat) {
    && k < |rs| && rs[k].RAwaitGotoAck? && !EnterAll(INITIAL, rs[..k]).gotoActive
    && forall j :: k < j < |rs| ==> !Mends(rs[j])
  }

  lemma {:induction false} SplitByExtends(rs: seq<Region>, before: seq<Region>)
    requires rs != [] && before == rs[..|rs| - 1]
    ensures (exists k :: SplitBy(rs, k)) <==>
            || (rs[|before|].RAwaitGotoAck? && !EnterAll(INITIAL, before).gotoActive)
            || (!Mends(rs[|before|]) && exists k :: SplitBy(before, k))
  {
    var n := |before|;
    if k: nat :| SplitBy(before, k) {
      assert rs[..k] == before[..k];
      assert !Mends(rs[n]) ==> SplitBy(rs, k);
    }
    if k: nat :| SplitBy(rs, k) && k < n {
      assert rs[..k] == before[..k];
      assert SplitBy(before, k);
    }
    if rs[n].RAwaitGotoAck? && !EnterAll(INITIAL, before).gotoActive {
      assert SplitBy(rs, n);
    }
  }

  /**
    Region by region, a pending goto acknowledgement need not belong to an active goto. Exactly when it does not:
    some region has begun to await one when no goto was active, and no region since has mended the two flags.
   */
  lemma {:induction false} GotoSplitsExactlyWhen(rs: seq<Region>)
    ensures Split(EnterAll(INITIAL, rs)) <==> exists k :: SplitBy(rs, k)
  {
    if rs != [] {
      var before := rs[..|rs| - 1];
      GotoSplitsExactlyWhen(before);
      EnterSplits(EnterAll(INITIAL, before), rs[|before|]);
      SplitByExtends(rs, before);
    }
  }

  /** The instance: a restart that lands between the two regions of a goto. */
  lemma {:induction false} RestartCanSplitAGoto(at: Point)
    ensures Split(EnterAll(INITIAL, [RBeginGoto(at), RDrop, RAwaitGotoAck]))
  {
    EnterThree(INITIAL, RBeginGoto(at), RDrop, RAwaitGotoAck);
  }

  // ---------------------------------------------------------------------------
  // Which search is held and loaded, under any interleaving of regions
  // ---------------------------------------------------------------------------

  /** The search handed over so far, `last` before this region: both regions of a load hand theirs over. */
  function Noted(r: Region, last: Option<Search>): Option<Search> {
    match r
    case RNote(s) => Some(s)
    case RBeginSearch(s) => Some(s)
    case _ => last
  }

  function LastNoted(rs: seq<Region>): Option<Search> {
    if rs == [] then None else Noted(rs[|rs| - 1], LastNoted(rs[..|rs| - 1]))
  }

  predicate HoldsNoOther(c: Conn, last: Option<Search>) {
    c.search.Some? ==> c.search == last
  }

  lemma {:induction false} EnterHoldsTheLast(c: Conn, r: Region, last: Option<Search>)
    requires HoldsNoOther(c, last)
    ensures HoldsNoOther(Enter(c, r), Noted(r, last))
  {
  }

  lemma {:induction false} OneMoreRegion(rs: seq<Region>, before: seq<Region>)
    requires rs != [] && before == rs[..|rs| - 1]
    ensures EnterAll(INITIAL, rs) == Enter(EnterAll(INITIAL, before), rs[|before|])
    ensures LastNoted(rs) == Noted(rs[|before|], LastNoted(before))
  {
  }

  /** Region by region too, the search held is the one last handed over. */
  lemma {:induction false} RegionsHoldTheLast(rs: seq<Region>, c: Conn, last: Option<Search>)
    requires c == EnterAll(INITIAL, rs) && last == LastNoted(rs)
    ensures c.search.Some? ==> c.search == last
  {
    if rs != [] {
      var before := rs[..|rs| - 1];
      var c0, last0 := EnterAll(INITIAL, before), LastNoted(before);
      RegionsHoldTheLast(before, c0, last0);
      OneMoreRegion(rs, before);
      EnterHoldsTheLast(c0, rs[|before|], last0);
    }
  }

  /** A region after which no search counts as loaded. */
  predicate Unloads(r: Region) {
    match r
    case RDefer(_, clear) => clear
    case RFinish(clear) => clear
    case RDrop => true
    case RBeginGoto(_) => true
    case RBeginSearch(_) => true
    case RFinishReplay(mode) => mode != ModeAuto
    case _ => false
  }

  lemma {:induction false} EnterLoads(c: Conn, r: Region)
    ensures Enter(c, r).searchLoaded <==> (r == RTakeAck(true) && c.searchLoading) || (c.searchLoaded && !Unloads(r))
  {
  }

  /** Region `k` took an acceptance while a search was being uploaded, and none since has unloaded it. */
  ghost predicate LoadedBy(rs: seq<Region>, k: nat) {
    && k < |rs| && rs[k] == RTakeAck(true) && EnterAll(INITIAL, rs[..k]).searchLoading
    && forall j :: k < j < |rs| ==> !Unloads(rs[j])
  }

  lemma {:induction false} LoadedByExtends(rs: seq<Region>, before: seq<Region>)
    requires rs != [] && before == rs[..|rs| - 1]
    ensures (exists k :: LoadedBy(rs, k)) <==>
            || (rs[|before|] == RTakeAck(true) && EnterAll(INITIAL, before).searchLoading)
            || (!Unloads(rs[|before|]) && exists k :: LoadedBy(before, k))
  {
    var n := |before|;
    if k: nat :| LoadedBy(before, k) {
      assert rs[..k] == before[..k];
      assert !Unloads(rs[n]) ==> LoadedBy(rs, k);
    }
    if k: nat :| LoadedBy(rs, k) && k < n {
      assert rs[..k] == before[..k];
      assert LoadedBy(before, k);
    }
    if rs[n] == RTakeAck(true) && EnterAll(INITIAL, before).searchLoading {
      assert LoadedBy(rs, n);
    }
  }

  /**
    And it counts as loaded exactly when some region took an acceptance while a search was being uploaded and no
    takeover, goto, new upload or restart has entered its region since.
   */
  lemma {:induction false} RegionsLoadExactlyWhen(rs: seq<Region>)
    ensures EnterAll(INITIAL, rs).searchLoaded <==> exists k :: LoadedBy(rs, k)
  {
    if rs != [] {
      var before := rs[..|rs| - 1];
      RegionsLoadExactlyWhen(before);
      EnterLoads(EnterAll(INITIAL, before), rs[|before|]);
      LoadedByExtends(rs, before);
    }
  }

  // ---------------------------------------------------------------------------
  // What an autopilot that asks for a whole mission is sent
  // ---------------------------------------------------------------------------

  function PointItems(points: seq<Point>, currentPoint: nat): seq<Waypoint> {
    if points == [] then []
    else
      var n := |points| - 1;
      PointItems(points[..n], currentPoint) + [PointItem(points[n], currentPoint == n)]
  }

  /** A search mission: takeoff twice, its points at their own coordinates in order, home. */
  function SearchItems(s: Search, currentPoint: nat): seq<Waypoint> {
    [TakeoffItem(false), TakeoffItem(currentPoint == 0)] + PointItems(s.points, currentPoint) + [HomeItem]
  }

  function GotoItems(at: Point): seq<Waypoint> {
    [GotoItem(at), GotoItem(at), HomeItem]
  }

  /** `items` as answers to requests 0, 1, .. in order. */
  function Answers(items: seq<Waypoint>): seq<Msg>
    requires |items| <= 0x1_0000
  {
    if items == [] then []
    else Answers(items[..|items| - 1]) + [MissionItem(|items| - 1, items[|items| - 1])]
  }

  /** After requests for 0 .. n-1, in order. */
  function ServeAll(c: Conn, n: nat, currentPoint: nat): Conn
    requires SearchHeld(c) && n <= 0x1_0000
    ensures SearchHeld(ServeAll(c, n, currentPoint))
  {
    if n == 0 then c else SendWaypoint(ServeAll(c, n - 1, currentPoint), n - 1, currentPoint)
  }

  lemma {:induction false} PointItemsAt(points: seq<Point>, currentPoint: nat, i: nat)
    ensures |PointItems(points, currentPoint)| == |points|
    ensures i < |points| ==> PointItems(points, currentPoint)[i] == PointItem(points[i], currentPoint == i)
  {
    if points != [] {
      PointItemsAt(points[..|points| - 1], currentPoint, i);
    }
  }

  lemma {:induction false} SearchRequestIsAnswered(c: Conn, s: Search, seqNo: MissionPlan.Uint16, currentPoint: nat)
    requires !c.gotoActive && c.searchLoading && c.search == Some(s) && seqNo < |s.points| + 3
    ensures |SearchItems(s, currentPoint)| == |s.points| + 3
    ensures SendWaypoint(c, seqNo, currentPoint) == Send(c, MissionItem(seqNo, SearchItems(s, currentPoint)[seqNo]))
  {
    PointItemsAt(s.points, currentPoint, if seqNo < 2 then 0 else seqNo - 2);
  }

  lemma {:induction false} AnswersExtend(items: seq<Waypoint>, n: nat)
    requires n < |items| <= 0x1_0000
    ensures Answers(items[..n + 1]) == Answers(items[..n]) + [MissionItem(n, items[n])]
  {
    assert items[..n + 1][..n] == items[..n];
  }

  lemma {:induction false} SendExtends(c: Conn, items: seq<Waypoint>, n: nat)
    requires n < |items| <= 0x1_0000
    ensures Send(c.(sent := c.sent + Answers(items[..n])), MissionItem(n, items[n]))
         == c.(sent := c.sent + Answers(items[..n + 1]))
  {
    AnswersExtend(items, n);
    assert (c.sent + Answers(items[..n])) + [MissionItem(n, items[n])] == c.sent + Answers(items[..n + 1]);
  }

  lemma {:induction false} SearchIsServedUpTo(c: Conn, s: Search, items: seq<Waypoint>, n: nat, currentPoint: nat)
    requires !c.gotoActive && c.searchLoading && c.search == Some(s)
    requires n <= |s.points| + 3 == |SearchItems(s, currentPoint)| && n <= 0x1_0000
    requires items == SearchItems(s, currentPoint)[..n]
    ensures ServeAll(c, n, currentPoint) == c.(sent := c.sent + Answers(items))
  {
    if n > 0 {
      var before := items[..n - 1];
      SearchIsServedUpTo(c, s, before, n - 1, currentPoint);
      SearchRequestIsAnswered(c.(sent := c.sent + Answers(before)), s, n - 1, currentPoint);
      SendExtends(c, items, n - 1);
      assert items[..n] == items;
    }
  }

  /**
    What a search upload amounts to, from any state: the last message announces a count, and an autopilot that then
    requests that many items in order is sent exactly the search's items, in order, cut off only if the count does
    not fit its field. The current flag is on the point to resume from, and on the second takeoff too when that is
    the first point.
   */
  lemma {:induction false} LoadedSearchIsServed(c: Conn, s: Search, currentPoint: nat)
    requires Inv(c) && !AlreadyLoaded(c, s)
    ensures var loading, count := LoadSearch(c, s), MissionPlan.AdvertisedCount(|s.points|, MissionPlan.SearchMission);
            var items := SearchItems(s, currentPoint);
            && loading.sent != [] && loading.sent[|loading.sent| - 1] == MissionCount(count)
            && count <= |items| == |s.points| + 3
            && SearchHeld(loading)
            && ServeAll(loading, count, currentPoint).sent == loading.sent + Answers(items[..count])
            && (count == |items| <==> |s.points| + 3 < 0x1_0000)
  {
    PointItemsAt(s.points, currentPoint, 0);
    var count := MissionPlan.AdvertisedCount(|s.points|, MissionPlan.SearchMission);
    SearchIsServedUpTo(LoadSearch(c, s), s, SearchItems(s, currentPoint)[..count], count, currentPoint);
  }

  /** Likewise a goto: its own position twice, then home. */
  lemma {:induction false} GotoIsServed(c: Conn, at: Point, currentPoint: nat)
    requires Inv(c)
    ensures var going := CommandGoto(c, at, true);
            && going.sent != [] && going.sent[|going.sent| - 1] == MissionCount(3)
            && SearchHeld(going)
            && ServeAll(going, 3, currentPoint).sent == going.sent + Answers(GotoItems(at))
  {
    var going := CommandGoto(c, at, true);
    var items := GotoItems(at);
    assert items[..0] == [] && items[..3] == items;
    AnswersExtend(items, 0);
    AnswersExtend(items, 1);
    AnswersExtend(items, 2);
    assert ServeAll(going, 1, currentPoint) == Send(going, MissionItem(0, items[0]));
    assert ServeAll(going, 2, currentPoint) == Send(ServeAll(going, 1, currentPoint), MissionItem(1, items[1]));
    assert ServeAll(going, 3, currentPoint) == Send(ServeAll(going, 2, currentPoint), MissionItem(2, items[2]));
  }

  /**
    Where an accepted mission starts: a goto at its first item, a search at the item its upload flagged current, which
    is the point to resume from; and AUTO follows.
   */
  lemma {:induction false} AcceptedMissionStarts(c: Conn, currentPoint: nat)
    requires Inv(c) && c.open.Some? && c.typeKnown
    ensures var start := if c.open.value.GotoUpload? then 0 else MissionPlan.PointSeq(currentPoint);
            && MissionAck(c, true, currentPoint).sent == c.sent + [SetCurrent(start), SetMode(ModeAuto)]
            && (c.open.value.SearchUpload? && currentPoint < |c.open.value.search.points|
                && currentPoint + MissionPlan.FIRST_POINT < 0x1_0000 ==>
                  var s := c.open.value.search;
                  start < |SearchItems(s, currentPoint)|
                  && SearchItems(s, currentPoint)[start] == PointItem(s.points[currentPoint], true))
  {
    AckIs(c, true, currentPoint);
    if c.open.value.SearchUpload? {
      PointItemsAt(c.open.value.search.points, currentPoint, currentPoint);
    }
  }

  // ---------------------------------------------------------------------------
  // How long an upload stands, and which search is held
  // ---------------------------------------------------------------------------

  /** What a run can leave standing: a goto being served, its upload open, a search's upload open, or a search held. */
  datatype Standing = GotoServed | GotoAwaited | SearchUploading | SearchKept

  predicate Stands(c: Conn, what: Standing) {
    match what
    case GotoServed => c.gotoActive
    case GotoAwaited => c.gotoAckPending && c.open == Some(GotoUpload(c.gotoPosition))
    case SearchUploading => c.searchLoading && c.search.Some? && c.open == Some(SearchUpload(c.search.value))
    case SearchKept => c.search.Some?
  }

  /** `loaded`: the search handed over is loaded already. */
  predicate StartsIt(call: Call, what: Standing, loaded: bool) {
    match what
    case GotoServed => call.Goto?
    case GotoAwaited => call.Goto? && call.countSent
    case SearchUploading => call.Load? && !loaded
    case SearchKept => call.Load?
  }

  /** A handler after which no upload or goto that stood does so any longer, whatever starts anew. */
  predicate Supersedes(call: Call, loaded: bool, restarted: bool) {
    match call
    case TakeOver(_) => true
    case Goto(_, _) => true
    case Disarm(_) => true
    case Terminate => true
    case Load(_) => !loaded
    case BootTime(_) => restarted
    case _ => false
  }

  /**
    A handler after which what stood does so no longer. An acknowledgement ends what it was awaited for, and losing the
    link the wait for a goto's; a search is let go when its upload is superseded or rejected.
   */
  predicate EndsIt(c: Conn, call: Call, what: Standing, loaded: bool, restarted: bool) {
    match what
    case GotoServed => Supersedes(call, loaded, restarted) || (call.Ack? && c.gotoAckPending)
    case GotoAwaited => Supersedes(call, loaded, restarted) || call.Ack? || call.LinkDown?
    case SearchUploading => Supersedes(call, loaded, restarted) || call.Ack?
    case SearchKept => c.searchLoading && (Supersedes(call, loaded, restarted) || (call.Ack? && !call.accepted))
  }

  /** Whether the call hands over the search that is loaded. */
  predicate HandsLoaded(c: Conn, call: Call) {
    call.Load? && c.searchLoaded && c.search == Some(call.search)
  }

  /** Whether the call reports an uptime that has gone back more than the margin. */
  predicate GoesBack(c: Conn, call: Call) {
    call.BootTime? && 0 < call.bootMs && call.bootMs + RESTART_MARGIN_MS < c.lastBoot
  }

  predicate Starts(c: Conn, call: Call, what: Standing) {
    StartsIt(call, what, HandsLoaded(c, call))
  }

  predicate Ends(c: Conn, call: Call, what: Standing) {
    EndsIt(c, call, what, HandsLoaded(c, call), GoesBack(c, call))
  }

  lemma {:induction false} AckStands(c: Conn, call: Call, what: Standing)
    requires Inv(c) && call.Ack?
    ensures Stands(Handle(c, call), what) <==> Starts(c, call, what) || (Stands(c, what) && !Ends(c, call, what))
  {
    AckIs(c, call.accepted, call.currentPoint);
  }

  lemma {:induction false} UploadStands(c: Conn, call: Call, what: Standing)
    requires Inv(c) && (call.Goto? || call.Load?)
    ensures Stands(Handle(c, call), what) <==> Starts(c, call, what) || (Stands(c, what) && !Ends(c, call, what))
  {
  }

  lemma {:induction false} DropStands(c: Conn, call: Call, what: Standing)
    requires Inv(c) && (call.TakeOver? || call.Disarm? || call.Terminate? || call.BootTime?)
    ensures Stands(Handle(c, call), what) <==> Starts(c, call, what) || (Stands(c, what) && !Ends(c, call, what))
  {
  }

  lemma {:induction false} StepStands(c: Conn, call: Call, what: Standing)
    requires Inv(c)
    ensures Stands(Handle(c, call), what) <==> Starts(c, call, what) || (Stands(c, what) && !Ends(c, call, what))
  {
    match call
    case Ack(_, _) => AckStands(c, call, what);
    case Goto(_, _) => UploadStands(c, call, what);
    case Load(_) => UploadStands(c, call, what);
    case TakeOver(_) => DropStands(c, call, what);
    case Disarm(_) => DropStands(c, call, what);
    case Terminate => DropStands(c, call, what);
    case BootTime(_) => DropStands(c, call, what);
    case _ =>
  }

  /** Which calls of a run ended what stood. */
  function Endings(calls: seq<Call>, what: Standing): (ends: seq<bool>)
    ensures |ends| == |calls|
  {
    if calls == [] then []
    else
      var before, call := calls[..|calls| - 1], calls[|calls| - 1];
      Endings(before, what) + [Ends(Run(before), call, what)]
  }

  /** Which calls of a run started it. */
  function Startings(calls: seq<Call>, what: Standing): (starts: seq<bool>)
    ensures |starts| == |calls|
  {
    if calls == [] then []
    else
      var before, call := calls[..|calls| - 1], calls[|calls| - 1];
      Startings(before, what) + [Starts(Run(before), call, what)]
  }

  lemma {:induction false} RunStands(calls: seq<Call>, before: seq<Call>, what: Standing)
    requires calls != [] && before == calls[..|calls| - 1]
    ensures var c, call := Run(before), calls[|before|];
            Stands(Run(calls), what) <==> Starts(c, call, what) || (Stands(c, what) && !Ends(c, call, what))
  {
    StepStands(Run(before), calls[|before|], what);
  }

  /** Call `k` started what no later call has ended. */
  ghost predicate StandsSince(calls: seq<Call>, what: Standing, k: nat) {
    Unended(Startings(calls, what), Endings(calls, what), k)
  }

  lemma {:induction false} StandsExtends(before: seq<Call>, call: Call, what: Standing)
    ensures (exists k :: StandsSince(before + [call], what, k)) <==>
            || Starts(Run(before), call, what)
            || (!Ends(Run(before), call, what) && exists k :: StandsSince(before, what, k))
  {
    var calls := before + [call];
    var starts, ends := Startings(before, what), Endings(before, what);
    var start, end := Starts(Run(before), call, what), Ends(Run(before), call, what);
    assert calls[..|before|] == before;
    assert Startings(calls, what) == starts + [start] && Endings(calls, what) == ends + [end];
    UnendedExtends(starts, ends, start, end);
    assert forall k :: StandsSince(before, what, k) <==> Unended(starts, ends, k);
    assert forall k :: StandsSince(calls, what, k) <==> Unended(starts + [start], ends + [end], k);
  }

  lemma {:induction false} OneMoreCall(calls: seq<Call>, before: seq<Call>, c: Conn, what: Standing, stands: bool)
    requires calls != [] && before == calls[..|calls| - 1] && c == Run(before) && stands == Stands(Run(calls), what)
    requires Stands(c, what) <==> exists k :: StandsSince(before, what, k)
    ensures stands <==> exists k :: StandsSince(calls, what, k)
  {
    RunStands(calls, before, what);
    StandsExtends(before, calls[|before|], what);
    assert before + [calls[|before|]] == calls;
  }

  lemma {:induction false} RunStandsSince(calls: seq<Call>, c: Conn, what: Standing)
    requires c == Run(calls)
    ensures Stands(c, what) <==> exists k :: StandsSince(calls, what, k)
  {
    if calls != [] {
      var before := calls[..|calls| - 1];
      RunStandsSince(before, Run(before), what);
      OneMoreCall(calls, before, Run(before), what, Stands(c, what));
    }
  }

  /**
    Over every run a goto is being served, a goto's or a search's upload is open, and a search is held, each exactly
    when some call started it and none since has ended it. Losing the link ends only the wait for a goto's
    acknowledgement; heartbeats, requests and altitudes end nothing.
   */
  lemma {:induction false} StandsExactlyWhen(calls: seq<Call>, what: Standing)
    ensures Stands(Run(calls), what) <==> exists k :: StandsSince(calls, what, k)
  {
    RunStandsSince(calls, Run(calls), what);
  }

  /** How a handler closes the upload `u` that was open, if it does. */
  function ClosedBy(c: Conn, call: Call, u: Upload): seq<Entry> {
    match call
    case Ack(accepted, _) => [Closed(u, if accepted then Accepted else Rejected)]
    case LinkDown => if u.GotoUpload? then [Closed(u, LinkLost)] else []
    case _ => if Supersedes(call, HandsLoaded(c, call), GoesBack(c, call)) then [Closed(u, Dropped)] else []
  }

  /** The upload a handler opens, if any. */
  function OpenedBy(c: Conn, call: Call): seq<Entry> {
    match call
    case Goto(at, countSent) => if countSent then [Opened(GotoUpload(at))] else []
    case Load(s) => if HandsLoaded(c, call) then [] else [Opened(SearchUpload(s))]
    case _ => []
  }

  /**
    Each close has its cause: the upload open is closed as accepted or rejected by an acknowledgement, as lost only with
    the link and only if it is a goto, and as dropped only by a call that supersedes it; an accepted one is followed by
    AUTO; and the call may open its own.
   */
  lemma {:induction false} EachCloseHasItsCause(c: Conn, call: Call)
    requires Inv(c)
    ensures var closed := if c.open.Some? then ClosedBy(c, call, c.open.value) else [];
            var auto := if c.open.Some? && call.Ack? && call.accepted then [AutoCommanded] else [];
            Handle(c, call).ledger == c.ledger + closed + auto + OpenedBy(c, call)
  {
    if call.Ack? {
      AckIs(c, call.accepted, call.currentPoint);
    }
  }

  /** The search last handed over for loading. */
  function LastLoad(calls: seq<Call>): Option<Search> {
    if calls == [] then None
    else if calls[|calls| - 1].Load? then Some(calls[|calls| - 1].search)
    else LastLoad(calls[..|calls| - 1])
  }

  /** A search held, and one whose upload is open, is `last`. */
  predicate HoldsOnly(c: Conn, last: Option<Search>) {
    && (c.search.Some? ==> c.search == last)
    && (c.open.Some? && c.open.value.SearchUpload? ==> last == Some(c.open.value.search))
  }

  lemma {:induction false} AckHoldsOnly(c: Conn, accepted: bool, currentPoint: nat, last: Option<Search>)
    requires Inv(c) && HoldsOnly(c, last)
    ensures HoldsOnly(MissionAck(c, accepted, currentPoint), last)
  {
    AckIs(c, accepted, currentPoint);
  }

  lemma {:induction false} StepHoldsOnly(c: Conn, call: Call, last: Option<Search>)
    requires Inv(c) && HoldsOnly(c, last)
    ensures HoldsOnly(Handle(c, call), if call.Load? then Some(call.search) else last)
  {
    if call.Ack? {
      AckHoldsOnly(c, call.accepted, call.currentPoint, last);
    }
  }

  /** Over every run the search held, and any search whose upload is open, is the one last handed over for loading. */
  lemma {:induction false} HeldSearchIsTheLastLoaded(calls: seq<Call>)
    ensures HoldsOnly(Run(calls), LastLoad(calls))
  {
    if calls != [] {
      HeldSearchIsTheLastLoaded(calls[..|calls| - 1]);
      StepHoldsOnly(Run(calls[..|calls| - 1]), calls[|calls| - 1], LastLoad(calls[..|calls| - 1]));
    }
  }

  // ---------------------------------------------------------------------------
  // What the connection retains of the autopilot
  // ---------------------------------------------------------------------------

  /** The last uptime the autopilot reported, 0 if it has reported none. */
  function LastUptime(calls: seq<Call>): nat {
    if calls == [] then 0
    else
      var last := calls[|calls| - 1];
      if last.BootTime? && last.bootMs != 0 then last.bootMs else LastUptime(calls[..|calls| - 1])
  }

  /** Whether the last heartbeat told the autopilot's type. */
  predicate TypeTold(calls: seq<Call>) {
    if calls == [] then false
    else
      var last := calls[|calls| - 1];
      if last.Beat? then last.known else TypeTold(calls[..|calls| - 1])
  }

  ghost predicate Retains(c: Conn, uptime: nat, told: bool) {
    c.lastBoot == uptime && c.typeKnown == told && (c.pendingMode.Some? ==> !c.typeKnown)
  }

  lemma {:induction false} AckRetains(c: Conn, accepted: bool, currentPoint: nat)
    requires Inv(c) && Retains(c, c.lastBoot, c.typeKnown)
    ensures Retains(MissionAck(c, accepted, currentPoint), c.lastBoot, c.typeKnown)
  {
    AckIs(c, accepted, currentPoint);
  }

  lemma {:induction false} UploadRetains(c: Conn, call: Call)
    requires Inv(c) && Retains(c, c.lastBoot, c.typeKnown) && (call.Goto? || call.Load? || call.TakeOver?)
    ensures Retains(Handle(c, call), c.lastBoot, c.typeKnown)
  {
  }

  lemma {:induction false} StepRetains(c: Conn, call: Call, uptime: nat, told: bool)
    requires Inv(c) && Retains(c, uptime, told)
    ensures Retains(Handle(c, call), if call.BootTime? && call.bootMs != 0 then call.bootMs else uptime,
                    if call.Beat? then call.known else told)
  {
    if call.Ack? {
      AckRetains(c, call.accepted, call.currentPoint);
    } else if call.Goto? || call.Load? || call.TakeOver? {
      UploadRetains(c, call);
    }
  }

  lemma {:induction false} RunRetains(calls: seq<Call>)
    ensures Retains(Run(calls), LastUptime(calls), TypeTold(calls))
  {
    if calls != [] {
      var before := calls[..|calls| - 1];
      RunRetains(before);
      StepRetains(Run(before), calls[|calls| - 1], LastUptime(before), TypeTold(before));
    }
  }

  /**
    Over every run a restart is judged against the last uptime reported: an uptime that goes back more than the margin
    drops whatever upload was in flight and unloads the search, and any other is only remembered.
   */
  lemma {:induction false} RestartsAreSeen(calls: seq<Call>, bootMs: nat)
    ensures var c, last := Run(calls), LastUptime(calls);
            var c' := Handle(c, BootTime(bootMs));
            if last != 0 && bootMs != 0 && bootMs + RESTART_MARGIN_MS < last
            then c' == DropUpload(c).(lastBoot := bootMs) && Idle(c')
            else c' == c.(lastBoot := if bootMs == 0 then last else bootMs)
  {
    RunRetains(calls);
    DropAccounts(Run(calls));
  }

  /** Over every run a mode waits only while the last heartbeat has not told the autopilot's type. */
  lemma {:induction false} DeferralEndsWithTheType(calls: seq<Call>)
    ensures Run(calls).typeKnown == TypeTold(calls)
    ensures TypeTold(calls) ==> Run(calls).pendingMode.None?
  {
    RunRetains(calls);
  }

  // ---------------------------------------------------------------------------
  // The connection object
  // ---------------------------------------------------------------------------

  /** `mav_connection` as far as uploads and mode changes go. `outbox` is what the link has been handed. */
  class MavConnection {
    var gotoActive: bool
    var gotoPosition: Point
    var gotoAckPending: bool
    var search: Option<Search>
    var searchLoading: bool
    var searchLoaded: bool
    var pendingMode: Option<Mode>
    var typeKnown: bool
    var lastBoot: nat
    var outbox: seq<Msg>
    ghost var open: Option<Upload>
    ghost var ledger: seq<Entry>

    ghost function View(): Conn
      reads this
    {
      Conn(gotoActive, gotoPosition, gotoAckPending, search, searchLoading, searchLoaded, pendingMode, typeKnown,
           lastBoot, open, outbox, ledger)
    }

    ghost predicate Valid()
      reads this
    {
      Inv(View()) && Accounted(View())
    }

    constructor ()
      ensures View() == INITIAL && Valid()
    {
      gotoActive, gotoPosition, gotoAckPending := false, Point(0.0, 0.0), false;
      search, searchLoading, searchLoaded := None, false, false;
      pendingMode, typeKnown, lastBoot, outbox := None, false, 0, [];
      open, ledger := None, [];
    }

    method InvalidateInFlightUpload() returns (wasInFlight: bool)
      modifies this
      ensures View() == DropUpload(old(View()))
      ensures wasInFlight == old(gotoAckPending || searchLoading)
    {
      wasInFlight := gotoAckPending || searchLoading;
      if searchLoading {
        search := None;
      }
      gotoActive := false;
      gotoAckPending := false;
      searchLoading := false;
      searchLoaded := false;
      ledger := CloseOpen(View(), Dropped);
      open := None;
    }

    method SendMsg(m: Msg)
      modifies this`outbox
      ensures View() == Send(old(View()), m)
    {
      outbox := outbox + [m];
    }

    method SetMode(mode: Mode, clear: bool)
      modifies this
      ensures View() == SetResolvedMode(old(View()), mode, clear)
    {
      if !typeKnown {
        pendingMode := Some(mode);
        if clear {
          var _ := InvalidateInFlightUpload();
        }
        return;
      }
      SendMsg(Msg.SetMode(mode));
      pendingMode := None;
      if clear {
        var _ := InvalidateInFlightUpload();
      }
    }

    method CommandGotoTo(at: Point, countSent: bool)
      modifies this
      ensures View() == CommandGoto(old(View()), at, countSent)
    {
      SetMode(ModeRtl, true);
      gotoPosition := at;
      gotoActive := true;
      searchLoaded := false;
      SendMsg(MissionCount(MissionPlan.AdvertisedCount(0, MissionPlan.GotoMission)));
      if countSent {
        gotoAckPending := true;
        open := Some(GotoUpload(at));
        ledger := ledger + [Opened(GotoUpload(at))];
      }
    }

    method CommandDisarm(force: bool)
      modifies this
      ensures View() == DropUpload(Send(old(View()), ArmDisarm(force)))
    {
      SendMsg(ArmDisarm(force));
      var _ := InvalidateInFlightUpload();
    }

    method CommandTerminate()
      modifies this
      ensures View() == DropUpload(Send(old(View()), FlightTermination))
    {
      SendMsg(FlightTermination);
      var _ := InvalidateInFlightUpload();
    }

    method UploadSearch(s: Search)
      modifies this
      ensures View() == Send(BeginSearch(SetResolvedMode(old(View()), ModeRtl, true), s),
                             MissionCount(MissionPlan.AdvertisedCount(|s.points|, MissionPlan.SearchMission)))
    {
      SetMode(ModeRtl, true);
      ledger := CloseOpen(View(), Dropped) + [Opened(SearchUpload(s))];
      open := Some(SearchUpload(s));
      gotoActive := false;
      gotoAckPending := false;
      searchLoaded := false;
      search := Some(s);
      searchLoading := true;
      SendMsg(MissionCount(MissionPlan.AdvertisedCount(|s.points|, MissionPlan.SearchMission)));
    }

    method Load(s: Search)
      modifies this
      ensures View() == LoadSearch(old(View()), s)
    {
      var needReload := false;
      if search != Some(s) || !searchLoaded {
        search := Some(s);
        needReload := true;
      }
      if needReload {
        UploadSearch(s);
      }
    }

    method ReplayPendingMode(known: bool)
      modifies this
      ensures View() == Heartbeat(old(View()), known)
    {
      typeKnown := known;
      var command := pendingMode;
      if command.None? || !known {
        return;
      }
      SendMsg(Msg.SetMode(command.value));
      if pendingMode == command {
        pendingMode := None;
      }
      if command.value != ModeAuto {
        searchLoaded := false;
      }
    }

    method CommandAutoMode()
      modifies this
      ensures View() == CommandAuto(old(View()))
    {
      ledger := ledger + [AutoCommanded];
      SetMode(ModeAuto, false);
    }

    method TakeAckLocked(accepted: bool, currentPoint: nat)
      returns (gotoSetCurrent: bool, searchSetCurrent: bool, searchSeq: MissionPlan.Uint16)
      modifies this
      ensures View() == TakeAck(old(View()), accepted)
      ensures gotoSetCurrent == (old(gotoAckPending) && accepted)
      ensures searchSetCurrent == (old(searchLoading) && accepted)
      ensures searchSetCurrent ==> searchSeq == if search.Some? then MissionPlan.PointSeq(currentPoint) else 0
    {
      gotoSetCurrent, searchSetCurrent, searchSeq := false, false, 0;
      ledger := CloseOpen(View(), if accepted then Accepted else Rejected);
      open := None;
      var gotoWasPending := gotoAckPending;
      gotoAckPending := false;
      if gotoWasPending {
        gotoActive := false;
        if accepted {
          gotoSetCurrent := true;
        }
      }
      if searchLoading {
        searchLoading := false;
        if accepted {
          searchLoaded := true;
          searchSetCurrent := true;
          if search.Some? {
            searchSeq := MissionPlan.PointSeq(currentPoint);
          }
        } else {
          search := None;
        }
      }
    }

    method AckMission(accepted: bool, currentPoint: nat)
      modifies this
      ensures View() == MissionAck(old(View()), accepted, currentPoint)
    {
      var gotoSetCurrent, searchSetCurrent, searchSeq := TakeAckLocked(accepted, currentPoint);
      if gotoSetCurrent {
        SendMsg(SetCurrent(0));
        CommandAutoMode();
      }
      if searchSetCurrent {
        SendMsg(SetCurrent(searchSeq));
        CommandAutoMode();
      }
    }

    method ServeWaypoint(seqNo: MissionPlan.Uint16, currentPoint: nat)
      requires SearchHeld(View())
      modifies this`outbox
      ensures View() == SendWaypoint(old(View()), seqNo, currentPoint)
    {
      if !gotoActive && !searchLoading {
        return;
      }
      var points := if search.Some? then |search.value.points| else 0;
      var mode := if gotoActive then MissionPlan.GotoMission else MissionPlan.SearchMission;
      match MissionPlan.ItemFor(seqNo, points, mode) {
        case ReturnHome => SendMsg(MissionItem(seqNo, HomeItem));
        case GotoWaypoint => SendMsg(MissionItem(seqNo, GotoItem(gotoPosition)));
        case Takeoff => SendMsg(MissionItem(seqNo, TakeoffItem(seqNo == 1 && currentPoint == 0)));
        case SearchPoint(i) => SendMsg(MissionItem(seqNo, PointItem(search.value.points[i], currentPoint == i)));
      }
    }

    method TimeBoot(bootMs: nat) returns (restarted: bool)
      modifies this
      ensures View() == NoteTimeBoot(old(View()), bootMs)
      ensures restarted <==> Restarted(old(lastBoot), bootMs)
    {
      restarted := false;
      if bootMs == 0 {
        return;
      }
      if lastBoot != 0 && bootMs < lastBoot && lastBoot - bootMs > RESTART_MARGIN_MS {
        restarted := true;
        var _ := InvalidateInFlightUpload();
      }
      lastBoot := bootMs;
    }

    method LinkWentDown() returns (gotoLost: bool)
      modifies this
      ensures View() == LoseGotoAck(old(View()))
      ensures gotoLost == old(gotoAckPending)
    {
      gotoLost := gotoAckPending;
      if gotoLost {
        ledger := CloseOpen(View(), LinkLost);
        open := None;
      }
      gotoAckPending := false;
    }

    /** Any handler, on a connection whose uploads are accounted for, leaves it so. */
    method Perform(call: Call)
      requires Valid()
      modifies this
      ensures View() == Handle(old(View()), call)
      ensures Valid()
    {
      HandleAccounts(View(), call);
      match call {
        case TakeOver(mode) => SetMode(mode, true);
        case Goto(at, countSent) => CommandGotoTo(at, countSent);
        case Disarm(force) => CommandDisarm(force);
        case Terminate => CommandTerminate();
        case Altitude(feet) => SendMsg(ChangeAltitude(feet));
        case Load(s) => Load(s);
        case Beat(known) => ReplayPendingMode(known);
        case Ack(accepted, currentPoint) => AckMission(accepted, currentPoint);
        case Request(seqNo, currentPoint) => ServeWaypoint(seqNo, currentPoint);
        case BootTime(bootMs) => var _ := TimeBoot(bootMs);
        case LinkDown => var _ := LinkWentDown();
      }
    }
  }
}
