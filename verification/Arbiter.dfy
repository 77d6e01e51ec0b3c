/**
  The state machine, the event dispatcher and the upload machine composed: every transition's side
  effects on the autopilot connection and on the SMM searching role, with each handler one atomic step.
 */
module Arbiter {
  import opened FmuTypes
  import SM = StateMachine
  import MU = MissionUpload

  datatype TerminateAction = FallBackToRtl | ForceDisarm | TerminateFlight

  datatype Config = Config(machine: SM.Config, terminateAction: TerminateAction, lowBatteryThreshold: int)

  /** `role` is the SMM searching role; `actions` lists the states `actionState` has been run for. */
  datatype System = System(machine: SM.Machine, conn: MU.Conn, role: bool, actions: seq<FmuState>)

  const INITIAL := System(SM.INITIAL, MU.INITIAL, false, [])

  /** The queued events the state machine or the autopilot connection reacts to. */
  datatype Event =
    | FssCommandEvent(cmd: FssCommand, target: Target)
    | FssCommsEvent(failed: bool)
    | MavCommsEvent(failed: bool)
    | AutopilotRestartEvent
    | PositionEvent(fixValid: bool, agl: Number)
    | BatteryEvent(remaining: int)
    | ReachedEvent(point: nat)
    | SmmLoadSearchEvent(search: MU.Search)
    | SmmRtlEvent
    | SmmOperatorEvent(smm: SmmCommand)

  /** A dispatched event, or a handler of the autopilot connection's own threads. */
  datatype Step = Dispatch(event: Event, countSent: bool) | Mav(call: MU.Call) {
    predicate Legal() {
      Mav? ==> call.Inbound() || call.LinkDown?
    }
  }

  /** What the connection is told on entering or re-asserting a state; searching is left to SMM. */
  function ActionCall(cfg: Config, state: FmuState, target: Target, countSent: bool): Option<MU.Call> {
    match state
    case Manual => Some(MU.TakeOver(MU.ModeManual))
    case Searching => None
    case Rtl => Some(MU.TakeOver(MU.ModeRtl))
    case Failsafe => Some(MU.TakeOver(MU.ModeRtl))
    case LowBattery => Some(MU.TakeOver(MU.ModeRtl))
    case WaitingForTasking => Some(MU.TakeOver(MU.ModeRtl))
    case GotoPoint => Some(MU.Goto(target.position, countSent))
    case Hold => Some(MU.TakeOver(MU.ModeHold))
    case AltitudeAdjust => Some(MU.Altitude(target.altitude))
    case Disarmed => Some(MU.Disarm(false))
    case Terminated =>
      match cfg.terminateAction
      case FallBackToRtl => Some(MU.TakeOver(MU.ModeRtl))
      case ForceDisarm => Some(MU.Disarm(true))
      case TerminateFlight => Some(MU.Terminate)
  }

  function ActionState(cfg: Config, s: System, state: FmuState, countSent: bool): System
    requires MU.Inv(s.conn)
  {
    var call := ActionCall(cfg, state, s.machine.target, countSent);
    s.(role := state == Searching || (state == WaitingForTasking && s.role),
       conn := if call.Some? then MU.Handle(s.conn, call.value) else s.conn,
       actions := s.actions + [state])
  }

  function ApplyInput(cfg: Config, s: System, input: SM.Input, countSent: bool): System
    requires MU.Inv(s.conn)
  {
    var action := SM.ActionOf(cfg.machine, s.machine, input);
    var s' := s.(machine := SM.Step(cfg.machine, s.machine, input));
    if action.Some? then ActionState(cfg, s', action.value, countSent) else s'
  }

  /** The state-machine call an event turns into, if any. */
  function InputOf(cfg: Config, current: FmuState, e: Event): Option<SM.Input> {
    match e
    case FssCommandEvent(cmd, target) => Some(SM.FssCmd(cmd, target))
    case FssCommsEvent(failed) => Some(SM.FssComms(failed))
    case MavCommsEvent(failed) => Some(SM.MavComms(failed))
    case AutopilotRestartEvent => Some(SM.Reassert)
    case PositionEvent(fixValid, agl) => Some(SM.Altitude(fixValid, agl))
    case BatteryEvent(remaining) => Some(SM.Battery(0 <= remaining < cfg.lowBatteryThreshold))
    case ReachedEvent(_) => None
    case SmmLoadSearchEvent(_) => if current == WaitingForTasking then Some(SM.SmmCmd(SmmNone)) else None
    case SmmRtlEvent => Some(SM.SmmCmd(SmmMissionComplete))
    case SmmOperatorEvent(smm) => Some(SM.SmmCmd(smm))
  }

  function DispatchEvent(cfg: Config, s: System, e: Event, countSent: bool): System
    requires MU.Inv(s.conn)
  {
    var input := InputOf(cfg, s.machine.current, e);
    if input.Some? then ApplyInput(cfg, s, input.value, countSent)
    else if e.SmmLoadSearchEvent? && s.machine.current == Searching then s.(conn := MU.LoadSearch(s.conn, e.search))
    else s
  }

  function Next(cfg: Config, s: System, step: Step): System
    requires MU.Inv(s.conn)
  {
    match step
    case Dispatch(e, countSent) => DispatchEvent(cfg, s, e, countSent)
    case Mav(call) => s.(conn := MU.Handle(s.conn, call))
  }

  // ---------------------------------------------------------------------------
  // What every step keeps
  // ---------------------------------------------------------------------------

  /** The states in which the FMU itself flies, or leaves flying, an uploaded mission. */
  predicate FliesMission(state: FmuState) {
    state == Searching || state == GotoPoint || state == AltitudeAdjust
  }

  /** The states entered by a command that is not a mode change. */
  predicate IsShutdown(state: FmuState) {
    state == Disarmed || state == Terminated
  }

  predicate Quiet(s: System) {
    && (!FliesMission(s.machine.current) ==> MU.Idle(s.conn))
    && (!FliesMission(s.machine.current) && !IsShutdown(s.machine.current) ==> s.conn.pendingMode != Some(MU.ModeAuto))
  }

  predicate RoleFollowsState(s: System) {
    && (s.role ==> s.machine.current == Searching || s.machine.current == WaitingForTasking)
    && (s.machine.current == Searching ==> s.role)
  }

  /** The last action was for the current state; before any, nothing has been evaluated. */
  predicate LastActionIsCurrent(s: System) {
    if s.actions == []
    then s.machine.current == Manual && s.machine.fssLost && s.machine.fssCommand == CmdUnknown
    else s.actions[|s.actions| - 1] == s.machine.current
  }

  ghost predicate Inv(s: System) {
    MU.Inv(s.conn) && MU.Accounted(s.conn) && Quiet(s) && RoleFollowsState(s) && LastActionIsCurrent(s)
  }

  lemma {:induction false} TakeOverQuiets(c: MU.Conn, mode: MU.Mode)
    requires MU.Accounted(c) && mode != MU.ModeAuto
    ensures var c' := MU.SetResolvedMode(c, mode, true); MU.Idle(c') && c'.pendingMode != Some(MU.ModeAuto)
  {
  }

  /** Acting on a state, whatever the connection was doing, makes the connection fit that state. */
  lemma {:induction false} ActionFits(cfg: Config, s: System, state: FmuState, countSent: bool)
    requires MU.Inv(s.conn) && MU.Accounted(s.conn) && state == s.machine.current
    ensures Inv(ActionState(cfg, s, state, countSent))
  {
    var call := ActionCall(cfg, state, s.machine.target, countSent);
    if call.Some? {
      MU.HandleAccounts(s.conn, call.value);
      if call.value.TakeOver? {
        TakeOverQuiets(s.conn, call.value.mode);
      }
    }
  }

  /** An input that leaves a never-evaluated machine in its initial state has not been evaluated either. */
  lemma {:induction false} FirstEvaluationActs(cfg: Config, m: SM.Machine, input: SM.Input)
    requires m.current == Manual && m.fssLost && m.fssCommand == CmdUnknown
    requires SM.Step(cfg.machine, m, input).current == Manual
    ensures SM.Step(cfg.machine, m, input).fssLost && SM.Step(cfg.machine, m, input).fssCommand == CmdUnknown
  {
  }

  lemma {:induction false} InputKeepsInv(cfg: Config, s: System, input: SM.Input, countSent: bool)
    requires Inv(s)
    ensures Inv(ApplyInput(cfg, s, input, countSent))
  {
    var action := SM.ActionOf(cfg.machine, s.machine, input);
    var s' := s.(machine := SM.Step(cfg.machine, s.machine, input));
    if action.Some? {
      ActionFits(cfg, s', action.value, countSent);
    } else {
      assert s'.machine.current == s.machine.current;
      if s.actions == [] {
        FirstEvaluationActs(cfg, s.machine, input);
      }
    }
  }

  /** With nothing open or loaded, no handler of the connection's own threads opens or loads anything. */
  lemma {:induction false} IdleStaysIdle(c: MU.Conn, call: MU.Call)
    requires MU.Inv(c) && MU.Idle(c) && (call.Inbound() || call.LinkDown?)
    ensures MU.Idle(MU.Handle(c, call))
    ensures c.pendingMode != Some(MU.ModeAuto) ==> MU.Handle(c, call).pendingMode != Some(MU.ModeAuto)
  {
  }

  lemma {:induction false} LoadKeepsInv(s: System, search: MU.Search)
    requires Inv(s) && s.machine.current == Searching
    ensures Inv(s.(conn := MU.LoadSearch(s.conn, search)))
  {
    MU.LoadAccounts(s.conn, search);
  }

  lemma {:induction false} MavKeepsInv(s: System, call: MU.Call)
    requires Inv(s) && (call.Inbound() || call.LinkDown?)
    ensures Inv(s.(conn := MU.Handle(s.conn, call)))
  {
    MU.HandleAccounts(s.conn, call);
    if MU.Idle(s.conn) {
      IdleStaysIdle(s.conn, call);
    }
  }

  lemma {:induction false} NextKeepsInv(cfg: Config, s: System, step: Step)
    requires Inv(s) && step.Legal()
    ensures Inv(Next(cfg, s, step))
  {
    match step {
      case Dispatch(e, countSent) =>
        var input := InputOf(cfg, s.machine.current, e);
        if input.Some? {
          InputKeepsInv(cfg, s, input.value, countSent);
        } else if e.SmmLoadSearchEvent? && s.machine.current == Searching {
          LoadKeepsInv(s, e.search);
        }
      case Mav(call) => MavKeepsInv(s, call);
    }
  }

  predicate AllLegal(steps: seq<Step>) {
    forall i :: 0 <= i < |steps| ==> steps[i].Legal()
  }

  function Run(cfg: Config, steps: seq<Step>): (s: System)
    requires AllLegal(steps)
    ensures Inv(s)
  {
    if steps == [] then INITIAL
    else
      var before := Run(cfg, steps[..|steps| - 1]);
      NextKeepsInv(cfg, before, steps[|steps| - 1]);
      Next(cfg, before, steps[|steps| - 1])
  }

  // ---------------------------------------------------------------------------
  // Main results
  // ---------------------------------------------------------------------------

  /** Handling `call` hands the link an AUTO mode change. */
  ghost predicate SendsAuto(c: MU.Conn, call: MU.Call)
    requires MU.Inv(c)
  {
    var sent := MU.Handle(c, call).sent;
    exists i :: |c.sent| <= i < |sent| && sent[i] == MU.SetMode(MU.ModeAuto)
  }

  /** Exactly which inbound messages engage AUTO: an awaited acceptance, and the heartbeat that releases a deferral. */
  lemma {:induction false} InboundAuto(c: MU.Conn, call: MU.Call)
    requires MU.Inv(c) && call.Inbound()
    ensures SendsAuto(c, call) <==>
            || (call == MU.Beat(true) && c.pendingMode == Some(MU.ModeAuto))
            || (call.Ack? && call.accepted && c.open.Some? && c.typeKnown)
  {
    var sent := MU.Handle(c, call).sent;
    if call == MU.Beat(true) && c.pendingMode == Some(MU.ModeAuto) {
      assert sent[|c.sent|] == MU.SetMode(MU.ModeAuto);
    }
    if call.Ack? && call.accepted && c.open.Some? && c.typeKnown {
      assert sent[|c.sent| + 1] == MU.SetMode(MU.ModeAuto);
    }
  }

  /**
    Safety of the composition. In every reachable state outside searching, goto and altitude adjustment no
    upload is open or served and no search is believed loaded; and an inbound message makes the FMU send AUTO
    there exactly when the aircraft is disarmed or terminated, an AUTO deferred earlier is still pending, and
    the message is the heartbeat that reveals the autopilot's type. In the other states it never does.
   */
  lemma {:induction false} NoMissionOutsideMissionStates(cfg: Config, steps: seq<Step>, call: MU.Call)
    requires AllLegal(steps) && call.Inbound()
    ensures var s := Run(cfg, steps);
            !FliesMission(s.machine.current) ==>
              && !s.conn.gotoActive && !s.conn.gotoAckPending && !s.conn.searchLoading && !s.conn.searchLoaded
              && s.conn.open.None?
              && (SendsAuto(s.conn, call) <==>
                  IsShutdown(s.machine.current) && s.conn.pendingMode == Some(MU.ModeAuto) && call == MU.Beat(true))
  {
    InboundAuto(Run(cfg, steps).conn, call);
  }

  lemma {:induction false} RunExtends(cfg: Config, before: seq<Step>, step: Step)
    requires AllLegal(before) && step.Legal()
    ensures AllLegal(before + [step])
    ensures Run(cfg, before + [step]) == Next(cfg, Run(cfg, before), step)
  {
    assert (before + [step])[..|before|] == before;
  }

  /** First orders from FSS start the search, and SMM's search is uploaded with the autopilot's type still unknown. */
  lemma {:induction false} UploadBeforeHeartbeat(cfg: Config, search: MU.Search)
    ensures var s := Next(cfg, INITIAL, Dispatch(FssCommsEvent(false), true));
            && MU.Inv(s.conn)
            && var s' := Next(cfg, s, Dispatch(SmmLoadSearchEvent(search), true));
            && MU.Inv(s'.conn)
            && s'.conn.searchLoading && !s'.conn.typeKnown && !s'.conn.gotoAckPending
            && s'.machine == SM.INITIAL.(current := Searching, fssLost := false)
  {
  }

  lemma {:induction false} AckDefersAuto(cfg: Config, s: System)
    requires MU.Inv(s.conn) && s.conn.searchLoading && !s.conn.typeKnown
    requires s.machine == SM.INITIAL.(current := Searching, fssLost := false)
    ensures var acked := Next(cfg, s, Mav(MU.Ack(true, 0)));
            && MU.Inv(acked.conn)
            && var disarmed := Next(cfg, acked, Dispatch(FssCommandEvent(CmdDisarm, NO_TARGET), true));
            && disarmed.machine.current == Disarmed && disarmed.conn.pendingMode == Some(MU.ModeAuto)
  {
  }

  lemma {:induction false} LoadingRun(cfg: Config, search: MU.Search) returns (steps: seq<Step>)
    ensures AllLegal(steps)
    ensures var s := Run(cfg, steps);
            && s.conn.searchLoading && !s.conn.typeKnown
            && s.machine == SM.INITIAL.(current := Searching, fssLost := false)
  {
    var s1, s2 := Dispatch(FssCommsEvent(false), true), Dispatch(SmmLoadSearchEvent(search), true);
    RunExtends(cfg, [], s1);
    RunExtends(cfg, [] + [s1], s2);
    UploadBeforeHeartbeat(cfg, search);
    steps := [] + [s1] + [s2];
  }

  /** The exception is real: a run that leaves the aircraft disarmed with an AUTO still to be sent to it. */
  lemma {:induction false} DisarmedCanStillSendAuto(cfg: Config, search: MU.Search) returns (steps: seq<Step>)
    ensures AllLegal(steps)
    ensures Run(cfg, steps).machine.current == Disarmed
    ensures SendsAuto(Run(cfg, steps).conn, MU.Beat(true))
  {
    var loading := LoadingRun(cfg, search);
    var s3, s4 := Mav(MU.Ack(true, 0)), Dispatch(FssCommandEvent(CmdDisarm, NO_TARGET), true);
    RunExtends(cfg, loading, s3);
    RunExtends(cfg, loading + [s3], s4);
    AckDefersAuto(cfg, Run(cfg, loading));
    steps := loading + [s3] + [s4];
    InboundAuto(Run(cfg, steps).conn, MU.Beat(true));
  }

  /** The state-machine inputs a run delivers. */
  function Inputs(cfg: Config, steps: seq<Step>): seq<SM.Input>
    requires AllLegal(steps)
  {
    if steps == [] then []
    else
      var before := steps[..|steps| - 1];
      var step := steps[|steps| - 1];
      var input := if step.Dispatch? then InputOf(cfg, Run(cfg, before).machine.current, step.event) else None;
      Inputs(cfg, before) + if input.Some? then [input.value] else []
  }

  lemma {:induction false} NextRunsItsInput(cfg: Config, s: System, step: Step)
    requires MU.Inv(s.conn)
    ensures var input := if step.Dispatch? then InputOf(cfg, s.machine.current, step.event) else None;
            Next(cfg, s, step).machine
            == if input.Some? then SM.Step(cfg.machine, s.machine, input.value) else s.machine
  {
  }

  lemma {:induction false} MachineRunsItsInputs(cfg: Config, steps: seq<Step>)
    requires AllLegal(steps)
    ensures Run(cfg, steps).machine == SM.Run(cfg.machine, Inputs(cfg, steps))
  {
    if steps != [] {
      var before := steps[..|steps| - 1];
      MachineRunsItsInputs(cfg, before);
      var h := Inputs(cfg, before);
      NextRunsItsInput(cfg, Run(cfg, before), steps[|steps| - 1]);
      var step := steps[|steps| - 1];
      if step.Dispatch? && InputOf(cfg, Run(cfg, before).machine.current, step.event).Some? {
        var h' := h + [InputOf(cfg, Run(cfg, before).machine.current, step.event).value];
        assert Inputs(cfg, steps) == h' && h'[..|h|] == h;
      } else {
        assert Inputs(cfg, steps) == h;
      }
    }
  }

  // ---------------------------------------------------------------------------
  // What the events of a run say
  // ---------------------------------------------------------------------------

  function OperatorsCommand(steps: seq<Step>): FssCommand {
    if steps == [] then CmdUnknown
    else
      var last := steps[|steps| - 1];
      if last.Dispatch? && last.event.FssCommandEvent? then last.event.cmd else OperatorsCommand(steps[..|steps| - 1])
  }

  function OperatorsTarget(steps: seq<Step>): Target {
    if steps == [] then NO_TARGET
    else
      var last := steps[|steps| - 1];
      if last.Dispatch? && last.event.FssCommandEvent? then last.event.target else OperatorsTarget(steps[..|steps| - 1])
  }

  predicate TerminateOrdered(steps: seq<Step>) {
    if steps == [] then false
    else
      var last := steps[|steps| - 1];
      || (last.Dispatch? && last.event.FssCommandEvent? && last.event.cmd == CmdTerminate)
      || TerminateOrdered(steps[..|steps| - 1])
  }

  /** The link to the operator counts as lost until it is first reported. */
  predicate OperatorLost(steps: seq<Step>) {
    if steps == [] then true
    else
      var last := steps[|steps| - 1];
      if last.Dispatch? && last.event.FssCommsEvent? then last.event.failed else OperatorLost(steps[..|steps| - 1])
  }

  predicate AutopilotLost(steps: seq<Step>) {
    if steps == [] then false
    else
      var last := steps[|steps| - 1];
      if last.Dispatch? && last.event.MavCommsEvent? then last.event.failed else AutopilotLost(steps[..|steps| - 1])
  }

  /** The battery reports, true for low: a level known and under the threshold. */
  function BatteryReports(cfg: Config, steps: seq<Step>): seq<bool> {
    if steps == [] then []
    else
      var before, last := BatteryReports(cfg, steps[..|steps| - 1]), steps[|steps| - 1];
      if last.Dispatch? && last.event.BatteryEvent?
      then before + [0 <= last.event.remaining < cfg.lowBatteryThreshold]
      else before
  }

  /** The positions with a valid fix and a finite altitude, true for over the cap. */
  function AltitudeReports(cfg: Config, steps: seq<Step>): seq<bool> {
    if steps == [] then []
    else
      var before, last := AltitudeReports(cfg, steps[..|steps| - 1]), steps[|steps| - 1];
      if last.Dispatch? && last.event.PositionEvent? && last.event.fixValid && last.event.agl.Finite?
      then before + [last.event.agl.value > cfg.machine.cap as real]
      else before
  }

  /** What the search worker says: the operator's search command, nothing to search, or a search found while waiting. */
  function WorkerSays(step: Step, current: FmuState, before: SmmCommand): SmmCommand {
    if step.Dispatch? && step.event.SmmOperatorEvent? then step.event.smm
    else if step.Dispatch? && step.event.SmmRtlEvent? then SmmMissionComplete
    else if step.Dispatch? && step.event.SmmLoadSearchEvent? && current == WaitingForTasking then SmmNone
    else before
  }

  /** What it last said over a run. */
  function WorkersCommand(cfg: Config, steps: seq<Step>): SmmCommand
    requires AllLegal(steps)
  {
    if steps == [] then SmmNone
    else
      var before := steps[..|steps| - 1];
      WorkerSays(steps[|steps| - 1], Run(cfg, before).machine.current, WorkersCommand(cfg, before))
  }

  /** An event that makes the machine evaluate its state whatever it was. */
  predicate Speaks(step: Step) {
    step.Dispatch? &&
    match step.event
    case FssCommandEvent(_, _) => true
    case FssCommsEvent(_) => true
    case MavCommsEvent(_) => true
    case SmmRtlEvent => true
    case SmmOperatorEvent(_) => true
    case _ => false
  }

  predicate Spoken(steps: seq<Step>) {
    steps != [] && (Speaks(steps[|steps| - 1]) || Spoken(steps[..|steps| - 1]))
  }

  /** The machine has had cause to evaluate its state. */
  ghost predicate Heard(cfg: Config, steps: seq<Step>) {
    || Spoken(steps)
    || SM.EverRan(BatteryReports(cfg, steps), true, cfg.machine.lowLatch)
    || SM.EverRan(AltitudeReports(cfg, steps), true, cfg.machine.breachLatch)
  }

  /** The highest-priority latch the events have engaged, as the state it forces. */
  ghost function Latch(cfg: Config, steps: seq<Step>): Option<FmuState> {
    if TerminateOrdered(steps) then Some(Terminated)
    else if SM.EverRan(BatteryReports(cfg, steps), true, cfg.machine.lowLatch) then Some(LowBattery)
    else if OperatorLost(steps) || AutopilotLost(steps) then Some(Failsafe)
    else if SM.LatestRunIsOver(AltitudeReports(cfg, steps), cfg.machine.breachLatch) then Some(Rtl)
    else None
  }

  ghost function StateFor(cfg: Config, steps: seq<Step>): FmuState
    requires AllLegal(steps)
  {
    var latch := Latch(cfg, steps);
    if latch.Some? then latch.value else SM.AskedFor(OperatorsCommand(steps), WorkersCommand(cfg, steps))
  }

  /** The inputs of a history have the operator's last values these events have. */
  ghost predicate SameOrders(steps: seq<Step>, h: seq<SM.Input>) {
    && SM.LastFss(h) == OperatorsCommand(steps)
    && SM.LastTarget(h) == OperatorsTarget(steps)
    && SM.EverTerminated(h) == TerminateOrdered(steps)
  }

  /** And the same reports of the two links and the search worker. */
  ghost predicate SameReports(steps: seq<Step>, smm: SmmCommand, h: seq<SM.Input>) {
    && SM.FssDown(h) == OperatorLost(steps)
    && SM.MavDown(h) == AutopilotLost(steps)
    && SM.LastSmm(h) == smm
  }

  /** And the same readings. */
  ghost predicate SameReadings(cfg: Config, steps: seq<Step>, h: seq<SM.Input>) {
    && SM.BatteryReadings(h) == BatteryReports(cfg, steps)
    && SM.AltitudeReadings(cfg.machine, h) == AltitudeReports(cfg, steps)
  }

  ghost predicate SaysTheSame(cfg: Config, steps: seq<Step>, smm: SmmCommand, h: seq<SM.Input>) {
    SameOrders(steps, h) && SameReports(steps, smm, h) && SameReadings(cfg, steps, h)
  }

  lemma {:induction false} TerminateIsOrdered(steps: seq<Step>)
    ensures OperatorsCommand(steps) == CmdTerminate ==> TerminateOrdered(steps)
  {
    if steps != [] {
      TerminateIsOrdered(steps[..|steps| - 1]);
    }
  }

  lemma {:induction false} OrderSaysTheSame(
    cfg: Config, steps: seq<Step>, before: seq<Step>, current: FmuState, h: seq<SM.Input>, x: SM.Input)
    requires steps != [] && before == steps[..|steps| - 1] && SameOrders(before, h)
    requires steps[|before|].Dispatch? && InputOf(cfg, current, steps[|before|].event) == Some(x)
    ensures SameOrders(steps, h + [x])
  {
    assert (h + [x])[..|h|] == h;
    SM.EverTerminatedExtends(h, x);
  }

  lemma {:induction false} ReportSaysTheSame(
    cfg: Config, steps: seq<Step>, before: seq<Step>, current: FmuState, smm: SmmCommand, h: seq<SM.Input>, x: SM.Input)
    requires steps != [] && before == steps[..|steps| - 1] && SameReports(before, smm, h)
    requires steps[|before|].Dispatch? && InputOf(cfg, current, steps[|before|].event) == Some(x)
    ensures SameReports(steps, WorkerSays(steps[|before|], current, smm), h + [x])
  {
    assert (h + [x])[..|h|] == h;
  }

  lemma {:induction false} ReadingSaysTheSame(
    cfg: Config, steps: seq<Step>, before: seq<Step>, current: FmuState, h: seq<SM.Input>, x: SM.Input)
    requires steps != [] && before == steps[..|steps| - 1] && SameReadings(cfg, before, h)
    requires steps[|before|].Dispatch? && InputOf(cfg, current, steps[|before|].event) == Some(x)
    ensures SameReadings(cfg, steps, h + [x])
  {
    assert (h + [x])[..|h|] == h;
  }

  lemma {:induction false} SilenceSaysTheSame(
    cfg: Config, steps: seq<Step>, before: seq<Step>, current: FmuState, smm: SmmCommand, h: seq<SM.Input>)
    requires steps != [] && before == steps[..|steps| - 1] && SaysTheSame(cfg, before, smm, h)
    requires steps[|before|].Dispatch? ==> InputOf(cfg, current, steps[|before|].event).None?
    ensures SaysTheSame(cfg, steps, WorkerSays(steps[|before|], current, smm), h)
  {
  }

  lemma {:induction false} StepSaysTheSame(
    cfg: Config, steps: seq<Step>, before: seq<Step>, current: FmuState, smm: SmmCommand, h: seq<SM.Input>,
    input: Option<SM.Input>)
    requires steps != [] && before == steps[..|steps| - 1] && SaysTheSame(cfg, before, smm, h)
    requires var step := steps[|before|]; input == if step.Dispatch? then InputOf(cfg, current, step.event) else None
    ensures SaysTheSame(cfg, steps, WorkerSays(steps[|before|], current, smm),
                        if input.Some? then h + [input.value] else h)
  {
    if input.Some? {
      OrderSaysTheSame(cfg, steps, before, current, h, input.value);
      ReportSaysTheSame(cfg, steps, before, current, smm, h, input.value);
      ReadingSaysTheSame(cfg, steps, before, current, h, input.value);
    } else {
      SilenceSaysTheSame(cfg, steps, before, current, smm, h);
    }
  }

  /** One more step of a run gives the state machine one more input, or none. */
  lemma {:induction false} InputsExtend(cfg: Config, steps: seq<Step>, before: seq<Step>, input: Option<SM.Input>)
    requires AllLegal(steps) && steps != [] && before == steps[..|steps| - 1]
    requires var step := steps[|before|];
             input == if step.Dispatch? then InputOf(cfg, Run(cfg, before).machine.current, step.event) else None
    ensures Inputs(cfg, steps) == if input.Some? then Inputs(cfg, before) + [input.value] else Inputs(cfg, before)
  {
    assert Inputs(cfg, before) + [] == Inputs(cfg, before);
  }

  lemma {:induction false} InputsSayTheSame(cfg: Config, steps: seq<Step>)
    requires AllLegal(steps)
    ensures SaysTheSame(cfg, steps, WorkersCommand(cfg, steps), Inputs(cfg, steps))
  {
    if steps != [] {
      var before, step := steps[..|steps| - 1], steps[|steps| - 1];
      InputsSayTheSame(cfg, before);
      var current := Run(cfg, before).machine.current;
      var input := if step.Dispatch? then InputOf(cfg, current, step.event) else None;
      InputsExtend(cfg, steps, before, input);
      StepSaysTheSame(cfg, steps, before, current, WorkersCommand(cfg, before), Inputs(cfg, before), input);
    }
  }

  lemma {:induction false} HeardStays(cfg: Config, steps: seq<Step>, before: seq<Step>)
    requires cfg.machine.Valid() && steps != [] && before == steps[..|steps| - 1]
    requires Heard(cfg, before)
    ensures Heard(cfg, steps)
  {
    var last := steps[|before|];
    if last.Dispatch? && last.event.BatteryEvent? {
      SM.EverRanExtends(BatteryReports(cfg, before), 0 <= last.event.remaining < cfg.lowBatteryThreshold, true,
                        cfg.machine.lowLatch);
    } else if last.Dispatch? && last.event.PositionEvent? && last.event.fixValid && last.event.agl.Finite? {
      SM.EverRanExtends(AltitudeReports(cfg, before), last.event.agl.value > cfg.machine.cap as real, true,
                        cfg.machine.breachLatch);
    }
  }

  lemma {:induction false} EvaluatedByStep(
    cfg: Config, steps: seq<Step>, before: seq<Step>, h: seq<SM.Input>, x: SM.Input)
    requires cfg.machine.Valid() && steps != [] && before == steps[..|steps| - 1] && steps[|before|].Dispatch?
    requires InputOf(cfg, SM.Run(cfg.machine, h).current, steps[|before|].event) == Some(x)
    requires SM.Evaluated(cfg.machine, h) <==> Heard(cfg, before)
    requires SameReadings(cfg, steps, h + [x])
    ensures SM.Evaluated(cfg.machine, h + [x]) <==> Heard(cfg, steps)
  {
    SM.EvaluatedExtends(cfg.machine, h, x);
    SM.BreachImpliesEverOver(cfg.machine, h + [x]);
    SM.StateIsDeclared(cfg.machine, h);
    if Heard(cfg, before) {
      HeardStays(cfg, steps, before);
    }
  }

  lemma {:induction false} HeardIsEvaluated(cfg: Config, steps: seq<Step>)
    requires cfg.machine.Valid() && AllLegal(steps)
    ensures SM.Evaluated(cfg.machine, Inputs(cfg, steps)) <==> Heard(cfg, steps)
  {
    if steps != [] {
      var before, step := steps[..|steps| - 1], steps[|steps| - 1];
      HeardIsEvaluated(cfg, before);
      InputsSayTheSame(cfg, steps);
      MachineRunsItsInputs(cfg, before);
      var input := if step.Dispatch? then InputOf(cfg, Run(cfg, before).machine.current, step.event) else None;
      InputsExtend(cfg, steps, before, input);
      if input.Some? {
        EvaluatedByStep(cfg, steps, before, Inputs(cfg, before), input.value);
      }
    }
  }

  /**
    Every retained field and every latch of the machine, read off the events themselves: operator commands and link
    reports by last value, the low-battery latch by a long enough run of low levels ever reported, the altitude latch
    by the latest long enough run, and the search worker's command by what it last said.
   */
  lemma {:induction false} MachineIsAsTheEventsSay(cfg: Config, steps: seq<Step>)
    requires cfg.machine.Valid() && AllLegal(steps)
    ensures var m := Run(cfg, steps).machine;
            && m.fssLost == OperatorLost(steps)
            && m.mavLost == AutopilotLost(steps)
            && m.fssCommand == OperatorsCommand(steps)
            && m.target == OperatorsTarget(steps)
            && m.smmCommand == WorkersCommand(cfg, steps)
            && m.terminated == TerminateOrdered(steps)
            && m.lowBattery == SM.EverRan(BatteryReports(cfg, steps), true, cfg.machine.lowLatch)
            && m.breach == SM.LatestRunIsOver(AltitudeReports(cfg, steps), cfg.machine.breachLatch)
  {
    MachineRunsItsInputs(cfg, steps);
    SM.StateIsDeclared(cfg.machine, Inputs(cfg, steps));
    InputsSayTheSame(cfg, steps);
  }

  lemma {:induction false} StateIsAsTheEventsSay(cfg: Config, steps: seq<Step>)
    requires cfg.machine.Valid() && AllLegal(steps)
    ensures Run(cfg, steps).machine.current == if Heard(cfg, steps) then StateFor(cfg, steps) else Manual
  {
    MachineRunsItsInputs(cfg, steps);
    SM.StateIsDeclared(cfg.machine, Inputs(cfg, steps));
    InputsSayTheSame(cfg, steps);
    HeardIsEvaluated(cfg, steps);
  }

  lemma {:induction false} HeardIsActedOn(cfg: Config, steps: seq<Step>)
    requires cfg.machine.Valid() && AllLegal(steps) && Heard(cfg, steps)
    ensures Run(cfg, steps).actions != []
  {
    MachineRunsItsInputs(cfg, steps);
    SM.StateIsDeclared(cfg.machine, Inputs(cfg, steps));
    HeardIsEvaluated(cfg, steps);
  }

  /**
    Over every run of the composed system the state is the one its events call for, Manual before the machine had
    cause to evaluate it; and once it had, the last thing the autopilot was told is to fly exactly that state. The
    searching role is held only while searching or waiting for tasking, and always while searching.
   */
  lemma {:induction false} AutopilotFollowsDeclaredState(cfg: Config, steps: seq<Step>)
    requires cfg.machine.Valid() && AllLegal(steps)
    ensures var s := Run(cfg, steps);
            && s.machine.current == (if Heard(cfg, steps) then StateFor(cfg, steps) else Manual)
            && (Heard(cfg, steps) ==> s.actions != [])
            && (s.actions != [] ==> s.actions[|s.actions| - 1] == s.machine.current)
            && (s.role ==> s.machine.current == Searching || s.machine.current == WaitingForTasking)
            && (s.machine.current == Searching ==> s.role)
  {
    StateIsAsTheEventsSay(cfg, steps);
    if Heard(cfg, steps) {
      HeardIsActedOn(cfg, steps);
    }
  }

  /** The last mode change handed to the link. */
  function LastMode(sent: seq<MU.Msg>): Option<MU.Mode> {
    if sent == [] then None
    else if sent[|sent| - 1].SetMode? then Some(sent[|sent| - 1].mode)
    else LastMode(sent[..|sent| - 1])
  }

  /** The mode the autopilot was last told to fly, or will be as soon as its type is known. */
  function CommandedMode(c: MU.Conn): Option<MU.Mode> {
    if c.pendingMode.Some? then c.pendingMode else LastMode(c.sent)
  }

  /** The flight mode a state stands for; none for a mission, an altitude change or a shutdown. */
  function ModeOf(cfg: Config, state: FmuState): Option<MU.Mode> {
    match state
    case Manual => Some(MU.ModeManual)
    case Hold => Some(MU.ModeHold)
    case Rtl => Some(MU.ModeRtl)
    case Failsafe => Some(MU.ModeRtl)
    case LowBattery => Some(MU.ModeRtl)
    case WaitingForTasking => Some(MU.ModeRtl)
    case Terminated => if cfg.terminateAction == FallBackToRtl then Some(MU.ModeRtl) else None
    case _ => None
  }

  ghost predicate ModeFits(cfg: Config, s: System) {
    s.actions != [] && ModeOf(cfg, s.machine.current).Some? ==>
      CommandedMode(s.conn) == ModeOf(cfg, s.machine.current)
  }

  lemma {:induction false} TakeOverCommands(c: MU.Conn, mode: MU.Mode)
    ensures CommandedMode(MU.SetResolvedMode(c, mode, true)) == Some(mode)
  {
  }

  lemma {:induction false} ActionCommands(cfg: Config, s: System, state: FmuState, countSent: bool)
    requires MU.Inv(s.conn) && ModeOf(cfg, state).Some?
    ensures CommandedMode(ActionState(cfg, s, state, countSent).conn) == ModeOf(cfg, state)
  {
    var call := ActionCall(cfg, state, s.machine.target, countSent);
    assert call == Some(MU.TakeOver(ModeOf(cfg, state).value));
    TakeOverCommands(s.conn, ModeOf(cfg, state).value);
  }

  lemma {:induction false} IdleKeepsMode(c: MU.Conn, call: MU.Call)
    requires MU.Inv(c) && MU.Idle(c) && (call.Inbound() || call.LinkDown?)
    ensures CommandedMode(MU.Handle(c, call)) == CommandedMode(c)
  {
  }

  lemma {:induction false} InputKeepsMode(cfg: Config, s: System, input: SM.Input, countSent: bool)
    requires Inv(s) && ModeFits(cfg, s)
    ensures ModeFits(cfg, ApplyInput(cfg, s, input, countSent))
  {
    var action := SM.ActionOf(cfg.machine, s.machine, input);
    var s' := s.(machine := SM.Step(cfg.machine, s.machine, input));
    if action.Some? && ModeOf(cfg, action.value).Some? {
      ActionCommands(cfg, s', action.value, countSent);
    }
  }

  lemma {:induction false} NextKeepsMode(cfg: Config, s: System, step: Step)
    requires Inv(s) && step.Legal() && ModeFits(cfg, s)
    ensures ModeFits(cfg, Next(cfg, s, step))
  {
    match step {
      case Dispatch(e, countSent) =>
        var input := InputOf(cfg, s.machine.current, e);
        if input.Some? {
          InputKeepsMode(cfg, s, input.value, countSent);
        }
      case Mav(call) =>
        if ModeOf(cfg, s.machine.current).Some? {
          IdleKeepsMode(s.conn, call);
        }
    }
  }

  /**
    End to end: whatever events, acknowledgements, heartbeats and requests come in, and in whatever order, once
    the machine has acted the autopilot's last mode command, sent or waiting for its type to be known, is the one
    its state stands for: manual, hold, or return to launch.
   */
  lemma {:induction false} AutopilotIsInTheStatesMode(cfg: Config, steps: seq<Step>)
    requires AllLegal(steps)
    ensures var s := Run(cfg, steps);
            s.actions != [] && ModeOf(cfg, s.machine.current).Some? ==>
              CommandedMode(s.conn) == ModeOf(cfg, s.machine.current)
  {
    if steps != [] {
      var before := steps[..|steps| - 1];
      AutopilotIsInTheStatesMode(cfg, before);
      NextKeepsMode(cfg, Run(cfg, before), steps[|steps| - 1]);
    }
  }

  // ---------------------------------------------------------------------------
  // What the connection is told
  // ---------------------------------------------------------------------------

  /** The connection handler a step runs, if any. */
  function CallOf(cfg: Config, s: System, step: Step): Option<MU.Call> {
    match step
    case Mav(call) => Some(call)
    case Dispatch(e, countSent) =>
      var input := InputOf(cfg, s.machine.current, e);
      if input.Some? then
        var action := SM.ActionOf(cfg.machine, s.machine, input.value);
        var target := SM.Step(cfg.machine, s.machine, input.value).target;
        if action.Some? then ActionCall(cfg, action.value, target, countSent) else None
      else if e.SmmLoadSearchEvent? && s.machine.current == Searching then Some(MU.Load(e.search))
      else None
  }

  lemma {:induction false} NextRunsItsCall(cfg: Config, s: System, step: Step)
    requires MU.Inv(s.conn)
    ensures var call := CallOf(cfg, s, step);
            Next(cfg, s, step).conn == if call.Some? then MU.Handle(s.conn, call.value) else s.conn
  {
  }

  /** The connection handlers a run goes through. */
  function Calls(cfg: Config, steps: seq<Step>): seq<MU.Call>
    requires AllLegal(steps)
  {
    if steps == [] then []
    else
      var before := steps[..|steps| - 1];
      var call := CallOf(cfg, Run(cfg, before), steps[|steps| - 1]);
      Calls(cfg, before) + if call.Some? then [call.value] else []
  }

  lemma {:induction false} CallExtends(calls: seq<MU.Call>, call: MU.Call)
    ensures MU.Run(calls + [call]) == MU.Handle(MU.Run(calls), call)
    ensures MU.LastLoad(calls + [call]) == if call.Load? then Some(call.search) else MU.LastLoad(calls)
  {
    assert (calls + [call])[..|calls|] == calls;
  }

  /** In the composition the connection is as its own calls alone leave it: what holds of all its runs holds here. */
  lemma {:induction false} ConnectionRunsItsCalls(cfg: Config, steps: seq<Step>)
    requires AllLegal(steps)
    ensures Run(cfg, steps).conn == MU.Run(Calls(cfg, steps))
  {
    if steps != [] {
      var before := steps[..|steps| - 1];
      ConnectionRunsItsCalls(cfg, before);
      NextRunsItsCall(cfg, Run(cfg, before), steps[|steps| - 1]);
      var call := CallOf(cfg, Run(cfg, before), steps[|steps| - 1]);
      if call.Some? {
        CallExtends(Calls(cfg, before), call.value);
      } else {
        assert Calls(cfg, before) + [] == Calls(cfg, before);
      }
    }
  }

  /** The search last dispatched while searching. */
  function LastSearch(cfg: Config, steps: seq<Step>): Option<MU.Search>
    requires AllLegal(steps)
  {
    if steps == [] then None
    else
      var before, step := steps[..|steps| - 1], steps[|steps| - 1];
      if step.Dispatch? && step.event.SmmLoadSearchEvent? && Run(cfg, before).machine.current == Searching
      then Some(step.event.search)
      else LastSearch(cfg, before)
  }

  lemma {:induction false} OnlySearchesLoad(cfg: Config, s: System, step: Step)
    requires step.Legal()
    ensures var call := CallOf(cfg, s, step);
            && (call.Some? && call.value.Load? <==>
                step.Dispatch? && step.event.SmmLoadSearchEvent? && s.machine.current == Searching)
            && (call.Some? && call.value.Load? ==> call.value.search == step.event.search)
  {
  }

  lemma {:induction false} LoadsAreSearches(cfg: Config, steps: seq<Step>)
    requires AllLegal(steps)
    ensures MU.LastLoad(Calls(cfg, steps)) == LastSearch(cfg, steps)
  {
    if steps != [] {
      var before := steps[..|steps| - 1];
      LoadsAreSearches(cfg, before);
      OnlySearchesLoad(cfg, Run(cfg, before), steps[|steps| - 1]);
      var call := CallOf(cfg, Run(cfg, before), steps[|steps| - 1]);
      if call.Some? {
        CallExtends(Calls(cfg, before), call.value);
      } else {
        assert Calls(cfg, before) + [] == Calls(cfg, before);
      }
    }
  }

  /** Which search is flown: one held or being uploaded is the one last dispatched while searching, over every run. */
  lemma {:induction false} SearchFlownIsTheOneDispatched(cfg: Config, steps: seq<Step>)
    requires AllLegal(steps)
    ensures var c, last := Run(cfg, steps).conn, LastSearch(cfg, steps);
            && (c.search.Some? ==> c.search == last)
            && (c.open.Some? && c.open.value.SearchUpload? ==> last == Some(c.open.value.search))
  {
    ConnectionRunsItsCalls(cfg, steps);
    LoadsAreSearches(cfg, steps);
    MU.HeldSearchIsTheLastLoaded(Calls(cfg, steps));
  }

  /**
    A goto outlives its state. Whatever the state, one is served, its upload is open, a search's upload is open, or a
    search is held, exactly when some call to the connection started that and none since has ended it; and entering
    searching, unlike any other state but an altitude adjustment, makes no call that would.
   */
  lemma {:induction false} GotoOutlivesItsState(cfg: Config, steps: seq<Step>, what: MU.Standing)
    requires AllLegal(steps)
    ensures MU.Stands(Run(cfg, steps).conn, what) <==> exists k :: MU.StandsSince(Calls(cfg, steps), what, k)
    ensures ActionCall(cfg, Searching, Run(cfg, steps).machine.target, true).None?
  {
    ConnectionRunsItsCalls(cfg, steps);
    MU.StandsExactlyWhen(Calls(cfg, steps), what);
  }

  /** Link up and the autopilot heard; then a goto; then continue. */
  function ContinuedGoto(target: Target): seq<Step> {
    [Dispatch(FssCommsEvent(false), true), Mav(MU.Beat(true)), Dispatch(FssCommandEvent(CmdGoto, target), true),
     Dispatch(FssCommandEvent(CmdContinue, NO_TARGET), true)]
  }

  lemma {:induction false} HealthyStart(cfg: Config, target: Target)
    ensures var s := Run(cfg, ContinuedGoto(target)[..2]);
            && s.machine == SM.UpdateState(SM.INITIAL.(fssLost := false))
            && s.conn == MU.INITIAL.(typeKnown := true)
  {
    var steps := ContinuedGoto(target);
    assert steps[..2] == [] + [steps[0]] + [steps[1]];
    RunExtends(cfg, [], steps[0]);
    RunExtends(cfg, [] + [steps[0]], steps[1]);
  }

  lemma {:induction false} GotoThenContinue(cfg: Config, s: System, target: Target)
    requires MU.Inv(s.conn) && s.machine == SM.UpdateState(SM.INITIAL.(fssLost := false))
    requires s.conn == MU.INITIAL.(typeKnown := true)
    ensures var g := Next(cfg, s, ContinuedGoto(target)[2]);
            && MU.Inv(g.conn) && g.conn.open == Some(MU.GotoUpload(target.position)) && g.conn.typeKnown
            && Next(cfg, g, ContinuedGoto(target)[3]).conn == g.conn
            && Next(cfg, g, ContinuedGoto(target)[3]).machine.current == Searching
  {
  }

  /** So while searching a goto can still be open, and its acceptance engages AUTO towards it. */
  lemma {:induction false} SearchingCanFlyAGoto(cfg: Config, target: Target)
    ensures AllLegal(ContinuedGoto(target))
    ensures var s := Run(cfg, ContinuedGoto(target));
            && s.machine.current == Searching && s.conn.open == Some(MU.GotoUpload(target.position))
            && SendsAuto(s.conn, MU.Ack(true, 0))
  {
    var steps := ContinuedGoto(target);
    assert steps == steps[..2] + [steps[2]] + [steps[3]];
    HealthyStart(cfg, target);
    RunExtends(cfg, steps[..2], steps[2]);
    RunExtends(cfg, steps[..2] + [steps[2]], steps[3]);
    GotoThenContinue(cfg, Run(cfg, steps[..2]), target);
    InboundAuto(Run(cfg, steps).conn, MU.Ack(true, 0));
  }

  // ---------------------------------------------------------------------------
  // When the searching role is held
  // ---------------------------------------------------------------------------

  /** Granted on searching, kept while waiting for tasking, revoked by any other state acted on. */
  predicate GrantedBy(actions: seq<FmuState>) {
    if actions == [] then false
    else
      var last := actions[|actions| - 1];
      last == Searching || (last == WaitingForTasking && GrantedBy(actions[..|actions| - 1]))
  }

  lemma {:induction false} ActionGrants(actions: seq<FmuState>, state: FmuState)
    ensures GrantedBy(actions + [state]) <==> state == Searching || (state == WaitingForTasking && GrantedBy(actions))
  {
    assert (actions + [state])[..|actions|] == actions;
  }

  lemma {:induction false} NextGrants(cfg: Config, s: System, step: Step)
    requires MU.Inv(s.conn) && s.role == GrantedBy(s.actions)
    ensures var s' := Next(cfg, s, step); s'.role == GrantedBy(s'.actions)
  {
    if step.Dispatch? {
      var input := InputOf(cfg, s.machine.current, step.event);
      if input.Some? {
        var action := SM.ActionOf(cfg.machine, s.machine, input.value);
        if action.Some? {
          ActionGrants(s.actions, action.value);
        }
      }
    }
  }

  /**
    The searching role exactly: held when the latest state acted on was searching, or waiting for tasking entered with
    the role held. So the search worker's retries go on while it waits for tasking after a search, and not otherwise.
   */
  lemma {:induction false} RoleIsHeldExactlyWhen(cfg: Config, steps: seq<Step>)
    requires AllLegal(steps)
    ensures Run(cfg, steps).role <==> GrantedBy(Run(cfg, steps).actions)
  {
    if steps != [] {
      RoleIsHeldExactlyWhen(cfg, steps[..|steps| - 1]);
      NextGrants(cfg, Run(cfg, steps[..|steps| - 1]), steps[|steps| - 1]);
    }
  }

  // ---------------------------------------------------------------------------
  // Modes sent, and tasking
  // ---------------------------------------------------------------------------

  /**
    And once the autopilot's type is known nothing waits: the last mode actually sent is the one the state stands for.
   */
  lemma {:induction false} KnownAutopilotIsToldTheMode(cfg: Config, steps: seq<Step>)
    requires AllLegal(steps) && MU.TypeTold(Calls(cfg, steps))
    ensures var s := Run(cfg, steps);
            s.actions != [] && ModeOf(cfg, s.machine.current).Some? ==>
              LastMode(s.conn.sent) == ModeOf(cfg, s.machine.current)
  {
    AutopilotIsInTheStatesMode(cfg, steps);
    ConnectionRunsItsCalls(cfg, steps);
    MU.DeferralEndsWithTheType(Calls(cfg, steps));
  }

  /**
    Which command flies what, over every run: with no latch engaged the operator's last command decides both the state
    and, for manual, hold and return to launch, the mode the autopilot is told. Continue, or no command at all, leaves
    it to the search worker: waiting for tasking on its way home after nothing was left to search, else searching.
   */
  lemma {:induction false} OperatorIsObeyed(cfg: Config, steps: seq<Step>)
    requires cfg.machine.Valid() && AllLegal(steps) && Heard(cfg, steps) && Latch(cfg, steps).None?
    ensures var state, mode := Run(cfg, steps).machine.current, CommandedMode(Run(cfg, steps).conn);
            var cmd, smm := OperatorsCommand(steps), WorkersCommand(cfg, steps);
            && cmd != CmdTerminate
            && (cmd == CmdManual ==> state == Manual && mode == Some(MU.ModeManual))
            && (cmd == CmdHold ==> state == Hold && mode == Some(MU.ModeHold))
            && (cmd == CmdRtl ==> state == Rtl && mode == Some(MU.ModeRtl))
            && (cmd == CmdAltitude ==> state == AltitudeAdjust)
            && (cmd == CmdGoto ==> state == GotoPoint)
            && (cmd == CmdDisarm ==> state == Disarmed)
            && (cmd == CmdContinue || cmd == CmdUnknown ==>
                  && (smm == SmmMissionComplete ==> state == WaitingForTasking && mode == Some(MU.ModeRtl))
                  && (smm == SmmAbandonSearch || smm == SmmNone ==> state == Searching))
  {
    AutopilotFollowsDeclaredState(cfg, steps);
    AutopilotIsInTheStatesMode(cfg, steps);
    TerminateIsOrdered(steps);
  }

  lemma {:induction false} LatchTellsMode(cfg: Config, s: System, latch: Option<FmuState>)
    requires s.actions != [] && ModeFits(cfg, s) && (latch.Some? ==> s.machine.current == latch.value)
    ensures latch == Some(LowBattery) || latch == Some(Failsafe) || latch == Some(Rtl) ==>
              CommandedMode(s.conn) == Some(MU.ModeRtl)
    ensures latch == Some(Terminated) && cfg.terminateAction == FallBackToRtl ==>
              CommandedMode(s.conn) == Some(MU.ModeRtl)
  {
  }

  /**
    And a latch overrules it: low battery, the loss of either link, or flying too high brings the aircraft home, and
    terminate does what is configured.
   */
  lemma {:induction false} LatchesOverrule(cfg: Config, steps: seq<Step>)
    requires cfg.machine.Valid() && AllLegal(steps) && Heard(cfg, steps)
    ensures var s, latch := Run(cfg, steps), Latch(cfg, steps);
            var state, mode := s.machine.current, CommandedMode(s.conn);
            && (latch.Some? ==> state == latch.value)
            && (latch == Some(LowBattery) || latch == Some(Failsafe) || latch == Some(Rtl) ==> mode == Some(MU.ModeRtl))
            && (latch == Some(Terminated) && cfg.terminateAction == FallBackToRtl ==> mode == Some(MU.ModeRtl))
  {
    StateIsAsTheEventsSay(cfg, steps);
    HeardIsActedOn(cfg, steps);
    AutopilotIsInTheStatesMode(cfg, steps);
    LatchTellsMode(cfg, Run(cfg, steps), Latch(cfg, steps));
  }

  /** No latch is engaged and the operator leaves the choice to the search worker. */
  ghost predicate LeftToSmm(cfg: Config, steps: seq<Step>) {
    Latch(cfg, steps).None? && (OperatorsCommand(steps) == CmdContinue || OperatorsCommand(steps) == CmdUnknown)
  }

  /** An event of the search worker's leaves everything the latches and the operator's command are read off. */
  lemma {:induction false} WorkerEventExtends(cfg: Config, steps: seq<Step>, e: Event, countSent: bool)
    requires AllLegal(steps) && (e.SmmLoadSearchEvent? || e.SmmRtlEvent? || e.SmmOperatorEvent?)
    ensures var more := steps + [Dispatch(e, countSent)];
            && AllLegal(more) && Latch(cfg, more) == Latch(cfg, steps)
            && OperatorsCommand(more) == OperatorsCommand(steps)
            && WorkersCommand(cfg, more)
               == WorkerSays(Dispatch(e, countSent), Run(cfg, steps).machine.current, WorkersCommand(cfg, steps))
            && (Heard(cfg, steps) ==> Heard(cfg, more))
  {
    assert (steps + [Dispatch(e, countSent)])[..|steps|] == steps;
  }

  lemma {:induction false} WorkerDecides(cfg: Config, steps: seq<Step>, more: seq<Step>)
    requires AllLegal(steps) && AllLegal(more)
    requires Latch(cfg, more) == Latch(cfg, steps) && OperatorsCommand(more) == OperatorsCommand(steps)
    ensures StateFor(cfg, more) == if !LeftToSmm(cfg, steps) then StateFor(cfg, steps)
                                   else if WorkersCommand(cfg, more) == SmmMissionComplete then WaitingForTasking
                                   else Searching
  {
  }

  lemma {:induction false} WorkerEventMoves(
    cfg: Config, steps: seq<Step>, more: seq<Step>, e: Event, countSent: bool, before: FmuState, after: FmuState)
    requires cfg.machine.Valid() && AllLegal(steps) && Heard(cfg, steps) && more == steps + [Dispatch(e, countSent)]
    requires AllLegal(more) && (e.SmmLoadSearchEvent? || e.SmmRtlEvent? || e.SmmOperatorEvent?)
    ensures var smm := WorkerSays(Dispatch(e, countSent), before, WorkersCommand(cfg, steps));
            before == Run(cfg, steps).machine.current && after == Run(cfg, more).machine.current ==>
              after == if !LeftToSmm(cfg, steps) then before
                       else if smm == SmmMissionComplete then WaitingForTasking
                       else Searching
  {
    if before == Run(cfg, steps).machine.current && after == Run(cfg, more).machine.current {
      WorkerEventExtends(cfg, steps, e, countSent);
      WorkerDecides(cfg, steps, more);
      StateIsAsTheEventsSay(cfg, steps);
      StateIsAsTheEventsSay(cfg, more);
    }
  }

  /**
    Over every run, a report that there is nothing to search moves the machine to waiting for tasking exactly when no
    latch is engaged and the operator's command is to search; otherwise it leaves the state alone.
   */
  lemma {:induction false} NothingToSearchWaits(cfg: Config, steps: seq<Step>, more: seq<Step>, countSent: bool)
    requires cfg.machine.Valid() && AllLegal(steps) && Heard(cfg, steps)
    requires more == steps + [Dispatch(SmmRtlEvent, countSent)] && AllLegal(more)
    ensures Run(cfg, more).machine.current
         == if LeftToSmm(cfg, steps) then WaitingForTasking else Run(cfg, steps).machine.current
  {
    WorkerEventMoves(cfg, steps, more, SmmRtlEvent, countSent,
                     Run(cfg, steps).machine.current, Run(cfg, more).machine.current);
  }

  lemma {:induction false} WaitingIsLeftToSmm(cfg: Config, steps: seq<Step>)
    requires AllLegal(steps)
    ensures StateFor(cfg, steps) == WaitingForTasking ==> LeftToSmm(cfg, steps)
  {
  }

  /** And a search acquired while waiting for tasking sends it back to searching. */
  lemma {:induction false} AcquiredSearchResumes(
    cfg: Config, steps: seq<Step>, more: seq<Step>, search: MU.Search, countSent: bool)
    requires cfg.machine.Valid() && AllLegal(steps)
    requires more == steps + [Dispatch(SmmLoadSearchEvent(search), countSent)] && AllLegal(more)
    ensures Run(cfg, steps).machine.current == WaitingForTasking ==> Run(cfg, more).machine.current == Searching
  {
    StateIsAsTheEventsSay(cfg, steps);
    WaitingIsLeftToSmm(cfg, steps);
    if Heard(cfg, steps) {
      WorkerEventMoves(cfg, steps, more, SmmLoadSearchEvent(search), countSent,
                       Run(cfg, steps).machine.current, Run(cfg, more).machine.current);
    }
  }

  // ---------------------------------------------------------------------------
  // What was acted on, and with which target
  // ---------------------------------------------------------------------------

  /** Whether the last step of a run is acted on: it changes the state, re-asserts it, or brings the MAV link back. */
  predicate Acts(cfg: Config, steps: seq<Step>)
    requires steps != [] && AllLegal(steps)
  {
    var before, step := steps[..|steps| - 1], steps[|steps| - 1];
    || Run(cfg, steps).machine.current != Run(cfg, before).machine.current
    || (step.Dispatch? && step.event == AutopilotRestartEvent)
    || (step.Dispatch? && step.event == MavCommsEvent(false) && AutopilotLost(before))
  }

  /** The states acted on over a run, in order. */
  function ActionsOf(cfg: Config, steps: seq<Step>): seq<FmuState>
    requires AllLegal(steps)
  {
    if steps == [] then []
    else
      var before := ActionsOf(cfg, steps[..|steps| - 1]);
      if Acts(cfg, steps) then before + [Run(cfg, steps).machine.current] else before
  }

  /** The target the operator had last given when a run was last acted on. */
  function TargetInForce(cfg: Config, steps: seq<Step>): Target
    requires AllLegal(steps)
  {
    if steps == [] then NO_TARGET
    else if Acts(cfg, steps) then OperatorsTarget(steps)
    else TargetInForce(cfg, steps[..|steps| - 1])
  }

  /** The altitude the autopilot was last told to change to. */
  function LastAltitude(sent: seq<MU.Msg>): Option<nat> {
    if sent == [] then None
    else if sent[|sent| - 1].ChangeAltitude? then Some(sent[|sent| - 1].feet)
    else LastAltitude(sent[..|sent| - 1])
  }

  /** The last disarm or flight termination the autopilot was sent. */
  function LastShutdown(sent: seq<MU.Msg>): Option<MU.Msg> {
    if sent == [] then None
    else if sent[|sent| - 1].ArmDisarm? || sent[|sent| - 1].FlightTermination? then Some(sent[|sent| - 1])
    else LastShutdown(sent[..|sent| - 1])
  }

  /** What a shutdown state sends; none where terminating only means returning to launch. */
  function ShutdownOf(cfg: Config, state: FmuState): Option<MU.Msg> {
    if state == Disarmed then Some(MU.ArmDisarm(false))
    else if state != Terminated then None
    else
      match cfg.terminateAction
      case FallBackToRtl => None
      case ForceDisarm => Some(MU.ArmDisarm(true))
      case TerminateFlight => Some(MU.FlightTermination)
  }

  /**
    A goto flies to `target`, with no search in the way; an altitude adjustment was told `target`'s altitude; a
    shutdown was sent.
   */
  ghost predicate CarriesOut(cfg: Config, s: System, target: Target) {
    && (ShutdownOf(cfg, s.machine.current).Some? ==> LastShutdown(s.conn.sent) == ShutdownOf(cfg, s.machine.current))
    && (s.machine.current == GotoPoint ==>
          && s.conn.gotoPosition == target.position
          && !s.conn.searchLoading && !s.conn.searchLoaded)
    && (s.machine.current == AltitudeAdjust ==> LastAltitude(s.conn.sent) == Some(target.altitude))
  }

  /** Whether one step from `s` is acted on, told apart by what it is. */
  predicate ActsFrom(cfg: Config, s: System, step: Step)
    requires MU.Inv(s.conn)
  {
    || Next(cfg, s, step).machine.current != s.machine.current
    || (step.Dispatch? && step.event == AutopilotRestartEvent)
    || (step.Dispatch? && step.event == MavCommsEvent(false) && s.machine.mavLost)
  }

  lemma {:induction false} InputActs(cfg: Config, s: System, x: SM.Input, countSent: bool)
    requires MU.Inv(s.conn)
    ensures var m := SM.Step(cfg.machine, s.machine, x);
            var acts := m.current != s.machine.current || x.Reassert? || (x == SM.MavComms(false) && s.machine.mavLost);
            var moved := s.(machine := m);
            ApplyInput(cfg, s, x, countSent) == if acts then ActionState(cfg, moved, m.current, countSent) else moved
  {
  }

  /** What a dispatched event does: the machine takes it, and what it then acts on, if anything, is its state. */
  lemma {:induction false} DispatchActs(cfg: Config, s: System, e: Event, countSent: bool)
    requires MU.Inv(s.conn)
    ensures var s' := Next(cfg, s, Dispatch(e, countSent));
            var moved := s.(machine := s'.machine);
            if ActsFrom(cfg, s, Dispatch(e, countSent))
            then s' == ActionState(cfg, moved, s'.machine.current, countSent)
            else if e.SmmLoadSearchEvent? && s.machine.current == Searching
            then s' == s.(conn := MU.LoadSearch(s.conn, e.search))
            else s' == moved
  {
    var input := InputOf(cfg, s.machine.current, e);
    if input.Some? {
      InputActs(cfg, s, input.value, countSent);
    }
  }

  lemma {:induction false} AltitudeCarriesOut(c: MU.Conn, feet: nat)
    ensures LastAltitude(MU.Send(c, MU.ChangeAltitude(feet)).sent) == Some(feet)
  {
  }

  lemma {:induction false} ShutdownIsSent(c: MU.Conn, call: MU.Call)
    requires MU.SearchHeld(c) && (call.Disarm? || call.Terminate?)
    ensures LastShutdown(MU.Handle(c, call).sent)
         == Some(if call.Disarm? then MU.ArmDisarm(call.force) else MU.FlightTermination)
  {
  }

  lemma {:induction false} ActionCarriesOut(cfg: Config, s: System, state: FmuState, countSent: bool)
    requires MU.Inv(s.conn) && MU.Accounted(s.conn) && state == s.machine.current
    ensures CarriesOut(cfg, ActionState(cfg, s, state, countSent), s.machine.target)
  {
    if state == AltitudeAdjust {
      AltitudeCarriesOut(s.conn, s.machine.target.altitude);
    } else if ShutdownOf(cfg, state).Some? {
      ShutdownIsSent(s.conn, ActionCall(cfg, state, s.machine.target, countSent).value);
    }
  }

  lemma {:induction false} SendKeepsLast(sent: seq<MU.Msg>, m: MU.Msg)
    requires !m.ChangeAltitude? && !m.ArmDisarm? && !m.FlightTermination?
    ensures LastAltitude(sent + [m]) == LastAltitude(sent) && LastShutdown(sent + [m]) == LastShutdown(sent)
  {
    assert (sent + [m])[..|sent|] == sent;
  }

  lemma {:induction false} AckKeepsLast(c: MU.Conn, accepted: bool, currentPoint: nat)
    requires MU.Inv(c)
    ensures var sent := MU.MissionAck(c, accepted, currentPoint).sent;
            LastAltitude(sent) == LastAltitude(c.sent) && LastShutdown(sent) == LastShutdown(c.sent)
  {
    MU.AckIs(c, accepted, currentPoint);
    if accepted && c.open.Some? {
      var cur := MU.SetCurrent(if c.gotoAckPending then 0 else MU.MissionPlan.PointSeq(currentPoint));
      SendKeepsLast(c.sent, cur);
      SendKeepsLast(c.sent + [cur], MU.SetMode(MU.ModeAuto));
    }
  }

  lemma {:induction false} MavKeepsLast(c: MU.Conn, call: MU.Call)
    requires MU.Inv(c) && (call.Inbound() || call.LinkDown?)
    ensures var sent := MU.Handle(c, call).sent;
            LastAltitude(sent) == LastAltitude(c.sent) && LastShutdown(sent) == LastShutdown(c.sent)
  {
    match call
    case Ack(accepted, currentPoint) => AckKeepsLast(c, accepted, currentPoint);
    case Beat(known) =>
      if c.pendingMode.Some? {
        SendKeepsLast(c.sent, MU.SetMode(c.pendingMode.value));
      }
    case Request(seqNo, currentPoint) =>
      var item := MU.ItemRequested(c, seqNo);
      if item.Some? {
        SendKeepsLast(c.sent, MU.MissionItem(seqNo, MU.WaypointFor(c, item.value, seqNo, currentPoint)));
      }
    case _ =>
  }

  lemma {:induction false} MavKeepsGoto(c: MU.Conn, call: MU.Call)
    requires MU.Inv(c) && (call.Inbound() || call.LinkDown?)
    ensures var c' := MU.Handle(c, call);
            && c'.gotoPosition == c.gotoPosition
            && (!c.searchLoading && !c.searchLoaded ==> !c'.searchLoading && !c'.searchLoaded)
  {
  }

  lemma {:induction false} SameTargetCarriesOut(cfg: Config, s: System, conn: MU.Conn, target: Target)
    requires CarriesOut(cfg, s, target) && conn.gotoPosition == s.conn.gotoPosition
    requires !s.conn.searchLoading && !s.conn.searchLoaded ==> !conn.searchLoading && !conn.searchLoaded
    requires LastAltitude(conn.sent) == LastAltitude(s.conn.sent)
    requires LastShutdown(conn.sent) == LastShutdown(s.conn.sent)
    ensures CarriesOut(cfg, s.(conn := conn), target)
  {
  }

  /** Nothing the autopilot sends redirects a goto, loads a search, or changes the altitude. */
  lemma {:induction false} MavKeepsTarget(cfg: Config, s: System, call: MU.Call, target: Target)
    requires MU.Inv(s.conn) && (call.Inbound() || call.LinkDown?) && CarriesOut(cfg, s, target)
    ensures CarriesOut(cfg, s.(conn := MU.Handle(s.conn, call)), target)
  {
    MavKeepsLast(s.conn, call);
    MavKeepsGoto(s.conn, call);
    SameTargetCarriesOut(cfg, s, MU.Handle(s.conn, call), target);
  }

  lemma {:induction false} DispatchCarriesOut(cfg: Config, s: System, e: Event, countSent: bool, target: Target)
    requires Inv(s) && CarriesOut(cfg, s, target)
    ensures var step := Dispatch(e, countSent);
            var s' := Next(cfg, s, step);
            CarriesOut(cfg, s', if ActsFrom(cfg, s, step) then s'.machine.target else target)
  {
    DispatchActs(cfg, s, e, countSent);
    var s' := Next(cfg, s, Dispatch(e, countSent));
    if ActsFrom(cfg, s, Dispatch(e, countSent)) {
      ActionCarriesOut(cfg, s.(machine := s'.machine), s'.machine.current, countSent);
    }
  }

  lemma {:induction false} NextCarriesOut(cfg: Config, s: System, step: Step, target: Target)
    requires Inv(s) && step.Legal() && CarriesOut(cfg, s, target)
    ensures var s' := Next(cfg, s, step);
            CarriesOut(cfg, s', if ActsFrom(cfg, s, step) then s'.machine.target else target)
  {
    match step
    case Dispatch(e, countSent) => DispatchCarriesOut(cfg, s, e, countSent, target);
    case Mav(call) => MavKeepsTarget(cfg, s, call, target);
  }

  lemma {:induction false} NextActs(cfg: Config, s: System, step: Step)
    requires MU.Inv(s.conn)
    ensures var s' := Next(cfg, s, step);
            s'.actions == if ActsFrom(cfg, s, step) then s.actions + [s'.machine.current] else s.actions
  {
    if step.Dispatch? {
      DispatchActs(cfg, s, step.event, step.countSent);
    }
  }

  lemma {:induction false} RunActs(cfg: Config, steps: seq<Step>, before: seq<Step>)
    requires cfg.machine.Valid() && AllLegal(steps) && steps != [] && before == steps[..|steps| - 1]
    ensures Acts(cfg, steps) <==> ActsFrom(cfg, Run(cfg, before), steps[|before|])
    ensures Run(cfg, steps).machine.target == OperatorsTarget(steps)
  {
    MachineIsAsTheEventsSay(cfg, before);
    MachineIsAsTheEventsSay(cfg, steps);
  }

  lemma {:induction false} RunCarriesOut(cfg: Config, steps: seq<Step>)
    requires cfg.machine.Valid() && AllLegal(steps)
    ensures CarriesOut(cfg, Run(cfg, steps), TargetInForce(cfg, steps))
  {
    if steps != [] {
      var before := steps[..|steps| - 1];
      RunCarriesOut(cfg, before);
      RunActs(cfg, steps, before);
      NextCarriesOut(cfg, Run(cfg, before), steps[|before|], TargetInForce(cfg, before));
    }
  }

  /**
    Over every run, what has been acted on is exactly what its events ask for: one action, for the resulting state, at
    each step that changes the state, re-asserts it, or brings the MAV link back, and none at any other.
   */
  lemma {:induction false} ActionsFollowTheHistory(cfg: Config, steps: seq<Step>)
    requires cfg.machine.Valid() && AllLegal(steps)
    ensures Run(cfg, steps).actions == ActionsOf(cfg, steps)
  {
    if steps != [] {
      var before := steps[..|steps| - 1];
      ActionsFollowTheHistory(cfg, before);
      RunActs(cfg, steps, before);
      NextActs(cfg, Run(cfg, before), steps[|before|]);
    }
  }

  /**
    A goto flies where it was sent, whatever comes in meanwhile: while in the goto state the position served to the
    autopilot is the target retained at the last action, any upload open is that goto's, and no search is loaded.
    While adjusting altitude the last altitude sent is that target's. A retarget that changed no state is not in force.
   */
  lemma {:induction false} GotoFliesToItsTarget(cfg: Config, steps: seq<Step>)
    requires cfg.machine.Valid() && AllLegal(steps)
    ensures var s, target := Run(cfg, steps), TargetInForce(cfg, steps);
            && (s.machine.current == GotoPoint ==>
                  && s.conn.gotoPosition == target.position && !s.conn.searchLoading && !s.conn.searchLoaded
                  && (s.conn.open.Some? ==> s.conn.open == Some(MU.GotoUpload(target.position))))
            && (s.machine.current == AltitudeAdjust ==> LastAltitude(s.conn.sent) == Some(target.altitude))
  {
    RunCarriesOut(cfg, steps);
  }

  /** While disarmed or terminated the last shutdown message sent is the one configured for that state. */
  lemma {:induction false} ShutdownsAreSent(cfg: Config, steps: seq<Step>)
    requires cfg.machine.Valid() && AllLegal(steps)
    ensures var s := Run(cfg, steps);
            && (s.machine.current == Disarmed ==> LastShutdown(s.conn.sent) == Some(MU.ArmDisarm(false)))
            && (s.machine.current == Terminated && cfg.terminateAction == ForceDisarm ==>
                  LastShutdown(s.conn.sent) == Some(MU.ArmDisarm(true)))
            && (s.machine.current == Terminated && cfg.terminateAction == TerminateFlight ==>
                  LastShutdown(s.conn.sent) == Some(MU.FlightTermination))
  {
    RunCarriesOut(cfg, steps);
  }

  // ---------------------------------------------------------------------------
  // What an event puts on the link
  // ---------------------------------------------------------------------------

  /** A mode change is sent once the autopilot's type is known, and waits until then. */
  function ModeSent(known: bool, mode: MU.Mode): seq<MU.Msg> {
    if known then [MU.SetMode(mode)] else []
  }

  /** What acting on a state sends. */
  function SentFor(cfg: Config, known: bool, state: FmuState, target: Target): seq<MU.Msg> {
    match state
    case Manual => ModeSent(known, MU.ModeManual)
    case Hold => ModeSent(known, MU.ModeHold)
    case Rtl => ModeSent(known, MU.ModeRtl)
    case WaitingForTasking => ModeSent(known, MU.ModeRtl)
    case Failsafe => ModeSent(known, MU.ModeRtl)
    case LowBattery => ModeSent(known, MU.ModeRtl)
    case GotoPoint => ModeSent(known, MU.ModeRtl) + [MU.MissionCount(3)]
    case AltitudeAdjust => [MU.ChangeAltitude(target.altitude)]
    case Searching => []
    case Disarmed => [MU.ArmDisarm(false)]
    case Terminated =>
      match cfg.terminateAction
      case FallBackToRtl => ModeSent(known, MU.ModeRtl)
      case ForceDisarm => [MU.ArmDisarm(true)]
      case TerminateFlight => [MU.FlightTermination]
  }

  /** The upload the connection opens, if the state acted on has one: a goto whose announcement got through. */
  function OpenedFor(state: FmuState, target: Target, countSent: bool): Option<MU.Upload> {
    if state == GotoPoint && countSent then Some(MU.GotoUpload(target.position)) else None
  }

  /** Searching and an altitude adjustment leave the upload in hand alone; acting on any other state replaces it. */
  predicate LeavesUpload(state: FmuState) {
    state == Searching || state == AltitudeAdjust
  }

  lemma {:induction false} TakeOverSends(c: MU.Conn, mode: MU.Mode)
    ensures var c' := MU.SetResolvedMode(c, mode, true);
            c'.sent == c.sent + ModeSent(c.typeKnown, mode) && c'.open.None?
  {
  }

  lemma {:induction false} GotoSends(c: MU.Conn, at: Point, countSent: bool)
    ensures var c' := MU.CommandGoto(c, at, countSent);
            && c'.sent == c.sent + (ModeSent(c.typeKnown, MU.ModeRtl) + [MU.MissionCount(3)])
            && c'.open == if countSent then Some(MU.GotoUpload(at)) else None
  {
    TakeOverSends(c, MU.ModeRtl);
  }

  lemma {:induction false} ShutdownSends(c: MU.Conn, call: MU.Call)
    requires MU.SearchHeld(c) && (call.Disarm? || call.Terminate?)
    ensures var c' := MU.Handle(c, call);
            && c'.sent == c.sent + [if call.Disarm? then MU.ArmDisarm(call.force) else MU.FlightTermination]
            && c'.open.None?
  {
  }

  /** The connection after acting on a state. */
  function Acted(cfg: Config, c: MU.Conn, state: FmuState, target: Target, countSent: bool): MU.Conn
    requires MU.Inv(c)
  {
    var call := ActionCall(cfg, state, target, countSent);
    if call.Some? then MU.Handle(c, call.value) else c
  }

  lemma {:induction false} ActionSends(
    cfg: Config, c: MU.Conn, state: FmuState, target: Target, countSent: bool, call: Option<MU.Call>)
    requires MU.Inv(c) && call == ActionCall(cfg, state, target, countSent)
    ensures var c' := Acted(cfg, c, state, target, countSent);
            && c'.sent == c.sent + SentFor(cfg, c.typeKnown, state, target)
            && c'.open == if LeavesUpload(state) then c.open else OpenedFor(state, target, countSent)
  {
    if call.None? {
      assert c.sent + [] == c.sent;
    } else if call.value.TakeOver? {
      TakeOverSends(c, call.value.mode);
    } else if call.value.Goto? {
      GotoSends(c, target.position, countSent);
    } else if call.value.Disarm? || call.value.Terminate? {
      ShutdownSends(c, call.value);
    }
  }

  lemma {:induction false} LoadSends(c: MU.Conn, search: MU.Search)
    requires MU.Inv(c) && !(c.searchLoaded && c.search == Some(search))
    ensures var c' := MU.LoadSearch(c, search);
            && c'.sent == c.sent + ModeSent(c.typeKnown, MU.ModeRtl)
                          + [MU.MissionCount((|search.points| + 3) % 0x1_0000)]
            && c'.open == Some(MU.SearchUpload(search))
  {
  }

  lemma {:induction false} DispatchSends(cfg: Config, s: System, e: Event, countSent: bool, s': System)
    requires MU.Inv(s.conn) && s' == Next(cfg, s, Dispatch(e, countSent))
    ensures var acts, state, target := ActsFrom(cfg, s, Dispatch(e, countSent)), s'.machine.current, s'.machine.target;
            var loads := e.SmmLoadSearchEvent? && s.machine.current == Searching
                         && !(s.conn.searchLoaded && s.conn.search == Some(e.search));
            && (acts ==>
                  && s'.conn.sent == s.conn.sent + SentFor(cfg, s.conn.typeKnown, state, target)
                  && s'.conn.open == if LeavesUpload(state) then s.conn.open else OpenedFor(state, target, countSent))
            && (loads ==>
                  && s'.conn.sent == s.conn.sent + ModeSent(s.conn.typeKnown, MU.ModeRtl)
                                     + [MU.MissionCount((|e.search.points| + 3) % 0x1_0000)]
                  && s'.conn.open == Some(MU.SearchUpload(e.search)))
            && (!acts && !loads ==> s'.conn == s.conn)
  {
    DispatchActs(cfg, s, e, countSent);
    if ActsFrom(cfg, s, Dispatch(e, countSent)) {
      var state, target := s'.machine.current, s'.machine.target;
      ActionSends(cfg, s.conn, state, target, countSent, ActionCall(cfg, state, target, countSent));
    } else if e.SmmLoadSearchEvent? && !(s.conn.searchLoaded && s.conn.search == Some(e.search)) {
      LoadSends(s.conn, e.search);
    }
  }

  /**
    What a dispatched event makes the FMU send and upload, over every run: if it is acted on, what the state it leaves
    sends; if it is a search found while searching that is not loaded already, the announcement of that search, with
    the aircraft told to return to launch meanwhile; and nothing otherwise.
   */
  lemma {:induction false} EventSends(cfg: Config, steps: seq<Step>, e: Event, countSent: bool)
    requires cfg.machine.Valid() && AllLegal(steps)
    ensures var more := steps + [Dispatch(e, countSent)];
            && AllLegal(more)
            && var c, c', current := Run(cfg, steps).conn, Run(cfg, more).conn, Run(cfg, steps).machine.current;
               var state, target := Run(cfg, more).machine.current, OperatorsTarget(more);
               var loads := e.SmmLoadSearchEvent? && current == Searching
                            && !(c.searchLoaded && c.search == Some(e.search));
               && (Acts(cfg, more) ==>
                     && c'.sent == c.sent + SentFor(cfg, c.typeKnown, state, target)
                     && c'.open == if LeavesUpload(state) then c.open else OpenedFor(state, target, countSent))
               && (loads ==>
                     && c'.sent == c.sent + ModeSent(c.typeKnown, MU.ModeRtl)
                                   + [MU.MissionCount((|e.search.points| + 3) % 0x1_0000)]
                     && c'.open == Some(MU.SearchUpload(e.search)))
               && (!Acts(cfg, more) && !loads ==> c' == c)
  {
    var step := Dispatch(e, countSent);
    RunExtends(cfg, steps, step);
    assert (steps + [step])[..|steps|] == steps;
    RunActs(cfg, steps + [step], steps);
    DispatchSends(cfg, Run(cfg, steps), e, countSent, Run(cfg, steps + [step]));
  }

  // ---------------------------------------------------------------------------
  // The objects
  // ---------------------------------------------------------------------------

  /** The searching role of `SMM`, as the event loop grants and revokes it. */
  class SearchRole {
    var active: bool

    constructor ()
      ensures !active
    {
      active := false;
    }
  }

  /** `FMUStateMachine`, driving the autopilot connection and the searching role. */
  class FmuStateMachine {
    const cfg: Config
    const mav: MU.MavConnection
    const smm: SearchRole
    var current: FmuState
    var fssCommand: FssCommand
    var target: Target
    var smmCommand: SmmCommand
    var lowCount: nat
    var lowBattery: bool
    var breachCount: nat
    var clearCount: nat
    var breach: bool
    var terminated: bool
    var fssLost: bool
    var mavLost: bool
    ghost var actions: seq<FmuState>

    ghost function Fields(): SM.Machine
      reads this
    {
      SM.Machine(current, fssCommand, target, smmCommand, lowCount, lowBattery, breachCount, clearCount, breach,
                 terminated, fssLost, mavLost)
    }

    ghost function View(): System
      reads this, mav, smm
    {
      System(Fields(), mav.View(), smm.active, actions)
    }

    ghost predicate Valid()
      reads this, mav, smm
    {
      Inv(View())
    }

    constructor (cfg: Config, mav: MU.MavConnection, smm: SearchRole)
      requires mav.View() == MU.INITIAL && !smm.active
      ensures View() == INITIAL && Valid()
      ensures this.cfg == cfg && this.mav == mav && this.smm == smm
    {
      this.cfg, this.mav, this.smm := cfg, mav, smm;
      current, fssCommand, target, smmCommand := Manual, CmdUnknown, NO_TARGET, SmmNone;
      lowCount, lowBattery := 0, false;
      breachCount, clearCount, breach := 0, 0, false;
      terminated, fssLost, mavLost := false, true, false;
      actions := [];
    }

    method UpdateState() returns (changed: Option<FmuState>)
      modifies this
      ensures Fields() == SM.UpdateState(old(Fields())) && actions == old(actions)
      ensures changed == if current != old(current) then Some(current) else None
    {
      var newState := Failsafe;
      if fssCommand == CmdTerminate {
        terminated := true;
      }
      if terminated {
        newState := Terminated;
      } else if lowBattery {
        newState := LowBattery;
      } else if !fssLost && !mavLost {
        newState := if breach then Rtl else SM.CommandedState(fssCommand, smmCommand);
      }
      if newState != current {
        current := newState;
        return Some(newState);
      }
      return None;
    }

    method Terminate()
      requires MU.Inv(mav.View()) && MU.Accounted(mav.View())
      modifies mav
      ensures mav.View() == MU.Handle(old(mav.View()), ActionCall(cfg, Terminated, target, false).value)
    {
      match cfg.terminateAction {
        case FallBackToRtl => mav.Perform(MU.TakeOver(MU.ModeRtl));
        case ForceDisarm => mav.Perform(MU.Disarm(true));
        case TerminateFlight => mav.Perform(MU.Terminate);
      }
    }

    method Command(state: FmuState, countSent: bool)
      requires MU.Inv(mav.View()) && MU.Accounted(mav.View())
      modifies mav
      ensures var call := ActionCall(cfg, state, target, countSent);
              mav.View() == if call.Some? then MU.Handle(old(mav.View()), call.value) else old(mav.View())
    {
      match state {
        case Manual => mav.Perform(MU.TakeOver(MU.ModeManual));
        case Searching =>
        case Rtl => mav.Perform(MU.TakeOver(MU.ModeRtl));
        case Failsafe => mav.Perform(MU.TakeOver(MU.ModeRtl));
        case LowBattery => mav.Perform(MU.TakeOver(MU.ModeRtl));
        case WaitingForTasking => mav.Perform(MU.TakeOver(MU.ModeRtl));
        case GotoPoint => mav.Perform(MU.Goto(target.position, countSent));
        case Hold => mav.Perform(MU.TakeOver(MU.ModeHold));
        case AltitudeAdjust => mav.Perform(MU.Altitude(target.altitude));
        case Disarmed => mav.Perform(MU.Disarm(false));
        case Terminated => Terminate();
      }
    }

    /** Carry out the side effects of entering, or re-asserting, `state`. */
    method Act(state: FmuState, countSent: bool)
      requires MU.Inv(mav.View()) && MU.Accounted(mav.View())
      modifies this`actions, mav, smm
      ensures View() == ActionState(cfg, old(View()), state, countSent)
    {
      if state == Searching {
        smm.active := true;
      } else if state != WaitingForTasking {
        smm.active := false;
      }
      Command(state, countSent);
      actions := actions + [state];
    }

    method ActIf(changed: Option<FmuState>, countSent: bool)
      requires MU.Inv(mav.View()) && MU.Accounted(mav.View())
      modifies this`actions, mav, smm
      ensures View() == if changed.Some? then ActionState(cfg, old(View()), changed.value, countSent) else old(View())
    {
      if changed.Some? {
        Act(changed.value, countSent);
      }
    }

    /** Apply the command and say how it resolved. */
    method ResolveFssCommand(cmd: FssCommand, to: Target) returns (changed: Option<FmuState>, resolution: Resolution)
      modifies this
      ensures Fields() == SM.UpdateState(old(Fields()).(fssCommand := cmd, target := to)) && actions == old(actions)
      ensures changed == if current != old(current) then Some(current) else None
      ensures resolution == SM.ResolutionOf(old(Fields()), cmd, to)
    {
      fssCommand := cmd;
      target := to;
      var desired := SM.CommandedState(fssCommand, smmCommand);
      changed := UpdateState();
      if current == desired {
        resolution := Resolution(Actioned, None, changed.Some?);
      } else {
        resolution := Resolution(Superseded, Some(current), changed.Some?);
      }
    }

    /** `FSSNewCommand`: its resolution is known before its side effects are carried out. */
    method FssNewCommand(cmd: FssCommand, to: Target, countSent: bool) returns (resolution: Resolution)
      requires MU.Inv(mav.View()) && MU.Accounted(mav.View())
      modifies this, mav, smm
      ensures View() == ApplyInput(cfg, old(View()), SM.FssCmd(cmd, to), countSent)
      ensures resolution == SM.ResolutionOf(old(Fields()), cmd, to)
    {
      var changed;
      changed, resolution := ResolveFssCommand(cmd, to);
      ActIf(changed, countSent);
    }

    method SmmNewCommand(cmd: SmmCommand, countSent: bool)
      requires MU.Inv(mav.View()) && MU.Accounted(mav.View())
      modifies this, mav, smm
      ensures View() == ApplyInput(cfg, old(View()), SM.SmmCmd(cmd), countSent)
    {
      smmCommand := cmd;
      var changed := UpdateState();
      ActIf(changed, countSent);
    }

    method CountBattery(low: bool) returns (changed: Option<FmuState>)
      modifies this
      ensures Fields() == SM.BatteryReading(cfg.machine, old(Fields()), low) && actions == old(actions)
      ensures changed == if current != old(current) then Some(current) else None
    {
      changed := None;
      if low {
        if lowCount < cfg.machine.lowLatch {
          lowCount := lowCount + 1;
        }
        if lowCount >= cfg.machine.lowLatch && !lowBattery {
          lowBattery := true;
          changed := UpdateState();
        }
      } else {
        lowCount := 0;
      }
    }

    method SetLowBattery(low: bool, countSent: bool)
      requires MU.Inv(mav.View()) && MU.Accounted(mav.View())
      modifies this, mav, smm
      ensures View() == ApplyInput(cfg, old(View()), SM.Battery(low), countSent)
    {
      var changed := CountBattery(low);
      ActIf(changed, countSent);
    }

    method CountAltitude(over: bool) returns (changed: Option<FmuState>)
      modifies this
      ensures Fields() == SM.AltitudeReading(cfg.machine, old(Fields()), over) && actions == old(actions)
      ensures changed == if current != old(current) then Some(current) else None
    {
      changed := None;
      if over {
        if breachCount < cfg.machine.breachLatch {
          breachCount := breachCount + 1;
        }
        clearCount := 0;
        if breachCount >= cfg.machine.breachLatch && !breach {
          breach := true;
          changed := UpdateState();
        }
      } else {
        if clearCount < cfg.machine.breachLatch {
          clearCount := clearCount + 1;
        }
        breachCount := 0;
        if clearCount >= cfg.machine.breachLatch && breach {
          breach := false;
          changed := UpdateState();
        }
      }
    }

    method SetCurrentAltitude(fixValid: bool, agl: Number, countSent: bool)
      requires MU.Inv(mav.View()) && MU.Accounted(mav.View())
      modifies this, mav, smm
      ensures View() == ApplyInput(cfg, old(View()), SM.Altitude(fixValid, agl), countSent)
    {
      if fixValid && agl.Finite? {
        var changed := CountAltitude(agl.value > cfg.machine.cap as real);
        ActIf(changed, countSent);
      }
    }

    method SetCommsFailure(failed: bool, countSent: bool)
      requires MU.Inv(mav.View()) && MU.Accounted(mav.View())
      modifies this, mav, smm
      ensures View() == ApplyInput(cfg, old(View()), SM.FssComms(failed), countSent)
    {
      fssLost := failed;
      var changed := UpdateState();
      ActIf(changed, countSent);
    }

    /** A recovered link is acted on even when it changes no state. */
    method NoteMavComms(failed: bool) returns (acts: Option<FmuState>)
      modifies this
      ensures Fields() == SM.Step(cfg.machine, old(Fields()), SM.MavComms(failed)) && actions == old(actions)
      ensures acts == SM.ActionOf(cfg.machine, old(Fields()), SM.MavComms(failed))
    {
      var recovered := mavLost && !failed;
      mavLost := failed;
      acts := UpdateState();
      if acts.None? && recovered {
        acts := Some(current);
      }
    }

    method SetMavCommsFailure(failed: bool, countSent: bool)
      requires MU.Inv(mav.View()) && MU.Accounted(mav.View())
      modifies this, mav, smm
      ensures View() == ApplyInput(cfg, old(View()), SM.MavComms(failed), countSent)
    {
      var acts := NoteMavComms(failed);
      ActIf(acts, countSent);
    }

    method ReassertState(countSent: bool)
      requires MU.Inv(mav.View()) && MU.Accounted(mav.View())
      modifies this, mav, smm
      ensures View() == ApplyInput(cfg, old(View()), SM.Reassert, countSent)
    {
      Act(current, countSent);
    }
  }

  /** `EventDispatcher::dispatch`, for the events that reach the state machine or the connection. */
  class EventDispatcher {
    const machine: FmuStateMachine
    /** What was passed on to FSS and SMM: positions and batteries always, reached points only while searching. */
    var forwarded: seq<Event>

    constructor (machine: FmuStateMachine)
      ensures this.machine == machine && forwarded == []
    {
      this.machine := machine;
      forwarded := [];
    }

    /** The search worker's events. */
    method DispatchSmm(e: Event, countSent: bool)
      requires machine.Valid() && (e.SmmLoadSearchEvent? || e.SmmRtlEvent? || e.SmmOperatorEvent?)
      modifies machine, machine.mav, machine.smm
      ensures machine.View() == DispatchEvent(machine.cfg, old(machine.View()), e, countSent)
    {
      match e {
        case SmmLoadSearchEvent(search) =>
          if machine.current == Searching {
            machine.mav.Load(search);
          } else if machine.current == WaitingForTasking {
            machine.SmmNewCommand(SmmNone, countSent);
          }
        case SmmRtlEvent => machine.SmmNewCommand(SmmMissionComplete, countSent);
        case SmmOperatorEvent(smm) => machine.SmmNewCommand(smm, countSent);
      }
    }

    method Dispatch(e: Event, countSent: bool) returns (ack: Option<Resolution>)
      requires machine.Valid()
      modifies this, machine, machine.mav, machine.smm
      ensures machine.View() == DispatchEvent(machine.cfg, old(machine.View()), e, countSent) && machine.Valid()
      ensures e.PositionEvent? || e.BatteryEvent? || (e.ReachedEvent? && old(machine.current) == Searching) ==>
                forwarded == old(forwarded) + [e]
      ensures !e.PositionEvent? && !e.BatteryEvent? && !(e.ReachedEvent? && old(machine.current) == Searching) ==>
                forwarded == old(forwarded)
      ensures ack == if e.FssCommandEvent? then Some(SM.ResolutionOf(old(machine.Fields()), e.cmd, e.target)) else None
    {
      NextKeepsInv(machine.cfg, machine.View(), Step.Dispatch(e, countSent));
      ack := None;
      match e {
        case FssCommandEvent(cmd, target) =>
          var resolution := machine.FssNewCommand(cmd, target, countSent);
          ack := Some(resolution);
        case FssCommsEvent(failed) => machine.SetCommsFailure(failed, countSent);
        case MavCommsEvent(failed) => machine.SetMavCommsFailure(failed, countSent);
        case AutopilotRestartEvent => machine.ReassertState(countSent);
        case PositionEvent(fixValid, agl) =>
          machine.SetCurrentAltitude(fixValid, agl, countSent);
          forwarded := forwarded + [e];
        case BatteryEvent(remaining) =>
          var low := remaining >= 0 && remaining < machine.cfg.lowBatteryThreshold;
          machine.SetLowBattery(low, countSent);
          forwarded := forwarded + [e];
        case ReachedEvent(_) =>
          if machine.current == Searching {
            forwarded := forwarded + [e];
          }
        case _ => DispatchSmm(e, countSent);
      }
    }
  }
}
