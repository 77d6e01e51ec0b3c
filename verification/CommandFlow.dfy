/**
  The path of one operator command, end to end: the acknowledgement protocol and the arbiter composed, the event
  loop's one step for a command being a step of both.
 */
module CommandFlow {
  import opened FmuTypes
  import opened CommandAckGroup
  import AP = AckProtocol
  import AR = Arbiter
  import SM = StateMachine

  /** `wire` maps the wire commands the FMU acts on. */
  datatype Config = Config(arbiter: AR.Config, tolerance: nat, wire: map<nat, FssCommand>) {
    predicate Valid() {
      arbiter.machine.Valid() && 1 <= tolerance
    }
  }

  /**
    Both systems; then history: the protocol's steps, the inputs the state machine was given, and for each epoch
    taken off the event queue how many inputs came before.
   */
  datatype Flow = Flow(ack: AP.System, arbiter: AR.System, protocol: seq<AP.Step>, inputs: seq<SM.Input>,
                       takenAt: map<nat, nat>)

  const INITIAL := Flow(AP.Init(), AR.INITIAL, [], [], map[])

  /**
    A step of the receive threads or the FSS worker, the event loop taking a command, or anything else it or the
    autopilot connection does.
   */
  datatype Step = Protocol(step: AP.Step) | Command(countSent: bool) | Other(event: AR.Step)

  predicate Legal(cfg: Config, step: Step) {
    match step
    case Protocol(p) =>
      !p.Dispatch? && (p.Arrive? && p.incoming.actionable ==> p.incoming.delivery.command in cfg.wire)
    case Command(_) => true
    case Other(event) => event.Legal() && !(event.Dispatch? && event.event.FssCommandEvent?)
  }

  function CommandOf(cfg: Config, d: Delivery): FssCommand {
    if d.command in cfg.wire then cfg.wire[d.command] else CmdUnknown
  }

  function TargetOf(d: Delivery): Target {
    match d.payload
    case NoPayload => NO_TARGET
    case Position(lat, lng) => NO_TARGET.(position := Point(lat, lng))
    case AltitudeOf(feet) => NO_TARGET.(altitude := feet)
  }

  /** Epoch `e` was resolved as the state machine it was given to would resolve its opener's command. */
  ghost predicate AnsweredBy(cfg: Config, s: Flow, e: nat, res: Resolution)
    requires AP.Members(s.ack, cfg.tolerance)
  {
    && AP.Opened(s.ack, e)
    && e in s.takenAt && s.takenAt[e] < |s.inputs|
    && var d := AP.OpenerOf(s.ack, e);
       && s.inputs[s.takenAt[e]] == SM.FssCmd(CommandOf(cfg, d), TargetOf(d))
       && res == SM.ResolutionOf(SM.Run(cfg.arbiter.machine, s.inputs[..s.takenAt[e]]), CommandOf(cfg, d), TargetOf(d))
  }

  ghost predicate AllAnswered(cfg: Config, s: Flow, decided: map<nat, Resolution>)
    requires AP.Members(s.ack, cfg.tolerance)
  {
    forall e :: e in decided ==> AnsweredBy(cfg, s, e, decided[e])
  }

  /** Only commands the FMU acts on are actionable. */
  predicate AllWired(cfg: Config, incoming: seq<AP.Incoming>) {
    forall c :: 0 <= c < |incoming| && incoming[c].actionable ==> incoming[c].delivery.command in cfg.wire
  }

  function CommandsIn(inputs: seq<SM.Input>): nat {
    if inputs == [] then 0 else CommandsIn(inputs[..|inputs| - 1]) + if inputs[|inputs| - 1].FssCmd? then 1 else 0
  }

  /** Both systems' invariants, the machine on its inputs, and every decided epoch answered as the machine then was. */
  ghost predicate Composed(cfg: Config, s: Flow) {
    && s.ack == AP.Run(cfg.tolerance, s.protocol)
    && AP.Inv(s.ack, cfg.tolerance)
    && AR.Inv(s.arbiter)
    && s.arbiter.machine == SM.Run(cfg.arbiter.machine, s.inputs)
    && AllAnswered(cfg, s, AP.Decided(cfg.tolerance, s.protocol))
    && CommandsIn(s.inputs) == |s.ack.dispatched|
  }

  ghost predicate Inv(cfg: Config, s: Flow) {
    Composed(cfg, s) && AllWired(cfg, s.ack.incoming)
  }

  lemma {:induction false} QueuedIsOpened(cfg: Config, s: Flow)
    requires Composed(cfg, s) && s.ack.events != []
    ensures AP.Opened(s.ack, s.ack.events[0])
  {
    AP.CommandsAreConserved(cfg.tolerance, s.protocol, s.ack.events[0]);
    AP.OccursHead(s.ack.events, s.ack.events[0]);
  }

  function InputFor(cfg: Config, s: AR.System, event: AR.Step): Option<SM.Input> {
    if event.Dispatch? then AR.InputOf(cfg.arbiter, s.machine.current, event.event) else None
  }

  /** The event loop takes epoch `e`'s command, `d`'s: dispatches it, and sends its resolution back. */
  ghost function TakeCommand(cfg: Config, s: Flow, e: nat, d: Delivery, countSent: bool): Flow
    requires AR.Inv(s.arbiter)
  {
    var cmd, target := CommandOf(cfg, d), TargetOf(d);
    var p := AP.Dispatch(SM.ResolutionOf(s.arbiter.machine, cmd, target));
    Flow(AP.Next(s.ack, cfg.tolerance, p),
         AR.Next(cfg.arbiter, s.arbiter, AR.Dispatch(AR.FssCommandEvent(cmd, target), countSent)),
         s.protocol + [p],
         s.inputs + [SM.FssCmd(cmd, target)],
         s.takenAt[e := |s.inputs|])
  }

  ghost function Next(cfg: Config, s: Flow, step: Step): Flow
    requires Composed(cfg, s)
  {
    match step
    case Protocol(p) => s.(ack := AP.Next(s.ack, cfg.tolerance, p), protocol := s.protocol + [p])
    case Command(countSent) =>
      if s.ack.events == [] then s
      else
        var e := s.ack.events[0];
        QueuedIsOpened(cfg, s);
        TakeCommand(cfg, s, e, AP.OpenerOf(s.ack, e), countSent)
    case Other(event) =>
      var input := InputFor(cfg, s.arbiter, event);
      s.(arbiter := AR.Next(cfg.arbiter, s.arbiter, event),
         inputs := s.inputs + if input.Some? then [input.value] else [])
  }

  lemma {:induction false} RunExtends(tolerance: nat, protocol: seq<AP.Step>, p: AP.Step)
    ensures AP.Run(tolerance, protocol + [p]) == AP.Next(AP.Run(tolerance, protocol), tolerance, p)
  {
    assert (protocol + [p])[..|protocol|] == protocol;
  }

  lemma {:induction false} DecidedExtends(tolerance: nat, protocol: seq<AP.Step>, p: AP.Step)
    ensures var events := AP.Run(tolerance, protocol).events;
            AP.Decided(tolerance, protocol + [p]) ==
            (if p.Dispatch? && events != [] then AP.Decided(tolerance, protocol)[events[0] := p.res]
             else AP.Decided(tolerance, protocol))
  {
    assert (protocol + [p])[..|protocol|] == protocol;
  }

  lemma {:induction false} HistoryGrows(s: AP.System, tolerance: nat, p: AP.Step)
    ensures var s' := AP.Next(s, tolerance, p);
            && s.incoming <= s'.incoming && s.openers <= s'.openers && s.group.epoch <= s'.group.epoch
            && |s'.dispatched| == |s.dispatched| + (if p.Dispatch? && s.events != [] then 1 else 0)
  {
  }

  /** Epochs stay open and keep their opener. */
  ghost predicate KeepsOpeners(s: AP.System, s': AP.System, tolerance: nat)
    requires AP.Members(s, tolerance) && AP.Members(s', tolerance)
  {
    forall e {:trigger AP.Opened(s, e)} ::
      AP.Opened(s, e) ==> AP.Opened(s', e) && AP.OpenerOf(s', e) == AP.OpenerOf(s, e)
  }

  lemma {:induction false} OpenersStay(s: AP.System, s': AP.System, tolerance: nat)
    requires AP.Members(s, tolerance) && AP.Members(s', tolerance)
    requires s.incoming <= s'.incoming && s.openers <= s'.openers && s.group.epoch <= s'.group.epoch
    ensures KeepsOpeners(s, s', tolerance)
  {
    forall e | AP.Opened(s, e) ensures AP.OpenerOf(s', e) == AP.OpenerOf(s, e) {
      assert s'.openers[e - 1] == s.openers[e - 1];
    }
  }

  lemma {:induction false} AnswerStays(cfg: Config, s: Flow, s': Flow, e: nat, res: Resolution)
    requires AP.Members(s.ack, cfg.tolerance) && AP.Members(s'.ack, cfg.tolerance)
    requires AnsweredBy(cfg, s, e, res) && KeepsOpeners(s.ack, s'.ack, cfg.tolerance)
    requires s.inputs <= s'.inputs && e in s'.takenAt && s'.takenAt[e] == s.takenAt[e]
    ensures AnsweredBy(cfg, s', e, res)
  {
    assert s'.inputs[..s.takenAt[e]] == s.inputs[..s.takenAt[e]];
  }

  lemma {:induction false} AnswersStay(cfg: Config, s: Flow, s': Flow, decided: map<nat, Resolution>)
    requires AP.Members(s.ack, cfg.tolerance) && AP.Members(s'.ack, cfg.tolerance)
    requires AllAnswered(cfg, s, decided) && KeepsOpeners(s.ack, s'.ack, cfg.tolerance)
    requires s.inputs <= s'.inputs
    requires forall e :: e in decided && e in s.takenAt ==> e in s'.takenAt && s'.takenAt[e] == s.takenAt[e]
    ensures AllAnswered(cfg, s', decided)
  {
    forall e | e in decided ensures AnsweredBy(cfg, s', e, decided[e]) {
      assert AnsweredBy(cfg, s, e, decided[e]);
      AnswerStays(cfg, s, s', e, decided[e]);
    }
  }

  lemma {:induction false} ProtocolKeepsInv(cfg: Config, s: Flow, p: AP.Step)
    requires cfg.Valid() && Composed(cfg, s) && !p.Dispatch?
    ensures Composed(cfg, Next(cfg, s, Protocol(p)))
  {
    var s' := Next(cfg, s, Protocol(p));
    RunExtends(cfg.tolerance, s.protocol, p);
    DecidedExtends(cfg.tolerance, s.protocol, p);
    AP.RunKeepsInv(cfg.tolerance, s'.protocol);
    HistoryGrows(s.ack, cfg.tolerance, p);
    OpenersStay(s.ack, s'.ack, cfg.tolerance);
    AnswersStay(cfg, s, s', AP.Decided(cfg.tolerance, s.protocol));
  }

  lemma {:induction false} InputExtends(machine: SM.Config, inputs: seq<SM.Input>, input: SM.Input)
    ensures SM.Run(machine, inputs + [input]) == SM.Step(machine, SM.Run(machine, inputs), input)
    ensures CommandsIn(inputs + [input]) == CommandsIn(inputs) + if input.FssCmd? then 1 else 0
  {
    assert (inputs + [input])[..|inputs|] == inputs;
  }

  /** The arbiter's half of a step that gives the state machine `input`. */
  lemma {:induction false} ArbiterRuns(cfg: Config, s: Flow, event: AR.Step, input: Option<SM.Input>)
    requires AR.Inv(s.arbiter) && event.Legal() && s.arbiter.machine == SM.Run(cfg.arbiter.machine, s.inputs)
    requires input == InputFor(cfg, s.arbiter, event)
    ensures AR.Inv(AR.Next(cfg.arbiter, s.arbiter, event))
    ensures AR.Next(cfg.arbiter, s.arbiter, event).machine
         == SM.Run(cfg.arbiter.machine, s.inputs + if input.Some? then [input.value] else [])
  {
    AR.NextKeepsInv(cfg.arbiter, s.arbiter, event);
    AR.NextRunsItsInput(cfg.arbiter, s.arbiter, event);
    if input.Some? {
      InputExtends(cfg.arbiter.machine, s.inputs, input.value);
    } else {
      assert s.inputs + [] == s.inputs;
    }
  }

  lemma {:induction false} OtherIsNoCommand(cfg: Config, s: AR.System, event: AR.Step)
    requires Legal(cfg, Other(event))
    ensures var input := InputFor(cfg, s, event); input.Some? ==> !input.value.FssCmd?
  {
  }

  lemma {:induction false} ArbiterMoves(cfg: Config, s: Flow, arbiter: AR.System, more: seq<SM.Input>)
    requires Composed(cfg, s) && AR.Inv(arbiter) && arbiter.machine == SM.Run(cfg.arbiter.machine, s.inputs + more)
    requires more == [] || (|more| == 1 && !more[0].FssCmd?)
    ensures Composed(cfg, s.(arbiter := arbiter, inputs := s.inputs + more))
  {
    OpenersStay(s.ack, s.ack, cfg.tolerance);
    AnswersStay(cfg, s, s.(arbiter := arbiter, inputs := s.inputs + more), AP.Decided(cfg.tolerance, s.protocol));
    if more == [] {
      assert s.inputs + more == s.inputs;
    } else {
      InputExtends(cfg.arbiter.machine, s.inputs, more[0]);
      assert more == [more[0]];
    }
  }

  lemma {:induction false} OtherKeepsInv(cfg: Config, s: Flow, event: AR.Step)
    requires cfg.Valid() && Composed(cfg, s) && Legal(cfg, Other(event))
    ensures Composed(cfg, Next(cfg, s, Other(event)))
  {
    var input := InputFor(cfg, s.arbiter, event);
    ArbiterRuns(cfg, s, event, input);
    OtherIsNoCommand(cfg, s.arbiter, event);
    ArbiterMoves(cfg, s, AR.Next(cfg.arbiter, s.arbiter, event), if input.Some? then [input.value] else []);
  }

  lemma {:induction false} TakenIsNew(cfg: Config, s: Flow)
    requires Composed(cfg, s) && s.ack.events != []
    ensures s.ack.events[0] !in AP.Decided(cfg.tolerance, s.protocol)
  {
    AP.RunIsBacked(cfg.tolerance, s.protocol);
    AP.CommandsAreConserved(cfg.tolerance, s.protocol, s.ack.events[0]);
    AP.OccursHead(s.ack.events, s.ack.events[0]);
  }

  /** The new answer, and the old ones, after the event loop has taken epoch `e`. */
  lemma {:induction false} TakingAnswers(
    cfg: Config, s: Flow, s': Flow, e: nat, res: Resolution, decided: map<nat, Resolution>)
    requires AP.Members(s.ack, cfg.tolerance) && AP.Members(s'.ack, cfg.tolerance) && AP.Opened(s.ack, e)
    requires AllAnswered(cfg, s, decided) && e !in decided && KeepsOpeners(s.ack, s'.ack, cfg.tolerance)
    requires s'.takenAt == s.takenAt[e := |s.inputs|]
    requires var d := AP.OpenerOf(s.ack, e);
             && s'.inputs == s.inputs + [SM.FssCmd(CommandOf(cfg, d), TargetOf(d))]
             && res == SM.ResolutionOf(SM.Run(cfg.arbiter.machine, s.inputs), CommandOf(cfg, d), TargetOf(d))
    ensures AllAnswered(cfg, s', decided[e := res])
  {
    AnswersStay(cfg, s, s', decided);
    assert s'.inputs[..|s.inputs|] == s.inputs;
  }

  lemma {:induction false} TakeKeepsInv(cfg: Config, s: Flow, e: nat, d: Delivery, countSent: bool)
    requires cfg.Valid() && Composed(cfg, s) && s.ack.events != [] && s.ack.events[0] == e
    requires AP.Opened(s.ack, e) && d == AP.OpenerOf(s.ack, e) && e !in AP.Decided(cfg.tolerance, s.protocol)
    ensures Composed(cfg, TakeCommand(cfg, s, e, d, countSent))
  {
    var cmd, target := CommandOf(cfg, d), TargetOf(d);
    var input := SM.FssCmd(cmd, target);
    var p := AP.Dispatch(SM.ResolutionOf(s.arbiter.machine, cmd, target));
    RunExtends(cfg.tolerance, s.protocol, p);
    DecidedExtends(cfg.tolerance, s.protocol, p);
    AP.RunKeepsInv(cfg.tolerance, s.protocol + [p]);
    ArbiterRuns(cfg, s, AR.Dispatch(AR.FssCommandEvent(cmd, target), countSent), Some(input));
    InputExtends(cfg.arbiter.machine, s.inputs, input);
    HistoryGrows(s.ack, cfg.tolerance, p);
    OpenersStay(s.ack, AP.Next(s.ack, cfg.tolerance, p), cfg.tolerance);
    TakingAnswers(cfg, s, TakeCommand(cfg, s, e, d, countSent), e, p.res, AP.Decided(cfg.tolerance, s.protocol));
  }

  lemma {:induction false} CommandKeepsInv(cfg: Config, s: Flow, countSent: bool)
    requires cfg.Valid() && Composed(cfg, s) && s.ack.events != []
    ensures Composed(cfg, Next(cfg, s, Command(countSent)))
  {
    var e := s.ack.events[0];
    QueuedIsOpened(cfg, s);
    TakenIsNew(cfg, s);
    TakeKeepsInv(cfg, s, e, AP.OpenerOf(s.ack, e), countSent);
  }

  lemma {:induction false} StepStaysWired(cfg: Config, s: AP.System, p: AP.Step)
    requires AllWired(cfg, s.incoming)
    requires p.Arrive? && p.incoming.actionable ==> p.incoming.delivery.command in cfg.wire
    ensures AllWired(cfg, AP.Next(s, cfg.tolerance, p).incoming)
  {
    if p.Arrive? {
      AP.ArriveIsRecorded(s, cfg.tolerance, p.incoming);
    } else {
      AP.StepKeepsHistory(s, cfg.tolerance, p);
    }
  }

  lemma {:induction false} NextStaysWired(cfg: Config, s: Flow, step: Step)
    requires Inv(cfg, s) && Legal(cfg, step)
    ensures AllWired(cfg, Next(cfg, s, step).ack.incoming)
  {
    match step
    case Protocol(p) => StepStaysWired(cfg, s.ack, p);
    case Command(_) =>
      if s.ack.events != [] {
        var e := s.ack.events[0];
        QueuedIsOpened(cfg, s);
        var d := AP.OpenerOf(s.ack, e);
        StepStaysWired(cfg, s.ack, AP.Dispatch(SM.ResolutionOf(s.arbiter.machine, CommandOf(cfg, d), TargetOf(d))));
      }
    case Other(_) =>
  }

  lemma {:induction false} NextKeepsInv(cfg: Config, s: Flow, step: Step)
    requires cfg.Valid() && Inv(cfg, s) && Legal(cfg, step)
    ensures Inv(cfg, Next(cfg, s, step))
  {
    NextStaysWired(cfg, s, step);
    match step
    case Protocol(p) => ProtocolKeepsInv(cfg, s, p);
    case Command(countSent) =>
      if s.ack.events != [] {
        CommandKeepsInv(cfg, s, countSent);
      }
    case Other(event) => OtherKeepsInv(cfg, s, event);
  }

  predicate AllLegal(cfg: Config, steps: seq<Step>) {
    forall i :: 0 <= i < |steps| ==> Legal(cfg, steps[i])
  }

  ghost function Run(cfg: Config, steps: seq<Step>): (s: Flow)
    requires cfg.Valid() && AllLegal(cfg, steps)
    ensures Inv(cfg, s)
  {
    if steps == [] then
      AP.RunKeepsInv(cfg.tolerance, []);
      INITIAL
    else
      var before := Run(cfg, steps[..|steps| - 1]);
      NextKeepsInv(cfg, before, steps[|steps| - 1]);
      Next(cfg, before, steps[|steps| - 1])
  }

  /** How a command given after history `h` is to be answered: terminate acts, anything else yields to a latch. */
  ghost predicate TruthfulAnswer(machine: SM.Config, h: seq<SM.Input>, cmd: FssCommand, res: Resolution) {
    var latch := SM.EngagedLatch(machine, h);
    && (res.outcome.Actioned? <==> cmd == CmdTerminate || latch.None? || (latch == Some(Rtl) && cmd == CmdRtl))
    && res.superseding == if res.outcome.Actioned? then None else latch
  }

  /** The target is what the payload says: a position to within the position tolerance, an altitude exactly. */
  predicate Means(target: Target, payload: Payload) {
    match payload
    case NoPayload => target == NO_TARGET
    case AltitudeOf(feet) => target.altitude == feet
    case Position(lat, lng) =>
      && -POSITION_TOLERANCE_DEG < target.position.lat - lat < POSITION_TOLERANCE_DEG
      && -POSITION_TOLERANCE_DEG < target.position.lng - lng < POSITION_TOLERANCE_DEG
  }

  /**
    Copy `x.copy`'s epoch was taken; its own command was given to the machine, with a target its own payload means;
    and `x.ack` is the truth of that moment.
   */
  ghost predicate ToldTheTruth(cfg: Config, s: Flow, x: AP.Owed)
    requires x.ack.Resolved?
  {
    && x.copy < |s.ack.incoming| == |s.ack.epochOf|
    && var e := s.ack.epochOf[x.copy];
       e != 0 ==>
         && e in s.takenAt && s.takenAt[e] < |s.inputs|
         && var h, input, d := s.inputs[..s.takenAt[e]], s.inputs[s.takenAt[e]], s.ack.incoming[x.copy].delivery;
            && d.command in cfg.wire
            && input.FssCmd? && input.cmd == cfg.wire[d.command]
            && Means(input.target, d.payload)
            && (exists p :: SameAs(p, d.payload) && input.target == TargetOf(d.(payload := p)))
            && x.ack.res == SM.ResolutionOf(SM.Run(cfg.arbiter.machine, h), input.cmd, input.target)
            && TruthfulAnswer(cfg.arbiter.machine, h, input.cmd, x.ack.res)
  }

  /** A copy's own payload means the target its epoch's opener gives. */
  lemma {:induction false} OpenerSpeaksFor(own: Delivery, opener: Delivery)
    requires SameAsOpener(own, opener)
    ensures Means(TargetOf(opener), own.payload)
    ensures SameAs(opener.payload, own.payload) && TargetOf(own.(payload := opener.payload)) == TargetOf(opener)
  {
  }

  lemma {:induction false} AnswerIsTruthful(cfg: Config, s: Flow, x: AP.Owed)
    requires cfg.Valid() && Inv(cfg, s) && x in s.ack.log && x.ack.Resolved?
    ensures ToldTheTruth(cfg, s, x)
  {
    AP.CopiesGetTheirResolution(cfg.tolerance, s.protocol, x);
    var e := s.ack.epochOf[x.copy];
    if e != 0 {
      AP.AnswerIsDecided(cfg.tolerance, s.protocol, x);
      assert AnsweredBy(cfg, s, e, x.ack.res);
      var k := s.takenAt[e];
      var h, d := s.inputs[..k], AP.OpenerOf(s.ack, e);
      if CommandOf(cfg, d) == CmdTerminate {
        SM.TerminateIsAlwaysActioned(cfg.arbiter.machine, h, TargetOf(d));
      } else {
        SM.ResolutionIsExact(cfg.arbiter.machine, h, CommandOf(cfg, d), TargetOf(d));
      }
      AP.RunIsSourced(cfg.tolerance, s.protocol);
      assert s.ack.incoming[x.copy].actionable;
      var own := s.ack.incoming[x.copy].delivery;
      assert SameAsOpener(own, d);
      OpenerSpeaksFor(own, d);
    }
  }

  /**
    What the operator is told, over every interleaving of receive threads, event loop, worker and autopilot. A copy
    of a command that joined an epoch and is answered with a resolution: the event loop took that epoch, and gave the
    state machine the copy's own command, with a target the copy's payload means, after the inputs before it; and the
    answer is the truth about that moment:
    actioned exactly when no latch was engaged, or only the altitude breach and the command was RTL, or it was
    terminate, and otherwise superseded by the highest-priority latch engaged.
   */
  lemma {:induction false} OperatorsAreToldTheTruth(cfg: Config, steps: seq<Step>, x: AP.Owed)
    requires cfg.Valid() && AllLegal(cfg, steps)
    ensures var s := Run(cfg, steps);
            x in s.ack.log && x.ack.Resolved? ==> ToldTheTruth(cfg, s, x)
  {
    var s := Run(cfg, steps);
    if x in s.ack.log && x.ack.Resolved? {
      AnswerIsTruthful(cfg, s, x);
    }
  }

  /** The state machine is given exactly one command per epoch the event loop takes, and no epoch is taken twice. */
  lemma {:induction false} OneCommandPerEpoch(cfg: Config, steps: seq<Step>, e: nat)
    requires cfg.Valid() && AllLegal(cfg, steps)
    ensures var s := Run(cfg, steps);
            && CommandsIn(s.inputs) == |s.ack.dispatched|
            && AP.Occurs(s.ack.dispatched, e) <= (if AP.Opened(s.ack, e) then 1 else 0)
  {
    AP.EachCommandIsActuatedOnce(cfg.tolerance, Run(cfg, steps).protocol, e);
  }

  /**
    Redundancy is harmless: however many copies of one command arrive, the state machine is given at most one
    command, and exactly one once the protocol is quiet if any actionable copy arrived.
   */
  lemma {:induction false} LikeCopiesAreOneInput(cfg: Config, steps: seq<Step>)
    requires cfg.Valid() && AllLegal(cfg, steps)
    ensures var s := Run(cfg, steps);
            AP.Alike(s.ack.incoming, cfg.tolerance) ==>
              && CommandsIn(s.inputs) <= 1
              && (AP.Quiescent(s.ack) && (exists c :: 0 <= c < |s.ack.incoming| && s.ack.incoming[c].actionable) ==>
                    CommandsIn(s.inputs) == 1)
  {
    var s := Run(cfg, steps);
    if AP.Alike(s.ack.incoming, cfg.tolerance) {
      AP.LikeCopiesAreOneCommand(cfg.tolerance, s.protocol);
    }
  }
}
