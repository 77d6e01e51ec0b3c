/**
  The priority state machine of `FMUStateMachine`: its step functions, and the proof that the state
  they reach is a declarative function of the whole input history.
 */
module StateMachine {
  import opened FmuTypes

  /** Latch counts and altitude cap (metres above ground), fixed at construction. */
  datatype Config = Config(lowLatch: nat, breachLatch: nat, cap: nat) {
    predicate Valid() {
      1 <= lowLatch && 1 <= breachLatch
    }
  }

  /** The fields `FMUStateMachine::lock` guards. */
  datatype Machine = Machine(
    current: FmuState,
    fssCommand: FssCommand,
    target: Target,
    smmCommand: SmmCommand,
    lowCount: nat,
    lowBattery: bool,
    breachCount: nat,
    clearCount: nat,
    breach: bool,
    terminated: bool,
    fssLost: bool,
    mavLost: bool)

  /** FSS comms start lost, MAV comms start assumed healthy. */
  const INITIAL := Machine(Manual, CmdUnknown, NO_TARGET, SmmNone, 0, false, 0, 0, false, false, true, false)

  /** One call of a state-mutating public method. */
  datatype Input =
    | FssCmd(cmd: FssCommand, target: Target)
    | SmmCmd(smm: SmmCommand)
    | Battery(low: bool)
    | Altitude(fixValid: bool, agl: Number)
    | FssComms(failed: bool)
    | MavComms(failed: bool)
    | Reassert

  function MapFssState(cmd: FssCommand): FmuState {
    match cmd
    case CmdRtl => Rtl
    case CmdGoto => GotoPoint
    case CmdHold => Hold
    case CmdAltitude => AltitudeAdjust
    case CmdDisarm => Disarmed
    case CmdManual => Manual
    case CmdTerminate => Terminated
    case CmdContinue => Searching
    case CmdUnknown => Searching
  }

  function MapSmmState(cmd: SmmCommand): FmuState {
    match cmd
    case SmmAbandonSearch => Searching
    case SmmNone => Searching
    case SmmMissionComplete => WaitingForTasking
  }

  /** What the retained commands alone ask for: searching defers to the SMM command. */
  function CommandedState(fss: FssCommand, smm: SmmCommand): FmuState {
    var desired := MapFssState(fss);
    if desired == Searching then MapSmmState(smm) else desired
  }

  /** terminate > low battery > comms failure > altitude breach > command. */
  function Prioritise(terminated: bool, low: bool, commsLost: bool, breach: bool, commanded: FmuState): FmuState {
    if terminated then Terminated
    else if low then LowBattery
    else if commsLost then Failsafe
    else if breach then Rtl
    else commanded
  }

  function UpdateState(m: Machine): Machine {
    var t := m.terminated || m.fssCommand == CmdTerminate;
    m.(terminated := t,
       current := Prioritise(t, m.lowBattery, m.fssLost || m.mavLost, m.breach,
                             CommandedState(m.fssCommand, m.smmCommand)))
  }

  function BumpUpTo(count: nat, limit: nat): nat {
    if count < limit then count + 1 else count
  }

  function BatteryReading(cfg: Config, m: Machine, low: bool): Machine {
    if !low then m.(lowCount := 0)
    else
      var n := BumpUpTo(m.lowCount, cfg.lowLatch);
      var counted := m.(lowCount := n);
      if n >= cfg.lowLatch && !m.lowBattery then UpdateState(counted.(lowBattery := true)) else counted
  }

  function AltitudeReading(cfg: Config, m: Machine, over: bool): Machine {
    if over then
      var n := BumpUpTo(m.breachCount, cfg.breachLatch);
      var counted := m.(breachCount := n, clearCount := 0);
      if n >= cfg.breachLatch && !m.breach then UpdateState(counted.(breach := true)) else counted
    else
      var n := BumpUpTo(m.clearCount, cfg.breachLatch);
      var counted := m.(clearCount := n, breachCount := 0);
      if n >= cfg.breachLatch && m.breach then UpdateState(counted.(breach := false)) else counted
  }

  /** A reading the altitude latch looks at: valid fix, finite value. */
  predicate Usable(fixValid: bool, agl: Number) {
    fixValid && agl.Finite?
  }

  predicate OverCap(cfg: Config, agl: Number)
    requires agl.Finite?
  {
    agl.value > cfg.cap as real
  }

  function Step(cfg: Config, m: Machine, input: Input): Machine {
    match input
    case FssCmd(cmd, target) => UpdateState(m.(fssCommand := cmd, target := target))
    case SmmCmd(cmd) => UpdateState(m.(smmCommand := cmd))
    case Battery(low) => BatteryReading(cfg, m, low)
    case Altitude(fixValid, agl) => if Usable(fixValid, agl) then AltitudeReading(cfg, m, OverCap(cfg, agl)) else m
    case FssComms(failed) => UpdateState(m.(fssLost := failed))
    case MavComms(failed) => UpdateState(m.(mavLost := failed))
    case Reassert => m
  }

  /** The state `actionState` is run for during one input, if it is run at all. */
  function ActionOf(cfg: Config, m: Machine, input: Input): Option<FmuState> {
    var m' := Step(cfg, m, input);
    if m'.current != m.current || input.Reassert? || (input.MavComms? && m.mavLost && !input.failed)
    then Some(m'.current)
    else None
  }

  /** How an FSS command applied in `m` is reported back. */
  function ResolutionOf(m: Machine, cmd: FssCommand, target: Target): Resolution {
    var m' := UpdateState(m.(fssCommand := cmd, target := target));
    var transitioned := m'.current != m.current;
    if m'.current == CommandedState(cmd, m.smmCommand)
    then Resolution(Actioned, None, transitioned)
    else Resolution(Superseded, Some(m'.current), transitioned)
  }

  function RunFrom(cfg: Config, m: Machine, h: seq<Input>): Machine {
    if h == [] then m else Step(cfg, RunFrom(cfg, m, h[..|h| - 1]), h[|h| - 1])
  }

  function Run(cfg: Config, h: seq<Input>): Machine {
    RunFrom(cfg, INITIAL, h)
  }

  // ---------------------------------------------------------------------------
  // The declarative reading of a history
  // ---------------------------------------------------------------------------

  function LastFss(h: seq<Input>): FssCommand {
    if h == [] then CmdUnknown
    else if h[|h| - 1].FssCmd? then h[|h| - 1].cmd
    else LastFss(h[..|h| - 1])
  }

  function LastTarget(h: seq<Input>): Target {
    if h == [] then NO_TARGET
    else if h[|h| - 1].FssCmd? then h[|h| - 1].target
    else LastTarget(h[..|h| - 1])
  }

  function LastSmm(h: seq<Input>): SmmCommand {
    if h == [] then SmmNone
    else if h[|h| - 1].SmmCmd? then h[|h| - 1].smm
    else LastSmm(h[..|h| - 1])
  }

  predicate FssDown(h: seq<Input>) {
    if h == [] then true
    else if h[|h| - 1].FssComms? then h[|h| - 1].failed
    else FssDown(h[..|h| - 1])
  }

  predicate MavDown(h: seq<Input>) {
    if h == [] then false
    else if h[|h| - 1].MavComms? then h[|h| - 1].failed
    else MavDown(h[..|h| - 1])
  }

  ghost predicate EverTerminated(h: seq<Input>) {
    exists i :: 0 <= i < |h| && h[i].FssCmd? && h[i].cmd == CmdTerminate
  }

  /** The battery readings of a history, oldest first: true means low. */
  function BatteryReadings(h: seq<Input>): seq<bool> {
    if h == [] then []
    else
      var before := BatteryReadings(h[..|h| - 1]);
      if h[|h| - 1].Battery? then before + [h[|h| - 1].low] else before
  }

  /** The usable altitude readings of a history, oldest first: true means over the cap. */
  function AltitudeReadings(cfg: Config, h: seq<Input>): seq<bool> {
    if h == [] then []
    else
      var before := AltitudeReadings(cfg, h[..|h| - 1]);
      var last := h[|h| - 1];
      if last.Altitude? && last.fixValid && last.agl.Finite?
      then before + [last.agl.value > cfg.cap as real]
      else before
  }

  /** `n` consecutive readings on `side`, starting at `i`. */
  ghost predicate RunAt(s: seq<bool>, side: bool, n: nat, i: nat) {
    i + n <= |s| && forall j :: i <= j < i + n ==> s[j] == side
  }

  ghost predicate EverRan(s: seq<bool>, side: bool, n: nat) {
    exists i: nat :: RunAt(s, side, n, i)
  }

  /** Some run of `n` over-cap readings has no run of `n` under-cap readings after it. */
  ghost predicate LatestRunIsOver(s: seq<bool>, n: nat) {
    exists i: nat :: RunAt(s, true, n, i) && forall j: nat :: i < j ==> !RunAt(s, false, n, j)
  }

  ghost predicate Low(cfg: Config, h: seq<Input>) {
    EverRan(BatteryReadings(h), true, cfg.lowLatch)
  }

  ghost predicate Breach(cfg: Config, h: seq<Input>) {
    LatestRunIsOver(AltitudeReadings(cfg, h), cfg.breachLatch)
  }

  /** Some input of the history made the machine evaluate its state. */
  ghost predicate Evaluated(cfg: Config, h: seq<Input>) {
    || (exists i :: 0 <= i < |h| && (h[i].FssCmd? || h[i].SmmCmd? || h[i].FssComms? || h[i].MavComms?))
    || Low(cfg, h)
    || EverRan(AltitudeReadings(cfg, h), true, cfg.breachLatch)
  }

  /** The highest-priority engaged latch of a history, as the state it forces. */
  ghost function EngagedLatch(cfg: Config, h: seq<Input>): Option<FmuState> {
    if EverTerminated(h) then Some(Terminated)
    else if Low(cfg, h) then Some(LowBattery)
    else if FssDown(h) || MavDown(h) then Some(Failsafe)
    else if Breach(cfg, h) then Some(Rtl)
    else None
  }

  /** What each operator command asks for; one that leaves the choice to the search worker, by what that last said. */
  function AskedFor(fss: FssCommand, smm: SmmCommand): FmuState {
    match fss
    case CmdManual => Manual
    case CmdHold => Hold
    case CmdRtl => Rtl
    case CmdAltitude => AltitudeAdjust
    case CmdGoto => GotoPoint
    case CmdDisarm => Disarmed
    case CmdTerminate => Terminated
    case CmdContinue => if smm == SmmMissionComplete then WaitingForTasking else Searching
    case CmdUnknown => if smm == SmmMissionComplete then WaitingForTasking else Searching
  }

  ghost function DeclaredState(cfg: Config, h: seq<Input>): FmuState {
    var latch := EngagedLatch(cfg, h);
    if latch.Some? then latch.value else AskedFor(LastFss(h), LastSmm(h))
  }

  // ---------------------------------------------------------------------------
  // Counters and runs
  // ---------------------------------------------------------------------------

  /** Length of the run of `side` that ends `s`. */
  function Trailing(s: seq<bool>, side: bool): nat {
    if s == [] || s[|s| - 1] != side then 0 else 1 + Trailing(s[..|s| - 1], side)
  }

  function Min(a: nat, b: nat): nat {
    if a < b then a else b
  }

  lemma {:induction false} TrailingIsARun(s: seq<bool>, side: bool)
    ensures Trailing(s, side) <= |s|
    ensures forall j :: |s| - Trailing(s, side) <= j < |s| ==> s[j] == side
    ensures Trailing(s, side) < |s| ==> s[|s| - Trailing(s, side) - 1] != side
  {
    if s != [] && s[|s| - 1] == side {
      TrailingIsARun(s[..|s| - 1], side);
    }
  }

  /** A run that ends a sequence is exactly a long enough trailing run. */
  lemma {:induction false} LastRunIsTrailing(s: seq<bool>, side: bool, n: nat)
    requires n <= |s|
    ensures RunAt(s, side, n, |s| - n) <==> n <= Trailing(s, side)
  {
    TrailingIsARun(s, side);
    var t := Trailing(s, side);
    if t < n {
      assert s[|s| - t - 1] != side;
    }
  }

  lemma {:induction false} RunInPrefix(s: seq<bool>, x: bool, side: bool, n: nat, i: nat)
    requires 1 <= n && i + n <= |s|
    ensures RunAt(s + [x], side, n, i) <==> RunAt(s, side, n, i)
  {
    assert forall j :: i <= j < i + n ==> (s + [x])[j] == s[j];
  }

  lemma {:induction false} EverRanExtends(s: seq<bool>, x: bool, side: bool, n: nat)
    requires 1 <= n
    ensures EverRan(s + [x], side, n) <==> EverRan(s, side, n) || n <= Trailing(s + [x], side)
  {
    var s' := s + [x];
    TrailingIsARun(s', side);
    if i: nat :| RunAt(s, side, n, i) {
      RunInPrefix(s, x, side, n, i);
    }
    if n <= Trailing(s', side) {
      LastRunIsTrailing(s', side, n);
    }
    if i: nat :| RunAt(s', side, n, i) {
      if i + n <= |s| {
        RunInPrefix(s, x, side, n, i);
      } else {
        LastRunIsTrailing(s', side, n);
      }
    }
  }

  /** An over-cap reading changes the answer only by completing a run. */
  lemma {:induction false} OverReadingExtends(s: seq<bool>, n: nat)
    requires 1 <= n
    ensures LatestRunIsOver(s + [true], n) <==> LatestRunIsOver(s, n) || n <= Trailing(s + [true], true)
  {
    var s' := s + [true];
    TrailingIsARun(s', true);
    forall j: nat ensures RunAt(s', false, n, j) <==> RunAt(s, false, n, j) {
      if j + n <= |s| {
        RunInPrefix(s, true, false, n, j);
      } else if j + n == |s'| {
        assert s'[|s|] != false;
      }
    }
    if n <= Trailing(s', true) {
      LastRunIsTrailing(s', true, n);
      assert RunAt(s', true, n, |s'| - n);
    }
    if i: nat :| RunAt(s, true, n, i) && forall j: nat :: i < j ==> !RunAt(s, false, n, j) {
      RunInPrefix(s, true, true, n, i);
    }
    if i: nat :| RunAt(s', true, n, i) && forall j: nat :: i < j ==> !RunAt(s', false, n, j) {
      if i + n <= |s| {
        RunInPrefix(s, true, true, n, i);
      } else {
        LastRunIsTrailing(s', true, n);
      }
    }
  }

  /** An under-cap reading changes the answer only by completing a run, which clears it. */
  lemma {:induction false} UnderReadingExtends(s: seq<bool>, n: nat)
    requires 1 <= n
    ensures LatestRunIsOver(s + [false], n) <==> LatestRunIsOver(s, n) && Trailing(s + [false], false) < n
  {
    var s' := s + [false];
    TrailingIsARun(s', false);
    forall i: nat ensures RunAt(s', true, n, i) <==> RunAt(s, true, n, i) {
      if i + n <= |s| {
        RunInPrefix(s, false, true, n, i);
      } else if i + n == |s'| {
        assert s'[|s|] != true;
      }
    }
    forall j: nat
      ensures RunAt(s', false, n, j) <==> RunAt(s, false, n, j) || (j + n == |s'| && n <= Trailing(s', false))
    {
      if j + n <= |s| {
        RunInPrefix(s, false, false, n, j);
      } else if j + n == |s'| {
        LastRunIsTrailing(s', false, n);
      }
    }
    if n <= Trailing(s', false) {
      assert RunAt(s', false, n, |s'| - n);
      forall i: nat | RunAt(s', true, n, i) ensures i < |s'| - n {
        assert s'[i] == true;
      }
    } else if i: nat :| RunAt(s, true, n, i) && forall j: nat :: i < j ==> !RunAt(s, false, n, j) {
      assert RunAt(s', true, n, i);
    }
  }

  // ---------------------------------------------------------------------------
  // The machine tracks its history
  // ---------------------------------------------------------------------------

  /** Commands and comms flags by last value; terminate by ever having been commanded. */
  ghost predicate TracksCommands(h: seq<Input>, m: Machine) {
    && m.fssCommand == LastFss(h)
    && m.target == LastTarget(h)
    && m.smmCommand == LastSmm(h)
    && m.fssLost == FssDown(h)
    && m.mavLost == MavDown(h)
    && m.terminated == EverTerminated(h)
  }

  ghost predicate TracksBattery(cfg: Config, h: seq<Input>, m: Machine) {
    && m.lowBattery == Low(cfg, h)
    && m.lowCount == Min(cfg.lowLatch, Trailing(BatteryReadings(h), true))
  }

  ghost predicate TracksAltitude(cfg: Config, h: seq<Input>, m: Machine) {
    && m.breach == Breach(cfg, h)
    && m.breachCount == Min(cfg.breachLatch, Trailing(AltitudeReadings(cfg, h), true))
    && m.clearCount == Min(cfg.breachLatch, Trailing(AltitudeReadings(cfg, h), false))
  }

  /** Every field of the machine but its state, read off the history. */
  ghost predicate Tracks(cfg: Config, h: seq<Input>, m: Machine) {
    TracksCommands(h, m) && TracksBattery(cfg, h, m) && TracksAltitude(cfg, h, m)
  }

  lemma {:induction false} EverTerminatedExtends(h: seq<Input>, x: Input)
    ensures EverTerminated(h + [x]) <==> EverTerminated(h) || (x.FssCmd? && x.cmd == CmdTerminate)
  {
    var h' := h + [x];
    if i :| 0 <= i < |h| && h[i].FssCmd? && h[i].cmd == CmdTerminate {
      assert h'[i] == h[i];
    }
    if x.FssCmd? && x.cmd == CmdTerminate {
      assert h'[|h|] == x;
    }
  }

  predicate Evaluates(x: Input) {
    x.FssCmd? || x.SmmCmd? || x.FssComms? || x.MavComms?
  }

  lemma {:induction false} BreachImpliesEverOver(cfg: Config, h: seq<Input>)
    ensures Breach(cfg, h) ==> EverRan(AltitudeReadings(cfg, h), true, cfg.breachLatch)
  {
  }

  lemma {:induction false} EvaluatedExtends(cfg: Config, h: seq<Input>, x: Input)
    requires cfg.Valid()
    ensures Evaluated(cfg, h) || Evaluates(x) ==> Evaluated(cfg, h + [x])
    ensures Evaluated(cfg, h + [x]) && !Evaluated(cfg, h) && !Evaluates(x)
            ==> (Low(cfg, h + [x]) && !Low(cfg, h)) || (Breach(cfg, h + [x]) && !Breach(cfg, h))
  {
    var h' := h + [x];
    assert h'[..|h|] == h && h'[|h|] == x;
    var ws, ws' := AltitudeReadings(cfg, h), AltitudeReadings(cfg, h');
    if i :| 0 <= i < |h| && (h[i].FssCmd? || h[i].SmmCmd? || h[i].FssComms? || h[i].MavComms?) {
      assert h'[i] == h[i];
    }
    if Evaluates(x) {
      assert h'[|h|].FssCmd? || h'[|h|].SmmCmd? || h'[|h|].FssComms? || h'[|h|].MavComms?;
    }
    if x.Battery? {
      EverRanExtends(BatteryReadings(h), x.low, true, cfg.lowLatch);
    }
    if x.Altitude? && x.fixValid && x.agl.Finite? {
      var over := x.agl.value > cfg.cap as real;
      EverRanExtends(ws, over, true, cfg.breachLatch);
      if over {
        OverReadingExtends(ws, cfg.breachLatch);
      }
    }
    BreachImpliesEverOver(cfg, h);
  }

  lemma {:induction false} LastTerminateIsEver(h: seq<Input>)
    ensures LastFss(h) == CmdTerminate ==> EverTerminated(h)
  {
    if h != [] {
      var h0, x := h[..|h| - 1], h[|h| - 1];
      assert h == h0 + [x];
      LastTerminateIsEver(h0);
      EverTerminatedExtends(h0, x);
    }
  }

  lemma {:induction false} StepTracksTerminate(cfg: Config, h: seq<Input>, m: Machine, x: Input)
    requires m.fssCommand == LastFss(h) && m.terminated == EverTerminated(h)
    ensures Step(cfg, m, x).terminated == EverTerminated(h + [x])
  {
    EverTerminatedExtends(h, x);
    LastTerminateIsEver(h);
  }

  lemma {:induction false} StepTracksCommands(cfg: Config, h: seq<Input>, m: Machine, x: Input)
    requires TracksCommands(h, m)
    ensures TracksCommands(h + [x], Step(cfg, m, x))
  {
    var h' := h + [x];
    assert h'[..|h|] == h && h'[|h|] == x;
    StepTracksTerminate(cfg, h, m, x);
  }

  lemma {:induction false} BatteryCounts(cfg: Config, m: Machine, bs: seq<bool>, low: bool)
    requires cfg.Valid()
    requires m.lowBattery == EverRan(bs, true, cfg.lowLatch)
    requires m.lowCount == Min(cfg.lowLatch, Trailing(bs, true))
    ensures var m' := BatteryReading(cfg, m, low);
            && m'.lowBattery == EverRan(bs + [low], true, cfg.lowLatch)
            && m'.lowCount == Min(cfg.lowLatch, Trailing(bs + [low], true))
  {
    EverRanExtends(bs, low, true, cfg.lowLatch);
    assert (bs + [low])[..|bs|] == bs;
  }

  lemma {:induction false} AltitudeCounts(cfg: Config, m: Machine, ws: seq<bool>, over: bool)
    requires cfg.Valid()
    requires m.breach == LatestRunIsOver(ws, cfg.breachLatch)
    requires m.breachCount == Min(cfg.breachLatch, Trailing(ws, true))
    requires m.clearCount == Min(cfg.breachLatch, Trailing(ws, false))
    ensures var m' := AltitudeReading(cfg, m, over);
            && m'.breach == LatestRunIsOver(ws + [over], cfg.breachLatch)
            && m'.breachCount == Min(cfg.breachLatch, Trailing(ws + [over], true))
            && m'.clearCount == Min(cfg.breachLatch, Trailing(ws + [over], false))
  {
    assert (ws + [over])[..|ws|] == ws;
    if over {
      OverReadingExtends(ws, cfg.breachLatch);
    } else {
      UnderReadingExtends(ws, cfg.breachLatch);
    }
  }

  /** A battery input touches only the battery latch, an altitude input only the altitude latch. */
  lemma {:induction false} StepFrame(cfg: Config, m: Machine, x: Input)
    ensures var m' := Step(cfg, m, x);
            && (!x.Battery? ==> m'.lowBattery == m.lowBattery && m'.lowCount == m.lowCount)
            && (!x.Altitude? ==>
                  m'.breach == m.breach && m'.breachCount == m.breachCount && m'.clearCount == m.clearCount)
  {
  }

  lemma {:induction false} StepTracksLatches(cfg: Config, h: seq<Input>, m: Machine, x: Input)
    requires cfg.Valid() && TracksBattery(cfg, h, m) && TracksAltitude(cfg, h, m)
    ensures TracksBattery(cfg, h + [x], Step(cfg, m, x))
    ensures TracksAltitude(cfg, h + [x], Step(cfg, m, x))
  {
    var h' := h + [x];
    assert h'[..|h|] == h && h'[|h|] == x;
    StepFrame(cfg, m, x);
    if x.Battery? {
      BatteryCounts(cfg, m, BatteryReadings(h), x.low);
    }
    if x.Altitude? && x.fixValid && x.agl.Finite? {
      AltitudeCounts(cfg, m, AltitudeReadings(cfg, h), x.agl.value > cfg.cap as real);
    }
  }

  /** What the fields of a machine say its state should be. */
  function Settled(m: Machine): FmuState {
    Prioritise(m.terminated, m.lowBattery, m.fssLost || m.mavLost, m.breach, CommandedState(m.fssCommand, m.smmCommand))
  }

  /** A step either re-evaluates the state or leaves everything the state depends on alone. */
  lemma {:induction false} StepSettles(cfg: Config, m: Machine, x: Input)
    ensures var m' := Step(cfg, m, x);
            if Evaluates(x) || m'.lowBattery != m.lowBattery || m'.breach != m.breach
            then m'.current == Settled(m')
            else m'.current == m.current && Settled(m') == Settled(m)
  {
  }

  lemma {:induction false} RunTracks(cfg: Config, h: seq<Input>)
    requires cfg.Valid()
    ensures Tracks(cfg, h, Run(cfg, h))
  {
    if h != [] {
      var h0, x := h[..|h| - 1], h[|h| - 1];
      assert h == h0 + [x];
      RunTracks(cfg, h0);
      StepTracksCommands(cfg, h0, Run(cfg, h0), x);
      StepTracksLatches(cfg, h0, Run(cfg, h0), x);
    }
  }

  lemma {:induction false} SettledIsDeclared(cfg: Config, h: seq<Input>, m: Machine)
    requires Tracks(cfg, h, m)
    ensures Settled(m) == DeclaredState(cfg, h)
  {
    LastTerminateIsEver(h);
  }

  /** A step that has been evaluated, now or before, leaves the state settled. */
  lemma {:induction false} EvaluatedSettles(cfg: Config, h: seq<Input>, m: Machine, x: Input, m': Machine)
    requires cfg.Valid() && Tracks(cfg, h, m) && m' == Step(cfg, m, x) && Tracks(cfg, h + [x], m')
    requires m.current == if Evaluated(cfg, h) then Settled(m) else Manual
    ensures m'.current == if Evaluated(cfg, h + [x]) then Settled(m') else Manual
  {
    StepSettles(cfg, m, x);
    EvaluatedExtends(cfg, h, x);
  }

  lemma {:induction false} RunSettles(cfg: Config, h: seq<Input>)
    requires cfg.Valid()
    ensures Run(cfg, h).current == if Evaluated(cfg, h) then Settled(Run(cfg, h)) else Manual
  {
    if h == [] {
    } else {
      var h0, x := h[..|h| - 1], h[|h| - 1];
      assert h == h0 + [x];
      RunSettles(cfg, h0);
      RunTracks(cfg, h0);
      RunTracks(cfg, h);
      EvaluatedSettles(cfg, h0, Run(cfg, h0), x, Run(cfg, h));
    }
  }

  /**
    Main result: after any history the machine's fields are the declarative ones, and its state is
    `DeclaredState` from the first evaluation on and the initial Manual before it.
   */
  lemma {:induction false} StateIsDeclared(cfg: Config, h: seq<Input>)
    requires cfg.Valid()
    ensures Tracks(cfg, h, Run(cfg, h))
    ensures Run(cfg, h).current == if Evaluated(cfg, h) then DeclaredState(cfg, h) else Manual
  {
    RunTracks(cfg, h);
    RunSettles(cfg, h);
    SettledIsDeclared(cfg, h, Run(cfg, h));
  }

  // ---------------------------------------------------------------------------
  // Latches engage and clear
  // ---------------------------------------------------------------------------

  lemma {:induction false} SustainedReadings(cfg: Config, h: seq<Input>, xs: seq<Input>, over: bool)
    requires forall i :: 0 <= i < |xs| ==>
               && xs[i].Altitude? && xs[i].fixValid && xs[i].agl.Finite?
               && (xs[i].agl.value > cfg.cap as real <==> over)
    ensures AltitudeReadings(cfg, h + xs) == AltitudeReadings(cfg, h) + seq(|xs|, _ => over)
  {
    if xs == [] {
      assert h + xs == h;
    } else {
      var before, last := xs[..|xs| - 1], xs[|xs| - 1];
      assert forall i :: 0 <= i < |before| ==> before[i] == xs[i];
      SustainedReadings(cfg, h, before, over);
      assert (h + xs)[..|h + xs| - 1] == h + before && (h + xs)[|h + xs| - 1] == last;
      assert seq(|xs|, _ => over) == seq(|before|, _ => over) + [over];
    }
  }

  /** A last run of `n` readings settles which side the latest run was on. */
  lemma {:induction false} LastRunSettles(ws: seq<bool>, side: bool, n: nat)
    requires 1 <= n
    ensures LatestRunIsOver(ws + seq(n, _ => side), n) <==> side
    ensures EverRan(ws + seq(n, _ => side), side, n)
  {
    var s := ws + seq(n, _ => side);
    assert RunAt(s, side, n, |ws|);
    if side {
      forall j: nat | |ws| < j ensures !RunAt(s, false, n, j) {
      }
    } else {
      forall i: nat | RunAt(s, true, n, i) ensures i < |ws| {
        assert s[i + n - 1] == true;
      }
    }
  }

  /**
    After any history, as many usable readings in a row over the cap as the latch counts engage the breach latch, and
    the machine returns to launch if no higher latch is engaged; as many not over the cap leave the latch clear.
   */
  lemma {:induction false} SustainedAltitudeDecides(cfg: Config, h: seq<Input>, xs: seq<Input>, over: bool)
    requires cfg.Valid() && |xs| == cfg.breachLatch
    requires forall i :: 0 <= i < |xs| ==>
               && xs[i].Altitude? && xs[i].fixValid && xs[i].agl.Finite?
               && (xs[i].agl.value > cfg.cap as real <==> over)
    ensures var m := Run(cfg, h + xs);
            && (m.breach <==> over)
            && (over && !m.terminated && !m.lowBattery && !m.fssLost && !m.mavLost ==> m.current == Rtl)
  {
    SustainedReadings(cfg, h, xs, over);
    LastRunSettles(AltitudeReadings(cfg, h), over, cfg.breachLatch);
    StateIsDeclared(cfg, h + xs);
  }

  /** And a reading without a valid fix or a finite value changes nothing at all. */
  lemma {:induction false} UnusableReadingIsIgnored(cfg: Config, h: seq<Input>, fixValid: bool, agl: Number)
    requires !fixValid || agl.NonFinite?
    ensures Run(cfg, h + [Altitude(fixValid, agl)]) == Run(cfg, h)
  {
    assert (h + [Altitude(fixValid, agl)])[..|h|] == h;
  }

  /**
    Once anything has been evaluated: an engaged latch decides the state, the highest-priority one where several are;
    with none, the operator's last command does, and continue or none at all leaves it to the search worker.
   */
  lemma {:induction false} CommandsAreObeyed(cfg: Config, h: seq<Input>)
    requires cfg.Valid() && Evaluated(cfg, h)
    ensures var state, latch, cmd := Run(cfg, h).current, EngagedLatch(cfg, h), LastFss(h);
            && (latch.Some? ==> state == latch.value)
            && (latch.None? ==>
                  && cmd != CmdTerminate
                  && (cmd == CmdManual ==> state == Manual)
                  && (cmd == CmdHold ==> state == Hold)
                  && (cmd == CmdRtl ==> state == Rtl)
                  && (cmd == CmdAltitude ==> state == AltitudeAdjust)
                  && (cmd == CmdGoto ==> state == GotoPoint)
                  && (cmd == CmdDisarm ==> state == Disarmed)
                  && (cmd == CmdContinue || cmd == CmdUnknown ==>
                        && (LastSmm(h) == SmmMissionComplete ==> state == WaitingForTasking)
                        && (LastSmm(h) == SmmAbandonSearch || LastSmm(h) == SmmNone ==> state == Searching)))
  {
    StateIsDeclared(cfg, h);
    LastTerminateIsEver(h);
  }

  // ---------------------------------------------------------------------------
  // What leaves no trace
  // ---------------------------------------------------------------------------

  lemma {:induction false} RunConcat(cfg: Config, m: Machine, a: seq<Input>, b: seq<Input>)
    ensures RunFrom(cfg, m, a + b) == RunFrom(cfg, RunFrom(cfg, m, a), b)
  {
    if b == [] {
      assert a + b == a;
    } else {
      assert (a + b)[..|a + b| - 1] == a + b[..|b| - 1];
      RunConcat(cfg, m, a, b[..|b| - 1]);
    }
  }

  /** The history without the altitude readings that have no fix or no finite value. */
  function DropUnusable(h: seq<Input>): seq<Input> {
    if h == [] then []
    else
      var x := h[|h| - 1];
      var before := DropUnusable(h[..|h| - 1]);
      if x.Altitude? && (!x.fixValid || x.agl.NonFinite?) then before else before + [x]
  }

  /** Unusable altitude readings, wherever and however many, change no field of the machine. */
  lemma {:induction false} UnusableReadingsLeaveNoTrace(cfg: Config, h: seq<Input>)
    ensures Run(cfg, DropUnusable(h)) == Run(cfg, h)
  {
    if h != [] {
      UnusableReadingsLeaveNoTrace(cfg, h[..|h| - 1]);
      var before := DropUnusable(h[..|h| - 1]);
      assert (before + [h[|h| - 1]])[..|before|] == before;
    }
  }

  datatype Link = FssLink | MavLink

  function Report(link: Link, failed: bool): Input {
    if link.FssLink? then FssComms(failed) else MavComms(failed)
  }

  predicate IsReport(link: Link, x: Input) {
    if link.FssLink? then x.FssComms? else x.MavComms?
  }

  predicate Down(link: Link, h: seq<Input>) {
    if link.FssLink? then FssDown(h) else MavDown(h)
  }

  /** Equal but for the state and one link's flag. */
  predicate SameBut(link: Link, m: Machine, n: Machine) {
    && n.fssCommand == m.fssCommand && n.target == m.target && n.smmCommand == m.smmCommand
    && n.lowCount == m.lowCount && n.lowBattery == m.lowBattery
    && n.breachCount == m.breachCount && n.clearCount == m.clearCount && n.breach == m.breach
    && n.terminated == m.terminated
    && (if link.FssLink? then n.mavLost == m.mavLost else n.fssLost == m.fssLost)
  }

  /** Re-evaluating would change nothing: what every machine is once it has evaluated. */
  predicate Stable(m: Machine) {
    m.current == Settled(m) && (m.fssCommand == CmdTerminate ==> m.terminated)
  }

  lemma {:induction false} EvaluatedIsStable(cfg: Config, h: seq<Input>)
    requires cfg.Valid() && Evaluated(cfg, h)
    ensures Stable(Run(cfg, h))
  {
    StateIsDeclared(cfg, h);
    LastTerminateIsEver(h);
  }

  lemma {:induction false} StepLatchesTerminate(cfg: Config, m: Machine, x: Input)
    requires m.fssCommand == CmdTerminate ==> m.terminated
    ensures Step(cfg, m, x).fssCommand == CmdTerminate ==> Step(cfg, m, x).terminated
  {
  }

  lemma {:induction false} StepStaysStable(cfg: Config, m: Machine, x: Input)
    requires Stable(m)
    ensures Stable(Step(cfg, m, x))
  {
    StepSettles(cfg, m, x);
    StepLatchesTerminate(cfg, m, x);
  }

  lemma {:induction false} StableStays(cfg: Config, m: Machine, h: seq<Input>)
    requires Stable(m)
    ensures Stable(RunFrom(cfg, m, h))
  {
    if h != [] {
      StableStays(cfg, m, h[..|h| - 1]);
      StepStaysStable(cfg, RunFrom(cfg, m, h[..|h| - 1]), h[|h| - 1]);
    }
  }

  lemma {:induction false} BatteryKeepsTheRest(cfg: Config, link: Link, m: Machine, n: Machine, low: bool)
    requires SameBut(link, m, n)
    ensures SameBut(link, BatteryReading(cfg, m, low), BatteryReading(cfg, n, low))
  {
  }

  lemma {:induction false} OverKeepsTheRest(cfg: Config, link: Link, m: Machine, n: Machine)
    requires SameBut(link, m, n)
    ensures SameBut(link, AltitudeReading(cfg, m, true), AltitudeReading(cfg, n, true))
  {
  }

  lemma {:induction false} UnderKeepsTheRest(cfg: Config, link: Link, m: Machine, n: Machine)
    requires SameBut(link, m, n)
    ensures SameBut(link, AltitudeReading(cfg, m, false), AltitudeReading(cfg, n, false))
  {
  }

  lemma {:induction false} AltitudeKeepsTheRest(
    cfg: Config, link: Link, m: Machine, n: Machine, fixValid: bool, agl: Number)
    requires SameBut(link, m, n)
    ensures SameBut(link, Step(cfg, m, Altitude(fixValid, agl)), Step(cfg, n, Altitude(fixValid, agl)))
  {
    if Usable(fixValid, agl) {
      if OverCap(cfg, agl) {
        OverKeepsTheRest(cfg, link, m, n);
      } else {
        UnderKeepsTheRest(cfg, link, m, n);
      }
    }
  }

  lemma {:induction false} CommandKeepsTheRest(cfg: Config, link: Link, m: Machine, n: Machine, x: Input)
    requires SameBut(link, m, n) && (x.FssCmd? || x.SmmCmd?)
    ensures SameBut(link, Step(cfg, m, x), Step(cfg, n, x))
  {
  }

  lemma {:induction false} ReportKeepsTheRest(cfg: Config, link: Link, m: Machine, n: Machine, failed: bool)
    requires SameBut(link, m, n)
    ensures link.MavLink? ==> SameBut(link, Step(cfg, m, FssComms(failed)), Step(cfg, n, FssComms(failed)))
    ensures link.FssLink? ==> SameBut(link, Step(cfg, m, MavComms(failed)), Step(cfg, n, MavComms(failed)))
  {
  }

  lemma {:induction false} StepKeepsTheRest(cfg: Config, link: Link, m: Machine, n: Machine, x: Input)
    requires SameBut(link, m, n) && !IsReport(link, x)
    ensures SameBut(link, Step(cfg, m, x), Step(cfg, n, x))
  {
    match x
    case FssCmd(_, _) => CommandKeepsTheRest(cfg, link, m, n, x);
    case SmmCmd(_) => CommandKeepsTheRest(cfg, link, m, n, x);
    case Battery(low) => BatteryKeepsTheRest(cfg, link, m, n, low);
    case Altitude(fixValid, agl) => AltitudeKeepsTheRest(cfg, link, m, n, fixValid, agl);
    case FssComms(failed) => ReportKeepsTheRest(cfg, link, m, n, failed);
    case MavComms(failed) => ReportKeepsTheRest(cfg, link, m, n, failed);
    case Reassert =>
  }

  lemma {:induction false} OutageKeepsTheRest(cfg: Config, link: Link, m: Machine, n: Machine, h: seq<Input>)
    requires SameBut(link, m, n)
    requires forall i :: 0 <= i < |h| ==> !IsReport(link, h[i])
    ensures SameBut(link, RunFrom(cfg, m, h), RunFrom(cfg, n, h))
  {
    if h != [] {
      var h0 := h[..|h| - 1];
      OutageKeepsTheRest(cfg, link, m, n, h0);
      StepKeepsTheRest(cfg, link, RunFrom(cfg, m, h0), RunFrom(cfg, n, h0), h[|h| - 1]);
    }
  }

  predicate Lost(link: Link, m: Machine) {
    if link.FssLink? then m.fssLost else m.mavLost
  }

  lemma {:induction false} StepKeepsFlag(cfg: Config, link: Link, m: Machine, x: Input)
    requires !IsReport(link, x)
    ensures Lost(link, Step(cfg, m, x)) == Lost(link, m)
  {
  }

  lemma {:induction false} OutageKeepsFlag(cfg: Config, link: Link, m: Machine, h: seq<Input>)
    requires forall i :: 0 <= i < |h| ==> !IsReport(link, h[i])
    ensures Lost(link, RunFrom(cfg, m, h)) == Lost(link, m)
  {
    if h != [] {
      OutageKeepsFlag(cfg, link, m, h[..|h| - 1]);
      StepKeepsFlag(cfg, link, RunFrom(cfg, m, h[..|h| - 1]), h[|h| - 1]);
    }
  }

  /**
    A comms outage on either link that begins after a healthy evaluated history `a` and recovers after
    any inputs `during` leaves the machine exactly as if it had never happened, whatever follows.
   */
  lemma {:induction false} RecoveredOutageLeavesNoTrace(
    cfg: Config, link: Link, a: seq<Input>, during: seq<Input>, after: seq<Input>)
    requires cfg.Valid() && Evaluated(cfg, a) && !Down(link, a)
    requires forall i :: 0 <= i < |during| ==> !IsReport(link, during[i])
    ensures Run(cfg, a + [Report(link, true)] + during + [Report(link, false)] + after) == Run(cfg, a + during + after)
  {
    var m := Run(cfg, a);
    var down := Step(cfg, m, Report(link, true));
    var healthy, lost := RunFrom(cfg, m, during), RunFrom(cfg, down, during);
    StateIsDeclared(cfg, a);
    EvaluatedIsStable(cfg, a);
    StableStays(cfg, m, during);
    OutageKeepsFlag(cfg, link, m, during);
    OutageKeepsTheRest(cfg, link, m, down, during);
    var up := Step(cfg, lost, Report(link, false));
    assert up == healthy;
    var p1 := a + [Report(link, true)];
    var p2 := p1 + during;
    var p3 := p2 + [Report(link, false)];
    assert p1[..|a|] == a && p3[..|p2|] == p2;
    RunConcat(cfg, INITIAL, p1, during);
    RunConcat(cfg, INITIAL, p3, after);
    RunConcat(cfg, INITIAL, a, during);
    RunConcat(cfg, INITIAL, a + during, after);
  }

  // ---------------------------------------------------------------------------
  // Acknowledgement of a command
  // ---------------------------------------------------------------------------

  /**
    A non-terminate command resolves as actioned exactly when no latch is engaged, or only the altitude
    breach is and the command is RTL; otherwise it is superseded and names the highest-priority latch.
   */
  lemma {:induction false} ResolutionIsExact(cfg: Config, h: seq<Input>, cmd: FssCommand, target: Target)
    requires cfg.Valid() && cmd != CmdTerminate
    ensures var r := ResolutionOf(Run(cfg, h), cmd, target);
            var latch := EngagedLatch(cfg, h);
            && (r.outcome.Actioned? <==> latch.None? || (latch == Some(Rtl) && cmd == CmdRtl))
            && r.superseding == (if r.outcome.Actioned? then None else latch)
            && (r.transitioned <==> Run(cfg, h + [FssCmd(cmd, target)]).current != Run(cfg, h).current)
  {
    StateIsDeclared(cfg, h);
    LastTerminateIsEver(h);
    assert (h + [FssCmd(cmd, target)])[..|h|] == h;
  }

  /** A terminate command is always actioned, and moves the state exactly when it is the first. */
  lemma {:induction false} TerminateIsAlwaysActioned(cfg: Config, h: seq<Input>, target: Target)
    requires cfg.Valid()
    ensures ResolutionOf(Run(cfg, h), CmdTerminate, target) == Resolution(Actioned, None, !EverTerminated(h))
  {
    StateIsDeclared(cfg, h);
    LastTerminateIsEver(h);
    if EverTerminated(h) {
      assert Evaluated(cfg, h) by {
        var i :| 0 <= i < |h| && h[i].FssCmd? && h[i].cmd == CmdTerminate;
        assert h[i].FssCmd?;
      }
    }
  }
}
