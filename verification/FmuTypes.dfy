/** Core value types shared by the FMU's components. */
module FmuTypes {

  datatype Option<+T> = None | Some(value: T)

  /** A C++ `double` as the model sees it: a real, or one of NaN and the infinities. */
  datatype Number = Finite(value: real) | NonFinite

  datatype Point = Point(lat: real, lng: real)

  datatype FmuState =
    | Manual
    | Searching
    | GotoPoint
    | AltitudeAdjust
    | Rtl
    | WaitingForTasking
    | Hold
    | LowBattery
    | Failsafe
    | Disarmed
    | Terminated

  datatype FssCommand =
    | CmdUnknown
    | CmdManual
    | CmdRtl
    | CmdHold
    | CmdAltitude
    | CmdGoto
    | CmdContinue
    | CmdDisarm
    | CmdTerminate

  datatype SmmCommand = SmmNone | SmmAbandonSearch | SmmMissionComplete

  /** The target a goto or altitude command carries; only the field the command uses is meaningful. */
  datatype Target = Target(position: Point, altitude: nat)

  const NO_TARGET := Target(Point(0.0, 0.0), 0)

  datatype Outcome = Actioned | Superseded

  /** How an FSS command resolved; `superseding` is set only for a superseded one. */
  datatype Resolution = Resolution(outcome: Outcome, superseding: Option<FmuState>, transitioned: bool)

  const TWO_64: nat := 0x1_0000_0000_0000_0000

  /** Unsigned 64-bit subtraction of timestamps. */
  function Elapsed(now: nat, since: nat): nat {
    (now - since) % TWO_64
  }
}
