/**
  The bookkeeping that makes the redundant per-server deliveries of one operator command a single logical
  command: `CommandAckGroup` and `CommandPayload`.
 */
module CommandAckGroup {
  import opened FmuTypes

  datatype Payload = NoPayload | Position(lat: real, lng: real) | AltitudeOf(feet: nat)

  const POSITION_TOLERANCE_DEG: real := 0.0000001

  function Distance(a: real, b: real): real {
    if a < b then b - a else a - b
  }

  predicate SameAs(p: Payload, q: Payload) {
    match (p, q)
    case (NoPayload, NoPayload) => true
    case (AltitudeOf(a), AltitudeOf(b)) => a == b
    case (Position(a, b), Position(c, d)) =>
      Distance(a, c) < POSITION_TOLERANCE_DEG && Distance(b, d) < POSITION_TOLERANCE_DEG
    case _ => false
  }

  /** One copy of a command as delivered: `serverId` 0 means not reported. */
  datatype Delivery = Delivery(command: nat, timestamp: nat, payload: Payload, serverId: nat, connection: string)

  datatype Disposition = Actuate | AlreadyResolved | Queued | StaleSuperseded

  datatype Result<T> = Result(disposition: Disposition, epoch: nat, resolution: Option<Resolution>, superseded: seq<T>)

  /** The group in hand; `pending` are the copies awaiting its resolution. */
  datatype Group<T> = Group(
    active: bool,
    epoch: nat,
    command: nat,
    payload: Payload,
    timestamp: nat,
    pending: seq<T>,
    resolution: Option<Resolution>,
    lastIds: map<string, nat>)

  function Fresh<T>(): Group<T> {
    Group(false, 0, 0, NoPayload, 0, [], None, map[])
  }

  predicate SameCommand<T>(g: Group<T>, d: Delivery) {
    g.command == d.command && SameAs(g.payload, d.payload)
  }

  /** This connection has reported another id for the active group: the operator issued the command again. */
  predicate DeliberateRetry<T>(g: Group<T>, d: Delivery) {
    g.active && d.serverId != 0 && d.connection in g.lastIds && g.lastIds[d.connection] != d.serverId
  }

  predicate WithinTolerance(t: nat, u: nat, tolerance: nat) {
    (if t >= u then t - u else u - t) < tolerance
  }

  predicate JoinsGroup<T>(g: Group<T>, tolerance: nat, d: Delivery) {
    g.active && SameCommand(g, d) && !DeliberateRetry(g, d) && WithinTolerance(d.timestamp, g.timestamp, tolerance)
  }

  predicate IsStale<T>(g: Group<T>, d: Delivery) {
    g.active && !SameCommand(g, d) && !DeliberateRetry(g, d) && d.timestamp < g.timestamp
  }

  function NoteId(ids: map<string, nat>, d: Delivery): map<string, nat> {
    if d.serverId != 0 then ids[d.connection := d.serverId] else ids
  }

  function Join<T>(g: Group<T>, d: Delivery, copy: T): Group<T> {
    g.(lastIds := NoteId(g.lastIds, d), pending := if g.resolution.Some? then g.pending else g.pending + [copy])
  }

  function Open<T>(g: Group<T>, d: Delivery, copy: T): Group<T> {
    Group(true, g.epoch + 1, d.command, d.payload, d.timestamp, [copy], None, NoteId(map[], d))
  }

  /** `onDelivery`: the group it leaves. */
  function Deliver<T>(g: Group<T>, tolerance: nat, d: Delivery, copy: T): Group<T> {
    if JoinsGroup(g, tolerance, d) then Join(g, d, copy)
    else if IsStale(g, d) then g
    else Open(g, d, copy)
  }

  /** `onDelivery`: what it tells its caller. */
  function DeliverResult<T>(g: Group<T>, tolerance: nat, d: Delivery): Result<T> {
    if JoinsGroup(g, tolerance, d) then
      if g.resolution.Some? then Result(AlreadyResolved, 0, g.resolution, []) else Result(Queued, 0, None, [])
    else if IsStale(g, d) then Result(StaleSuperseded, 0, None, [])
    else Result(Actuate, g.epoch + 1, None, g.pending)
  }

  function Resolve<T>(g: Group<T>, epoch: nat, res: Resolution): Group<T> {
    if g.epoch != epoch then g else g.(resolution := Some(res), pending := [])
  }

  function ResolveTargets<T>(g: Group<T>, epoch: nat): seq<T> {
    if g.epoch != epoch then [] else g.pending
  }

  // ---------------------------------------------------------------------------
  // Closeness of the copies of one group
  // ---------------------------------------------------------------------------

  /** The command is that of the copy that opened the group, and so is the payload, a position's to the tolerance. */
  predicate SameAsOpener(d: Delivery, opener: Delivery) {
    && d.command == opener.command
    && match (opener.payload, d.payload)
       case (NoPayload, NoPayload) => true
       case (AltitudeOf(a), AltitudeOf(b)) => a == b
       case (Position(a, b), Position(x, y)) =>
         && -POSITION_TOLERANCE_DEG < x - a < POSITION_TOLERANCE_DEG
         && -POSITION_TOLERANCE_DEG < y - b < POSITION_TOLERANCE_DEG
       case _ => false
  }

  /** What joining or opening a group says about a copy, relative to the copy that opened it. */
  predicate CloseToOpener(d: Delivery, opener: Delivery, tolerance: nat) {
    && SameAsOpener(d, opener)
    && d.timestamp < opener.timestamp + tolerance && opener.timestamp < d.timestamp + tolerance
  }

  /** Two payloads some third one can be taken for. */
  predicate NearlySame(p: Payload, r: Payload) {
    match (p, r)
    case (NoPayload, NoPayload) => true
    case (AltitudeOf(a), AltitudeOf(b)) => a == b
    case (Position(a, b), Position(c, d)) =>
      Distance(a, c) < 2.0 * POSITION_TOLERANCE_DEG && Distance(b, d) < 2.0 * POSITION_TOLERANCE_DEG
    case _ => false
  }

  /** Two copies of one group, not necessarily within one tolerance of each other. */
  predicate Coherent(d: Delivery, e: Delivery, tolerance: nat) {
    && d.command == e.command
    && d.timestamp < e.timestamp + 2 * tolerance && e.timestamp < d.timestamp + 2 * tolerance
    && NearlySame(d.payload, e.payload)
    && (d.connection == e.connection && d.serverId != 0 && e.serverId != 0 ==> d.serverId == e.serverId)
  }

  /**
    Payload identity is not transitive, and how far it carries is exact: two payloads can both be the same as a
    third exactly when they are nearly the same, goto targets less than twice the tolerance apart. So membership is
    always judged against the opener, and twice the tolerance is the tightest bound on two members.
   */
  lemma {:induction false} SharedMatchExactlyWhen(p: Payload, r: Payload)
    ensures (exists q :: SameAs(p, q) && SameAs(q, r)) <==> NearlySame(p, r)
  {
    if NearlySame(p, r) {
      var q := if p.Position? then Position((p.lat + r.lat) / 2.0, (p.lng + r.lng) / 2.0) else p;
      assert SameAs(p, q) && SameAs(q, r);
    }
  }

  /** An instance: the ends of two steps of three quarters of the tolerance. */
  lemma SameAsIsNotTransitive()
    ensures exists p, q, r :: SameAs(p, q) && SameAs(q, r) && !SameAs(p, r)
  {
    var step := POSITION_TOLERANCE_DEG * 0.75;
    var p, q, r := Position(0.0, 0.0), Position(step, 0.0), Position(step + step, 0.0);
    assert SameAs(p, q) && SameAs(q, r) && !SameAs(p, r);
  }

  lemma CloseCopiesCohere(d: Delivery, e: Delivery, opener: Delivery, tolerance: nat)
    requires CloseToOpener(d, opener, tolerance) && CloseToOpener(e, opener, tolerance)
    requires d.connection == e.connection && d.serverId != 0 && e.serverId != 0 ==> d.serverId == e.serverId
    ensures Coherent(d, e, tolerance)
  {
  }

  // ---------------------------------------------------------------------------
  // The group object
  // ---------------------------------------------------------------------------

  class AckGroup<T> {
    const tolerance: nat
    var active: bool
    var epoch: nat
    var command: nat
    var payload: Payload
    var timestamp: nat
    var pending: seq<T>
    var resolution: Option<Resolution>
    var lastIds: map<string, nat>

    ghost function View(): Group<T>
      reads this
    {
      Group(active, epoch, command, payload, timestamp, pending, resolution, lastIds)
    }

    constructor (tolerance: nat)
      ensures View() == Fresh() && this.tolerance == tolerance
    {
      this.tolerance := tolerance;
      active, epoch, command, payload, timestamp := false, 0, 0, NoPayload, 0;
      pending, resolution, lastIds := [], None, map[];
    }

    method OnDelivery(d: Delivery, copy: T) returns (result: Result<T>)
      modifies this
      ensures View() == Deliver(old(View()), tolerance, d, copy)
      ensures result == DeliverResult(old(View()), tolerance, d)
    {
      var same := command == d.command && SameAs(payload, d.payload);
      var retry := false;
      if active && d.serverId != 0 {
        if d.connection in lastIds && lastIds[d.connection] != d.serverId {
          retry := true;
        }
      }
      if active && same && !retry && WithinTolerance(d.timestamp, timestamp, tolerance) {
        if d.serverId != 0 {
          lastIds := lastIds[d.connection := d.serverId];
        }
        if resolution.Some? {
          return Result(AlreadyResolved, 0, resolution, []);
        }
        pending := pending + [copy];
        return Result(Queued, 0, None, []);
      }
      if active && !same && !retry && d.timestamp < timestamp {
        return Result(StaleSuperseded, 0, None, []);
      }
      var superseded := pending;
      active := true;
      epoch := epoch + 1;
      command, payload, timestamp := d.command, d.payload, d.timestamp;
      pending := [copy];
      resolution := None;
      lastIds := map[];
      if d.serverId != 0 {
        lastIds := lastIds[d.connection := d.serverId];
      }
      return Result(Actuate, epoch, None, superseded);
    }

    method ResolveEpoch(at: nat, res: Resolution) returns (targets: seq<T>)
      modifies this
      ensures View() == Resolve(old(View()), at, res)
      ensures targets == ResolveTargets(old(View()), at)
    {
      if epoch != at {
        return [];
      }
      resolution := Some(res);
      targets := pending;
      pending := [];
    }
  }
}
