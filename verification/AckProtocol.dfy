/**
  The acknowledgement protocol over every interleaving of FSS receive threads, the event loop and the FSS
  send worker. `handleCommandFrom` continues after `onDelivery` with its own sends and then posts an event;
  the event loop resolves the command and queues a responder; the worker runs the responder, which drains
  the group and sends. Each of those is a separate step here, in any order the threads allow.
 */
module AckProtocol {
  import opened FmuTypes
  import opened CommandAckGroup
  import WQ = WorkQueue

  /** A terminal acknowledgement: the command's resolution, displaced by a newer command, or not actionable. */
  datatype Ack = Resolved(res: Resolution) | Stale | Rejected

  /** A terminal acknowledgement some thread still has to send, or has sent, for a copy. */
  datatype Owed = Owed(copy: nat, ack: Ack)

  /** The rest of one `handleCommandFrom`: acknowledgements to send, then perhaps an event to post. */
  datatype Thread = Thread(acks: seq<Owed>, post: Option<nat>)

  datatype Job = Job(epoch: nat, res: Resolution)

  /** FSS send work: a responder to run, or a report that is neither one nor a position. */
  datatype FssWork = AckWork(job: Job) | ReportWork

  datatype Incoming = Incoming(actionable: bool, delivery: Delivery)

  /**
    Copies are numbered by arrival. `epochOf` is the epoch a copy joined (0 for none), `openers` the copy that
    opened each epoch, `verdicts` what each settled epoch's copies are answered; these, `incoming`, `log`,
    `dispatched` and `finished` are history.
   */
  datatype System = System(
    group: Group<nat>,
    threads: seq<Thread>,
    events: seq<nat>,
    fss: WQ.Queue<FssWork>,
    worker: Option<Job>,
    owed: seq<Owed>,
    log: seq<Owed>,
    incoming: seq<Incoming>,
    epochOf: seq<nat>,
    openers: seq<nat>,
    verdicts: map<nat, Ack>,
    dispatched: seq<nat>,
    finished: seq<nat>)

  function Init(): System {
    System(Fresh(), [], [], WQ.Empty(), None, [], [], [], [], [], map[], [], [])
  }

  datatype Step =
    | Arrive(incoming: Incoming)
    | RecvAck(thread: nat)
    | RecvPost(thread: nat)
    | Dispatch(res: Resolution)
    | Report(task: WQ.Task<FssWork>)
    | WorkerTake
    | WorkerResolve
    | WorkerAck

  function OweAll(copies: seq<nat>, ack: Ack): (r: seq<Owed>)
    ensures |r| == |copies|
  {
    if copies == [] then [] else OweAll(copies[..|copies| - 1], ack) + [Owed(copies[|copies| - 1], ack)]
  }

  /** What `handleCommandFrom` still has to do once the group has answered. */
  function Continue(r: Result<nat>, copy: nat): Thread {
    match r.disposition
    case Queued => Thread([], None)
    case AlreadyResolved => Thread(if r.resolution.Some? then [Owed(copy, Resolved(r.resolution.value))] else [], None)
    case StaleSuperseded => Thread([Owed(copy, Stale)], None)
    case Actuate => Thread(OweAll(r.superseded, Stale), Some(r.epoch))
  }

  function EpochJoined(g: Group<nat>, r: Result<nat>): nat {
    match r.disposition
    case Queued => g.epoch
    case AlreadyResolved => g.epoch
    case StaleSuperseded => 0
    case Actuate => r.epoch
  }

  /** Whatever an arrival does to the group, the copy joins epoch `epoch` and its thread is left with `rest` to do. */
  function Admit(s: System, i: Incoming, epoch: nat, rest: Thread): System {
    s.(threads := s.threads + [rest], incoming := s.incoming + [i], epochOf := s.epochOf + [epoch])
  }

  /** The copy joins no epoch and is answered at once. */
  function Passed(s: System, i: Incoming, ack: Ack): System {
    Admit(s, i, 0, Thread([Owed(|s.incoming|, ack)], None))
  }

  function Joined(s: System, i: Incoming): System {
    var copy := |s.incoming|;
    var rest := if s.group.resolution.Some? then [Owed(copy, Resolved(s.group.resolution.value))] else [];
    Admit(s, i, s.group.epoch, Thread(rest, None)).(group := Join(s.group, i.delivery, copy))
  }

  function Reopened(s: System, i: Incoming): System {
    var copy, epoch := |s.incoming|, s.group.epoch + 1;
    Admit(s, i, epoch, Thread(OweAll(s.group.pending, Stale), Some(epoch))).(
      group := Open(s.group, i.delivery, copy),
      openers := s.openers + [copy],
      verdicts := if s.group.active && s.group.resolution.None? then s.verdicts[s.group.epoch := Stale] else s.verdicts)
  }

  function DoArrive(s: System, tolerance: nat, i: Incoming): System {
    if !i.actionable then Passed(s, i, Rejected)
    else if JoinsGroup(s.group, tolerance, i.delivery) then Joined(s, i)
    else if IsStale(s.group, i.delivery) then Passed(s, i, Stale)
    else Reopened(s, i)
  }

  /** An actionable arrival is one `onDelivery` and what `handleCommandFrom` makes of its answer. */
  lemma {:induction false} ArrivalIsADelivery(s: System, tolerance: nat, i: Incoming)
    requires i.actionable
    ensures var s', r, copy := DoArrive(s, tolerance, i), DeliverResult(s.group, tolerance, i.delivery), |s.incoming|;
            && s'.group == Deliver(s.group, tolerance, i.delivery, copy)
            && s'.threads == s.threads + [Continue(r, copy)]
            && s'.epochOf == s.epochOf + [EpochJoined(s.group, r)]
  {
  }

  function DoRecvAck(s: System, t: nat): System
    requires t < |s.threads| && s.threads[t].acks != []
  {
    var thread := s.threads[t];
    s.(threads := s.threads[t := thread.(acks := thread.acks[1..])], log := s.log + [thread.acks[0]])
  }

  function DoRecvPost(s: System, t: nat): System
    requires t < |s.threads| && s.threads[t].post.Some?
  {
    var thread := s.threads[t];
    s.(threads := s.threads[t := thread.(post := None)], events := s.events + [thread.post.value])
  }

  function DoDispatch(s: System, res: Resolution): System
    requires s.events != []
  {
    s.(events := s.events[1..], dispatched := s.dispatched + [s.events[0]],
       fss := WQ.Enqueue(s.fss, WQ.Work(AckWork(Job(s.events[0], res)))))
  }

  function DoReport(s: System, task: WQ.Task<FssWork>): System {
    s.(fss := WQ.Enqueue(s.fss, task))
  }

  function DoWorkerTake(s: System): System
    requires s.fss.items != [] && s.worker.None?
  {
    var task := s.fss.items[0].task;
    s.(fss := WQ.Take(s.fss), worker := if task.Work? && task.work.AckWork? then Some(task.work.job) else None)
  }

  function DoWorkerResolve(s: System): System
    requires s.worker.Some? && s.owed == []
  {
    var job := s.worker.value;
    s.(worker := None,
       owed := OweAll(ResolveTargets(s.group, job.epoch), Resolved(job.res)),
       group := Resolve(s.group, job.epoch, job.res),
       verdicts := if s.group.epoch == job.epoch then s.verdicts[job.epoch := Resolved(job.res)] else s.verdicts,
       finished := s.finished + [job.epoch])
  }

  function DoWorkerAck(s: System): System
    requires s.owed != []
  {
    s.(owed := s.owed[1..], log := s.log + [s.owed[0]])
  }

  predicate Enabled(s: System, step: Step) {
    match step
    case Arrive(_) => true
    case RecvAck(t) => t < |s.threads| && s.threads[t].acks != []
    case RecvPost(t) => t < |s.threads| && s.threads[t].acks == [] && s.threads[t].post.Some?
    case Dispatch(_) => s.events != []
    case Report(task) => !(task.Work? && task.work.AckWork?)
    case WorkerTake => s.fss.items != [] && s.worker.None? && s.owed == []
    case WorkerResolve => s.worker.Some? && s.owed == []
    case WorkerAck => s.owed != []
  }

  /** A step that cannot be taken changes nothing, so every sequence of steps is a run. */
  function Next(s: System, tolerance: nat, step: Step): System {
    if !Enabled(s, step) then s
    else
      match step
      case Arrive(i) => DoArrive(s, tolerance, i)
      case RecvAck(t) => DoRecvAck(s, t)
      case RecvPost(t) => DoRecvPost(s, t)
      case Dispatch(res) => DoDispatch(s, res)
      case Report(task) => DoReport(s, task)
      case WorkerTake => DoWorkerTake(s)
      case WorkerResolve => DoWorkerResolve(s)
      case WorkerAck => DoWorkerAck(s)
  }

  function Run(tolerance: nat, steps: seq<Step>): System {
    if steps == [] then Init() else Next(Run(tolerance, steps[..|steps| - 1]), tolerance, steps[|steps| - 1])
  }

  // ---------------------------------------------------------------------------
  // Conservation of copies
  // ---------------------------------------------------------------------------

  /** How many of `acks` are for copy `c`. */
  function Owes(acks: seq<Owed>, c: nat): nat {
    if acks == [] then 0 else Owes(acks[..|acks| - 1], c) + if acks[|acks| - 1].copy == c then 1 else 0
  }

  function ThreadsOwe(threads: seq<Thread>, c: nat): nat {
    if threads == [] then 0 else ThreadsOwe(threads[..|threads| - 1], c) + Owes(threads[|threads| - 1].acks, c)
  }

  function Occurs(s: seq<nat>, x: nat): nat {
    if s == [] then 0 else Occurs(s[..|s| - 1], x) + if s[|s| - 1] == x then 1 else 0
  }

  /** Where copy `c`'s terminal acknowledgements are: sent, owed by the worker or a thread, or awaiting the group. */
  function Placed(s: System, c: nat): nat {
    Owes(s.log, c) + Owes(s.owed, c) + ThreadsOwe(s.threads, c) + Occurs(s.group.pending, c)
  }

  lemma {:induction false} OwesAppend(a: seq<Owed>, x: Owed, c: nat)
    ensures Owes(a + [x], c) == Owes(a, c) + if x.copy == c then 1 else 0
  {
    assert (a + [x])[..|a|] == a;
  }

  lemma {:induction false} OwesOne(x: Owed, c: nat)
    ensures Owes([x], c) == if x.copy == c then 1 else 0
  {
    OwesAppend([], x, c);
    assert [] + [x] == [x];
  }

  lemma {:induction false} OwesHead(a: seq<Owed>, c: nat)
    requires a != []
    ensures Owes(a, c) == Owes(a[1..], c) + if a[0].copy == c then 1 else 0
  {
    if |a| == 1 {
      assert a == [a[0]];
      OwesOne(a[0], c);
    } else {
      OwesHead(a[..|a| - 1], c);
      assert a[..|a| - 1][1..] == a[1..][..|a[1..]| - 1];
    }
  }

  lemma {:induction false} OccursAppend(s: seq<nat>, y: nat, x: nat)
    ensures Occurs(s + [y], x) == Occurs(s, x) + if x == y then 1 else 0
  {
    assert (s + [y])[..|s|] == s;
  }

  lemma {:induction false} OccursOne(y: nat, x: nat)
    ensures Occurs([y], x) == if x == y then 1 else 0
  {
    OccursAppend([], y, x);
    assert [] + [y] == [y];
  }

  lemma {:induction false} OccursHead(s: seq<nat>, x: nat)
    requires s != []
    ensures Occurs(s, x) == Occurs(s[1..], x) + if s[0] == x then 1 else 0
  {
    if |s| == 1 {
      assert s == [s[0]];
      OccursOne(s[0], x);
    } else {
      OccursHead(s[..|s| - 1], x);
      assert s[..|s| - 1][1..] == s[1..][..|s[1..]| - 1];
    }
  }

  lemma {:induction false} OwedForCopies(copies: seq<nat>, ack: Ack, c: nat)
    ensures Owes(OweAll(copies, ack), c) == Occurs(copies, c)
  {
    if copies != [] {
      var before := copies[..|copies| - 1];
      OwedForCopies(before, ack, c);
      OwesAppend(OweAll(before, ack), Owed(copies[|copies| - 1], ack), c);
    }
  }

  lemma {:induction false} ThreadsOweAppend(threads: seq<Thread>, t: Thread, c: nat)
    ensures ThreadsOwe(threads + [t], c) == ThreadsOwe(threads, c) + Owes(t.acks, c)
  {
    assert (threads + [t])[..|threads|] == threads;
  }

  lemma {:induction false} ThreadsOweUpdate(threads: seq<Thread>, i: nat, t: Thread, c: nat)
    requires i < |threads|
    ensures ThreadsOwe(threads[i := t], c) == ThreadsOwe(threads, c) - Owes(threads[i].acks, c) + Owes(t.acks, c)
  {
    var n := |threads| - 1;
    if i < n {
      assert threads[i := t][..n] == threads[..n][i := t];
      ThreadsOweUpdate(threads[..n], i, t, c);
    } else {
      assert threads[i := t][..n] == threads[..n];
    }
  }

  lemma {:induction false} PassedPlaces(s: System, i: Incoming, ack: Ack, c: nat)
    ensures Placed(Passed(s, i, ack), c) == Placed(s, c) + if c == |s.incoming| then 1 else 0
  {
    OwesOne(Owed(|s.incoming|, ack), c);
    ThreadsOweAppend(s.threads, Thread([Owed(|s.incoming|, ack)], None), c);
  }

  lemma {:induction false} JoinedPlaces(s: System, i: Incoming, c: nat)
    ensures Placed(Joined(s, i), c) == Placed(s, c) + if c == |s.incoming| then 1 else 0
  {
    var copy := |s.incoming|;
    ThreadsOweAppend(s.threads, Joined(s, i).threads[|s.threads|], c);
    if s.group.resolution.Some? {
      OwesOne(Owed(copy, Resolved(s.group.resolution.value)), c);
    } else {
      OccursAppend(s.group.pending, copy, c);
    }
  }

  lemma {:induction false} ReopenedPlaces(s: System, i: Incoming, c: nat)
    ensures Placed(Reopened(s, i), c) == Placed(s, c) + if c == |s.incoming| then 1 else 0
  {
    ThreadsOweAppend(s.threads, Thread(OweAll(s.group.pending, Stale), Some(s.group.epoch + 1)), c);
    OwedForCopies(s.group.pending, Stale, c);
    OccursOne(|s.incoming|, c);
  }

  lemma {:induction false} ArrivePlaces(s: System, tolerance: nat, i: Incoming, c: nat)
    ensures Placed(DoArrive(s, tolerance, i), c) == Placed(s, c) + if c == |s.incoming| then 1 else 0
  {
    PassedPlaces(s, i, if i.actionable then Stale else Rejected, c);
    JoinedPlaces(s, i, c);
    ReopenedPlaces(s, i, c);
  }

  lemma {:induction false} RecvAckMoves(s: System, t: nat, c: nat)
    requires t < |s.threads| && s.threads[t].acks != []
    ensures Placed(DoRecvAck(s, t), c) == Placed(s, c)
  {
    var thread := s.threads[t];
    OwesHead(thread.acks, c);
    OwesAppend(s.log, thread.acks[0], c);
    ThreadsOweUpdate(s.threads, t, thread.(acks := thread.acks[1..]), c);
  }

  lemma {:induction false} ResolveMoves(s: System, c: nat)
    requires s.worker.Some? && s.owed == []
    ensures Placed(DoWorkerResolve(s), c) == Placed(s, c)
  {
    OwedForCopies(ResolveTargets(s.group, s.worker.value.epoch), Resolved(s.worker.value.res), c);
  }

  lemma {:induction false} WorkerAckMoves(s: System, c: nat)
    requires s.owed != []
    ensures Placed(DoWorkerAck(s), c) == Placed(s, c)
  {
    OwesHead(s.owed, c);
    OwesAppend(s.log, s.owed[0], c);
  }

  /** Every other step moves copies between places. */
  lemma {:induction false} StepMovesCopies(s: System, tolerance: nat, step: Step, c: nat)
    requires !step.Arrive?
    ensures Placed(Next(s, tolerance, step), c) == Placed(s, c)
    ensures Next(s, tolerance, step).incoming == s.incoming
  {
    if Enabled(s, step) {
      match step {
        case RecvAck(t) => RecvAckMoves(s, t, c);
        case RecvPost(t) => ThreadsOweUpdate(s.threads, t, s.threads[t].(post := None), c);
        case WorkerResolve => ResolveMoves(s, c);
        case WorkerAck => WorkerAckMoves(s, c);
        case _ =>
      }
    }
  }

  lemma {:induction false} StepPlaces(s: System, tolerance: nat, step: Step, s': System, c: nat)
    requires s' == Next(s, tolerance, step)
    ensures |s'.incoming| == |s.incoming| + if step.Arrive? then 1 else 0
    ensures Placed(s', c) == Placed(s, c) + if step.Arrive? && c == |s.incoming| then 1 else 0
  {
    if step.Arrive? {
      ArrivePlaces(s, tolerance, step.incoming, c);
    } else {
      StepMovesCopies(s, tolerance, step, c);
    }
  }

  lemma {:induction false} CopiesAreConserved(tolerance: nat, steps: seq<Step>, c: nat)
    ensures var s := Run(tolerance, steps); Placed(s, c) == if c < |s.incoming| then 1 else 0
  {
    if steps != [] {
      CopiesAreConserved(tolerance, steps[..|steps| - 1], c);
      StepPlaces(Run(tolerance, steps[..|steps| - 1]), tolerance, steps[|steps| - 1], Run(tolerance, steps), c);
    }
  }

  // ---------------------------------------------------------------------------
  // Conservation of commands
  // ---------------------------------------------------------------------------

  function Posts(threads: seq<Thread>, e: nat): nat {
    if threads == [] then 0
    else Posts(threads[..|threads| - 1], e) + if threads[|threads| - 1].post == Some(e) then 1 else 0
  }

  function JobsFor(works: seq<FssWork>, e: nat): nat {
    if works == [] then 0
    else
      var last := works[|works| - 1];
      JobsFor(works[..|works| - 1], e) + if last.AckWork? && last.job.epoch == e then 1 else 0
  }

  /** Where epoch `e`'s command is before the event loop has taken it. */
  function Undispatched(s: System, e: nat): nat {
    Posts(s.threads, e) + Occurs(s.events, e)
  }

  /** Where epoch `e`'s responder is once the event loop has resolved the command. */
  function Unresolved(s: System, e: nat): nat {
    JobsFor(WQ.Works(s.fss.items), e) + if s.worker.Some? && s.worker.value.epoch == e then 1 else 0
  }

  predicate Opened(s: System, e: nat) {
    1 <= e <= s.group.epoch
  }

  /** Each epoch opened is to be dispatched or was, and is to be resolved or was: once. */
  predicate Carried(s: System, e: nat) {
    && Undispatched(s, e) + Occurs(s.dispatched, e) == (if Opened(s, e) then 1 else 0)
    && Undispatched(s, e) + Unresolved(s, e) + Occurs(s.finished, e) == (if Opened(s, e) then 1 else 0)
  }

  lemma {:induction false} PostsAppend(threads: seq<Thread>, t: Thread, e: nat)
    ensures Posts(threads + [t], e) == Posts(threads, e) + if t.post == Some(e) then 1 else 0
  {
    assert (threads + [t])[..|threads|] == threads;
  }

  lemma {:induction false} PostsUpdate(threads: seq<Thread>, i: nat, t: Thread, e: nat)
    requires i < |threads|
    ensures Posts(threads[i := t], e)
            == Posts(threads, e) - (if threads[i].post == Some(e) then 1 else 0) + if t.post == Some(e) then 1 else 0
  {
    var n := |threads| - 1;
    if i < n {
      assert threads[i := t][..n] == threads[..n][i := t];
      PostsUpdate(threads[..n], i, t, e);
    } else {
      assert threads[i := t][..n] == threads[..n];
    }
  }

  lemma {:induction false} JobsConcat(a: seq<FssWork>, b: seq<FssWork>, e: nat)
    ensures JobsFor(a + b, e) == JobsFor(a, e) + JobsFor(b, e)
  {
    if b == [] {
      assert a + b == a;
    } else {
      assert (a + b)[..|a + b| - 1] == a + b[..|b| - 1];
      JobsConcat(a, b[..|b| - 1], e);
    }
  }

  function JobsIn(task: WQ.Task<FssWork>, e: nat): nat {
    if task.Work? && task.work.AckWork? && task.work.job.epoch == e then 1 else 0
  }

  lemma {:induction false} WorksOfOne(x: WQ.Item<FssWork>, e: nat)
    ensures JobsFor(WQ.Works([x]), e) == JobsIn(x.task, e)
  {
    assert [x][..0] == [];
    if x.task.Work? {
      assert WQ.Works([x]) == [x.task.work] && [x.task.work][..0] == [];
    } else {
      assert WQ.Works([x]) == [];
    }
  }

  /** Coalescing never touches a responder. */
  lemma {:induction false} EnqueueAddsJob(q: WQ.Queue<FssWork>, task: WQ.Task<FssWork>, e: nat)
    ensures JobsFor(WQ.Works(WQ.Enqueue(q, task).items), e) == JobsFor(WQ.Works(q.items), e) + JobsIn(task, e)
  {
    var x := WQ.Item(|q.puts|, task);
    WQ.EnqueueShape(q, task);
    WQ.CoalescingKeepsWorks(q.items);
    var tail := if WQ.Refuses(q, task) then [] else [x];
    WQ.WorksConcat(WQ.Kept(q, task), tail);
    JobsConcat(WQ.Works(WQ.Kept(q, task)), WQ.Works(tail), e);
    WorksOfOne(x, e);
  }

  lemma {:induction false} TakeMovesJob(q: WQ.Queue<FssWork>, e: nat)
    requires q.items != []
    ensures JobsFor(WQ.Works(q.items), e) == JobsIn(q.items[0].task, e) + JobsFor(WQ.Works(WQ.Take(q).items), e)
  {
    assert q.items == [q.items[0]] + q.items[1..];
    WQ.WorksConcat([q.items[0]], q.items[1..]);
    JobsConcat(WQ.Works([q.items[0]]), WQ.Works(q.items[1..]), e);
    WorksOfOne(q.items[0], e);
  }

  lemma {:induction false} AdmitCarries(s: System, s': System, rest: Thread, e: nat)
    requires Carried(s, e)
    requires s'.threads == s.threads + [rest] && s'.events == s.events && s'.fss == s.fss && s'.worker == s.worker
    requires s'.dispatched == s.dispatched && s'.finished == s.finished
    requires s'.group.epoch == s.group.epoch + if rest.post.Some? then 1 else 0
    requires rest.post.Some? ==> rest.post.value == s'.group.epoch
    ensures Carried(s', e)
  {
    PostsAppend(s.threads, rest, e);
  }

  lemma {:induction false} PassedCarries(s: System, i: Incoming, ack: Ack, e: nat)
    requires Carried(s, e)
    ensures Carried(Passed(s, i, ack), e)
  {
    AdmitCarries(s, Passed(s, i, ack), Thread([Owed(|s.incoming|, ack)], None), e);
  }

  lemma {:induction false} JoinedCarries(s: System, i: Incoming, e: nat)
    requires Carried(s, e)
    ensures Carried(Joined(s, i), e)
  {
    AdmitCarries(s, Joined(s, i), Joined(s, i).threads[|s.threads|], e);
  }

  lemma {:induction false} ReopenedCarries(s: System, i: Incoming, e: nat)
    requires Carried(s, e)
    ensures Carried(Reopened(s, i), e)
  {
    AdmitCarries(s, Reopened(s, i), Thread(OweAll(s.group.pending, Stale), Some(s.group.epoch + 1)), e);
  }

  lemma {:induction false} ArriveCarries(s: System, tolerance: nat, i: Incoming, e: nat)
    requires Carried(s, e)
    ensures Carried(DoArrive(s, tolerance, i), e)
  {
    if !i.actionable {
      PassedCarries(s, i, Rejected, e);
    } else if JoinsGroup(s.group, tolerance, i.delivery) {
      JoinedCarries(s, i, e);
    } else if IsStale(s.group, i.delivery) {
      PassedCarries(s, i, Stale, e);
    } else {
      ReopenedCarries(s, i, e);
    }
  }

  lemma {:induction false} ThreadStepCarries(s: System, tolerance: nat, step: Step, e: nat)
    requires Carried(s, e) && Enabled(s, step) && (step.RecvAck? || step.RecvPost?)
    ensures Carried(Next(s, tolerance, step), e)
  {
    var thread := s.threads[step.thread];
    if step.RecvAck? {
      PostsUpdate(s.threads, step.thread, thread.(acks := thread.acks[1..]), e);
    } else {
      PostsUpdate(s.threads, step.thread, thread.(post := None), e);
      OccursAppend(s.events, thread.post.value, e);
    }
  }

  /** The FSS queue gains what the event loop dispatches. */
  lemma {:induction false} HandOverCarries(s: System, fss: WQ.Queue<FssWork>, e: nat)
    requires Carried(s, e) && s.events != []
    requires JobsFor(WQ.Works(fss.items), e)
          == JobsFor(WQ.Works(s.fss.items), e) + if s.events[0] == e then 1 else 0
    ensures Carried(s.(events := s.events[1..], dispatched := s.dispatched + [s.events[0]], fss := fss), e)
  {
    OccursHead(s.events, e);
    OccursAppend(s.dispatched, s.events[0], e);
  }

  lemma {:induction false} DispatchCarries(s: System, res: Resolution, e: nat)
    requires Carried(s, e) && s.events != []
    ensures Carried(DoDispatch(s, res), e)
  {
    var task := WQ.Work(AckWork(Job(s.events[0], res)));
    EnqueueAddsJob(s.fss, task, e);
    HandOverCarries(s, WQ.Enqueue(s.fss, task), e);
  }

  lemma {:induction false} SameJobsCarry(s: System, fss: WQ.Queue<FssWork>, e: nat)
    requires Carried(s, e) && JobsFor(WQ.Works(fss.items), e) == JobsFor(WQ.Works(s.fss.items), e)
    ensures Carried(s.(fss := fss), e)
  {
  }

  lemma {:induction false} ReportCarries(s: System, task: WQ.Task<FssWork>, e: nat)
    requires Carried(s, e) && !(task.Work? && task.work.AckWork?)
    ensures Carried(DoReport(s, task), e)
  {
    EnqueueAddsJob(s.fss, task, e);
    SameJobsCarry(s, WQ.Enqueue(s.fss, task), e);
  }

  lemma {:induction false} TakeCarries(s: System, e: nat)
    requires Carried(s, e) && s.fss.items != [] && s.worker.None?
    ensures Carried(DoWorkerTake(s), e)
  {
    TakeMovesJob(s.fss, e);
  }

  lemma {:induction false} FinishCarries(s: System, s': System, e: nat)
    requires Carried(s, e) && s.worker.Some?
    requires s'.threads == s.threads && s'.events == s.events && s'.fss == s.fss && s'.worker == None
    requires s'.dispatched == s.dispatched && s'.finished == s.finished + [s.worker.value.epoch]
    requires s'.group.epoch == s.group.epoch
    ensures Carried(s', e)
  {
    OccursAppend(s.finished, s.worker.value.epoch, e);
  }

  lemma {:induction false} ResolveCarries(s: System, e: nat)
    requires Carried(s, e) && s.worker.Some? && s.owed == []
    ensures Carried(DoWorkerResolve(s), e)
  {
    FinishCarries(s, DoWorkerResolve(s), e);
  }

  lemma {:induction false} StepCarries(s: System, tolerance: nat, step: Step, e: nat)
    requires Carried(s, e)
    ensures Carried(Next(s, tolerance, step), e)
  {
    if Enabled(s, step) {
      match step {
        case Arrive(i) => ArriveCarries(s, tolerance, i, e);
        case RecvAck(_) => ThreadStepCarries(s, tolerance, step, e);
        case RecvPost(_) => ThreadStepCarries(s, tolerance, step, e);
        case Dispatch(res) => DispatchCarries(s, res, e);
        case Report(task) => ReportCarries(s, task, e);
        case WorkerTake => TakeCarries(s, e);
        case WorkerResolve => ResolveCarries(s, e);
        case WorkerAck =>
      }
    }
  }

  lemma {:induction false} CommandsAreConserved(tolerance: nat, steps: seq<Step>, e: nat)
    ensures Carried(Run(tolerance, steps), e)
  {
    if steps != [] {
      CommandsAreConserved(tolerance, steps[..|steps| - 1], e);
      StepCarries(Run(tolerance, steps[..|steps| - 1]), tolerance, steps[|steps| - 1], e);
    }
  }

  // ---------------------------------------------------------------------------
  // One verdict per epoch
  // ---------------------------------------------------------------------------

  ghost function OpenerOf(s: System, e: nat): Delivery
    requires |s.openers| == s.group.epoch && Opened(s, e)
    requires forall k :: 0 <= k < |s.openers| ==> s.openers[k] < |s.incoming|
  {
    s.incoming[s.openers[e - 1]].delivery
  }

  /** The group remembers the copy that opened it; every copy is judged against its epoch's opener. */
  ghost predicate Members(s: System, tolerance: nat) {
    && |s.epochOf| == |s.incoming|
    && |s.openers| == s.group.epoch
    && (s.group.active <==> 1 <= s.group.epoch)
    && (forall k :: 0 <= k < |s.openers| ==> s.openers[k] < |s.incoming|)
    && (s.group.active ==>
          var o := OpenerOf(s, s.group.epoch);
          s.group.command == o.command && s.group.payload == o.payload && s.group.timestamp == o.timestamp)
    && (forall c :: 0 <= c < |s.epochOf| && s.epochOf[c] != 0 ==>
          Opened(s, s.epochOf[c]) && CloseToOpener(s.incoming[c].delivery, OpenerOf(s, s.epochOf[c]), tolerance))
  }

  /** The two copies joined the same epoch over the same connection, each with an id. */
  predicate Comparable(s: System, c: nat, d: nat)
    requires |s.epochOf| == |s.incoming| && c < |s.incoming| && d < |s.incoming|
  {
    && s.epochOf[c] == s.epochOf[d] != 0
    && s.incoming[c].delivery.connection == s.incoming[d].delivery.connection
    && s.incoming[c].delivery.serverId != 0 && s.incoming[d].delivery.serverId != 0
  }

  ghost predicate OneIdEach(s: System)
    requires |s.epochOf| == |s.incoming|
  {
    && (forall c, d :: 0 <= c < |s.incoming| && 0 <= d < |s.incoming| && Comparable(s, c, d) ==>
          s.incoming[c].delivery.serverId == s.incoming[d].delivery.serverId)
    && (forall c :: 0 <= c < |s.incoming| && s.epochOf[c] == s.group.epoch != 0
                      && s.incoming[c].delivery.serverId != 0 ==>
          && s.incoming[c].delivery.connection in s.group.lastIds
          && s.group.lastIds[s.incoming[c].delivery.connection] == s.incoming[c].delivery.serverId)
  }

  /** Settled epochs have a verdict; the group in hand has one exactly when it is resolved. */
  ghost predicate VerdictsFit(s: System) {
    && (forall e :: e in s.verdicts ==> Opened(s, e))
    && (forall e :: 1 <= e < s.group.epoch ==> e in s.verdicts)
    && (s.group.resolution.Some? ==>
          && s.group.epoch in s.verdicts && s.verdicts[s.group.epoch] == Resolved(s.group.resolution.value)
          && s.group.pending == [] && Occurs(s.finished, s.group.epoch) >= 1)
    && (s.group.resolution.None? ==> s.group.epoch !in s.verdicts && Occurs(s.finished, s.group.epoch) == 0)
    && (forall c :: c in s.group.pending ==> c < |s.epochOf| && s.epochOf[c] == s.group.epoch != 0)
    && (s.group.active <==> 1 <= s.group.epoch)
  }

  /** The acknowledgement is its copy's epoch's verdict; a copy that joined none is stale, or was never actionable. */
  ghost predicate Honest(incoming: seq<Incoming>, epochOf: seq<nat>, verdicts: map<nat, Ack>, x: Owed) {
    && x.copy < |epochOf| == |incoming|
    && (if epochOf[x.copy] == 0 then x.ack == if incoming[x.copy].actionable then Stale else Rejected
        else epochOf[x.copy] in verdicts && verdicts[epochOf[x.copy]] == x.ack)
  }

  ghost predicate AllHonest(s: System) {
    && (forall x :: x in s.log ==> Honest(s.incoming, s.epochOf, s.verdicts, x))
    && (forall x :: x in s.owed ==> Honest(s.incoming, s.epochOf, s.verdicts, x))
    && (forall t, x :: 0 <= t < |s.threads| && x in s.threads[t].acks ==> Honest(s.incoming, s.epochOf, s.verdicts, x))
  }

  lemma {:induction false} OweAllIsForCopies(copies: seq<nat>, ack: Ack, x: Owed)
    requires x in OweAll(copies, ack)
    ensures x.copy in copies && x.ack == ack
  {
    var before := copies[..|copies| - 1];
    if x in OweAll(before, ack) {
      OweAllIsForCopies(before, ack, x);
    }
  }

  /** The history of earlier copies and epochs is only ever extended. */
  lemma {:induction false} AdmitKeepsMembers(s: System, s': System, i: Incoming, epoch: nat, tolerance: nat)
    requires Members(s, tolerance)
    requires s'.incoming == s.incoming + [i] && s'.epochOf == s.epochOf + [epoch]
    requires s'.openers == s.openers && s'.group.epoch == s.group.epoch && s'.group.active == s.group.active
    requires s'.group.command == s.group.command && s'.group.payload == s.group.payload
    requires s'.group.timestamp == s.group.timestamp
    requires epoch != 0 ==> Opened(s, epoch) && CloseToOpener(i.delivery, OpenerOf(s, epoch), tolerance)
    ensures Members(s', tolerance)
  {
    assert forall c :: 0 <= c < |s.incoming| ==> s'.incoming[c] == s.incoming[c] && s'.epochOf[c] == s.epochOf[c];
    forall e | Opened(s, e) ensures OpenerOf(s', e) == OpenerOf(s, e) {
    }
  }

  lemma {:induction false} ReopenedKeepsMembers(s: System, i: Incoming, tolerance: nat)
    requires Members(s, tolerance) && 1 <= tolerance
    ensures Members(Reopened(s, i), tolerance)
  {
    var s', n := Reopened(s, i), s.group.epoch + 1;
    assert s'.openers[n - 1] == |s.incoming| && s'.incoming[|s.incoming|] == i;
    assert forall c :: 0 <= c < |s.incoming| ==> s'.incoming[c] == s.incoming[c] && s'.epochOf[c] == s.epochOf[c];
    forall e | Opened(s, e) ensures OpenerOf(s', e) == OpenerOf(s, e) {
      assert s'.openers[e - 1] == s.openers[e - 1];
    }
  }

  lemma {:induction false} JoinedIsClose(s: System, i: Incoming, tolerance: nat)
    requires Members(s, tolerance) && JoinsGroup(s.group, tolerance, i.delivery)
    ensures Opened(s, s.group.epoch) && CloseToOpener(i.delivery, OpenerOf(s, s.group.epoch), tolerance)
  {
  }

  lemma {:induction false} ArriveKeepsMembers(s: System, tolerance: nat, i: Incoming)
    requires Members(s, tolerance) && 1 <= tolerance
    ensures Members(DoArrive(s, tolerance, i), tolerance)
  {
    if !i.actionable {
      AdmitKeepsMembers(s, Passed(s, i, Rejected), i, 0, tolerance);
    } else if JoinsGroup(s.group, tolerance, i.delivery) {
      JoinedIsClose(s, i, tolerance);
      AdmitKeepsMembers(s, Joined(s, i), i, s.group.epoch, tolerance);
    } else if IsStale(s.group, i.delivery) {
      AdmitKeepsMembers(s, Passed(s, i, Stale), i, 0, tolerance);
    } else {
      ReopenedKeepsMembers(s, i, tolerance);
    }
  }

  /** Two copies that were there before the arrival still agree. */
  lemma {:induction false} EarlierIdsAgree(s: System, s': System, i: Incoming, epoch: nat)
    requires |s.epochOf| == |s.incoming| && OneIdEach(s)
    requires s'.incoming == s.incoming + [i] && s'.epochOf == s.epochOf + [epoch]
    ensures forall c, d :: 0 <= c < |s.incoming| && 0 <= d < |s.incoming| && Comparable(s', c, d) ==>
              s'.incoming[c].delivery.serverId == s'.incoming[d].delivery.serverId
    ensures forall c :: 0 <= c < |s.incoming| ==> s'.incoming[c] == s.incoming[c] && s'.epochOf[c] == s.epochOf[c]
  {
    forall c, d | 0 <= c < |s.incoming| && 0 <= d < |s.incoming| && Comparable(s', c, d)
      ensures s'.incoming[c].delivery.serverId == s'.incoming[d].delivery.serverId
    {
      assert Comparable(s, c, d);
    }
  }

  lemma {:induction false} PassedKeepsIds(s: System, tolerance: nat, i: Incoming, ack: Ack)
    requires Members(s, tolerance) && OneIdEach(s)
    ensures OneIdEach(Passed(s, i, ack))
  {
    EarlierIdsAgree(s, Passed(s, i, ack), i, 0);
  }

  lemma {:induction false} JoinedKeepsIds(s: System, tolerance: nat, i: Incoming)
    requires Members(s, tolerance) && OneIdEach(s) && JoinsGroup(s.group, tolerance, i.delivery)
    ensures OneIdEach(Joined(s, i))
  {
    EarlierIdsAgree(s, Joined(s, i), i, s.group.epoch);
  }

  lemma {:induction false} ReopenedKeepsIds(s: System, tolerance: nat, i: Incoming)
    requires Members(s, tolerance) && OneIdEach(s)
    ensures OneIdEach(Reopened(s, i))
  {
    EarlierIdsAgree(s, Reopened(s, i), i, s.group.epoch + 1);
    assert forall c :: 0 <= c < |s.incoming| && s.epochOf[c] != 0 ==> Opened(s, s.epochOf[c]);
  }

  lemma {:induction false} ArriveKeepsIds(s: System, tolerance: nat, i: Incoming)
    requires Members(s, tolerance) && OneIdEach(s)
    ensures OneIdEach(DoArrive(s, tolerance, i))
  {
    if !i.actionable {
      PassedKeepsIds(s, tolerance, i, Rejected);
    } else if JoinsGroup(s.group, tolerance, i.delivery) {
      JoinedKeepsIds(s, tolerance, i);
    } else if IsStale(s.group, i.delivery) {
      PassedKeepsIds(s, tolerance, i, Stale);
    } else {
      ReopenedKeepsIds(s, tolerance, i);
    }
  }

  lemma {:induction false} PassedKeepsVerdicts(s: System, tolerance: nat, i: Incoming, ack: Ack)
    requires Members(s, tolerance) && VerdictsFit(s)
    ensures VerdictsFit(Passed(s, i, ack))
  {
    assert forall c :: 0 <= c < |s.epochOf| ==> Passed(s, i, ack).epochOf[c] == s.epochOf[c];
  }

  lemma {:induction false} JoinedKeepsVerdicts(s: System, tolerance: nat, i: Incoming)
    requires Members(s, tolerance) && VerdictsFit(s) && JoinsGroup(s.group, tolerance, i.delivery)
    ensures VerdictsFit(Joined(s, i))
  {
    var s' := Joined(s, i);
    assert forall c :: 0 <= c < |s.epochOf| ==> s'.epochOf[c] == s.epochOf[c];
    assert s'.epochOf[|s.incoming|] == s.group.epoch;
  }

  lemma {:induction false} ReopenedKeepsVerdicts(s: System, tolerance: nat, i: Incoming)
    requires Members(s, tolerance) && VerdictsFit(s) && Carried(s, s.group.epoch + 1)
    ensures VerdictsFit(Reopened(s, i))
  {
    var s' := Reopened(s, i);
    assert s'.epochOf[|s.incoming|] == s'.group.epoch;
    assert Occurs(s.finished, s'.group.epoch) == 0;
  }

  lemma {:induction false} ArriveKeepsVerdicts(s: System, tolerance: nat, i: Incoming)
    requires Members(s, tolerance) && VerdictsFit(s) && Carried(s, s.group.epoch + 1)
    ensures VerdictsFit(DoArrive(s, tolerance, i))
  {
    if !i.actionable {
      PassedKeepsVerdicts(s, tolerance, i, Rejected);
    } else if JoinsGroup(s.group, tolerance, i.delivery) {
      JoinedKeepsVerdicts(s, tolerance, i);
    } else if IsStale(s.group, i.delivery) {
      PassedKeepsVerdicts(s, tolerance, i, Stale);
    } else {
      ReopenedKeepsVerdicts(s, tolerance, i);
    }
  }

  lemma {:induction false} HonestyStays(s: System, s': System, x: Owed)
    requires Honest(s.incoming, s.epochOf, s.verdicts, x)
    requires s.incoming <= s'.incoming && s.epochOf <= s'.epochOf && |s'.epochOf| == |s'.incoming|
    requires forall e :: e in s.verdicts ==> e in s'.verdicts && s'.verdicts[e] == s.verdicts[e]
    ensures Honest(s'.incoming, s'.epochOf, s'.verdicts, x)
  {
    assert s.epochOf[x.copy] == s'.epochOf[x.copy] && s.incoming[x.copy] == s'.incoming[x.copy];
  }

  lemma {:induction false} AdmitKeepsHonesty(s: System, s': System, i: Incoming, epoch: nat, rest: Thread)
    requires AllHonest(s) && |s.epochOf| == |s.incoming|
    requires s'.incoming == s.incoming + [i] && s'.epochOf == s.epochOf + [epoch] && s'.threads == s.threads + [rest]
    requires s'.log == s.log && s'.owed == s.owed
    requires forall e :: e in s.verdicts ==> e in s'.verdicts && s'.verdicts[e] == s.verdicts[e]
    requires forall x :: x in rest.acks ==> Honest(s'.incoming, s'.epochOf, s'.verdicts, x)
    ensures AllHonest(s')
  {
    forall x | Honest(s.incoming, s.epochOf, s.verdicts, x) ensures Honest(s'.incoming, s'.epochOf, s'.verdicts, x) {
      HonestyStays(s, s', x);
    }
  }

  lemma {:induction false} ReopenedKeepsHonesty(s: System, tolerance: nat, i: Incoming)
    requires Members(s, tolerance) && VerdictsFit(s) && AllHonest(s)
    ensures AllHonest(Reopened(s, i))
  {
    var s', epoch := Reopened(s, i), s.group.epoch + 1;
    var rest := Thread(OweAll(s.group.pending, Stale), Some(epoch));
    forall x | x in rest.acks ensures Honest(s'.incoming, s'.epochOf, s'.verdicts, x) {
      OweAllIsForCopies(s.group.pending, Stale, x);
    }
    AdmitKeepsHonesty(s, s', i, epoch, rest);
  }

  lemma {:induction false} JoinedKeepsHonesty(s: System, tolerance: nat, i: Incoming)
    requires Members(s, tolerance) && VerdictsFit(s) && AllHonest(s) && JoinsGroup(s.group, tolerance, i.delivery)
    ensures AllHonest(Joined(s, i))
  {
    AdmitKeepsHonesty(s, Joined(s, i), i, s.group.epoch, Joined(s, i).threads[|s.threads|]);
  }

  lemma {:induction false} ArriveKeepsHonesty(s: System, tolerance: nat, i: Incoming)
    requires Members(s, tolerance) && VerdictsFit(s) && AllHonest(s)
    ensures AllHonest(DoArrive(s, tolerance, i))
  {
    if !i.actionable {
      AdmitKeepsHonesty(s, Passed(s, i, Rejected), i, 0, Thread([Owed(|s.incoming|, Rejected)], None));
    } else if JoinsGroup(s.group, tolerance, i.delivery) {
      JoinedKeepsHonesty(s, tolerance, i);
    } else if IsStale(s.group, i.delivery) {
      AdmitKeepsHonesty(s, Passed(s, i, Stale), i, 0, Thread([Owed(|s.incoming|, Stale)], None));
    } else {
      ReopenedKeepsHonesty(s, tolerance, i);
    }
  }

  lemma {:induction false} ResolveKeepsVerdicts(s: System, tolerance: nat)
    requires Members(s, tolerance) && VerdictsFit(s) && AllHonest(s)
    requires s.worker.Some? && s.owed == [] && Carried(s, s.worker.value.epoch)
    ensures VerdictsFit(DoWorkerResolve(s)) && AllHonest(DoWorkerResolve(s))
  {
    var s' := DoWorkerResolve(s);
    var job := s.worker.value;
    OccursAppend(s.finished, job.epoch, s.group.epoch);
    if job.epoch == s.group.epoch {
      assert Unresolved(s, job.epoch) >= 1;
    }
    forall x | Honest(s.incoming, s.epochOf, s.verdicts, x) ensures Honest(s'.incoming, s'.epochOf, s'.verdicts, x) {
      HonestyStays(s, s', x);
    }
    forall x | x in s'.owed ensures Honest(s'.incoming, s'.epochOf, s'.verdicts, x) {
      OweAllIsForCopies(ResolveTargets(s.group, job.epoch), Resolved(job.res), x);
    }
  }

  /** Steps that only move acknowledgements or jobs along leave the group and its verdicts alone. */
  lemma {:induction false} OtherStepsKeepHonesty(s: System, tolerance: nat, step: Step)
    requires Members(s, tolerance) && VerdictsFit(s) && AllHonest(s)
    requires !step.Arrive? && !step.WorkerResolve?
    ensures VerdictsFit(Next(s, tolerance, step)) && AllHonest(Next(s, tolerance, step))
  {
  }

  lemma {:induction false} SameMembers(s: System, s': System, tolerance: nat)
    requires Members(s, tolerance) && OneIdEach(s)
    requires s'.incoming == s.incoming && s'.epochOf == s.epochOf && s'.openers == s.openers
    requires s'.group == s.group.(pending := s'.group.pending, resolution := s'.group.resolution)
    ensures Members(s', tolerance) && OneIdEach(s')
  {
    forall c, d | 0 <= c < |s'.incoming| && 0 <= d < |s'.incoming| && Comparable(s', c, d)
      ensures s'.incoming[c].delivery.serverId == s'.incoming[d].delivery.serverId
    {
      assert Comparable(s, c, d);
    }
  }

  ghost predicate Inv(s: System, tolerance: nat) {
    Members(s, tolerance) && OneIdEach(s) && VerdictsFit(s) && AllHonest(s)
  }

  lemma {:induction false} NextKeepsInv(s: System, tolerance: nat, step: Step)
    requires 1 <= tolerance && Inv(s, tolerance)
    requires forall e: nat :: Carried(s, e)
    ensures Inv(Next(s, tolerance, step), tolerance)
  {
    if step.Arrive? {
      assert Carried(s, s.group.epoch + 1);
      ArriveKeepsMembers(s, tolerance, step.incoming);
      ArriveKeepsIds(s, tolerance, step.incoming);
      ArriveKeepsVerdicts(s, tolerance, step.incoming);
      ArriveKeepsHonesty(s, tolerance, step.incoming);
    } else if step.WorkerResolve? {
      if Enabled(s, step) {
        assert Carried(s, s.worker.value.epoch);
        ResolveKeepsVerdicts(s, tolerance);
        SameMembers(s, Next(s, tolerance, step), tolerance);
      }
    } else {
      OtherStepsKeepHonesty(s, tolerance, step);
      SameMembers(s, Next(s, tolerance, step), tolerance);
    }
  }

  lemma {:induction false} RunKeepsInv(tolerance: nat, steps: seq<Step>)
    requires 1 <= tolerance
    ensures Inv(Run(tolerance, steps), tolerance)
  {
    if steps != [] {
      var before := steps[..|steps| - 1];
      RunKeepsInv(tolerance, before);
      forall e: nat ensures Carried(Run(tolerance, before), e) {
        CommandsAreConserved(tolerance, before, e);
      }
      NextKeepsInv(Run(tolerance, before), tolerance, steps[|steps| - 1]);
    }
  }

  // ---------------------------------------------------------------------------
  // Main results
  // ---------------------------------------------------------------------------

  /** No thread has anything left to do: event queue and FSS queue empty, receive threads and worker idle. */
  predicate Quiescent(s: System) {
    && s.events == [] && s.fss.items == [] && s.worker.None? && s.owed == []
    && forall t :: 0 <= t < |s.threads| ==> s.threads[t] == Thread([], None)
  }

  lemma {:induction false} IdleThreadsHoldNothing(threads: seq<Thread>, x: nat)
    requires forall t :: 0 <= t < |threads| ==> threads[t] == Thread([], None)
    ensures ThreadsOwe(threads, x) == 0 && Posts(threads, x) == 0
  {
    if threads != [] {
      IdleThreadsHoldNothing(threads[..|threads| - 1], x);
    }
  }

  lemma {:induction false} QuiescentIsSettled(tolerance: nat, steps: seq<Step>)
    requires 1 <= tolerance && Quiescent(Run(tolerance, steps))
    ensures Run(tolerance, steps).group.pending == []
  {
    var s := Run(tolerance, steps);
    assert s.group.pending == [] || s.group.pending[0] in s.group.pending;
    RunKeepsInv(tolerance, steps);
    CommandsAreConserved(tolerance, steps, s.group.epoch);
    IdleThreadsHoldNothing(s.threads, s.group.epoch);
  }

  /**
    Exactly-once terminal acknowledgement. Over every interleaving, no copy is ever sent more than one
    terminal acknowledgement, none is sent to a copy that did not arrive, and once the queues are empty and
    the threads idle every copy that arrived has been sent exactly one.
   */
  lemma {:induction false} EachCopyIsAckedOnce(tolerance: nat, steps: seq<Step>, c: nat)
    requires 1 <= tolerance
    ensures var s := Run(tolerance, steps);
            && Owes(s.log, c) <= (if c < |s.incoming| then 1 else 0)
            && (Quiescent(s) && c < |s.incoming| ==> Owes(s.log, c) == 1)
  {
    CopiesAreConserved(tolerance, steps, c);
    var s := Run(tolerance, steps);
    if Quiescent(s) {
      QuiescentIsSettled(tolerance, steps);
      IdleThreadsHoldNothing(s.threads, c);
    }
  }

  /**
    Each epoch's command reaches the state machine at most once, and exactly once by the time everything is quiet;
    nothing else ever does. `ArrivalIsJudged` says which copies share an epoch.
   */
  lemma {:induction false} EachCommandIsActuatedOnce(tolerance: nat, steps: seq<Step>, e: nat)
    ensures var s := Run(tolerance, steps);
            && Occurs(s.dispatched, e) <= (if Opened(s, e) then 1 else 0)
            && (Quiescent(s) && Opened(s, e) ==> Occurs(s.dispatched, e) == 1)
  {
    CommandsAreConserved(tolerance, steps, e);
    var s := Run(tolerance, steps);
    if Quiescent(s) {
      IdleThreadsHoldNothing(s.threads, e);
    }
  }

  lemma {:induction false} VerdictsAreNotRejections(tolerance: nat, steps: seq<Step>)
    ensures forall e :: e in Run(tolerance, steps).verdicts ==> !Run(tolerance, steps).verdicts[e].Rejected?
  {
    if steps != [] {
      VerdictsAreNotRejections(tolerance, steps[..|steps| - 1]);
    }
  }

  /**
    Coherence. Any two copies answered from one epoch are sent the identical acknowledgement, and they are
    copies of one command: same type, timestamps less than twice the tolerance apart, goto targets less than
    twice the position tolerance apart, and never two different ids from one connection.
   */
  lemma {:induction false} CopiesOfAnEpochAgree(tolerance: nat, steps: seq<Step>, x: Owed, y: Owed)
    requires 1 <= tolerance
    requires x in Run(tolerance, steps).log && y in Run(tolerance, steps).log
    ensures var s := Run(tolerance, steps);
            && |s.epochOf| == |s.incoming| && x.copy < |s.epochOf| && y.copy < |s.epochOf|
            && (s.epochOf[x.copy] == s.epochOf[y.copy] != 0 ==>
                  && x.ack == y.ack && !x.ack.Rejected?
                  && Coherent(s.incoming[x.copy].delivery, s.incoming[y.copy].delivery, tolerance))
  {
    RunKeepsInv(tolerance, steps);
    VerdictsAreNotRejections(tolerance, steps);
    var s := Run(tolerance, steps);
    assert Honest(s.incoming, s.epochOf, s.verdicts, x) && Honest(s.incoming, s.epochOf, s.verdicts, y);
    if s.epochOf[x.copy] == s.epochOf[y.copy] != 0 {
      var d, e := s.incoming[x.copy].delivery, s.incoming[y.copy].delivery;
      if d.connection == e.connection && d.serverId != 0 && e.serverId != 0 {
        assert Comparable(s, x.copy, y.copy);
      }
      CloseCopiesCohere(d, e, OpenerOf(s, s.epochOf[x.copy]), tolerance);
    }
  }

  // ---------------------------------------------------------------------------
  // Which copies share an epoch
  // ---------------------------------------------------------------------------

  /** Copy `c` of the epoch in hand gave its connection's last id. */
  predicate Named(s: System, c: nat, connection: string) {
    && c < |s.incoming| && c < |s.epochOf| && connection in s.group.lastIds
    && s.epochOf[c] == s.group.epoch
    && s.incoming[c].delivery.connection == connection
    && s.incoming[c].delivery.serverId == s.group.lastIds[connection] != 0
  }

  /** Epochs and ids come from copies that arrived, and the first actionable copy opens the first epoch. */
  ghost predicate Sourced(s: System) {
    && |s.epochOf| == |s.incoming|
    && (forall c :: 0 <= c < |s.incoming| && s.epochOf[c] != 0 ==> s.incoming[c].actionable)
    && (forall k :: 0 <= k < |s.openers| ==> s.openers[k] < |s.incoming| && s.epochOf[s.openers[k]] == k + 1)
    && (forall connection :: connection in s.group.lastIds ==> exists c :: Named(s, c, connection))
    && (!s.group.active ==> forall c :: 0 <= c < |s.incoming| ==> !s.incoming[c].actionable)
  }

  lemma {:induction false} PassedIsSourced(s: System, i: Incoming, ack: Ack)
    requires Sourced(s) && (s.group.active || !i.actionable)
    ensures Sourced(Passed(s, i, ack))
  {
    var s' := Passed(s, i, ack);
    forall connection | connection in s'.group.lastIds ensures exists c :: Named(s', c, connection) {
      var c: nat :| Named(s, c, connection);
      assert Named(s', c, connection);
    }
  }

  lemma {:induction false} JoinedIsSourced(s: System, i: Incoming)
    requires Sourced(s) && i.actionable && s.group.active
    ensures Sourced(Joined(s, i))
  {
    var s' := Joined(s, i);
    forall connection | connection in s'.group.lastIds ensures exists c :: Named(s', c, connection) {
      if connection == i.delivery.connection && i.delivery.serverId != 0 {
        assert Named(s', |s.incoming|, connection);
      } else {
        var c: nat :| Named(s, c, connection);
        assert Named(s', c, connection);
      }
    }
  }

  lemma {:induction false} ReopenedIsSourced(s: System, i: Incoming)
    requires Sourced(s) && i.actionable && |s.openers| == s.group.epoch
    ensures Sourced(Reopened(s, i))
  {
    var s' := Reopened(s, i);
    forall connection | connection in s'.group.lastIds ensures exists c :: Named(s', c, connection) {
      assert Named(s', |s.incoming|, connection);
    }
  }

  lemma {:induction false} ArriveIsSourced(s: System, tolerance: nat, i: Incoming)
    requires Sourced(s) && |s.openers| == s.group.epoch
    ensures Sourced(DoArrive(s, tolerance, i))
  {
    if !i.actionable {
      PassedIsSourced(s, i, Rejected);
    } else if JoinsGroup(s.group, tolerance, i.delivery) {
      JoinedIsSourced(s, i);
    } else if IsStale(s.group, i.delivery) {
      PassedIsSourced(s, i, Stale);
    } else {
      ReopenedIsSourced(s, i);
    }
  }

  lemma {:induction false} SameSource(s: System, s': System)
    requires Sourced(s)
    requires s'.incoming == s.incoming && s'.epochOf == s.epochOf && s'.openers == s.openers
    requires s'.group == s.group.(pending := s'.group.pending, resolution := s'.group.resolution)
    ensures Sourced(s')
  {
    forall connection | connection in s'.group.lastIds ensures exists c :: Named(s', c, connection) {
      var c: nat :| Named(s, c, connection);
      assert Named(s', c, connection);
    }
  }

  lemma {:induction false} StepKeepsHistory(s: System, tolerance: nat, step: Step)
    requires !step.Arrive?
    ensures var s' := Next(s, tolerance, step);
            && s'.incoming == s.incoming && s'.epochOf == s.epochOf && s'.openers == s.openers
            && s'.group == s.group.(pending := s'.group.pending, resolution := s'.group.resolution)
  {
  }

  lemma {:induction false} StepIsSourced(s: System, tolerance: nat, step: Step)
    requires Sourced(s) && |s.openers| == s.group.epoch
    ensures Sourced(Next(s, tolerance, step))
  {
    if step.Arrive? {
      ArriveIsSourced(s, tolerance, step.incoming);
    } else {
      StepKeepsHistory(s, tolerance, step);
      SameSource(s, Next(s, tolerance, step));
    }
  }

  lemma {:induction false} RunIsSourced(tolerance: nat, steps: seq<Step>)
    requires 1 <= tolerance
    ensures Sourced(Run(tolerance, steps))
  {
    if steps != [] {
      RunIsSourced(tolerance, steps[..|steps| - 1]);
      RunKeepsInv(tolerance, steps[..|steps| - 1]);
      StepIsSourced(Run(tolerance, steps[..|steps| - 1]), tolerance, steps[|steps| - 1]);
    }
  }

  predicate Conflicts(s: System, c: nat, d: Delivery)
    requires |s.epochOf| == |s.incoming| && c < |s.incoming|
  {
    && s.epochOf[c] == s.group.epoch && s.incoming[c].delivery.connection == d.connection
    && s.incoming[c].delivery.serverId != 0 && s.incoming[c].delivery.serverId != d.serverId
  }

  /** An earlier copy of the epoch in hand came over the same connection with another id. */
  predicate Reissued(s: System, d: Delivery)
    requires |s.epochOf| == |s.incoming|
  {
    d.serverId != 0 && exists c :: 0 <= c < |s.incoming| && Conflicts(s, c, d)
  }

  lemma {:induction false} ReissueIsDeliberate(s: System, tolerance: nat, d: Delivery)
    requires Inv(s, tolerance) && Sourced(s) && s.group.active
    ensures DeliberateRetry(s.group, d) <==> Reissued(s, d)
  {
    if DeliberateRetry(s.group, d) {
      var c: nat :| Named(s, c, d.connection);
      assert Conflicts(s, c, d);
    }
  }

  /**
    Which epoch an arriving copy joins, in any reachable state and in terms of the copies that came before. One that
    is not actionable joins none, and the first actionable one opens the first. After that an actionable copy joins
    the epoch in hand exactly when it is that epoch's command and payload, its timestamp less than the tolerance from
    the opener's either way, and no earlier copy of the epoch came over its connection with another id; it joins none
    exactly when it is an older, different command not so reissued; and it opens the next epoch otherwise.
   */
  lemma {:induction false} ArrivalIsJudged(tolerance: nat, steps: seq<Step>, i: Incoming)
    requires 1 <= tolerance
    ensures var s, s' := Run(tolerance, steps), DoArrive(Run(tolerance, steps), tolerance, i);
            && Inv(s, tolerance) && |s'.epochOf| == |s.incoming| + 1
            && var joined, e, d := s'.epochOf[|s.incoming|], s.group.epoch, i.delivery;
               && s'.group.epoch == (if joined == e + 1 then e + 1 else e)
               && (!i.actionable ==> joined == 0)
               && (i.actionable && e == 0 ==> joined == 1)
               && (i.actionable && e != 0 ==>
                     var o := OpenerOf(s, e);
                     var same, again := SameAsOpener(d, o), Reissued(s, d);
                     var near := d.timestamp < o.timestamp + tolerance && o.timestamp < d.timestamp + tolerance;
                     && (same && near && !again ==> joined == e)
                     && (same && !near && !again ==> joined == e + 1)
                     && (!same && d.timestamp < o.timestamp && !again ==> joined == 0)
                     && (!same && o.timestamp <= d.timestamp && !again ==> joined == e + 1)
                     && (again ==> joined == e + 1))
  {
    RunKeepsInv(tolerance, steps);
    RunIsSourced(tolerance, steps);
    var s := Run(tolerance, steps);
    if s.group.active {
      ReissueIsDeliberate(s, tolerance, i.delivery);
    }
  }

  /** Copies of one command: pairwise close, and one id from each connection. */
  predicate Alike(incoming: seq<Incoming>, tolerance: nat) {
    forall c, d :: 0 <= c < |incoming| && 0 <= d < |incoming| && incoming[c].actionable && incoming[d].actionable ==>
      && SameAsOpener(incoming[c].delivery, incoming[d].delivery)
      && incoming[c].delivery.timestamp < incoming[d].delivery.timestamp + tolerance
      && (incoming[c].delivery.connection == incoming[d].delivery.connection
          && incoming[c].delivery.serverId != 0 && incoming[d].delivery.serverId != 0 ==>
            incoming[c].delivery.serverId == incoming[d].delivery.serverId)
  }

  /** One more like copy joins the epoch the first one opened. */
  lemma {:induction false} LikeCopyJoins(s: System, tolerance: nat, i: Incoming)
    requires Inv(s, tolerance) && Sourced(s) && s.group.epoch == 1 && i.actionable
    requires Alike(s.incoming + [i], tolerance)
    ensures JoinsGroup(s.group, tolerance, i.delivery)
  {
    var all, n := s.incoming + [i], |s.incoming|;
    assert all[n] == i && forall c :: 0 <= c < n ==> all[c] == s.incoming[c];
    var opener := s.openers[0];
    assert s.incoming[opener].actionable;
    assert SameAsOpener(all[n].delivery, all[opener].delivery);
    ReissueIsDeliberate(s, tolerance, i.delivery);
    forall c | 0 <= c < n && s.epochOf[c] == 1 && i.delivery.serverId != 0 ensures !Conflicts(s, c, i.delivery) {
      assert all[c].actionable && all[n].actionable;
    }
  }

  lemma {:induction false} AlikeBefore(incoming: seq<Incoming>, i: Incoming, tolerance: nat)
    requires Alike(incoming + [i], tolerance)
    ensures Alike(incoming, tolerance)
  {
    assert forall c :: 0 <= c < |incoming| ==> incoming[c] == (incoming + [i])[c];
  }

  lemma {:induction false} ArriveStaysLike(s: System, tolerance: nat, i: Incoming)
    requires Inv(s, tolerance) && Sourced(s) && s.group.epoch <= 1 && Alike(s.incoming + [i], tolerance)
    ensures DoArrive(s, tolerance, i).group.epoch <= 1
  {
    if s.group.epoch == 1 && i.actionable {
      LikeCopyJoins(s, tolerance, i);
    }
  }

  lemma {:induction false} ArriveIsRecorded(s: System, tolerance: nat, i: Incoming)
    ensures DoArrive(s, tolerance, i).incoming == s.incoming + [i]
  {
  }

  lemma {:induction false} LikeCopiesShareAnEpoch(tolerance: nat, steps: seq<Step>)
    requires 1 <= tolerance && Alike(Run(tolerance, steps).incoming, tolerance)
    ensures Run(tolerance, steps).group.epoch <= 1
  {
    if steps != [] {
      var before, step := steps[..|steps| - 1], steps[|steps| - 1];
      var s := Run(tolerance, before);
      if step.Arrive? {
        ArriveIsRecorded(s, tolerance, step.incoming);
        AlikeBefore(s.incoming, step.incoming, tolerance);
        LikeCopiesShareAnEpoch(tolerance, before);
        RunKeepsInv(tolerance, before);
        RunIsSourced(tolerance, before);
        ArriveStaysLike(s, tolerance, step.incoming);
      } else {
        StepKeepsHistory(s, tolerance, step);
        LikeCopiesShareAnEpoch(tolerance, before);
      }
    }
  }

  lemma {:induction false} OccursWhereItIs(s: seq<nat>, i: nat)
    requires i < |s|
    ensures Occurs(s, s[i]) >= 1
  {
    if i < |s| - 1 {
      OccursWhereItIs(s[..|s| - 1], i);
    }
  }

  lemma {:induction false} OccursThroughout(s: seq<nat>, x: nat)
    requires forall i :: 0 <= i < |s| ==> s[i] == x
    ensures Occurs(s, x) == |s|
  {
    if s != [] {
      OccursThroughout(s[..|s| - 1], x);
    }
  }

  /**
    Redundancy is harmless: however many copies of one command arrive, over however many connections and in whatever
    order, the state machine is given at most one command, and exactly one by the time everything is quiet if any
    actionable copy arrived.
   */
  lemma {:induction false} LikeCopiesAreOneCommand(tolerance: nat, steps: seq<Step>)
    requires 1 <= tolerance && Alike(Run(tolerance, steps).incoming, tolerance)
    ensures var s := Run(tolerance, steps);
            && |s.dispatched| <= 1
            && (Quiescent(s) && (exists c :: 0 <= c < |s.incoming| && s.incoming[c].actionable) ==> |s.dispatched| == 1)
  {
    var s := Run(tolerance, steps);
    LikeCopiesShareAnEpoch(tolerance, steps);
    RunKeepsInv(tolerance, steps);
    RunIsSourced(tolerance, steps);
    forall i | 0 <= i < |s.dispatched| ensures s.dispatched[i] == 1 {
      OccursWhereItIs(s.dispatched, i);
      EachCommandIsActuatedOnce(tolerance, steps, s.dispatched[i]);
    }
    OccursThroughout(s.dispatched, 1);
    EachCommandIsActuatedOnce(tolerance, steps, 1);
  }

  // ---------------------------------------------------------------------------
  // Which answer each copy gets
  // ---------------------------------------------------------------------------

  /** At step `k` the event loop took the command of epoch `e`, and resolved it as that step says. */
  ghost predicate DispatchedAt(tolerance: nat, steps: seq<Step>, e: nat, k: nat) {
    && k < |steps| && steps[k].Dispatch?
    && var events := Run(tolerance, steps[..k]).events; events != [] && events[0] == e
  }

  /** At step `k` a newer command displaced epoch `e`, whose responder had not run. */
  ghost predicate DisplacedAt(tolerance: nat, steps: seq<Step>, e: nat, k: nat) {
    && k < |steps|
    && Run(tolerance, steps[..k]).group.epoch == e
    && Run(tolerance, steps[..k + 1]).group.epoch == e + 1
    && Occurs(Run(tolerance, steps[..k]).finished, e) == 0
  }

  /** What the event loop resolved each command it took as. */
  function Decided(tolerance: nat, steps: seq<Step>): map<nat, Resolution> {
    if steps == [] then map[]
    else
      var before, step := steps[..|steps| - 1], steps[|steps| - 1];
      var events := Run(tolerance, before).events;
      if step.Dispatch? && events != [] then Decided(tolerance, before)[events[0] := step.res]
      else Decided(tolerance, before)
  }

  predicate Backs(decided: map<nat, Resolution>, job: Job) {
    job.epoch in decided && decided[job.epoch] == job.res
  }

  /** Every responder under way, and every verdict it has given, carries what was decided for its epoch. */
  ghost predicate Backed(s: System, decided: map<nat, Resolution>) {
    && (forall e :: e in decided ==> Occurs(s.dispatched, e) >= 1)
    && (forall w :: w in WQ.Works(s.fss.items) && w.AckWork? ==> Backs(decided, w.job))
    && (s.worker.Some? ==> Backs(decided, s.worker.value))
    && (forall e :: e in s.verdicts && s.verdicts[e].Resolved? ==> Backs(decided, Job(e, s.verdicts[e].res)))
  }

  lemma {:induction false} EnqueueAppendsWork(q: WQ.Queue<FssWork>, task: WQ.Task<FssWork>)
    ensures WQ.Works(WQ.Enqueue(q, task).items) == WQ.Works(q.items) + if task.Work? then [task.work] else []
  {
    WQ.EnqueueShape(q, task);
    WQ.CoalescingKeepsWorks(q.items);
    if !WQ.Refuses(q, task) {
      WQ.WorksAppend(WQ.Kept(q, task), WQ.Item(|q.puts|, task));
    }
  }

  lemma {:induction false} TakeSplitsWorks(q: WQ.Queue<FssWork>)
    requires q.items != []
    ensures WQ.Works(q.items)
         == (if q.items[0].task.Work? then [q.items[0].task.work] else []) + WQ.Works(WQ.Take(q).items)
  {
    var head := [q.items[0]];
    assert q.items == head + q.items[1..];
    WQ.WorksConcat(head, q.items[1..]);
    WQ.WorksAppend([], q.items[0]);
    assert [] + head == head;
  }

  lemma {:induction false} HandOverBacks(
    s: System, fss: WQ.Queue<FssWork>, job: Job, decided: map<nat, Resolution>)
    requires Backed(s, decided) && job.epoch !in decided
    requires WQ.Works(fss.items) == WQ.Works(s.fss.items) + [AckWork(job)]
    ensures Backed(s.(fss := fss, dispatched := s.dispatched + [job.epoch]), decided[job.epoch := job.res])
  {
    forall e | e in decided || e == job.epoch ensures Occurs(s.dispatched + [job.epoch], e) >= 1 {
      OccursAppend(s.dispatched, job.epoch, e);
    }
  }

  lemma {:induction false} DispatchBacks(s: System, res: Resolution, decided: map<nat, Resolution>)
    requires Backed(s, decided) && s.events != [] && Carried(s, s.events[0])
    ensures Backed(DoDispatch(s, res), decided[s.events[0] := res])
  {
    var job := Job(s.events[0], res);
    OccursHead(s.events, job.epoch);
    EnqueueAppendsWork(s.fss, WQ.Work(AckWork(job)));
    HandOverBacks(s, WQ.Enqueue(s.fss, WQ.Work(AckWork(job))), job, decided);
  }

  lemma {:induction false} TakeBacks(s: System, decided: map<nat, Resolution>)
    requires Backed(s, decided) && s.fss.items != [] && s.worker.None?
    ensures Backed(DoWorkerTake(s), decided)
  {
    TakeSplitsWorks(s.fss);
    var task := s.fss.items[0].task;
    if task.Work? && task.work.AckWork? {
      assert task.work in WQ.Works(s.fss.items);
    }
  }

  lemma {:induction false} ReportBacks(s: System, task: WQ.Task<FssWork>, decided: map<nat, Resolution>)
    requires Backed(s, decided) && !(task.Work? && task.work.AckWork?)
    ensures Backed(DoReport(s, task), decided)
  {
    EnqueueAppendsWork(s.fss, task);
  }

  lemma {:induction false} ArriveBacks(s: System, tolerance: nat, i: Incoming, decided: map<nat, Resolution>)
    requires Backed(s, decided)
    ensures Backed(DoArrive(s, tolerance, i), decided)
  {
    var s' := DoArrive(s, tolerance, i);
    assert s'.fss == s.fss && s'.worker == s.worker && s'.dispatched == s.dispatched;
    assert forall e :: e in s'.verdicts && s'.verdicts[e].Resolved? ==>
                         e in s.verdicts && s.verdicts[e] == s'.verdicts[e];
  }

  lemma {:induction false} ResolveBacks(s: System, decided: map<nat, Resolution>)
    requires Backed(s, decided) && s.worker.Some? && s.owed == []
    ensures Backed(DoWorkerResolve(s), decided)
  {
    var s', job := DoWorkerResolve(s), s.worker.value;
    forall e | e in s'.verdicts && s'.verdicts[e].Resolved? ensures Backs(decided, Job(e, s'.verdicts[e].res)) {
      if e == job.epoch && s.group.epoch == job.epoch {
        assert Job(e, s'.verdicts[e].res) == job;
      }
    }
  }

  lemma {:induction false} StepBacks(s: System, tolerance: nat, step: Step, decided: map<nat, Resolution>)
    requires Backed(s, decided) && !step.Dispatch?
    ensures Backed(Next(s, tolerance, step), decided)
  {
    if Enabled(s, step) {
      match step {
        case Arrive(i) => ArriveBacks(s, tolerance, i, decided);
        case Report(task) => ReportBacks(s, task, decided);
        case WorkerTake => TakeBacks(s, decided);
        case WorkerResolve => ResolveBacks(s, decided);
        case _ =>
      }
    }
  }

  lemma {:induction false} RunIsBacked(tolerance: nat, steps: seq<Step>)
    ensures Backed(Run(tolerance, steps), Decided(tolerance, steps))
  {
    if steps != [] {
      var before, step := steps[..|steps| - 1], steps[|steps| - 1];
      RunIsBacked(tolerance, before);
      var s, decided := Run(tolerance, before), Decided(tolerance, before);
      if !step.Dispatch? {
        StepBacks(s, tolerance, step, decided);
      } else if s.events != [] {
        CommandsAreConserved(tolerance, before, s.events[0]);
        DispatchBacks(s, step.res, decided);
      }
    }
  }

  lemma {:induction false} DecidedByADispatch(tolerance: nat, steps: seq<Step>, e: nat)
    requires e in Decided(tolerance, steps)
    ensures exists k: nat :: DispatchedAt(tolerance, steps, e, k) && steps[k].res == Decided(tolerance, steps)[e]
  {
    var n := |steps| - 1;
    var before := steps[..n];
    var events := Run(tolerance, before).events;
    if steps[n].Dispatch? && events != [] && events[0] == e {
      assert DispatchedAt(tolerance, steps, e, n);
    } else {
      DecidedByADispatch(tolerance, before, e);
      var k: nat :| DispatchedAt(tolerance, before, e, k) && before[k].res == Decided(tolerance, before)[e];
      assert before[..k] == steps[..k];
      assert DispatchedAt(tolerance, steps, e, k);
    }
  }

  lemma {:induction false} DisplacedExtends(tolerance: nat, steps: seq<Step>, before: seq<Step>, e: nat)
    requires steps != [] && before == steps[..|steps| - 1]
    ensures (exists k :: DisplacedAt(tolerance, steps, e, k)) <==>
            (exists k :: DisplacedAt(tolerance, before, e, k)) || DisplacedAt(tolerance, steps, e, |before|)
  {
    if k: nat :| DisplacedAt(tolerance, before, e, k) {
      assert before[..k] == steps[..k] && before[..k + 1] == steps[..k + 1];
      assert DisplacedAt(tolerance, steps, e, k);
    }
    if k: nat :| DisplacedAt(tolerance, steps, e, k) && k < |before| {
      assert before[..k] == steps[..k] && before[..k + 1] == steps[..k + 1];
      assert DisplacedAt(tolerance, before, e, k);
    }
  }

  predicate StaleIn(verdicts: map<nat, Ack>, e: nat) {
    e in verdicts && verdicts[e].Stale?
  }

  lemma {:induction false} ArriveStales(s: System, tolerance: nat, i: Incoming, e: nat)
    requires 1 <= e && VerdictsFit(s)
    ensures var s' := DoArrive(s, tolerance, i);
            StaleIn(s'.verdicts, e) <==>
              StaleIn(s.verdicts, e) || (s.group.epoch == e && s'.group.epoch == e + 1 && Occurs(s.finished, e) == 0)
  {
  }

  /** A responder that runs makes no epoch stale, and answers none that is. */
  lemma {:induction false} ResolveStales(s: System, e: nat)
    requires VerdictsFit(s) && s.worker.Some? && s.owed == []
    ensures StaleIn(DoWorkerResolve(s).verdicts, e) <==> StaleIn(s.verdicts, e)
  {
  }

  /** One step: an epoch becomes stale exactly when the step displaces it with its responder still to run. */
  lemma {:induction false} StepStales(s: System, tolerance: nat, step: Step, e: nat)
    requires 1 <= e && VerdictsFit(s)
    ensures var s' := Next(s, tolerance, step);
            StaleIn(s'.verdicts, e) <==>
              StaleIn(s.verdicts, e) || (s.group.epoch == e && s'.group.epoch == e + 1 && Occurs(s.finished, e) == 0)
  {
    if Enabled(s, step) {
      match step {
        case Arrive(i) => ArriveStales(s, tolerance, i, e);
        case WorkerResolve => ResolveStales(s, e);
        case _ =>
      }
    }
  }

  lemma {:induction false} StaleIsDisplaced(tolerance: nat, steps: seq<Step>, e: nat)
    requires 1 <= tolerance && 1 <= e
    ensures StaleIn(Run(tolerance, steps).verdicts, e) <==> exists k :: DisplacedAt(tolerance, steps, e, k)
  {
    if steps != [] {
      var n := |steps| - 1;
      var before := steps[..n];
      StaleIsDisplaced(tolerance, before, e);
      DisplacedExtends(tolerance, steps, before, e);
      RunKeepsInv(tolerance, before);
      StepStales(Run(tolerance, before), tolerance, steps[n], e);
      assert steps[..n + 1] == steps;
    }
  }

  lemma {:induction false} AnswerIsDecided(tolerance: nat, steps: seq<Step>, x: Owed)
    requires 1 <= tolerance && x in Run(tolerance, steps).log && x.ack.Resolved?
    ensures var s := Run(tolerance, steps);
            && x.copy < |s.epochOf|
            && (s.epochOf[x.copy] != 0 ==> Backs(Decided(tolerance, steps), Job(s.epochOf[x.copy], x.ack.res)))
  {
    RunKeepsInv(tolerance, steps);
    RunIsBacked(tolerance, steps);
    var s := Run(tolerance, steps);
    assert Honest(s.incoming, s.epochOf, s.verdicts, x);
  }

  /**
    The answer itself. A copy that joined an epoch is told the resolution the event loop gave that epoch's command
    when it took it, or that it is stale: the latter exactly when a newer command displaced the epoch before its
    responder ran. A copy that joined none is rejected if it was not actionable, and stale if it was.
   */
  lemma {:induction false} CopiesGetTheirResolution(tolerance: nat, steps: seq<Step>, x: Owed)
    requires 1 <= tolerance && x in Run(tolerance, steps).log
    ensures var s := Run(tolerance, steps);
            && x.copy < |s.epochOf| == |s.incoming|
            && (x.ack.Rejected? <==> !s.incoming[x.copy].actionable)
            && var e := s.epochOf[x.copy];
               if e == 0 then x.ack.Stale? || x.ack.Rejected?
               else
                 && (x.ack.Stale? <==> exists k :: DisplacedAt(tolerance, steps, e, k))
                 && (x.ack.Resolved? <==> !x.ack.Stale?)
                 && (x.ack.Resolved? ==>
                       exists k: nat :: DispatchedAt(tolerance, steps, e, k) && steps[k].res == x.ack.res)
  {
    RunKeepsInv(tolerance, steps);
    RunIsSourced(tolerance, steps);
    VerdictsAreNotRejections(tolerance, steps);
    var s := Run(tolerance, steps);
    assert Honest(s.incoming, s.epochOf, s.verdicts, x);
    var e := s.epochOf[x.copy];
    if e != 0 {
      StaleIsDisplaced(tolerance, steps, e);
      if x.ack.Resolved? {
        AnswerIsDecided(tolerance, steps, x);
        DecidedByADispatch(tolerance, steps, e);
      }
    }
  }

  // ---------------------------------------------------------------------------
  // Progress
  // ---------------------------------------------------------------------------

  /** Work the threads do on their own, without anything new arriving. */
  predicate Internal(step: Step) {
    !step.Arrive? && !step.Report?
  }

  function ThreadsLeft(threads: seq<Thread>): nat {
    if threads == [] then 0
    else
      var last := threads[|threads| - 1];
      ThreadsLeft(threads[..|threads| - 1]) + |last.acks| + if last.post.Some? then 4 else 0
  }

  /** How much work is left. */
  function Left(s: System): nat {
    ThreadsLeft(s.threads) + 3 * |s.events| + 2 * |s.fss.items| + (if s.worker.Some? then 1 else 0)
    + |s.owed| + |s.group.pending|
  }

  lemma {:induction false} ThreadsLeftUpdate(threads: seq<Thread>, i: nat, t: Thread)
    requires i < |threads|
    ensures ThreadsLeft(threads[i := t])
            == ThreadsLeft(threads) - |threads[i].acks| - (if threads[i].post.Some? then 4 else 0)
               + |t.acks| + if t.post.Some? then 4 else 0
  {
    var n := |threads| - 1;
    if i < n {
      assert threads[i := t][..n] == threads[..n][i := t];
      ThreadsLeftUpdate(threads[..n], i, t);
    } else {
      assert threads[i := t][..n] == threads[..n];
    }
  }

  /** Every internal step that can be taken leaves less to do. */
  lemma {:induction false} InternalStepsProgress(s: System, tolerance: nat, step: Step)
    requires Internal(step) && Enabled(s, step)
    ensures Left(Next(s, tolerance, step)) < Left(s)
  {
    if step.RecvAck? {
      ThreadsLeftUpdate(s.threads, step.thread, s.threads[step.thread].(acks := s.threads[step.thread].acks[1..]));
    } else if step.RecvPost? {
      ThreadsLeftUpdate(s.threads, step.thread, s.threads[step.thread].(post := None));
    }
  }

  /** While anything is left some internal step can be taken. */
  lemma {:induction false} SomeStepIsEnabled(s: System, res: Resolution) returns (step: Step)
    requires !Quiescent(s)
    ensures Internal(step) && Enabled(s, step)
  {
    if s.owed != [] {
      step := WorkerAck;
    } else if s.worker.Some? {
      step := WorkerResolve;
    } else if s.fss.items != [] {
      step := WorkerTake;
    } else if s.events != [] {
      step := Dispatch(res);
    } else {
      var t :| 0 <= t < |s.threads| && s.threads[t] != Thread([], None);
      step := if s.threads[t].acks != [] then RecvAck(t) else RecvPost(t);
    }
  }

  /** From every reachable state the threads can run to quiescence on their own, so no copy is left unanswered. */
  lemma {:induction false} AlwaysQuiesces(tolerance: nat, steps: seq<Step>, res: Resolution) returns (more: seq<Step>)
    ensures forall i :: 0 <= i < |more| ==> Internal(more[i])
    ensures Quiescent(Run(tolerance, steps + more))
    decreases Left(Run(tolerance, steps))
  {
    var s := Run(tolerance, steps);
    if Quiescent(s) {
      more := [];
      assert steps + more == steps;
    } else {
      var step := SomeStepIsEnabled(s, res);
      InternalStepsProgress(s, tolerance, step);
      assert (steps + [step])[..|steps|] == steps;
      var rest := AlwaysQuiesces(tolerance, steps + [step], res);
      more := [step] + rest;
      assert steps + more == steps + [step] + rest;
    }
  }

  // ---------------------------------------------------------------------------
  // The client object
  // ---------------------------------------------------------------------------

  /**
    `fss_client_ssl` as far as command acknowledgements go: `received` is every copy whose receipt was confirmed, `log`
    every terminal acknowledgement attempted.
   */
  class FssClient {
    const group: AckGroup<nat>
    var arrived: nat
    var received: seq<nat>
    var log: seq<Owed>

    constructor (tolerance: nat)
      ensures fresh(group) && group.View() == Fresh() && group.tolerance == tolerance
      ensures arrived == 0 && received == [] && log == []
    {
      group := new AckGroup(tolerance);
      arrived, received, log := 0, [], [];
    }

    /** `handleCommandFrom`, run without interruption: the acknowledgements it sends and the event it posts. */
    method HandleCommandFrom(i: Incoming) returns (post: Option<nat>)
      modifies this, group
      ensures arrived == old(arrived) + 1 && received == old(received) + [old(arrived)]
      ensures var thread := if i.actionable
                            then Continue(DeliverResult(old(group.View()), group.tolerance, i.delivery), old(arrived))
                            else Thread([Owed(old(arrived), Rejected)], None);
              log == old(log) + thread.acks && post == thread.post
      ensures group.View() == if i.actionable
                              then Deliver(old(group.View()), group.tolerance, i.delivery, old(arrived))
                              else old(group.View())
    {
      var copy := arrived;
      arrived := arrived + 1;
      received := received + [copy];
      post := None;
      if !i.actionable {
        log := log + [Owed(copy, Rejected)];
        return;
      }
      var r := group.OnDelivery(i.delivery, copy);
      match r.disposition {
        case Queued =>
        case AlreadyResolved =>
          if r.resolution.Some? {
            log := log + [Owed(copy, Resolved(r.resolution.value))];
          }
        case StaleSuperseded =>
          log := log + [Owed(copy, Stale)];
        case Actuate =>
          AckEach(r.superseded, Stale);
          post := Some(r.epoch);
      }
    }

    method AckEach(targets: seq<nat>, ack: Ack)
      modifies this`log
      ensures log == old(log) + OweAll(targets, ack)
    {
      for k := 0 to |targets|
        invariant log == old(log) + OweAll(targets[..k], ack)
      {
        assert targets[..k + 1][..k] == targets[..k];
        log := log + [Owed(targets[k], ack)];
      }
      assert targets[..|targets|] == targets;
    }

    /** The phase-two responder of one epoch: resolve the group and answer every copy it held. */
    method Respond(job: Job)
      modifies this`log, group
      ensures group.View() == Resolve(old(group.View()), job.epoch, job.res)
      ensures log == old(log) + OweAll(ResolveTargets(old(group.View()), job.epoch), Resolved(job.res))
    {
      var targets := group.ResolveEpoch(job.epoch, job.res);
      AckEach(targets, Resolved(job.res));
    }
  }
}
