/**
  The task queue behind the SMM and FSS workers: positions coalesce, at most one retry is queued, everything
  else is first in first out. FSS has no retry tasks; for it the retry branch never runs.
 */
module WorkQueue {
  import opened FmuTypes

  datatype Task<T> = Position(fix: nat) | Retry(from: nat) | Work(work: T)

  /** A queued task with the number of the enqueue that brought it. */
  datatype Item<T> = Item(ticket: nat, task: Task<T>)

  /** The queue, the two flags its worker loops on, and the history of what went in and came out. */
  datatype Queue<T> = Queue(
    items: seq<Item<T>>,
    running: bool,
    exited: bool,
    puts: seq<Task<T>>,
    taken: seq<Item<T>>,
    refused: set<nat>)

  function Empty<T>(): Queue<T> {
    Queue([], true, false, [], [], {})
  }

  predicate Increasing<T>(s: seq<Item<T>>) {
    forall i, j :: 0 <= i < j < |s| ==> s[i].ticket < s[j].ticket
  }

  /** The items that are not positions, in order. */
  function NonPositions<T>(s: seq<Item<T>>): (r: seq<Item<T>>)
    ensures forall x :: x in r ==> x in s && !x.task.Position?
    ensures forall x :: x in s && !x.task.Position? ==> x in r
  {
    if s == [] then []
    else
      var last := s[|s| - 1];
      var before := NonPositions(s[..|s| - 1]);
      assert s == s[..|s| - 1] + [last];
      if last.task.Position? then before else before + [last]
  }

  predicate HasRetry<T>(s: seq<Item<T>>) {
    exists i :: 0 <= i < |s| && s[i].task.Retry?
  }

  function Enqueue<T>(q: Queue<T>, t: Task<T>): Queue<T> {
    var item := Item(|q.puts|, t);
    var noted := q.(puts := q.puts + [t]);
    if t.Position? then noted.(items := NonPositions(q.items) + [item])
    else if t.Retry? && HasRetry(q.items) then noted.(refused := q.refused + {item.ticket})
    else noted.(items := q.items + [item])
  }

  function Take<T>(q: Queue<T>): Queue<T>
    requires q.items != []
  {
    q.(items := q.items[1..], taken := q.taken + [q.items[0]])
  }

  /** One pass of the worker loop that does not block: take a task, or exit once stopped and drained. */
  function WorkerPass<T>(q: Queue<T>): Queue<T> {
    if q.exited then q
    else if q.items != [] then Take(q)
    else q.(exited := !q.running)
  }

  datatype Op<T> = Put(task: Task<T>) | Pass | Stop

  function Step<T>(q: Queue<T>, op: Op<T>): Queue<T> {
    match op
    case Put(t) => Enqueue(q, t)
    case Pass => WorkerPass(q)
    case Stop => q.(running := false)
  }

  function Run<T>(ops: seq<Op<T>>): Queue<T> {
    if ops == [] then Empty() else Step(Run(ops[..|ops| - 1]), ops[|ops| - 1])
  }

  // ---------------------------------------------------------------------------
  // The law of the queue
  // ---------------------------------------------------------------------------

  /** The first-in-first-out payload of a sequence of items. */
  function Works<T>(s: seq<Item<T>>): seq<T> {
    if s == [] then []
    else Works(s[..|s| - 1]) + if s[|s| - 1].task.Work? then [s[|s| - 1].task.work] else []
  }

  function WorksPut<T>(puts: seq<Task<T>>): seq<T> {
    if puts == [] then []
    else WorksPut(puts[..|puts| - 1]) + if puts[|puts| - 1].Work? then [puts[|puts| - 1].work] else []
  }

  predicate Ticketed<T>(s: seq<Item<T>>, n: nat) {
    exists i :: 0 <= i < |s| && s[i].ticket == n
  }

  /** `n` was enqueued as a position and a newer position was enqueued after it. */
  predicate Outdated<T>(puts: seq<Task<T>>, n: nat)
    requires n < |puts|
  {
    puts[n].Position? && exists m :: n < m < |puts| && puts[m].Position?
  }

  /** Everything taken, then everything queued. */
  function Through<T>(q: Queue<T>): seq<Item<T>> {
    q.taken + q.items
  }

  /** Every item is the task its ticket says, in the order of enqueueing: nothing overtakes. */
  ghost predicate InOrder<T>(q: Queue<T>) {
    && Increasing(Through(q))
    && forall x :: x in Through(q) ==> x.ticket < |q.puts| && q.puts[x.ticket] == x.task
  }

  ghost predicate Explained<T>(puts: seq<Task<T>>, refused: set<nat>, through: seq<Item<T>>, n: nat)
    requires n < |puts|
  {
    || Ticketed(through, n)
    || Outdated(puts, n)
    || (n in refused && puts[n].Retry? && exists m :: 0 <= m < n && puts[m].Retry? && Ticketed(through, m))
  }

  /** A task that is neither taken nor queued is an outdated position or a retry refused behind an earlier one. */
  ghost predicate NothingLost<T>(q: Queue<T>) {
    forall n :: 0 <= n < |q.puts| ==> Explained(q.puts, q.refused, Through(q), n)
  }

  predicate OneOfEach<T>(s: seq<Item<T>>) {
    forall i, j :: 0 <= i < j < |s| ==>
      !(s[i].task.Position? && s[j].task.Position?) && !(s[i].task.Retry? && s[j].task.Retry?)
  }

  ghost predicate Lawful<T>(q: Queue<T>) {
    && InOrder(q) && NothingLost(q) && OneOfEach(q.items)
    && Works(Through(q)) == WorksPut(q.puts)
  }

  lemma {:induction false} WorksConcat<T>(a: seq<Item<T>>, b: seq<Item<T>>)
    ensures Works(a + b) == Works(a) + Works(b)
  {
    if b == [] {
      assert a + b == a;
    } else {
      assert (a + b)[..|a + b| - 1] == a + b[..|b| - 1];
      WorksConcat(a, b[..|b| - 1]);
    }
  }

  lemma {:induction false} WorksAppend<T>(s: seq<Item<T>>, x: Item<T>)
    ensures Works(s + [x]) == Works(s) + if x.task.Work? then [x.task.work] else []
  {
    assert (s + [x])[..|s|] == s;
  }

  lemma {:induction false} CoalescingKeepsWorks<T>(s: seq<Item<T>>)
    ensures Works(NonPositions(s)) == Works(s)
  {
    if s != [] {
      var before, x := s[..|s| - 1], s[|s| - 1];
      CoalescingKeepsWorks(before);
      WorksAppend(NonPositions(before), x);
    }
  }

  lemma {:induction false} CoalescingKeepsOne<T>(s: seq<Item<T>>)
    requires OneOfEach(s)
    ensures OneOfEach(NonPositions(s))
  {
    if s != [] {
      var before := s[..|s| - 1];
      CoalescingKeepsOne(before);
      assert forall x :: x in NonPositions(before) ==> x in before;
    }
  }

  /** The items of `Through` after an enqueue: what stays, then possibly the newcomer. */
  function Kept<T>(q: Queue<T>, t: Task<T>): seq<Item<T>> {
    if t.Position? then NonPositions(q.items) else q.items
  }

  predicate Refuses<T>(q: Queue<T>, t: Task<T>) {
    t.Retry? && HasRetry(q.items)
  }

  lemma {:induction false} EnqueueShape<T>(q: Queue<T>, t: Task<T>)
    ensures var q' := Enqueue(q, t);
            && q'.puts == q.puts + [t] && q'.taken == q.taken
            && q'.items == Kept(q, t) + (if Refuses(q, t) then [] else [Item(|q.puts|, t)])
            && q'.refused == q.refused + (if Refuses(q, t) then {|q.puts|} else {})
  {
  }

  lemma {:induction false} MergeIncreases<T>(taken: seq<Item<T>>, items: seq<Item<T>>, kept: seq<Item<T>>)
    requires Increasing(taken + items) && Increasing(kept)
    requires forall x :: x in kept ==> x in items
    ensures Increasing(taken + kept)
  {
    var was, all := taken + items, taken + kept;
    forall i, j | 0 <= i < j < |all| ensures all[i].ticket < all[j].ticket {
      if j < |taken| {
        assert was[i] == all[i] && was[j] == all[j];
      } else if i < |taken| {
        assert all[j] == kept[j - |taken|] && all[j] in kept;
        var k :| 0 <= k < |items| && items[k] == all[j];
        assert was[i] == all[i] && was[|taken| + k] == all[j];
      } else {
        assert all[i] == kept[i - |taken|] && all[j] == kept[j - |taken|];
      }
    }
  }

  lemma {:induction false} SuffixIncreases<T>(taken: seq<Item<T>>, items: seq<Item<T>>)
    requires Increasing(taken + items)
    ensures Increasing(items)
  {
    assert forall i :: 0 <= i < |items| ==> items[i] == (taken + items)[|taken| + i];
  }

  lemma {:induction false} CoalescingKeepsOrder<T>(s: seq<Item<T>>)
    requires Increasing(s)
    ensures Increasing(NonPositions(s))
  {
    if s != [] {
      var before := s[..|s| - 1];
      CoalescingKeepsOrder(before);
      forall x | x in NonPositions(before) ensures x.ticket < s[|s| - 1].ticket {
        assert x in before;
      }
      assert forall i :: 0 <= i < |NonPositions(before)| ==> NonPositions(before)[i] in NonPositions(before);
    }
  }

  lemma {:induction false} KeptIncreases<T>(q: Queue<T>, t: Task<T>)
    requires InOrder(q)
    ensures Increasing(q.taken + Kept(q, t))
    ensures forall x :: x in q.taken + Kept(q, t) ==> x in Through(q)
  {
    SuffixIncreases(q.taken, q.items);
    CoalescingKeepsOrder(q.items);
    MergeIncreases(q.taken, q.items, Kept(q, t));
  }

  lemma {:induction false} ThroughAfter<T>(q: Queue<T>, t: Task<T>)
    ensures Through(Enqueue(q, t)) ==
            (q.taken + Kept(q, t)) + (if Refuses(q, t) then [] else [Item(|q.puts|, t)])
  {
    EnqueueShape(q, t);
  }

  lemma {:induction false} EnqueueInOrder<T>(q: Queue<T>, t: Task<T>)
    requires InOrder(q)
    ensures InOrder(Enqueue(q, t))
  {
    KeptIncreases(q, t);
    ThroughAfter(q, t);
    var kept := q.taken + Kept(q, t);
    assert forall i :: 0 <= i < |kept| ==> kept[i] in kept;
  }

  lemma {:induction false} StillThere<T>(q: Queue<T>, t: Task<T>, n: nat)
    requires InOrder(q) && Ticketed(Through(q), n)
    ensures n < |q.puts|
    ensures Ticketed(Through(Enqueue(q, t)), n) || (t.Position? && q.puts[n].Position?)
  {
    var i :| 0 <= i < |Through(q)| && Through(q)[i].ticket == n;
    var x := Through(q)[i];
    assert x in Through(q);
    ThroughAfter(q, t);
    if x in q.taken || !(t.Position? && x.task.Position?) {
      assert x in q.taken || x in Kept(q, t);
      var after := Through(Enqueue(q, t));
      assert x in after;
      var j :| 0 <= j < |after| && after[j] == x;
    }
  }

  lemma {:induction false} RefusedIsExplained<T>(q: Queue<T>, t: Task<T>)
    requires InOrder(q) && Refuses(q, t)
    ensures Explained(q.puts + [t], q.refused + {|q.puts|}, Through(q), |q.puts|)
  {
    var i :| 0 <= i < |q.items| && q.items[i].task.Retry?;
    var x := Through(q)[|q.taken| + i];
    assert x == q.items[i] && x in Through(q);
    assert Ticketed(Through(q), x.ticket);
    assert (q.puts + [t])[x.ticket].Retry?;
  }

  lemma {:induction false} OutdatedStays<T>(puts: seq<Task<T>>, t: Task<T>, n: nat)
    requires n < |puts| && (Outdated(puts, n) || (puts[n].Position? && t.Position?))
    ensures Outdated(puts + [t], n)
  {
    if Outdated(puts, n) {
      var m :| n < m < |puts| && puts[m].Position?;
      assert (puts + [t])[m].Position?;
    } else {
      assert (puts + [t])[|puts|].Position?;
    }
  }

  lemma {:induction false} ExplainedStays<T>(q: Queue<T>, t: Task<T>, n: nat)
    requires InOrder(q) && n < |q.puts| && Explained(q.puts, q.refused, Through(q), n)
    ensures var q' := Enqueue(q, t); Explained(q.puts + [t], q'.refused, Through(q'), n)
  {
    EnqueueShape(q, t);
    var puts' := q.puts + [t];
    if Ticketed(Through(q), n) {
      StillThere(q, t, n);
      if t.Position? && q.puts[n].Position? {
        OutdatedStays(q.puts, t, n);
      }
    } else if Outdated(q.puts, n) {
      OutdatedStays(q.puts, t, n);
    } else {
      var m :| 0 <= m < n && q.puts[m].Retry? && Ticketed(Through(q), m);
      StillThere(q, t, m);
      assert puts'[m].Retry?;
    }
  }

  lemma {:induction false} NewcomerIsExplained<T>(q: Queue<T>, t: Task<T>)
    requires InOrder(q)
    ensures var q' := Enqueue(q, t); Explained(q.puts + [t], q'.refused, Through(q'), |q.puts|)
  {
    EnqueueShape(q, t);
    ThroughAfter(q, t);
    if Refuses(q, t) {
      RefusedIsExplained(q, t);
    } else {
      var through := Through(Enqueue(q, t));
      assert through[|through| - 1].ticket == |q.puts|;
    }
  }

  lemma {:induction false} ExplainedAfter<T>(q: Queue<T>, t: Task<T>, n: nat)
    requires InOrder(q) && n <= |q.puts|
    requires n < |q.puts| ==> Explained(q.puts, q.refused, Through(q), n)
    ensures var q' := Enqueue(q, t); Explained(q.puts + [t], q'.refused, Through(q'), n)
  {
    if n < |q.puts| {
      ExplainedStays(q, t, n);
    } else {
      NewcomerIsExplained(q, t);
    }
  }

  lemma {:induction false} EnqueueLosesNothing<T>(q: Queue<T>, t: Task<T>)
    requires InOrder(q) && NothingLost(q)
    ensures NothingLost(Enqueue(q, t))
  {
    var q' := Enqueue(q, t);
    assert q'.puts == q.puts + [t];
    forall n | 0 <= n < |q'.puts| ensures Explained(q'.puts, q'.refused, Through(q'), n) {
      ExplainedAfter(q, t, n);
    }
  }

  lemma {:induction false} EnqueueKeepsWorks<T>(q: Queue<T>, t: Task<T>)
    requires Works(Through(q)) == WorksPut(q.puts)
    ensures Works(Through(Enqueue(q, t))) == WorksPut(q.puts + [t])
  {
    ThroughAfter(q, t);
    var tail := if Refuses(q, t) then [] else [Item(|q.puts|, t)];
    WorksConcat(q.taken, q.items);
    WorksConcat(q.taken, Kept(q, t));
    WorksConcat(q.taken + Kept(q, t), tail);
    CoalescingKeepsWorks(q.items);
    assert (q.puts + [t])[..|q.puts|] == q.puts;
    assert tail == [] || tail[..0] == [];
  }

  lemma {:induction false} EnqueueKeepsOne<T>(q: Queue<T>, t: Task<T>)
    requires OneOfEach(q.items)
    ensures OneOfEach(Enqueue(q, t).items)
  {
    EnqueueShape(q, t);
    CoalescingKeepsOne(q.items);
    var kept := Kept(q, t);
    if t.Position? {
      assert forall i :: 0 <= i < |kept| ==> kept[i] in kept;
    }
  }

  lemma {:induction false} StepKeepsLaw<T>(q: Queue<T>, op: Op<T>)
    requires Lawful(q)
    ensures Lawful(Step(q, op))
  {
    match op {
      case Put(t) =>
        EnqueueInOrder(q, t);
        EnqueueLosesNothing(q, t);
        EnqueueKeepsOne(q, t);
        EnqueueKeepsWorks(q, t);
        EnqueueShape(q, t);
      case Pass =>
        if !q.exited && q.items != [] {
          assert Through(Take(q)) == Through(q);
        }
      case Stop =>
        assert Through(Step(q, op)) == Through(q);
    }
  }

  lemma {:induction false} QueueStaysLawful<T>(ops: seq<Op<T>>)
    ensures Lawful(Run(ops))
  {
    if ops != [] {
      QueueStaysLawful(ops[..|ops| - 1]);
      StepKeepsLaw(Run(ops[..|ops| - 1]), ops[|ops| - 1]);
    }
  }

  /**
    Over every run, what the worker has taken followed by what is queued is what was enqueued, in order and
    with nothing overtaking, less positions that a newer one outdated and refused retries (see
    `RetryRefusedExactlyWhen`). No other task is ever lost, at most one position and one retry wait, and the newest
    position is always taken or waiting.
   */
  lemma {:induction false} QueueIsLawful<T>(ops: seq<Op<T>>)
    ensures var q := Run(ops);
            && InOrder(q) && OneOfEach(q.items) && NothingLost(q)
            && Works(Through(q)) == WorksPut(q.puts)
            && forall n :: 0 <= n < |q.puts| && q.puts[n].Position? && !Outdated(q.puts, n) ==> Ticketed(Through(q), n)
  {
    QueueStaysLawful(ops);
    var q := Run(ops);
    forall n | 0 <= n < |q.puts| && q.puts[n].Position? && !Outdated(q.puts, n) ensures Ticketed(Through(q), n) {
      assert Explained(q.puts, q.refused, Through(q), n);
    }
  }

  /** The tickets refused were retries, and are neither taken nor queued. */
  ghost predicate RefusedAreGone<T>(q: Queue<T>) {
    forall n {:trigger n in q.refused} ::
      n in q.refused ==> n < |q.puts| && q.puts[n].Retry? && !Ticketed(Through(q), n)
  }

  /** Retry `m` was accepted and the worker has not taken it yet. */
  predicate RetryWaits<T>(q: Queue<T>, m: nat) {
    m < |q.puts| && q.puts[m].Retry? && m !in q.refused && !Ticketed(q.taken, m)
  }

  lemma {:induction false} TicketIsThere<T>(q: Queue<T>, t: Task<T>, n: nat)
    requires InOrder(q) && n < |q.puts| && Ticketed(Through(Enqueue(q, t)), n)
    ensures Ticketed(Through(q), n)
  {
    EnqueueShape(q, t);
    ThroughAfter(q, t);
    var after := Through(Enqueue(q, t));
    var i :| 0 <= i < |after| && after[i].ticket == n;
    var x := after[i];
    assert x in Through(q);
    var j :| 0 <= j < |Through(q)| && Through(q)[j] == x;
  }

  lemma {:induction false} EnqueueRefuses<T>(q: Queue<T>, t: Task<T>)
    requires InOrder(q) && RefusedAreGone(q)
    ensures RefusedAreGone(Enqueue(q, t))
  {
    var q' := Enqueue(q, t);
    EnqueueShape(q, t);
    forall n | n in q'.refused ensures n < |q'.puts| && q'.puts[n].Retry? && !Ticketed(Through(q'), n) {
      if n < |q.puts| {
        if Ticketed(Through(q'), n) {
          TicketIsThere(q, t, n);
        }
      } else {
        ThroughAfter(q, t);
        assert forall x :: x in Through(q') ==> x in Through(q);
      }
    }
  }

  lemma {:induction false} OtherStepsMoveNothing<T>(q: Queue<T>, op: Op<T>)
    requires !op.Put?
    ensures var q' := Step(q, op); Through(q') == Through(q) && q'.puts == q.puts && q'.refused == q.refused
  {
  }

  lemma {:induction false} StepRefuses<T>(q: Queue<T>, op: Op<T>)
    requires InOrder(q) && RefusedAreGone(q)
    ensures RefusedAreGone(Step(q, op))
  {
    if op.Put? {
      EnqueueRefuses(q, op.task);
    } else {
      OtherStepsMoveNothing(q, op);
    }
  }

  lemma {:induction false} RefusedStayGone<T>(ops: seq<Op<T>>)
    ensures RefusedAreGone(Run(ops))
  {
    if ops != [] {
      RefusedStayGone(ops[..|ops| - 1]);
      QueueStaysLawful(ops[..|ops| - 1]);
      StepRefuses(Run(ops[..|ops| - 1]), ops[|ops| - 1]);
    }
  }

  lemma {:induction false} QueuedRetryWaits<T>(q: Queue<T>) returns (m: nat)
    requires InOrder(q) && RefusedAreGone(q) && HasRetry(q.items)
    ensures RetryWaits(q, m)
  {
    var i :| 0 <= i < |q.items| && q.items[i].task.Retry?;
    var k := |q.taken| + i;
    assert Through(q)[k] == q.items[i] && Through(q)[k] in Through(q);
    m := q.items[i].ticket;
    assert forall j :: 0 <= j < |q.taken| ==> q.taken[j] == Through(q)[j];
  }

  lemma {:induction false} WaitingRetryIsQueued<T>(q: Queue<T>, m: nat)
    requires InOrder(q) && NothingLost(q) && RetryWaits(q, m)
    ensures HasRetry(q.items)
  {
    assert Explained(q.puts, q.refused, Through(q), m);
    var k :| 0 <= k < |Through(q)| && Through(q)[k].ticket == m;
    assert Through(q)[k] in Through(q);
    assert forall j :: 0 <= j < |q.taken| ==> Through(q)[j] == q.taken[j] && q.taken[j].ticket != m;
    assert q.items[k - |q.taken|] == Through(q)[k];
  }

  /** Whether a ticket is refused is settled as it is enqueued. */
  lemma {:induction false} RefusalStands<T>(ops: seq<Op<T>>, k: nat, n: nat)
    requires k <= |ops| && n < |Run(ops[..k]).puts|
    ensures n < |Run(ops).puts| && (n in Run(ops).refused <==> n in Run(ops[..k]).refused)
  {
    if k == |ops| {
      assert ops[..k] == ops;
    } else {
      var before := ops[..|ops| - 1];
      assert before[..k] == ops[..k];
      RefusalStands(before, k, n);
    }
  }

  /**
    Which retries are refused: a retry enqueued at step `k` is, then and for good, exactly when an earlier one that
    was accepted has not been taken by then.
   */
  lemma {:induction false} RetryRefusedExactlyWhen<T>(ops: seq<Op<T>>, k: nat)
    requires k < |ops| && ops[k].Put? && ops[k].task.Retry?
    ensures var before := Run(ops[..k]);
            |before.puts| in Run(ops).refused <==> exists m :: RetryWaits(before, m)
  {
    var before := Run(ops[..k]);
    assert ops[..k + 1][..k] == ops[..k];
    QueueStaysLawful(ops[..k]);
    RefusedStayGone(ops[..k]);
    EnqueueShape(before, ops[k].task);
    RefusalStands(ops, k + 1, |before.puts|);
    if HasRetry(before.items) {
      var m := QueuedRetryWaits(before);
    }
    if m: nat :| RetryWaits(before, m) {
      WaitingRetryIsQueued(before, m);
    }
  }

  /** The worker exits only when told to stop and with every task accepted so far taken. */
  lemma {:induction false} ExitsOnlyDrained<T>(ops: seq<Op<T>>, op: Op<T>)
    requires !Run(ops).exited && Step(Run(ops), op).exited
    ensures var q := Run(ops);
            && op.Pass? && !q.running && q.items == []
            && Works(q.taken) == WorksPut(q.puts)
            && forall n :: 0 <= n < |q.puts| && !Outdated(q.puts, n) && n !in q.refused ==> Ticketed(q.taken, n)
  {
    QueueStaysLawful(ops);
    var q := Run(ops);
    assert Through(q) == q.taken;
    forall n | 0 <= n < |q.puts| && !Outdated(q.puts, n) && n !in q.refused ensures Ticketed(q.taken, n) {
      assert Explained(q.puts, q.refused, Through(q), n);
    }
  }

  // ---------------------------------------------------------------------------
  // The queue object
  // ---------------------------------------------------------------------------

  ghost function Zip<T>(tasks: seq<Task<T>>, tickets: seq<nat>): (s: seq<Item<T>>)
    requires |tickets| == |tasks|
    ensures |s| == |tasks| && forall i :: 0 <= i < |s| ==> s[i] == Item(tickets[i], tasks[i])
  {
    seq(|tasks|, i requires 0 <= i < |tasks| => Item(tickets[i], tasks[i]))
  }

  lemma {:induction false} ZipWithout<T>(tasks: seq<Task<T>>, tickets: seq<nat>, i: nat)
    requires |tickets| == |tasks| && i < |tasks|
    ensures Zip(tasks[..i] + tasks[i + 1..], tickets[..i] + tickets[i + 1..])
            == Zip(tasks, tickets)[..i] + Zip(tasks, tickets)[i + 1..]
  {
  }

  lemma {:induction false} NonPositionsAppend<T>(s: seq<Item<T>>, x: Item<T>)
    ensures NonPositions(s + [x]) == NonPositions(s) + if x.task.Position? then [] else [x]
  {
    assert (s + [x])[..|s|] == s;
  }

  lemma {:induction false} SplitRest<A>(done: seq<A>, rest: seq<A>)
    requires rest != []
    ensures (done + rest)[|done|] == rest[0]
    ensures (done + rest)[..|done|] == done && (done + rest)[|done| + 1..] == rest[1..]
    ensures done + rest == (done + [rest[0]]) + rest[1..]
  {
  }

  /** A worker's queue: a deque edited in place, and the flag that stops the worker. */
  class TaskQueue<T(==)> {
    var tasks: seq<Task<T>>
    var running: bool
    var exited: bool
    ghost var tickets: seq<nat>
    ghost var puts: seq<Task<T>>
    ghost var taken: seq<Item<T>>
    ghost var refused: set<nat>

    ghost predicate Paired()
      reads this
    {
      |tickets| == |tasks|
    }

    ghost function View(): Queue<T>
      reads this
      requires Paired()
    {
      Queue(Zip(tasks, tickets), running, exited, puts, taken, refused)
    }

    constructor ()
      ensures Paired() && View() == Empty()
    {
      tasks, running, exited := [], true, false;
      tickets, puts, taken, refused := [], [], [], {};
    }

    method EraseAt(i: nat)
      requires Paired() && i < |tasks|
      modifies this`tasks, this`tickets
      ensures Paired()
      ensures Zip(tasks, tickets) == old(Zip(tasks, tickets)[..i] + Zip(tasks, tickets)[i + 1..])
    {
      ZipWithout(tasks, tickets, i);
      tasks := tasks[..i] + tasks[i + 1..];
      tickets := tickets[..i] + tickets[i + 1..];
    }

    /** Erase every queued position, one element at a time. */
    method ErasePositions()
      requires Paired()
      modifies this`tasks, this`tickets
      ensures Paired() && Zip(tasks, tickets) == NonPositions(old(Zip(tasks, tickets)))
    {
      ghost var seen, kept, rest := [], [], Zip(tasks, tickets);
      var i := 0;
      while i < |tasks|
        invariant Paired() && i == |kept|
        invariant Zip(tasks, tickets) == kept + rest
        invariant seen + rest == old(Zip(tasks, tickets))
        invariant kept == NonPositions(seen)
        decreases |tasks| - i
      {
        SplitRest(kept, rest);
        SplitRest(seen, rest);
        NonPositionsAppend(seen, rest[0]);
        if tasks[i].Position? {
          EraseAt(i);
        } else {
          kept := kept + [rest[0]];
          i := i + 1;
        }
        seen, rest := seen + [rest[0]], rest[1..];
      }
      assert rest == [];
      assert kept + rest == kept && seen + rest == seen;
    }

    method RetryQueued() returns (found: bool)
      requires Paired()
      ensures found == HasRetry(Zip(tasks, tickets))
    {
      for i := 0 to |tasks|
        invariant forall j :: 0 <= j < i ==> !tasks[j].Retry?
      {
        if tasks[i].Retry? {
          assert Zip(tasks, tickets)[i].task.Retry?;
          return true;
        }
      }
      return false;
    }

    method Put(t: Task<T>)
      requires Paired()
      modifies this
      ensures Paired() && View() == Enqueue(old(View()), t)
    {
      ghost var ticket := |puts|;
      puts := puts + [t];
      if t.Position? {
        ErasePositions();
      } else if t.Retry? {
        var found := RetryQueued();
        if found {
          refused := refused + {ticket};
          return;
        }
      }
      ghost var was := Zip(tasks, tickets);
      tasks := tasks + [t];
      tickets := tickets + [ticket];
      assert Zip(tasks, tickets) == was + [Item(ticket, t)];
    }

    /** The locked part of one worker pass: the task to run, or none and perhaps the exit. */
    method Next() returns (task: Option<Task<T>>)
      requires Paired() && !exited
      modifies this
      ensures Paired() && View() == WorkerPass(old(View()))
      ensures task == if old(tasks) == [] then None else Some(old(tasks)[0])
    {
      if tasks == [] {
        exited := !running;
        return None;
      }
      ghost var was := Zip(tasks, tickets);
      task := Some(tasks[0]);
      taken := taken + [Item(tickets[0], tasks[0])];
      tasks, tickets := tasks[1..], tickets[1..];
      assert Zip(tasks, tickets) == was[1..];
    }

    /** Stop the worker and let it drain: everything queued is still taken, in order. Stopping again does nothing. */
    method StopAndDrain()
      requires Paired()
      modifies this
      ensures Paired() && exited && !running && puts == old(puts)
      ensures old(exited) ==> View() == old(View()).(running := false)
      ensures !old(exited) ==> tasks == [] && taken == old(Through(View()))
    {
      running := false;
      if exited {
        return;
      }
      while !exited
        invariant Paired() && !running && puts == old(puts)
        invariant Through(View()) == old(Through(View()))
        invariant exited ==> tasks == []
        decreases |tasks|, !exited
      {
        var _ := Next();
      }
      assert Zip(tasks, tickets) == [];
    }
  }
}
