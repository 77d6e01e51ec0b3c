/**
  The bounded log queue: lines beyond the bound push out the oldest, and the writer marks each gap with the
  number of lines missing from it.
 */
module LogQueue {

  /** What reaches the file: a line, or a marker for lines dropped before the next one. */
  datatype Record = Line(text: string) | Dropped(count: nat)

  /** `accepted` is history: every line that passed the level test, dropped or not. */
  datatype Log = Log(
    queue: seq<string>,
    dropped: nat,
    claimed: seq<Record>,
    written: seq<Record>,
    running: bool,
    exited: bool,
    accepted: seq<string>)

  const INITIAL := Log([], 0, [], [], true, false, [])

  function Enqueue(l: Log, line: string, bound: nat): Log
    requires 1 <= bound
  {
    var full := |l.queue| >= bound;
    l.(queue := (if full then l.queue[1..] else l.queue) + [line],
       dropped := if full then l.dropped + 1 else l.dropped,
       accepted := l.accepted + [line])
  }

  /** The locked part of a writer pass: claim the front line and the drops so far, or exit. */
  function Claim(l: Log): Log {
    if l.exited || l.claimed != [] then l
    else if l.queue == [] then l.(exited := !l.running)
    else l.(queue := l.queue[1..], dropped := 0,
            claimed := (if l.dropped > 0 then [Dropped(l.dropped)] else []) + [Line(l.queue[0])])
  }

  /** One write, made outside the lock. */
  function Write(l: Log): Log {
    if l.claimed == [] then l else l.(claimed := l.claimed[1..], written := l.written + [l.claimed[0]])
  }

  datatype Op = Accept(line: string) | ClaimNext | WriteNext | Stop

  function Step(l: Log, bound: nat, op: Op): Log
    requires 1 <= bound
  {
    match op
    case Accept(line) => Enqueue(l, line, bound)
    case ClaimNext => Claim(l)
    case WriteNext => Write(l)
    case Stop => l.(running := false)
  }

  function Run(bound: nat, ops: seq<Op>): Log
    requires 1 <= bound
  {
    if ops == [] then INITIAL else Step(Run(bound, ops[..|ops| - 1]), bound, ops[|ops| - 1])
  }

  // ---------------------------------------------------------------------------
  // Reading the records back against what was logged
  // ---------------------------------------------------------------------------

  /** How many accepted lines a sequence of records accounts for. */
  function Covers(records: seq<Record>): nat {
    if records == [] then 0
    else
      Covers(records[..|records| - 1]) + match records[|records| - 1] case Line(_) => 1 case Dropped(n) => n
  }

  /** Each line record is the accepted line its position says, markers skipping exactly the lines they count. */
  predicate Faithful(records: seq<Record>, accepted: seq<string>) {
    if records == [] then true
    else
      var before := records[..|records| - 1];
      && Faithful(before, accepted)
      && match records[|records| - 1]
         case Line(text) => Covers(before) < |accepted| && accepted[Covers(before)] == text
         case Dropped(n) => 1 <= n && Covers(before) + n <= |accepted|
  }

  /** The queue is the most recent lines, within its bound, and only a full queue has lost any since the last marker. */
  ghost predicate Recent(l: Log, bound: nat) {
    && |l.queue| <= bound && |l.queue| <= |l.accepted|
    && l.queue == l.accepted[|l.accepted| - |l.queue|..]
    && (l.queue == [] ==> l.dropped == 0)
    && (l.dropped > 0 ==> |l.queue| == bound)
  }

  /** Everything before the queue is written, claimed or counted. */
  ghost predicate Recorded(l: Log) {
    && Faithful(l.written + l.claimed, l.accepted)
    && Covers(l.written + l.claimed) + l.dropped + |l.queue| == |l.accepted|
    && (l.claimed != [] ==> l.claimed[|l.claimed| - 1].Line?)
  }

  ghost predicate Exact(l: Log, bound: nat) {
    Recent(l, bound) && Recorded(l)
  }

  lemma {:induction false} FaithfulGrows(records: seq<Record>, accepted: seq<string>, line: string)
    requires Faithful(records, accepted)
    ensures Faithful(records, accepted + [line])
  {
    if records != [] {
      FaithfulGrows(records[..|records| - 1], accepted, line);
    }
  }

  lemma {:induction false} FaithfulAppend(records: seq<Record>, r: Record, accepted: seq<string>)
    ensures Covers(records + [r]) == Covers(records) + match r case Line(_) => 1 case Dropped(n) => n
    ensures Faithful(records + [r], accepted) <==>
            && Faithful(records, accepted)
            && match r
               case Line(text) => Covers(records) < |accepted| && accepted[Covers(records)] == text
               case Dropped(n) => 1 <= n && Covers(records) + n <= |accepted|
  {
    assert (records + [r])[..|records|] == records;
  }

  lemma {:induction false} SuffixTail(accepted: seq<string>, d: nat)
    requires d < |accepted|
    ensures accepted[d..][1..] == accepted[d + 1..]
  {
  }

  lemma {:induction false} SuffixGrows(accepted: seq<string>, d: nat, line: string)
    requires d <= |accepted|
    ensures (accepted + [line])[d..] == accepted[d..] + [line]
  {
  }

  lemma {:induction false} ClaimIsRecent(l: Log, bound: nat)
    requires Recent(l, bound) && !l.exited && l.claimed == [] && l.queue != []
    ensures Recent(Claim(l), bound)
  {
    SuffixTail(l.accepted, |l.accepted| - |l.queue|);
  }

  lemma {:induction false} ClaimIsRecorded(l: Log, bound: nat)
    requires Recent(l, bound) && Recorded(l) && !l.exited && l.claimed == [] && l.queue != []
    ensures Recorded(Claim(l))
  {
    var marked := if l.dropped > 0 then l.written + [Dropped(l.dropped)] else l.written;
    assert l.written + l.claimed == l.written;
    if l.dropped > 0 {
      FaithfulAppend(l.written, Dropped(l.dropped), l.accepted);
    }
    FaithfulAppend(marked, Line(l.queue[0]), l.accepted);
    assert Claim(l).written + Claim(l).claimed == marked + [Line(l.queue[0])];
  }

  lemma {:induction false} ClaimIsExact(l: Log, bound: nat)
    requires Exact(l, bound) && !l.exited && l.claimed == [] && l.queue != []
    ensures Exact(Claim(l), bound)
  {
    ClaimIsRecent(l, bound);
    ClaimIsRecorded(l, bound);
  }

  lemma {:induction false} AcceptIsRecent(l: Log, bound: nat, line: string)
    requires 1 <= bound && Recent(l, bound)
    ensures Recent(Enqueue(l, line, bound), bound)
  {
    var d := |l.accepted| - |l.queue|;
    if |l.queue| >= bound {
      SuffixTail(l.accepted, d);
      SuffixGrows(l.accepted, d + 1, line);
    } else {
      SuffixGrows(l.accepted, d, line);
    }
  }

  lemma {:induction false} AcceptIsRecorded(l: Log, bound: nat, line: string)
    requires 1 <= bound && Recorded(l)
    ensures Recorded(Enqueue(l, line, bound))
  {
    FaithfulGrows(l.written + l.claimed, l.accepted, line);
  }

  lemma {:induction false} AcceptIsExact(l: Log, bound: nat, line: string)
    requires 1 <= bound && Exact(l, bound)
    ensures Exact(Enqueue(l, line, bound), bound)
  {
    AcceptIsRecent(l, bound, line);
    AcceptIsRecorded(l, bound, line);
  }

  lemma {:induction false} WriteIsExact(l: Log, bound: nat)
    requires Exact(l, bound)
    ensures Exact(Write(l), bound)
  {
    if l.claimed != [] {
      assert Write(l).written + Write(l).claimed == l.written + l.claimed;
    }
  }

  function Flush(l: Log): Log {
    l.(written := l.written + l.claimed, claimed := [])
  }

  lemma {:induction false} FlushIsExact(l: Log, bound: nat)
    requires Exact(l, bound)
    ensures Exact(Flush(l), bound)
  {
    assert Flush(l).written + Flush(l).claimed == l.written + l.claimed;
  }

  lemma {:induction false} StepIsExact(l: Log, bound: nat, op: Op)
    requires 1 <= bound && Exact(l, bound)
    ensures Exact(Step(l, bound, op), bound)
  {
    match op {
      case Accept(line) => AcceptIsExact(l, bound, line);
      case ClaimNext =>
        if !l.exited && l.claimed == [] && l.queue != [] {
          ClaimIsExact(l, bound);
        }
      case WriteNext => WriteIsExact(l, bound);
      case Stop =>
    }
  }

  lemma {:induction false} PassIsExact(l: Log, bound: nat)
    requires 1 <= bound && Exact(l, bound)
    ensures Exact(Flush(Claim(l)), bound)
  {
    StepIsExact(l, bound, ClaimNext);
    FlushIsExact(Claim(l), bound);
  }

  lemma {:induction false} RunIsExact(bound: nat, ops: seq<Op>)
    requires 1 <= bound
    ensures Exact(Run(bound, ops), bound)
  {
    if ops != [] {
      RunIsExact(bound, ops[..|ops| - 1]);
      StepIsExact(Run(bound, ops[..|ops| - 1]), bound, ops[|ops| - 1]);
    }
  }

  lemma {:induction false} FaithfulPrefix(a: seq<Record>, b: seq<Record>, accepted: seq<string>)
    requires Faithful(a + b, accepted)
    ensures Faithful(a, accepted)
  {
    if b == [] {
      assert a + b == a;
    } else {
      assert (a + b)[..|a + b| - 1] == a + b[..|b| - 1];
      FaithfulPrefix(a, b[..|b| - 1], accepted);
    }
  }

  /**
    Gap exactness. Over every interleaving of producers and writer the queue is a suffix of the accepted
    lines within its bound, and full whenever lines have been dropped that no marker has counted yet; the records
    written so far are the accepted lines from the first on with each marker standing for exactly the lines missing
    there, and when the writer exits every accepted line has been written or counted by a marker.
   */
  lemma {:induction false} GapsAreExact(bound: nat, ops: seq<Op>)
    requires 1 <= bound
    ensures var l := Run(bound, ops);
            && |l.queue| <= bound && |l.queue| <= |l.accepted|
            && l.queue == l.accepted[|l.accepted| - |l.queue|..]
            && (l.dropped > 0 ==> |l.queue| == bound)
            && Faithful(l.written, l.accepted)
    ensures var l := Run(bound, ops);
            !l.exited && Claim(l).exited ==> !l.running && l.queue == [] && Covers(l.written) == |l.accepted|
  {
    RunIsExact(bound, ops);
    var l := Run(bound, ops);
    FaithfulPrefix(l.written, l.claimed, l.accepted);
    assert l.written + [] == l.written;
  }

  /** A marker is written only for a real gap: between two lines written with none, no line was dropped. */
  lemma {:induction false} UnmarkedLinesAreConsecutive(
    records: seq<Record>, accepted: seq<string>, first: string, second: string)
    requires Faithful(records + [Line(first)] + [Line(second)], accepted)
    ensures Covers(records) + 1 < |accepted|
    ensures accepted[Covers(records)] == first && accepted[Covers(records) + 1] == second
  {
    FaithfulAppend(records + [Line(first)], Line(second), accepted);
    FaithfulAppend(records, Line(first), accepted);
  }

  // ---------------------------------------------------------------------------
  // The logger object
  // ---------------------------------------------------------------------------

  /** Least to most verbose; a line is kept when its level is no more verbose than the configured one. */
  datatype Level = Error | Warning | Info | Debug

  function Rank(level: Level): nat {
    match level
    case Error => 0
    case Warning => 1
    case Info => 2
    case Debug => 3
  }

  class Logger {
    const enabled: bool
    const level: Level
    const bound: nat
    var lineQueue: seq<string>
    var droppedLines: nat
    var claimed: seq<Record>
    var file: seq<Record>
    var running: bool
    var exited: bool
    ghost var accepted: seq<string>

    ghost function View(): Log
      reads this
    {
      Log(lineQueue, droppedLines, claimed, file, running, exited, accepted)
    }

    ghost predicate Valid()
      reads this
    {
      1 <= bound && Exact(View(), bound)
    }

    /** A bound of zero would pop from an empty queue, so it is floored at one. */
    constructor (enabled: bool, level: Level, maxQueued: nat)
      ensures Valid() && View() == INITIAL && bound == if maxQueued == 0 then 1 else maxQueued
      ensures this.enabled == enabled && this.level == level
    {
      this.enabled, this.level := enabled, level;
      bound := if maxQueued > 0 then maxQueued else 1;
      lineQueue, droppedLines, claimed, file := [], 0, [], [];
      running, exited, accepted := true, false, [];
    }

    method LogLine(at: Level, line: string)
      requires Valid()
      modifies this
      ensures Valid()
      ensures var passes := match level
                            case Error => at == Error
                            case Warning => at == Error || at == Warning
                            case Info => at != Debug
                            case Debug => true;
              View() == if enabled && passes then Enqueue(old(View()), line, bound) else old(View())
    {
      if !enabled {
        return;
      }
      if Rank(at) > Rank(level) {
        return;
      }
      StepIsExact(View(), bound, Accept(line));
      if |lineQueue| >= bound {
        lineQueue := lineQueue[1..];
        droppedLines := droppedLines + 1;
      }
      lineQueue := lineQueue + [line];
      accepted := accepted + [line];
    }

    /** The locked part of a writer pass. */
    method ClaimLine()
      requires claimed == []
      modifies this
      ensures View() == Claim(old(View()))
    {
      if exited {
        return;
      }
      if lineQueue == [] {
        exited := !running;
        return;
      }
      var line := lineQueue[0];
      lineQueue := lineQueue[1..];
      var gap := droppedLines;
      droppedLines := 0;
      if gap > 0 {
        claimed := [Dropped(gap)];
      }
      claimed := claimed + [Line(line)];
    }

    /** The writes of a pass, one at a time: the marker if any, then the line. */
    method WriteClaimed()
      modifies this`file, this`claimed
      ensures claimed == [] && file == old(file + claimed)
    {
      while claimed != []
        invariant file + claimed == old(file + claimed)
        decreases |claimed|
      {
        file, claimed := file + [claimed[0]], claimed[1..];
      }
      assert file + claimed == file;
    }

    /** Both halves of a pass. */
    method ClaimAndWrite()
      requires claimed == []
      modifies this
      ensures View() == Flush(Claim(old(View())))
    {
      ClaimLine();
      WriteClaimed();
    }

    method WriterPass()
      requires Valid() && !exited && claimed == []
      modifies this
      ensures Valid() && View() == Flush(Claim(old(View())))
    {
      PassIsExact(View(), bound);
      ClaimAndWrite();
    }

    /**
      Stopping finishes the write in hand and drains: every accepted line ends up written, or counted by the marker
      before the next one. Stopping again does nothing.
     */
    method StopWorker()
      requires Valid()
      modifies this
      ensures Valid() && exited && !running && accepted == old(accepted)
      ensures old(exited) ==> View() == old(View()).(running := false)
      ensures !old(exited) ==>
                claimed == [] && lineQueue == [] && Faithful(file, accepted) && Covers(file) == |accepted|
    {
      running := false;
      if exited {
        return;
      }
      FlushIsExact(View(), bound);
      WriteClaimed();
      while !exited
        invariant Valid() && claimed == [] && !running && accepted == old(accepted)
        invariant exited ==> lineQueue == []
        decreases |lineQueue|, !exited
      {
        WriterPass();
      }
      assert file + [] == file;
    }
  }
}
