/** The table of tracked aircraft: keys, the one-second debounce, eviction, and synthetic ICAO addresses. */
module Aircraft {

  const FIRST_SYNTHETIC: nat := 0x1000
  const LAST_SYNTHETIC: nat := 0xFF_FFFF
  const SYNTHETIC_RANGE: nat := 0xFF_F000
  const UPDATE_INTERVAL_MS: nat := 1000
  const EVICTION_AGE_MS: nat := 5 * 60 * 1000

  // ---------------------------------------------------------------------------
  // Synthetic addresses
  // ---------------------------------------------------------------------------

  function NextSynthetic(current: nat): nat {
    if current >= LAST_SYNTHETIC then FIRST_SYNTHETIC else current + 1
  }

  /** The address last allocated after `n` allocations. */
  function Allocated(n: nat): nat {
    if n == 0 then FIRST_SYNTHETIC else NextSynthetic(Allocated(n - 1))
  }

  lemma {:induction false} AllocatedIs(n: nat)
    ensures Allocated(n) == FIRST_SYNTHETIC + n % SYNTHETIC_RANGE
  {
    if n > 0 {
      AllocatedIs(n - 1);
    }
  }

  /** Every address handed out is a 24-bit one, and any full range of consecutive allocations repeats none. */
  lemma {:induction false} AllocationsAreDistinct(m: nat, n: nat)
    requires m < n < m + SYNTHETIC_RANGE
    ensures FIRST_SYNTHETIC <= Allocated(m) <= LAST_SYNTHETIC
    ensures Allocated(m) != Allocated(n)
  {
    AllocatedIs(m);
    AllocatedIs(n);
  }

  // ---------------------------------------------------------------------------
  // Keys
  // ---------------------------------------------------------------------------

  const DIGITS := ['0', '1', '2', '3', '4', '5', '6', '7', '8', '9']

  function Decimal(n: nat): (s: string)
    ensures s != []
  {
    if n < 10 then [DIGITS[n]] else Decimal(n / 10) + [DIGITS[n % 10]]
  }

  function Key(callSign: string, icao: nat): string {
    if icao != 0 then "icao:" + Decimal(icao) else "cs:" + callSign
  }

  lemma {:induction false} DecimalIsInjective(m: nat, n: nat)
    requires Decimal(m) == Decimal(n)
    ensures m == n
  {
    var s := Decimal(m);
    assert s[|s| - 1] == DIGITS[m % 10] == DIGITS[n % 10];
    if 10 <= m && 10 <= n {
      assert s[..|s| - 1] == Decimal(m / 10) == Decimal(n / 10);
      DecimalIsInjective(m / 10, n / 10);
    }
  }

  /** Two reports share an entry exactly when they are the same address, or both lack one and share a callsign. */
  lemma {:induction false} KeysMeetOnlyWhenMeantTo(c: string, m: nat, d: string, n: nat)
    ensures Key(c, m) == Key(d, n) <==> m == n && (m == 0 ==> c == d)
  {
    var k, l := Key(c, m), Key(d, n);
    if m == 0 && n == 0 {
      assert k[3..] == c && l[3..] == d;
    } else if m != 0 && n != 0 {
      assert k[5..] == Decimal(m) && l[5..] == Decimal(n);
      if k == l {
        DecimalIsInjective(m, n);
      }
    } else {
      assert k[0] != l[0];
    }
  }

  // ---------------------------------------------------------------------------
  // The table
  // ---------------------------------------------------------------------------

  /** `ts` is when the last accepted report arrived, by our own clock; 0 before the first. */
  datatype Details = Details(ts: nat, icao: nat)

  /** `allocations` counts the synthetic addresses handed out. */
  datatype Table = Table(entries: map<string, Details>, lastAllocated: nat, allocations: nat)

  const EMPTY := Table(map[], FIRST_SYNTHETIC, 0)

  /** Find the aircraft, creating it if it is new. */
  function Find(t: Table, callSign: string, icao: nat): Table {
    var key := Key(callSign, icao);
    if key in t.entries then t
    else if icao != 0 then t.(entries := t.entries[key := Details(0, icao)])
    else
      var next := NextSynthetic(t.lastAllocated);
      t.(entries := t.entries[key := Details(0, next)], lastAllocated := next, allocations := t.allocations + 1)
  }

  predicate Acceptable(d: Details, now: nat) {
    d.ts + UPDATE_INTERVAL_MS <= now
  }

  function Evict(entries: map<string, Details>, now: nat): map<string, Details> {
    map k | k in entries && !(entries[k].ts + EVICTION_AGE_MS < now) :: entries[k]
  }

  /** A position report, or the address lookup that follows an accepted one without an address. */
  datatype Op = Report(callSign: string, icao: nat, now: nat) | Lookup(callSign: string)

  predicate Accepts(t: Table, op: Op) {
    op.Report? && Acceptable(Find(t, op.callSign, op.icao).entries[Key(op.callSign, op.icao)], op.now)
  }

  function Apply(t: Table, op: Op): Table {
    match op
    case Lookup(callSign) => Find(t, callSign, 0)
    case Report(callSign, icao, now) =>
      var found := Find(t, callSign, icao);
      var key := Key(callSign, icao);
      var entries := if Acceptable(found.entries[key], now)
                     then found.entries[key := found.entries[key].(ts := now)] else found.entries;
      found.(entries := Evict(entries, now))
  }

  function Run(ops: seq<Op>): Table {
    if ops == [] then EMPTY else Apply(Run(ops[..|ops| - 1]), ops[|ops| - 1])
  }

  /** The clock the reports of a run are stamped with does not run backwards. */
  predicate ClockMonotone(ops: seq<Op>) {
    forall i, j :: 0 <= i < j < |ops| && ops[i].Report? && ops[j].Report? ==> ops[i].now <= ops[j].now
  }

  predicate AcceptedAt(ops: seq<Op>, i: nat) {
    i < |ops| && Accepts(Run(ops[..i]), ops[i])
  }

  predicate SameAircraft(a: Op, b: Op) {
    a.Report? && b.Report? && Key(a.callSign, a.icao) == Key(b.callSign, b.icao)
  }

  /** A report never evicts its own entry; it leaves exactly the others within the eviction window, as they were. */
  lemma {:induction false} ReportSweeps(t: Table, op: Op)
    requires op.Report?
    ensures var t', own := Apply(t, op), Key(op.callSign, op.icao);
            && own in t'.entries
            && (forall k :: k in t'.entries ==> op.now <= t'.entries[k].ts + EVICTION_AGE_MS)
            && forall k :: k != own ==>
                 && (k in t'.entries <==> k in t.entries && op.now <= t.entries[k].ts + EVICTION_AGE_MS)
                 && (k in t'.entries ==> t'.entries[k] == t.entries[k])
  {
  }

  /** What an accepted report at `at` leaves of its key by `now`: a stamp at least that late, or a past eviction. */
  predicate Remembers(entries: map<string, Details>, key: string, at: nat, now: nat) {
    (key in entries && at <= entries[key].ts) || at + EVICTION_AGE_MS < now
  }

  lemma {:induction false} ApplyRemembers(t: Table, op: Op, key: string, at: nat, before: nat)
    requires Remembers(t.entries, key, at, before)
    requires op.Report? ==> before <= op.now
    ensures Remembers(Apply(t, op).entries, key, at, if op.Report? then op.now else before)
  {
  }

  /** The time of the latest report of a run. */
  function Clock(ops: seq<Op>): nat {
    if ops == [] then 0
    else if ops[|ops| - 1].Report? then ops[|ops| - 1].now
    else Clock(ops[..|ops| - 1])
  }

  lemma {:induction false} ClockIsSomeReport(ops: seq<Op>) returns (i: nat)
    ensures Clock(ops) == 0 || (i < |ops| && ops[i].Report? && ops[i].now == Clock(ops))
  {
    if ops == [] {
      i := 0;
    } else if ops[|ops| - 1].Report? {
      i := |ops| - 1;
    } else {
      i := ClockIsSomeReport(ops[..|ops| - 1]);
    }
  }

  lemma {:induction false} AcceptedIsRemembered(ops: seq<Op>, i: nat)
    requires ClockMonotone(ops) && AcceptedAt(ops, i)
    ensures Remembers(Run(ops).entries, Key(ops[i].callSign, ops[i].icao), ops[i].now, Clock(ops))
  {
    var n := |ops| - 1;
    if i < n {
      var before := ops[..n];
      assert before[..i] == ops[..i];
      AcceptedIsRemembered(before, i);
      var latest := ClockIsSomeReport(before);
      if ops[n].Report? {
        assert Clock(before) <= ops[n].now;
      }
      ApplyRemembers(Run(before), ops[n], Key(ops[i].callSign, ops[i].icao), ops[i].now, Clock(before));
    }
  }

  /** Accepted reports of one aircraft are at least a second apart, even across eviction and re-creation. */
  lemma {:induction false} AcceptedReportsAreSpaced(ops: seq<Op>, i: nat, j: nat)
    requires ClockMonotone(ops) && i < j
    requires AcceptedAt(ops, i) && AcceptedAt(ops, j) && SameAircraft(ops[i], ops[j])
    ensures ops[i].now + UPDATE_INTERVAL_MS <= ops[j].now
  {
    var before := ops[..j];
    assert before[..i] == ops[..i];
    AcceptedIsRemembered(before, i);
    var latest := ClockIsSomeReport(before);
  }

  function KeyOf(op: Op): string {
    Key(op.callSign, if op.Report? then op.icao else 0)
  }

  /** What an operation leaves of a stamp: its time if accepted for that key, 0 if it created the entry. */
  lemma {:induction false} ApplyStamps(t: Table, op: Op, key: string)
    requires key in Apply(t, op).entries
    ensures Apply(t, op).entries[key].ts
         == if Accepts(t, op) && KeyOf(op) == key then op.now else if key in t.entries then t.entries[key].ts else 0
  {
  }

  /** A stamp is the time of an accepted report. */
  lemma {:induction false} StampedByAnAccepted(ops: seq<Op>, key: string) returns (i: nat)
    requires key in Run(ops).entries && Run(ops).entries[key].ts > 0
    ensures AcceptedAt(ops, i) && ops[i].Report? && KeyOf(ops[i]) == key && ops[i].now == Run(ops).entries[key].ts
  {
    var n := |ops| - 1;
    var before := ops[..n];
    ApplyStamps(Run(before), ops[n], key);
    if Accepts(Run(before), ops[n]) && KeyOf(ops[n]) == key {
      i := n;
    } else {
      i := StampedByAnAccepted(before, key);
      assert before[..i] == ops[..i];
    }
  }

  /** An accepted report of the same aircraft less than a second before `op`. */
  ghost predicate Debounced(ops: seq<Op>, op: Op, i: nat) {
    AcceptedAt(ops, i) && SameAircraft(ops[i], op) && op.now < ops[i].now + UPDATE_INTERVAL_MS
  }

  /**
    Which reports are accepted, over every run: exactly those with no accepted report of the same aircraft in the
    second before, once the clock has run a second.
   */
  lemma {:induction false} AcceptedExactlyWhen(ops: seq<Op>, op: Op)
    requires op.Report? && ClockMonotone(ops + [op])
    ensures Accepts(Run(ops), op) <==> op.now >= UPDATE_INTERVAL_MS && !exists i :: Debounced(ops, op, i)
  {
    var all, key := ops + [op], KeyOf(op);
    assert all[..|ops|] == ops && all[|ops|] == op;
    if i: nat :| Debounced(ops, op, i) {
      assert all[..i] == ops[..i];
      if Accepts(Run(ops), op) {
        AcceptedReportsAreSpaced(all, i, |ops|);
      }
    }
    if key in Run(ops).entries && Run(ops).entries[key].ts > 0 {
      var i := StampedByAnAccepted(ops, key);
      assert !Accepts(Run(ops), op) ==> Debounced(ops, op, i);
    }
  }

  lemma {:induction false} AllocatorIsAllocated(ops: seq<Op>)
    ensures Run(ops).lastAllocated == Allocated(Run(ops).allocations)
  {
    if ops != [] {
      AllocatorIsAllocated(ops[..|ops| - 1]);
    }
  }

  /** The allocator's last address is the one its count of allocations gives. */
  lemma {:induction false} AllocatorFollowsCount(ops: seq<Op>)
    ensures Run(ops).lastAllocated == FIRST_SYNTHETIC + Run(ops).allocations % SYNTHETIC_RANGE
  {
    AllocatorIsAllocated(ops);
    AllocatedIs(Run(ops).allocations);
  }

  /** Which allocation gave `key` its address: the one made when its entry was last created. */
  function NumberOf(ops: seq<Op>, key: string): nat {
    if ops == [] then 0
    else
      var before := ops[..|ops| - 1];
      if KeyOf(ops[|ops| - 1]) == key && key !in Run(before).entries then Run(ops).allocations
      else NumberOf(before, key)
  }

  /** What is known of an unaddressed aircraft's entry. */
  ghost predicate Numbered(ops: seq<Op>, callSign: string) {
    var key := Key(callSign, 0);
    key in Run(ops).entries ==>
      && 1 <= NumberOf(ops, key) <= Run(ops).allocations
      && Run(ops).entries[key].icao == Allocated(NumberOf(ops, key))
  }

  /** Applying an operation creates at most its own entry, and changes no address that was there. */
  lemma {:induction false} ApplyKeepsAddresses(t: Table, op: Op, key: string)
    ensures var t' := Apply(t, op);
            && (key in t'.entries && key in t.entries ==> t'.entries[key].icao == t.entries[key].icao)
            && (key in t'.entries && key !in t.entries ==> KeyOf(op) == key)
            && t.allocations <= t'.allocations
  {
  }

  lemma {:induction false} ApplyCreates(t: Table, op: Op)
    requires KeyOf(op) !in t.entries && KeyOf(op) in Apply(t, op).entries
    ensures var t', icao := Apply(t, op), if op.Report? then op.icao else 0;
            && t'.allocations == t.allocations + (if icao == 0 then 1 else 0)
            && t'.entries[KeyOf(op)].icao == if icao == 0 then NextSynthetic(t.lastAllocated) else icao
  {
  }

  /** An aircraft tracked without an address holds the address of its own allocation. */
  lemma {:induction false} UnaddressedHoldTheirNumber(ops: seq<Op>, callSign: string)
    ensures Numbered(ops, callSign)
  {
    var key := Key(callSign, 0);
    if ops != [] && key in Run(ops).entries {
      var before, op := ops[..|ops| - 1], ops[|ops| - 1];
      UnaddressedHoldTheirNumber(before, callSign);
      ApplyKeepsAddresses(Run(before), op, key);
      if key !in Run(before).entries {
        ApplyCreates(Run(before), op);
        KeysMeetOnlyWhenMeantTo(op.callSign, if op.Report? then op.icao else 0, callSign, 0);
        AllocatorIsAllocated(before);
      }
    }
  }

  /** An aircraft tracked by its address holds that address. */
  lemma {:induction false} AddressedHoldTheirOwn(ops: seq<Op>, callSign: string, icao: nat)
    requires icao != 0 && Key(callSign, icao) in Run(ops).entries
    ensures Run(ops).entries[Key(callSign, icao)].icao == icao
  {
    var key := Key(callSign, icao);
    var before, op := ops[..|ops| - 1], ops[|ops| - 1];
    ApplyKeepsAddresses(Run(before), op, key);
    if key in Run(before).entries {
      AddressedHoldTheirOwn(before, callSign, icao);
    } else {
      ApplyCreates(Run(before), op);
      KeysMeetOnlyWhenMeantTo(op.callSign, if op.Report? then op.icao else 0, callSign, icao);
    }
  }

  /** No two tracked unaddressed aircraft have one allocation between them. */
  lemma {:induction false} NumbersAreDistinct(ops: seq<Op>, c: string, d: string)
    requires c != d && Key(c, 0) in Run(ops).entries && Key(d, 0) in Run(ops).entries
    ensures NumberOf(ops, Key(c, 0)) != NumberOf(ops, Key(d, 0))
  {
    var before, op := ops[..|ops| - 1], ops[|ops| - 1];
    KeysMeetOnlyWhenMeantTo(c, 0, d, 0);
    ApplyKeepsAddresses(Run(before), op, Key(c, 0));
    ApplyKeepsAddresses(Run(before), op, Key(d, 0));
    UnaddressedHoldTheirNumber(before, c);
    UnaddressedHoldTheirNumber(before, d);
    if Key(c, 0) in Run(before).entries && Key(d, 0) in Run(before).entries {
      NumbersAreDistinct(before, c, d);
    } else {
      ApplyCreates(Run(before), op);
      KeysMeetOnlyWhenMeantTo(op.callSign, if op.Report? then op.icao else 0, c, 0);
      KeysMeetOnlyWhenMeantTo(op.callSign, if op.Report? then op.icao else 0, d, 0);
    }
  }

  lemma {:induction false} UnaddressedAddressIs(ops: seq<Op>, c: string)
    requires Key(c, 0) in Run(ops).entries
    ensures Run(ops).entries[Key(c, 0)].icao == FIRST_SYNTHETIC + NumberOf(ops, Key(c, 0)) % SYNTHETIC_RANGE
  {
    UnaddressedHoldTheirNumber(ops, c);
    AllocatedIs(NumberOf(ops, Key(c, 0)));
  }

  lemma {:induction false} ResiduesDiffer(m: nat, n: nat)
    requires m != n && m < n + SYNTHETIC_RANGE && n < m + SYNTHETIC_RANGE
    ensures m % SYNTHETIC_RANGE != n % SYNTHETIC_RANGE
  {
  }

  /**
    The addresses handed out. Over every run, each aircraft tracked without an address holds the one of its own
    allocation, a 24-bit one; and two such aircraft hold the same address exactly when their allocations are a
    multiple of the full range apart, so never while fewer allocations than that lie between them.
   */
  lemma {:induction false} SyntheticAddressesAreDistinct(ops: seq<Op>, c: string, d: string)
    requires c != d && Key(c, 0) in Run(ops).entries && Key(d, 0) in Run(ops).entries
    ensures var e, m, n := Run(ops).entries, NumberOf(ops, Key(c, 0)), NumberOf(ops, Key(d, 0));
            && 1 <= m <= Run(ops).allocations && m != n
            && e[Key(c, 0)].icao == Allocated(m) && FIRST_SYNTHETIC <= Allocated(m) <= LAST_SYNTHETIC
            && (e[Key(c, 0)].icao == e[Key(d, 0)].icao <==> m % SYNTHETIC_RANGE == n % SYNTHETIC_RANGE)
            && (m < n + SYNTHETIC_RANGE && n < m + SYNTHETIC_RANGE ==> e[Key(c, 0)].icao != e[Key(d, 0)].icao)
  {
    UnaddressedHoldTheirNumber(ops, c);
    UnaddressedAddressIs(ops, c);
    UnaddressedAddressIs(ops, d);
    NumbersAreDistinct(ops, c, d);
    var m, n := NumberOf(ops, Key(c, 0)), NumberOf(ops, Key(d, 0));
    if m < n + SYNTHETIC_RANGE && n < m + SYNTHETIC_RANGE {
      ResiduesDiffer(m, n);
    }
  }

  /** `known_aircraft`, its eviction sweep visiting one entry at a time. */
  class KnownAircraft {
    var entries: map<string, Details>
    var lastAllocated: nat
    ghost var allocations: nat
    ghost var ops: seq<Op>

    ghost function View(): Table
      reads this
    {
      Table(entries, lastAllocated, allocations)
    }

    /** The table is what the operations so far have made it. */
    ghost predicate Valid()
      reads this
    {
      View() == Run(ops)
    }

    constructor ()
      ensures View() == EMPTY && ops == [] && Valid()
    {
      entries, lastAllocated, allocations := map[], FIRST_SYNTHETIC, 0;
      ops := [];
    }

    method FindAircraft(callSign: string, icao: nat) returns (key: string)
      modifies this`entries, this`lastAllocated, this`allocations
      ensures View() == Find(old(View()), callSign, icao)
      ensures key == Key(callSign, icao) && key in entries
    {
      key := Key(callSign, icao);
      if key in entries {
        return;
      }
      var address := icao;
      if icao == 0 {
        lastAllocated := NextSynthetic(lastAllocated);
        allocations := allocations + 1;
        address := lastAllocated;
      }
      entries := entries[key := Details(0, address)];
    }

    method EvictStale(now: nat)
      modifies this`entries
      ensures entries == Evict(old(entries), now)
    {
      var left := entries.Keys;
      while left != {}
        invariant left <= entries.Keys <= old(entries).Keys
        invariant forall k :: k in entries ==> entries[k] == old(entries)[k]
        invariant forall k :: k in entries && k !in left ==> !(entries[k].ts + EVICTION_AGE_MS < now)
        invariant forall k :: k in old(entries) && k !in entries ==> old(entries)[k].ts + EVICTION_AGE_MS < now
        decreases left
      {
        var key :| key in left;
        left := left - {key};
        if entries[key].ts + EVICTION_AGE_MS < now {
          entries := entries - {key};
        }
      }
    }

    method NewPositionReport(callSign: string, icao: nat, now: nat) returns (accepted: bool)
      requires Valid()
      modifies this
      ensures Valid() && ops == old(ops) + [Report(callSign, icao, now)]
      ensures View() == Apply(old(View()), Report(callSign, icao, now))
      ensures accepted == Accepts(old(View()), Report(callSign, icao, now))
    {
      var key := FindAircraft(callSign, icao);
      accepted := entries[key].ts + UPDATE_INTERVAL_MS <= now;
      if accepted {
        entries := entries[key := entries[key].(ts := now)];
      }
      EvictStale(now);
      ghost var before := ops;
      ops := ops + [Report(callSign, icao, now)];
      assert ops[..|ops| - 1] == before;
    }

    /** The address of an aircraft known by its callsign only: the one of its own allocation. */
    method GetIcaoAddress(callSign: string) returns (icao: nat)
      requires Valid()
      modifies this
      ensures Valid() && ops == old(ops) + [Lookup(callSign)]
      ensures View() == Apply(old(View()), Lookup(callSign))
      ensures icao == View().entries[Key(callSign, 0)].icao
      ensures icao == Allocated(NumberOf(ops, Key(callSign, 0)))
      ensures 1 <= NumberOf(ops, Key(callSign, 0)) <= View().allocations
    {
      var key := FindAircraft(callSign, 0);
      icao := entries[key].icao;
      ghost var before := ops;
      ops := ops + [Lookup(callSign)];
      assert ops[..|ops| - 1] == before;
      UnaddressedHoldTheirNumber(ops, callSign);
    }
  }
}
