/**
 The token buckets of a network interface (network_interface.c): their arithmetic, the bandwidth they
 allow, and the lazily scheduled refills compared with buckets that tick on every grid point.
 */
module Buckets {

  const CONFIG_MTU: nat := 1500
  const REFILL_INTERVAL: nat := 1_000_000
  const SIMTIME_ONE_SECOND: nat := 1_000_000_000

  datatype Option<T> = None | Some(value: T)

  /** A bucket with the history of its bytes: all that was granted, spent, and lost at the cap. */
  datatype Bucket = Bucket(
    capacity: nat,
    remaining: nat,
    refill: nat,
    granted: nat,
    spent: nat,
    wasted: nat
  )

  function New(bwKiBps: nat): Bucket {
    var refill := bwKiBps * 1024 / 1000;
    Bucket(refill + CONFIG_MTU, 0, refill, 0, 0, 0)
  }

  function Min(a: nat, b: nat): nat { if a < b then a else b }

  /** _networkinterface_refillTokenBucket */
  function Refill(b: Bucket): Bucket {
    var after := Min(b.remaining + b.refill, b.capacity);
    b.(remaining := after, granted := b.granted + b.refill,
       wasted := if b.remaining + b.refill > b.capacity then b.wasted + (b.remaining + b.refill - b.capacity) else b.wasted)
  }

  /** _networkinterface_consumeTokenBucket */
  function Consume(b: Bucket, bytes: nat): Bucket {
    b.(remaining := if bytes >= b.remaining then 0 else b.remaining - bytes, spent := b.spent + bytes)
  }

  /** The refills of one second add up to the configured bandwidth, short by less than a byte each; the
      bucket holds an MTU more than one of them. */
  lemma RefillsGiveBandwidth(bwKiBps: nat)
    ensures var b := New(bwKiBps);
            && bwKiBps * 1024 - (SIMTIME_ONE_SECOND / REFILL_INTERVAL) < b.refill * (SIMTIME_ONE_SECOND / REFILL_INTERVAL)
            && b.refill * (SIMTIME_ONE_SECOND / REFILL_INTERVAL) <= bwKiBps * 1024
            && b.capacity == b.refill + CONFIG_MTU && b.remaining == 0 && Balanced(b)
  {
    assert SIMTIME_ONE_SECOND / REFILL_INTERVAL == 1000;
  }

  predicate WithinCapacity(b: Bucket) { b.remaining <= b.capacity }

  /** Every byte granted was spent, is still there, or was discarded at the cap. */
  predicate Balanced(b: Bucket) { b.granted == b.spent + b.remaining + b.wasted }

  predicate Full(b: Bucket) { b.remaining >= b.capacity }

  lemma RefillBalanced(b: Bucket)
    requires WithinCapacity(b)
    ensures WithinCapacity(Refill(b)) && (Balanced(Refill(b)) <==> Balanced(b))
  {
  }

  /** A packet keeps the books exactly if it is no longer than what the bucket holds. */
  lemma ConsumeBalanced(b: Bucket, bytes: nat)
    requires WithinCapacity(b) && Balanced(b)
    ensures WithinCapacity(Consume(b, bytes))
    ensures Balanced(Consume(b, bytes)) <==> bytes <= b.remaining
    ensures Consume(b, bytes).remaining + Min(bytes, b.remaining) == b.remaining
  {
  }

  // ----- bandwidth over any span ------------------------------------------------------------------

  datatype Use = Spend(bytes: nat) | Tick

  /** What happens to one bucket: packets are spent only while it holds a full MTU. */
  predicate Allowed(b: Bucket, u: Use) { u.Spend? ==> b.remaining >= CONFIG_MTU && u.bytes <= CONFIG_MTU }

  function ApplyUse(b: Bucket, u: Use): Bucket {
    match u
    case Spend(bytes) => Consume(b, bytes)
    case Tick => Refill(b)
  }

  /** `c` is what a span of uses makes of `b`. */
  predicate Spans(b: Bucket, us: seq<Use>, c: Bucket)
    decreases us
  {
    if us == [] then b == c else Allowed(b, us[0]) && Spans(ApplyUse(b, us[0]), us[1..], c)
  }

  function Ticks(us: seq<Use>): nat { if us == [] then 0 else (if us[0].Tick? then 1 else 0) + Ticks(us[1..]) }

  function Bytes(us: seq<Use>): nat { if us == [] then 0 else (if us[0].Spend? then us[0].bytes else 0) + Bytes(us[1..]) }

  lemma UseBalance(b: Bucket, u: Use)
    requires WithinCapacity(b) && Balanced(b) && Allowed(b, u)
    ensures var d := ApplyUse(b, u);
            && WithinCapacity(d) && Balanced(d) && d.capacity == b.capacity && d.refill == b.refill
            && d.spent == b.spent + (if u.Spend? then u.bytes else 0) && d.wasted >= b.wasted
            && d.granted == b.granted + (if u.Tick? then b.refill else 0)
  {
    RefillBalanced(b);
    if u.Spend? { ConsumeBalanced(b, u.bytes); }
  }

  lemma TicksTimes(us: seq<Use>, k: nat)
    requires us != []
    ensures Ticks(us) * k == (if us[0].Tick? then k else 0) + Ticks(us[1..]) * k
  {
    var n := Ticks(us[1..]);
    if us[0].Tick? {
      assert Ticks(us) == n + 1;
      hide Ticks;
      OneMoreTime(n, k);
    } else {
      assert Ticks(us) == n;
    }
  }

  lemma OneMoreTime(n: nat, k: nat)
    ensures (n + 1) * k == k + n * k
  {
  }

  lemma {:induction false} SpanBalance(b: Bucket, us: seq<Use>, c: Bucket)
    requires WithinCapacity(b) && Balanced(b) && Spans(b, us, c)
    ensures WithinCapacity(c) && Balanced(c) && c.capacity == b.capacity && c.refill == b.refill
    ensures c.spent == b.spent + Bytes(us) && c.wasted >= b.wasted
    ensures c.granted == b.granted + Ticks(us) * b.refill
    decreases us
  {
    if us != [] {
      hide WithinCapacity, Balanced, Allowed, ApplyUse;
      UseBalance(b, us[0]);
      SpanBalance(ApplyUse(b, us[0]), us[1..], c);
      TicksTimes(us, b.refill);
      hide Ticks;
    }
  }

  /** The bytes that go out over any span with k refills are at most one capacity plus k refills. */
  lemma BandwidthBound(b: Bucket, us: seq<Use>, c: Bucket)
    requires WithinCapacity(b) && Balanced(b) && Spans(b, us, c)
    ensures Bytes(us) <= b.capacity + Ticks(us) * b.refill
    ensures b.capacity == b.refill + CONFIG_MTU ==> Bytes(us) <= (Ticks(us) + 1) * b.refill + CONFIG_MTU
  {
    SpanBalance(b, us, c);
  }

  function Refilled(b: Bucket, k: nat): Bucket { if k == 0 then b else Refill(Refilled(b, k - 1)) }

  lemma OneTimeMore(k: nat, refill: nat)
    requires k > 0
    ensures k * refill == (k - 1) * refill + refill
  {
  }

  /** What a bucket that nobody drains holds after `k` refills: all of them, up to its capacity. */
  lemma {:induction false} RefilledExactly(b: Bucket, k: nat)
    requires WithinCapacity(b)
    ensures Refilled(b, k).remaining == Min(b.remaining + k * b.refill, b.capacity)
    ensures Refilled(b, k).refill == b.refill && Refilled(b, k).capacity == b.capacity
  {
    if k > 0 {
      RefilledExactly(b, k - 1);
      OneTimeMore(k, b.refill);
    }
  }

  /** With some bandwidth a bucket that nobody drains is full after finitely many refills, and holds a
      full MTU after at most MTU of them. */
  lemma RefillsReachMtu(b: Bucket, k: nat)
    requires WithinCapacity(b) && b.refill > 0 && b.capacity == b.refill + CONFIG_MTU
    ensures Refilled(b, k).remaining >= Min(b.remaining + k, b.capacity) && WithinCapacity(Refilled(b, k))
    ensures Refilled(b, k).refill == b.refill && Refilled(b, k).capacity == b.capacity
    ensures k >= CONFIG_MTU ==> Refilled(b, k).remaining >= CONFIG_MTU
  {
    RefilledExactly(b, k);
    AtLeastOneEach(k, b.refill);
  }

  lemma AtLeastOneEach(k: nat, refill: nat)
    requires refill > 0
    ensures k * refill >= k
  {
  }

  /** Bytes are lost only at the cap: if a span lost some, one of its refills left the bucket full. */
  lemma {:induction false} WasteFills(b: Bucket, us: seq<Use>, c: Bucket) returns (k: nat, d: Bucket)
    requires WithinCapacity(b) && Spans(b, us, c) && c.wasted > b.wasted
    ensures k < |us| && us[k].Tick? && Spans(b, us[..k + 1], d) && d.remaining == d.capacity
    decreases us
  {
    var n := ApplyUse(b, us[0]);
    if n.wasted > b.wasted {
      k, d := 0, n;
      assert us[..1][1..] == [];
      assert Spans(n, [], n);
    } else {
      k, d := WasteFills(n, us[1..], c);
      assert us[..k + 2][1..] == us[1..][..k + 1];
      k := k + 1;
    }
  }

  /** Every refill of the span finds less than an MTU: the sender always has packets and stalls only for
      bytes. */
  predicate Drained(b: Bucket, us: seq<Use>)
    decreases us
  { us != [] ==> (us[0].Tick? ==> b.remaining < CONFIG_MTU) && Drained(ApplyUse(b, us[0]), us[1..]) }

  lemma DrainedStep(b: Bucket, u: Use)
    requires b.capacity == b.refill + CONFIG_MTU && (u.Tick? ==> b.remaining < CONFIG_MTU)
    ensures var n := ApplyUse(b, u); n.wasted == b.wasted && n.capacity == b.capacity && n.refill == b.refill
  {
  }

  lemma {:induction false} DrainedWastesNothing(b: Bucket, us: seq<Use>, c: Bucket)
    requires b.capacity == b.refill + CONFIG_MTU && Spans(b, us, c) && Drained(b, us)
    ensures c.wasted == b.wasted
    decreases us
  {
    if us != [] {
      DrainedStep(b, us[0]);
      DrainedWastesNothing(ApplyUse(b, us[0]), us[1..], c);
    }
  }

  /** The other half of BandwidthBound: a sender that never runs out of packets gets the bytes of every
      refill, save what the bucket still holds. */
  lemma BandwidthReached(b: Bucket, us: seq<Use>, c: Bucket)
    requires b.capacity == b.refill + CONFIG_MTU && WithinCapacity(b) && Balanced(b)
    requires Spans(b, us, c) && Drained(b, us)
    ensures Bytes(us) + c.remaining == b.remaining + Ticks(us) * b.refill
    ensures c.remaining < CONFIG_MTU ==> Bytes(us) + CONFIG_MTU > Ticks(us) * b.refill
  {
    SpanBalance(b, us, c);
    DrainedWastesNothing(b, us, c);
    var granted := Ticks(us) * b.refill;
  }

  // ----- lazy and eager refills -------------------------------------------------------------------

  datatype Side = Sending | Receiving

  datatype Pair = Pair(send: Bucket, recv: Bucket)

  function ConsumeOn(p: Pair, side: Side, bytes: nat): Pair {
    if side.Sending? then p.(send := Consume(p.send, bytes)) else p.(recv := Consume(p.recv, bytes))
  }

  function RefillBoth(p: Pair): Pair { Pair(Refill(p.send), Refill(p.recv)) }

  predicate BothFull(p: Pair) { Full(p.send) && Full(p.recv) }

  predicate BothWithin(p: Pair) { WithinCapacity(p.send) && WithinCapacity(p.recv) }

  /** The same bytes; the history of the buckets may differ. */
  predicate SameBytes(p: Pair, q: Pair) {
    && p.send.remaining == q.send.remaining && p.send.capacity == q.send.capacity && p.send.refill == q.send.refill
    && p.recv.remaining == q.recv.remaining && p.recv.capacity == q.recv.capacity && p.recv.refill == q.recv.refill
  }

  function GridIndex(start: nat, now: nat): nat
    requires start <= now
  { (now - start) / REFILL_INTERVAL }

  /** The next refill time that a bucket ticking every interval since `start` would have, computed as
      _networkinterface_scheduleNextRefill does. */
  function NextGrid(start: nat, now: nat): nat
    requires start <= now
  { now + (REFILL_INTERVAL - (now - start) % REFILL_INTERVAL) }

  lemma NextGridIsNextTick(start: nat, now: nat)
    requires start <= now
    ensures NextGrid(start, now) == start + (GridIndex(start, now) + 1) * REFILL_INTERVAL
    ensures now < NextGrid(start, now) <= now + REFILL_INTERVAL
  {
  }

  /** _networkinterface_scheduleNextRefillIfNeeded */
  function ScheduleIfNeeded(start: nat, now: nat, p: Pair, pending: Option<nat>): Option<nat>
    requires start <= now
  { if !BothFull(p) && pending == None then Some(NextGrid(start, now)) else pending }

  /** What an observer sees: bytes used at some time. */
  datatype Used = Used(at: nat, side: Side, bytes: nat)

  datatype Lazy = Lazy(start: nat, now: nat, pair: Pair, pending: Option<nat>)

  datatype Eager = Eager(start: nat, now: nat, pair: Pair, ticks: nat)

  /** The state right after the refill task added its bytes, before it looks for the next refill. */
  function AfterRefill(l: Lazy): (n: Lazy)
    requires l.start <= l.now
    ensures n.start == l.start && n.now == l.now
  { l.(pair := RefillBoth(l.pair), pending := None) }

  datatype Move = Use(side: Side, bytes: nat) | Advance(time: nat) | Silent

  /** After networkinterface_startRefillingTokenBuckets. */
  function LazyBoot(start: nat, p: Pair): Lazy {
    Lazy(start, start, RefillBoth(p), ScheduleIfNeeded(start, start, RefillBoth(p), None))
  }

  function EagerBoot(start: nat, p: Pair): Eager { Eager(start, start, RefillBoth(p), 0) }

  /** One move of the lazy buckets.  Time never passes a pending refill; the silent move is the refill
      task itself. */
  predicate LazyStep(l: Lazy, x: Move, n: Lazy) {
    && l.start <= l.now
    && match x
       case Use(side, bytes) =>
         var p := ConsumeOn(l.pair, side, bytes);
         n == l.(pair := p, pending := ScheduleIfNeeded(l.start, l.now, p, l.pending))
       case Advance(time) =>
         l.now < time && (l.pending.Some? ==> time <= l.pending.value) && n == l.(now := time)
       case Silent =>
         && l.pending == Some(l.now)
         && var p := RefillBoth(l.pair);
            n == l.(pair := p, pending := ScheduleIfNeeded(l.start, l.now, p, None))
  }

  /** One move of buckets that tick on every grid point: time never passes one that has not ticked;
      the silent move is a tick that is due. */
  predicate EagerStep(e: Eager, x: Move, n: Eager) {
    && e.start <= e.now
    && match x
       case Use(side, bytes) => n == e.(pair := ConsumeOn(e.pair, side, bytes))
       case Advance(time) =>
         && e.now < time <= NextGrid(e.start, e.now) && e.ticks == GridIndex(e.start, e.now)
         && n == e.(now := time)
       case Silent =>
         e.ticks < GridIndex(e.start, e.now) && n == e.(pair := RefillBoth(e.pair), ticks := e.ticks + 1)
  }

  function Seen(trace: seq<Used>, x: Move, now: nat): seq<Used> {
    if x.Use? then trace + [Used(now, x.side, x.bytes)] else trace
  }

  ghost predicate LazyRun(start: nat, p: Pair, steps: nat, trace: seq<Used>, l: Lazy) {
    if steps == 0 then trace == [] && l == LazyBoot(start, p)
    else exists m: Lazy, before: seq<Used>, x: Move ::
        LazyRun(start, p, steps - 1, before, m) && LazyStep(m, x, l) && trace == Seen(before, x, m.now)
  }

  ghost predicate EagerRun(start: nat, p: Pair, steps: nat, trace: seq<Used>, e: Eager) {
    if steps == 0 then trace == [] && e == EagerBoot(start, p)
    else exists m: Eager, before: seq<Used>, x: Move ::
        EagerRun(start, p, steps - 1, before, m) && EagerStep(m, x, e) && trace == Seen(before, x, m.now)
  }

  ghost predicate EagerReaches(start: nat, p: Pair, trace: seq<Used>, e: Eager) {
    exists steps: nat :: EagerRun(start, p, steps, trace, e)
  }

  ghost predicate OnGrid(e: Eager) {
    e.start + e.ticks * REFILL_INTERVAL <= e.now <= e.start + (e.ticks + 1) * REFILL_INTERVAL
  }

  lemma OnGridStep(e: Eager, x: Move, n: Eager)
    requires OnGrid(e) && EagerStep(e, x, n)
    ensures OnGrid(n) && n.start == e.start
  {
    NextGridIsNextTick(e.start, e.now);
  }

  lemma OnGridBoot(start: nat, p: Pair, trace: seq<Used>, e: Eager)
    requires EagerRun(start, p, 0, trace, e)
    ensures e.start == start && OnGrid(e)
  {
    assert e == EagerBoot(start, p);
  }

  lemma LastStep(start: nat, p: Pair, steps: nat, trace: seq<Used>, e: Eager)
    returns (m: Eager, before: seq<Used>, x: Move)
    requires steps > 0 && EagerRun(start, p, steps, trace, e)
    ensures EagerRun(start, p, steps - 1, before, m) && EagerStep(m, x, e) && trace == Seen(before, x, m.now)
  {
    m, before, x :|
      EagerRun(start, p, steps - 1, before, m) && EagerStep(m, x, e) && trace == Seen(before, x, m.now);
  }

  /** The eager buckets tick exactly once on every grid point: at any time the ticks so far are those
      of the grid points that have passed, save possibly one that is due right now. */
  lemma {:induction false} EagerTicksOnGrid(start: nat, p: Pair, steps: nat, trace: seq<Used>, e: Eager)
    requires EagerRun(start, p, steps, trace, e)
    ensures e.start == start && OnGrid(e)
  {
    hide *;
    if steps == 0 {
      OnGridBoot(start, p, trace, e);
    } else {
      var m, before, x := LastStep(start, p, steps, trace, e);
      EagerTicksOnGrid(start, p, steps - 1, before, m);
      OnGridStep(m, x, e);
    }
  }

  /** How a lazy state and an eager one correspond. */
  ghost predicate Corresponds(l: Lazy, e: Eager) {
    && l.start == e.start <= l.now == e.now
    && SameBytes(l.pair, e.pair) && BothWithin(l.pair)
    && e.start + e.ticks * REFILL_INTERVAL <= e.now
    && match l.pending
       case None => BothFull(l.pair) && e.ticks == GridIndex(e.start, e.now)
       case Some(g) => e.now <= g == e.start + (e.ticks + 1) * REFILL_INTERVAL
  }

  lemma EagerMore(start: nat, p: Pair, trace: seq<Used>, m: Eager, x: Move, e: Eager)
    requires EagerReaches(start, p, trace, m) && EagerStep(m, x, e)
    ensures EagerReaches(start, p, Seen(trace, x, m.now), e)
  {
    var steps: nat :| EagerRun(start, p, steps, trace, m);
    assert EagerRun(start, p, steps + 1, Seen(trace, x, m.now), e);
  }

  /** Full buckets let any number of grid points pass without a change: every skipped tick finds them
      full and comes first in its instant. */
  lemma {:induction false} SkipTicks(start: nat, p: Pair, trace: seq<Used>, e: Eager, time: nat) returns (n: Eager)
    requires EagerReaches(start, p, trace, e) && e.start <= e.now < time
    requires BothFull(e.pair) && BothWithin(e.pair) && e.ticks == GridIndex(e.start, e.now)
    ensures EagerReaches(start, p, trace, n)
    ensures n.start == e.start && n.now == time && n.ticks == GridIndex(e.start, time) && SameBytes(n.pair, e.pair)
    decreases time - e.now
  {
    var g := NextGrid(e.start, e.now);
    NextGridIsNextTick(e.start, e.now);
    if time < g {
      n := e.(now := time);
      EagerMore(start, p, trace, e, Advance(time), n);
    } else {
      var m := e.(now := g);
      EagerMore(start, p, trace, e, Advance(g), m);
      n := m.(pair := RefillBoth(m.pair), ticks := m.ticks + 1);
      EagerMore(start, p, trace, m, Silent, n);
      if g < time { n := SkipTicks(start, p, trace, n, time); }
    }
  }

  lemma SimulateStep(start: nat, p: Pair, trace: seq<Used>, l: Lazy, e: Eager, x: Move, n: Lazy) returns (f: Eager)
    requires EagerReaches(start, p, trace, e) && Corresponds(l, e) && LazyStep(l, x, n)
    ensures EagerReaches(start, p, Seen(trace, x, l.now), f) && Corresponds(n, f)
  {
    NextGridIsNextTick(l.start, l.now);
    match x
    case Use(side, bytes) =>
      f := e.(pair := ConsumeOn(e.pair, side, bytes));
      EagerMore(start, p, trace, e, x, f);
    case Silent =>
      f := e.(pair := RefillBoth(e.pair), ticks := e.ticks + 1);
      EagerMore(start, p, trace, e, x, f);
    case Advance(time) =>
      if l.pending == None {
        f := SkipTicks(start, p, trace, e, time);
      } else {
        f := e.(now := time);
        EagerMore(start, p, trace, e, x, f);
      }
  }

  /** The lazily scheduled refills are indistinguishable from ticking every interval: whatever an
      observer sees of a lazy run, buckets that tick on every grid point show the same, and hold the
      same bytes at the same time. */
  lemma {:induction false} LazyRefinesEager(start: nat, p: Pair, steps: nat, trace: seq<Used>, l: Lazy) returns (e: Eager)
    requires BothWithin(p) && LazyRun(start, p, steps, trace, l)
    ensures EagerReaches(start, p, trace, e) && e.now == l.now && SameBytes(e.pair, l.pair)
    ensures Corresponds(l, e)
  {
    if steps == 0 {
      NextGridIsNextTick(start, start);
      e := EagerBoot(start, p);
      assert EagerRun(start, p, 0, trace, e);
    } else {
      var m: Lazy, before: seq<Used>, x: Move :|
        LazyRun(start, p, steps - 1, before, m) && LazyStep(m, x, l) && trace == Seen(before, x, m.now);
      var d := LazyRefinesEager(start, p, steps - 1, before, m);
      e := SimulateStep(start, p, before, m, d, x, l);
    }
  }

  // ----- what the interface does to its buckets within one instant ---------------------------------

  /** One packet is accounted for and a refill scheduled if needed. */
  function UseOne(l: Lazy, side: Side, bytes: nat): (n: Lazy)
    requires l.start <= l.now
    ensures n.start == l.start && n.now == l.now && LazyStep(l, Use(side, bytes), n)
  {
    var p := ConsumeOn(l.pair, side, bytes);
    l.(pair := p, pending := ScheduleIfNeeded(l.start, l.now, p, l.pending))
  }

  lemma UseOneSends(l: Lazy, bytes: nat)
    requires l.start <= l.now
    ensures UseOne(l, Sending, bytes).pair == Pair(Consume(l.pair.send, bytes), l.pair.recv)
  {
  }

  lemma UseOneReceives(l: Lazy, bytes: nat)
    requires l.start <= l.now
    ensures UseOne(l, Receiving, bytes).pair == Pair(l.pair.send, Consume(l.pair.recv, bytes))
  {
  }

  /** A packet that is accounted for on one side. */
  datatype Charge = Charge(side: Side, bytes: nat)

  /** The packets of one instant, in the order in which they are accounted for. */
  function Uses(l: Lazy, cs: seq<Charge>): (n: Lazy)
    requires l.start <= l.now
    ensures n.start == l.start && n.now == l.now
    decreases |cs|
  {
    if cs == [] then l
    else UseOne(Uses(l, cs[..|cs| - 1]), cs[|cs| - 1].side, cs[|cs| - 1].bytes)
  }

  lemma UsesThen(l: Lazy, cs: seq<Charge>, c: Charge)
    requires l.start <= l.now
    ensures Uses(l, cs + [c]) == UseOne(Uses(l, cs), c.side, c.bytes)
  {
    assert (cs + [c])[..|cs|] == cs;
  }

  lemma {:induction false} UsesConcat(l: Lazy, cs: seq<Charge>, ds: seq<Charge>)
    requires l.start <= l.now
    ensures Uses(l, cs + ds) == Uses(Uses(l, cs), ds)
    decreases |ds|
  {
    if ds == [] {
      assert cs + ds == cs;
    } else {
      var k := |ds| - 1;
      assert cs + ds == (cs + ds[..k]) + [ds[k]];
      UsesConcat(l, cs, ds[..k]);
      UsesThen(l, cs + ds[..k], ds[k]);
    }
  }

  function Charges(side: Side, sizes: seq<nat>): seq<Charge> {
    if sizes == [] then [] else Charges(side, sizes[..|sizes| - 1]) + [Charge(side, sizes[|sizes| - 1])]
  }

  /** The bytes that were accounted for on one side. */
  function OfSide(cs: seq<Charge>, side: Side): seq<nat> {
    if cs == [] then []
    else OfSide(cs[..|cs| - 1], side) + if cs[|cs| - 1].side == side then [cs[|cs| - 1].bytes] else []
  }

  lemma ChargesThen(side: Side, sizes: seq<nat>, bytes: nat)
    ensures Charges(side, sizes + [bytes]) == Charges(side, sizes) + [Charge(side, bytes)]
  {
    assert (sizes + [bytes])[..|sizes|] == sizes;
  }

  lemma {:induction false} ChargesConcat(side: Side, xs: seq<nat>, ys: seq<nat>)
    ensures Charges(side, xs + ys) == Charges(side, xs) + Charges(side, ys)
  {
    if ys == [] {
      assert xs + ys == xs;
    } else {
      assert (xs + ys)[..|xs + ys| - 1] == xs + ys[..|ys| - 1];
      ChargesConcat(side, xs, ys[..|ys| - 1]);
    }
  }

  lemma {:induction false} ChargesOfSide(side: Side, sizes: seq<nat>, other: Side)
    ensures OfSide(Charges(side, sizes), other) == if other == side then sizes else []
  {
    if sizes != [] {
      var k := |sizes| - 1;
      ChargesOfSide(side, sizes[..k], other);
      assert (Charges(side, sizes[..k]) + [Charge(side, sizes[k])])[..|Charges(side, sizes[..k])|] == Charges(side, sizes[..k]);
    }
  }

  lemma {:induction false} OfSideConcat(cs: seq<Charge>, ds: seq<Charge>, side: Side)
    ensures OfSide(cs + ds, side) == OfSide(cs, side) + OfSide(ds, side)
  {
    if ds == [] {
      assert cs + ds == cs;
    } else {
      assert (cs + ds)[..|cs + ds| - 1] == cs + ds[..|ds| - 1];
      OfSideConcat(cs, ds[..|ds| - 1], side);
    }
  }

  function Scheduled(l: Lazy): (n: Lazy)
    requires l.start <= l.now
    ensures n.start == l.start && n.now == l.now
  { l.(pending := ScheduleIfNeeded(l.start, l.now, l.pair, l.pending)) }

  /** Whenever a bucket is below its capacity a refill is pending. */
  predicate Covered(l: Lazy) { BothFull(l.pair) || l.pending.Some? }

  lemma {:induction false} UsesCovered(l: Lazy, cs: seq<Charge>)
    requires l.start <= l.now
    ensures Covered(l) || cs != [] ==> Covered(Uses(l, cs))
    ensures Covered(Scheduled(l))
  {
  }

  /** Scheduling a refill before the packets of an instant or after them comes to the same. */
  lemma {:induction false} ScheduleLate(l: Lazy, cs: seq<Charge>)
    requires l.start <= l.now
    ensures Scheduled(Uses(l, cs)) == Uses(Scheduled(l), cs)
    decreases |cs|
  {
    if cs != [] { ScheduleLate(l, cs[..|cs| - 1]); }
  }

  lemma {:induction false} SpansThen(b: Bucket, us: seq<Use>, c: Bucket, u: Use)
    requires Spans(b, us, c) && Allowed(c, u)
    ensures Spans(b, us + [u], ApplyUse(c, u))
    decreases us
  {
    hide Allowed, ApplyUse;
    if us != [] {
      assert (us + [u])[1..] == us[1..] + [u];
      SpansThen(ApplyUse(b, us[0]), us[1..], c, u);
    } else {
      assert (us + [u])[1..] == [];
      assert Spans(ApplyUse(c, u), [], ApplyUse(c, u));
    }
  }

  lemma {:induction false} SpansConcat(b: Bucket, us: seq<Use>, c: Bucket, vs: seq<Use>, d: Bucket)
    requires Spans(b, us, c) && Spans(c, vs, d)
    ensures Spans(b, us + vs, d)
    decreases us
  {
    hide Allowed, ApplyUse;
    if us == [] {
      assert us + vs == vs;
    } else {
      assert (us + vs)[1..] == us[1..] + vs;
      SpansConcat(ApplyUse(b, us[0]), us[1..], c, vs, d);
    }
  }

  lemma {:induction false} CountsConcat(us: seq<Use>, vs: seq<Use>)
    ensures Ticks(us + vs) == Ticks(us) + Ticks(vs) && Bytes(us + vs) == Bytes(us) + Bytes(vs)
  {
    if us == [] {
      assert us + vs == vs;
    } else {
      assert (us + vs)[1..] == us[1..] + vs;
      CountsConcat(us[1..], vs);
    }
  }

  // ----- how many refills a span of time can hold ----------------------------------------------------

  /** After `ticks` refills since grid point `first`: a pending refill lies on the grid, at most one
      interval ahead, and no grid point had two refills. */
  predicate TicksOnGrid(l: Lazy, first: nat, ticks: nat) {
    && l.start <= l.now
    && match l.pending
       case None => first + ticks <= GridIndex(l.start, l.now) + 1
       case Some(g) =>
         && l.now <= g <= l.now + REFILL_INTERVAL
         && g == l.start + GridIndex(l.start, g) * REFILL_INTERVAL
         && first + ticks <= GridIndex(l.start, g)
  }

  lemma GridMonotone(start: nat, a: nat, b: nat)
    requires start <= a <= b
    ensures GridIndex(start, a) <= GridIndex(start, b)
    ensures b <= a + REFILL_INTERVAL ==> GridIndex(start, b) <= GridIndex(start, a) + 1
  {
  }

  lemma NextGridIndex(start: nat, now: nat)
    requires start <= now
    ensures GridIndex(start, NextGrid(start, now)) == GridIndex(start, now) + 1
    ensures now < NextGrid(start, now) <= now + REFILL_INTERVAL
    ensures NextGrid(start, now) == start + GridIndex(start, NextGrid(start, now)) * REFILL_INTERVAL
  {
    NextGridIsNextTick(start, now);
    var k := GridIndex(start, now) + 1;
    assert NextGrid(start, now) - start == k * REFILL_INTERVAL;
    assert k * REFILL_INTERVAL / REFILL_INTERVAL == k;
  }

  lemma ScheduledOnGrid(l: Lazy, first: nat, ticks: nat)
    requires TicksOnGrid(l, first, ticks)
    ensures TicksOnGrid(Scheduled(l), first, ticks)
  {
    hide GridIndex, NextGrid;
    NextGridIndex(l.start, l.now);
  }

  lemma {:induction false} UsesOnGrid(l: Lazy, first: nat, ticks: nat, cs: seq<Charge>)
    requires TicksOnGrid(l, first, ticks)
    ensures TicksOnGrid(Uses(l, cs), first, ticks)
    decreases |cs|
  {
    if cs != [] {
      var k := |cs| - 1;
      var m := Uses(l, cs[..k]);
      UsesOnGrid(l, first, ticks, cs[..k]);
      hide Uses, TicksOnGrid;
      UseOneOnGrid(m, first, ticks, cs[k].side, cs[k].bytes);
    }
  }

  lemma UseOneOnGrid(l: Lazy, first: nat, ticks: nat, side: Side, bytes: nat)
    requires TicksOnGrid(l, first, ticks)
    ensures TicksOnGrid(UseOne(l, side, bytes), first, ticks)
  {
    hide GridIndex, NextGrid;
    NextGridIndex(l.start, l.now);
  }

  lemma RefillOnGrid(l: Lazy, first: nat, ticks: nat)
    requires TicksOnGrid(l, first, ticks) && l.pending == Some(l.now)
    ensures TicksOnGrid(AfterRefill(l), first, ticks + 1)
  {
    hide GridIndex;
  }

  lemma AdvanceOnGrid(l: Lazy, first: nat, ticks: nat, time: nat)
    requires TicksOnGrid(l, first, ticks) && l.now <= time && (l.pending.Some? ==> time <= l.pending.value)
    ensures TicksOnGrid(l.(now := time), first, ticks)
  {
    hide GridIndex;
    GridMonotone(l.start, l.now, time);
  }

  /** So the refills that a span of time holds are bounded by the grid points in it. */
  lemma TicksBounded(l: Lazy, first: nat, ticks: nat)
    requires TicksOnGrid(l, first, ticks)
    ensures first + ticks <= GridIndex(l.start, l.now) + 1
  {
    hide GridIndex;
    if l.pending.Some? { GridMonotone(l.start, l.now, l.pending.value); }
  }

  // ----- an interface follows the lazy buckets ---------------------------------------------------------

  ghost predicate LazyReaches(start: nat, p: Pair, trace: seq<Used>, l: Lazy) {
    exists steps: nat :: LazyRun(start, p, steps, trace, l)
  }

  lemma LazyMore(start: nat, p: Pair, trace: seq<Used>, l: Lazy, x: Move, n: Lazy)
    requires LazyReaches(start, p, trace, l) && LazyStep(l, x, n)
    ensures LazyReaches(start, p, Seen(trace, x, l.now), n)
  {
    var steps: nat :| LazyRun(start, p, steps, trace, l);
    assert LazyRun(start, p, steps + 1, Seen(trace, x, l.now), n);
  }

  /** `l` is reached by a run of the lazy buckets that shows `trace`, with `ticks` refills since grid point
      `first`. */
  ghost predicate Follows(start: nat, p: Pair, trace: seq<Used>, l: Lazy, first: nat, ticks: nat) {
    LazyReaches(start, p, trace, l) && TicksOnGrid(l, first, ticks)
  }

  function UsedAll(at: nat, cs: seq<Charge>): seq<Used> {
    if cs == [] then [] else UsedAll(at, cs[..|cs| - 1]) + [Used(at, cs[|cs| - 1].side, cs[|cs| - 1].bytes)]
  }

  lemma {:induction false} UsesReach(start: nat, p: Pair, trace: seq<Used>, l: Lazy, cs: seq<Charge>)
    requires LazyReaches(start, p, trace, l) && l.start <= l.now
    ensures LazyReaches(start, p, trace + UsedAll(l.now, cs), Uses(l, cs))
    decreases |cs|
  {
    if cs == [] {
      assert trace + UsedAll(l.now, cs) == trace;
    } else {
      var k := |cs| - 1;
      var m := Uses(l, cs[..k]);
      UsesReach(start, p, trace, l, cs[..k]);
      var before := trace + UsedAll(l.now, cs[..k]);
      assert trace + UsedAll(l.now, cs) == before + [Used(l.now, cs[k].side, cs[k].bytes)];
      hide UsedAll, LazyReaches;
      LazyMore(start, p, before, m, Use(cs[k].side, cs[k].bytes), UseOne(m, cs[k].side, cs[k].bytes));
    }
  }

  lemma FollowUses(start: nat, p: Pair, trace: seq<Used>, l: Lazy, first: nat, ticks: nat, cs: seq<Charge>)
    requires Follows(start, p, trace, l, first, ticks) && l.start <= l.now
    ensures Follows(start, p, trace + UsedAll(l.now, cs), Uses(l, cs), first, ticks)
  {
    hide LazyReaches, TicksOnGrid, Uses, UsedAll;
    UsesReach(start, p, trace, l, cs);
    UsesOnGrid(l, first, ticks, cs);
  }

  lemma FollowRefill(start: nat, p: Pair, trace: seq<Used>, l: Lazy, first: nat, ticks: nat)
    requires Follows(start, p, trace, l, first, ticks) && l.start <= l.now && l.pending == Some(l.now)
    ensures Follows(start, p, trace, Scheduled(AfterRefill(l)), first, ticks + 1)
  {
    hide LazyReaches, TicksOnGrid;
    LazyMore(start, p, trace, l, Silent, Scheduled(AfterRefill(l)));
    RefillOnGrid(l, first, ticks);
    ScheduledOnGrid(AfterRefill(l), first, ticks + 1);
  }

  lemma FollowAdvance(start: nat, p: Pair, trace: seq<Used>, l: Lazy, first: nat, ticks: nat, time: nat)
    requires Follows(start, p, trace, l, first, ticks) && l.start <= l.now < time
    requires l.pending.Some? ==> time <= l.pending.value
    ensures Follows(start, p, trace, l.(now := time), first, ticks)
  {
    hide LazyReaches, TicksOnGrid;
    LazyMore(start, p, trace, l, Advance(time), l.(now := time));
    AdvanceOnGrid(l, first, ticks, time);
  }

  /** The state after the boot, and what its packets make of it. */
  lemma FollowBoot(start: nat, p: Pair, cs: seq<Charge>) returns (trace: seq<Used>)
    ensures Follows(start, p, trace, Uses(LazyBoot(start, p), cs), GridIndex(start, start), 0)
  {
    var l := LazyBoot(start, p);
    assert LazyRun(start, p, 0, [], l);
    BootTicks(start, p);
    assert Follows(start, p, [], l, GridIndex(start, start), 0);
    hide Follows, LazyBoot, Uses, GridIndex;
    FollowUses(start, p, [], l, GridIndex(start, start), 0, cs);
    trace := [] + UsedAll(start, cs);
  }

  lemma BootTicks(start: nat, p: Pair)
    ensures LazyBoot(start, p).start == LazyBoot(start, p).now == start
    ensures TicksOnGrid(LazyBoot(start, p), GridIndex(start, start), 0)
  {
    NextGridIndex(start, start);
  }

  /** What follows the lazy buckets shows what buckets that tick on every grid point show. */
  lemma FollowsEager(start: nat, p: Pair, trace: seq<Used>, l: Lazy, first: nat, ticks: nat) returns (e: Eager)
    requires BothWithin(p) && Follows(start, p, trace, l, first, ticks)
    ensures EagerReaches(start, p, trace, e) && e.now == l.now && SameBytes(e.pair, l.pair)
    ensures first + ticks <= GridIndex(l.start, l.now) + 1
  {
    TicksBounded(l, first, ticks);
    var steps: nat :| LazyRun(start, p, steps, trace, l);
    hide LazyRun, TicksOnGrid, EagerReaches, SameBytes;
    e := LazyRefinesEager(start, p, steps, trace, l);
  }
}
