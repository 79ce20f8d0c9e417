/**
 A network interface (network_interface.c): two token buckets, a queuing discipline, and the refills it
 schedules.  The event queue is seen only as the one refill task that may be pending; the upstream
 router is the sequence of packets that it would hand out.
 */
module NetworkInterfaceModel {
  import B = Buckets
  import H = PriorityQueues
  import opened SocketQueues

  class TokenBucket {
    var bytesCapacity: nat
    var bytesRemaining: nat
    var bytesRefill: nat
    ghost var granted: nat
    ghost var spent: nat
    ghost var wasted: nat

    ghost function View(): B.Bucket
      reads this
    { B.Bucket(bytesCapacity, bytesRemaining, bytesRefill, granted, spent, wasted) }

    /** _networkinterface_setupTokenBuckets for one bucket */
    constructor (bwKiBps: nat)
      ensures View() == B.New(bwKiBps)
    {
      var timeFactor := 1_000_000_000 / B.REFILL_INTERVAL;
      bytesRefill := bwKiBps * 1024 / timeFactor;
      bytesCapacity := bwKiBps * 1024 / timeFactor + B.CONFIG_MTU;
      bytesRemaining := 0;
      granted, spent, wasted := 0, 0, 0;
    }

    method Refill()
      modifies this
      ensures View() == B.Refill(old(View()))
    {
      bytesRemaining := bytesRemaining + bytesRefill;
      granted := granted + bytesRefill;
      if bytesRemaining > bytesCapacity {
        wasted := wasted + (bytesRemaining - bytesCapacity);
        bytesRemaining := bytesCapacity;
      }
    }

    method Consume(bytesConsumed: nat)
      modifies this
      ensures View() == B.Consume(old(View()), bytesConsumed)
    {
      spent := spent + bytesConsumed;
      if bytesConsumed >= bytesRemaining {
        bytesRemaining := 0;
      } else {
        bytesRemaining := bytesRemaining - bytesConsumed;
      }
    }
  }

  function Sizes(es: seq<Entry>): (r: seq<nat>)
    ensures |r| == |es|
  { if es == [] then [] else Sizes(es[..|es| - 1]) + [es[|es| - 1].packet.size] }

  function PacketSizes(ps: seq<Packet>): (r: seq<nat>)
    ensures |r| == |ps|
  { if ps == [] then [] else PacketSizes(ps[..|ps| - 1]) + [ps[|ps| - 1].size] }

  /** The packets that go to the given address, or those that do not. */
  function Bound(es: seq<Entry>, address: nat, here: bool): seq<Packet> {
    if es == [] then []
    else
      var p := es[|es| - 1].packet;
      Bound(es[..|es| - 1], address, here) + if (p.destination == address) == here then [p] else []
  }

  function Spends(sizes: seq<nat>): seq<B.Use> {
    if sizes == [] then [] else Spends(sizes[..|sizes| - 1]) + [B.Spend(sizes[|sizes| - 1])]
  }

  function Total(sizes: seq<nat>): nat { if sizes == [] then 0 else Total(sizes[..|sizes| - 1]) + sizes[|sizes| - 1] }

  /** What may happen to an interface: a socket buffers a packet, the router has one, the pending refill
      task is due, time passes.  `answers` are the packets that sockets buffer while the first, second, ...
      packet is received: TCP acknowledges and flushes from inside the receive loop. */
  datatype Op =
    | Buffered(sock: nat, packet: Packet)
    | Arrived(packet: Packet, answers: seq<seq<Entry>>)
    | RefillDue(answers: seq<seq<Entry>>)
    | Passes(time: nat)

  /** Entries of sockets that exist. */
  function OfSockets(es: seq<Entry>, n: nat): seq<Entry> {
    if es == [] then []
    else OfSockets(es[..|es| - 1], n) + if es[|es| - 1].sock < n then [es[|es| - 1]] else []
  }

  lemma OneOfSockets(es: seq<Entry>, i: nat, n: nat)
    requires i < |es|
    ensures OfSockets(es[..i + 1], n) == OfSockets(es[..i], n) + if es[i].sock < n then [es[i]] else []
  {
    assert es[..i + 1][..i] == es[..i];
  }

  /** What sockets buffer while the first `k` packets are received. */
  function AnswersTo(answers: seq<seq<Entry>>, k: nat, n: nat): seq<Entry> {
    if k == 0 then [] else AnswersTo(answers, k - 1, n) + OfSockets(if k <= |answers| then answers[k - 1] else [], n)
  }

  function Arrivals(ops: seq<Op>): seq<Packet> {
    if ops == [] then []
    else Arrivals(ops[..|ops| - 1]) + if ops[|ops| - 1].Arrived? then [ops[|ops| - 1].packet] else []
  }

  /** What sockets buffer when `op` happens and `taken` packets are received. */
  function OpOffers(op: Op, taken: nat, n: nat): seq<Entry> {
    match op
    case Buffered(s, p) => [Entry(s, p)]
    case Arrived(_, answers) => AnswersTo(answers, taken, n)
    case RefillDue(answers) => AnswersTo(answers, taken, n)
    case Passes(_) => []
  }

  lemma NoArrivals()
    ensures Arrivals([]) == []
  {
  }

  lemma OneArrival(ops: seq<Op>, i: nat)
    requires i < |ops|
    ensures Arrivals(ops[..i + 1]) == Arrivals(ops[..i]) + Arrivals([ops[i]])
  {
    assert ops[..i + 1][..i] == ops[..i];
    assert [ops[i]][..0] == [];
  }

  lemma SplitsAt<T>(before: seq<T>, after: seq<T>)
    requires before <= after
    ensures after == before + after[|before|..]
  {
  }

  lemma TakenInOrder(start: seq<Packet>, arrived: seq<Packet>, taken: seq<Packet>, waiting: seq<Packet>, late: seq<Packet>,
                     more: seq<Packet>, left: seq<Packet>)
    requires start + arrived == taken + waiting && waiting + late == more + left
    ensures start + (arrived + late) == (taken + more) + left
  {
    assert start + (arrived + late) == (start + arrived) + late;
    assert (taken + waiting) + late == taken + (waiting + late);
  }

  predicate WithinMtu(sizes: seq<nat>) { forall k :: 0 <= k < |sizes| ==> sizes[k] <= B.CONFIG_MTU }

  lemma OneMore(es: seq<Entry>, e: Entry, address: nat)
    ensures Sizes(es + [e]) == Sizes(es) + [e.packet.size]
    ensures Bound(es + [e], address, true) ==
            Bound(es, address, true) + if e.packet.destination == address then [e.packet] else []
    ensures Bound(es + [e], address, false) ==
            Bound(es, address, false) + if e.packet.destination == address then [] else [e.packet]
  {
    assert (es + [e])[..|es|] == es;
  }

  lemma OnePacketMore(ps: seq<Packet>, p: Packet)
    ensures PacketSizes(ps + [p]) == PacketSizes(ps) + [p.size]
  {
    assert (ps + [p])[..|ps|] == ps;
  }

  /** The packets of these sizes were spent on `b` as BandwidthBound wants it, if none is longer than an MTU. */
  ghost predicate Spent(b: B.Bucket, sizes: seq<nat>, c: B.Bucket) {
    WithinMtu(sizes) ==> B.Spans(b, Spends(sizes), c)
  }

  lemma SpentNothing(b: B.Bucket)
    ensures Spent(b, [], b)
  {
  }

  lemma {:induction false} SpendsConcat(xs: seq<nat>, ys: seq<nat>)
    ensures Spends(xs + ys) == Spends(xs) + Spends(ys)
  {
    if ys == [] {
      assert xs + ys == xs;
    } else {
      assert (xs + ys)[..|xs + ys| - 1] == xs + ys[..|ys| - 1];
      SpendsConcat(xs, ys[..|ys| - 1]);
    }
  }

  lemma SpentJoin(a: B.Bucket, xs: seq<nat>, b: B.Bucket, ys: seq<nat>, c: B.Bucket)
    requires Spent(a, xs, b) && Spent(b, ys, c)
    ensures Spent(a, xs + ys, c)
  {
    if WithinMtu(xs + ys) {
      WithinBoth(xs, ys);
      SpendsConcat(xs, ys);
      B.SpansConcat(a, Spends(xs), b, Spends(ys), c);
    }
  }

  /** One more packet, spent while the bucket holds an MTU. */
  lemma SpentThen(b: B.Bucket, sizes: seq<nat>, c: B.Bucket, bytes: nat)
    requires Spent(b, sizes, c) && c.remaining >= B.CONFIG_MTU
    ensures Spent(b, sizes + [bytes], B.Consume(c, bytes))
  {
    if WithinMtu(sizes + [bytes]) {
      WithinBoth(sizes, [bytes]);
      assert (sizes + [bytes])[|sizes|] == bytes;
      assert (sizes + [bytes])[..|sizes|] == sizes;
      B.SpansThen(b, Spends(sizes), c, B.Spend(bytes));
    }
  }

  /** The packets that were accounted for are those sent and those received. */
  ghost predicate Charged(used: seq<B.Charge>, sends: seq<nat>, receives: seq<nat>) {
    B.OfSide(used, B.Sending) == sends && B.OfSide(used, B.Receiving) == receives
  }

  lemma ChargedNothing()
    ensures Charged([], Sizes([]), PacketSizes([])) && Sizes([]) == PacketSizes([]) == []
  {
  }

  lemma ChargedThen(used: seq<B.Charge>, sends: seq<nat>, receives: seq<nat>, more: seq<nat>, bytes: nat)
    requires Charged(used, sends, receives)
    ensures Charged(used + (B.Charges(B.Sending, more) + [B.Charge(B.Receiving, bytes)]), sends + more, receives + [bytes])
  {
    ChargedSends(used, sends, receives, more);
    var cs, c := B.Charges(B.Sending, more), [B.Charge(B.Receiving, bytes)];
    hide Charged, B.Charges;
    assert used + (cs + c) == (used + cs) + c;
    ChargedReceives(used + cs, sends + more, receives, bytes);
  }

  lemma ChargedSends(used: seq<B.Charge>, sends: seq<nat>, receives: seq<nat>, more: seq<nat>)
    requires Charged(used, sends, receives)
    ensures Charged(used + B.Charges(B.Sending, more), sends + more, receives)
  {
    var cs := B.Charges(B.Sending, more);
    B.OfSideConcat(used, cs, B.Sending);
    B.OfSideConcat(used, cs, B.Receiving);
    B.ChargesOfSide(B.Sending, more, B.Sending);
    B.ChargesOfSide(B.Sending, more, B.Receiving);
    hide B.OfSide, B.Charges;
  }

  lemma ChargedReceives(used: seq<B.Charge>, sends: seq<nat>, receives: seq<nat>, bytes: nat)
    requires Charged(used, sends, receives)
    ensures Charged(used + [B.Charge(B.Receiving, bytes)], sends, receives + [bytes])
  {
    assert (used + [B.Charge(B.Receiving, bytes)])[..|used|] == used;
  }

  /** The books of a span of receiving after one more packet, which made its socket send `more`. */
  lemma ReceivedThen(used: seq<B.Charge>, taken: seq<Packet>, sent: seq<Entry>, sb: B.Bucket, s: B.Bucket, sn: B.Bucket,
                     rb: B.Bucket, r: B.Bucket, more: seq<Entry>, p: Packet)
    requires Charged(used, Sizes(sent), PacketSizes(taken)) && r.remaining >= B.CONFIG_MTU
    requires Spent(sb, Sizes(sent), s) && Spent(s, Sizes(more), sn) && Spent(rb, PacketSizes(taken), r)
    ensures var cs := B.Charges(B.Sending, Sizes(more)) + [B.Charge(B.Receiving, p.size)];
            Charged(used + cs, Sizes(sent + more), PacketSizes(taken + [p]))
    ensures Spent(sb, Sizes(sent + more), sn) && Spent(rb, PacketSizes(taken + [p]), B.Consume(r, p.size))
  {
    SizesConcat(sent, more);
    OnePacketMore(taken, p);
    hide Charged, Spent, Sizes, PacketSizes, B.Charges, B.Consume;
    ChargedThen(used, Sizes(sent), PacketSizes(taken), Sizes(more), p.size);
    SpentJoin(sb, Sizes(sent), s, Sizes(more), sn);
    SpentThen(rb, PacketSizes(taken), r, p.size);
  }

  /** What an interface shows of its sending. */
  datatype Face = Face(net: Net, looped: seq<Packet>, forwarded: seq<Packet>)

  /** The moves lead from `f` to `g`; what they sent is logged, and each packet is handed back to the own
      address or forwarded. */
  ghost predicate Sent(d: Discipline, address: nat, f: Face, moves: seq<Move>, sent: seq<Entry>, g: Face) {
    && Runs(d, f.net, moves, g.net) && g.net.log == f.net.log + sent
    && g.looped == f.looped + Bound(sent, address, true)
    && g.forwarded == f.forwarded + Bound(sent, address, false)
  }

  lemma SentSize(d: Discipline, address: nat, f: Face, moves: seq<Move>, sent: seq<Entry>, g: Face)
    requires Sent(d, address, f, moves, sent, g)
    ensures |g.net.sockets| == |f.net.sockets|
  {
    RunHistories(d, f.net, moves, g.net);
  }

  lemma SentIsLogged(d: Discipline, address: nat, f: Face, moves: seq<Move>, sent: seq<Entry>, g: Face)
    requires Sent(d, address, f, moves, sent, g)
    ensures g.net.log == f.net.log + sent
  {
  }

  lemma SentNothing(d: Discipline, address: nat, f: Face)
    ensures Sent(d, address, f, [], [], f) && OfferedBy([]) == []
  {
  }

  lemma {:induction false} BoundConcat(es: seq<Entry>, fs: seq<Entry>, address: nat, here: bool)
    ensures Bound(es + fs, address, here) == Bound(es, address, here) + Bound(fs, address, here)
  {
    if fs == [] {
      assert es + fs == es;
    } else {
      assert (es + fs)[..|es + fs| - 1] == es + fs[..|fs| - 1];
      BoundConcat(es, fs[..|fs| - 1], address, here);
    }
  }

  lemma {:induction false} RunsConcat(d: Discipline, n: Net, xs: seq<Move>, m: Net, ys: seq<Move>, k: Net)
    requires Runs(d, n, xs, m) && Runs(d, m, ys, k)
    ensures Runs(d, n, xs + ys, k)
    decreases |xs|
  {
    hide Enabled, Apply;
    if xs == [] {
      assert xs + ys == ys;
    } else {
      assert (xs + ys)[1..] == xs[1..] + ys;
      RunsConcat(d, Apply(d, n, xs[0]), xs[1..], m, ys, k);
    }
  }

  lemma SentJoin(d: Discipline, address: nat, f: Face, xs: seq<Move>, es: seq<Entry>, g: Face, ys: seq<Move>,
                 fs: seq<Entry>, h: Face)
    requires Sent(d, address, f, xs, es, g) && Sent(d, address, g, ys, fs, h)
    ensures Sent(d, address, f, xs + ys, es + fs, h)
  {
    hide Runs, Bound;
    RunsConcat(d, f.net, xs, g.net, ys, h.net);
    BoundConcat(es, fs, address, true);
    BoundConcat(es, fs, address, false);
  }

  /** `n` once socket `s` is tracked. */
  function TrackIn(d: Discipline, n: Net, s: nat): Net { n.(queue := Track(d, n.queue, n.sockets, s)) }

  class NetworkInterface {
    const address: nat
    const hasRouter: bool
    const qdisc: Discipline
    const sendBucket: TokenBucket
    const receiveBucket: TokenBucket
    const fifoQueue: H.PriorityQueue
    var rrQueue: seq<nat>
    var sockets: seq<Socket>
    var timeStartedRefillingBuckets: nat
    var isRefillPending: bool
    var refillAt: nat
    var upstream: seq<Packet>
    var received: seq<Packet>
    var forwarded: seq<Packet>
    var looped: seq<Packet>
    ghost var offered: seq<Entry>
    ghost var log: seq<Entry>

    /** The sockets that the interface tracks, in the order of its queue or of its heap. */
    function Queue(): seq<nat>
      reads this, fifoQueue
    { if qdisc.RoundRobin? then rrQueue else fifoQueue.heap }

    ghost function View(): Net
      reads this, fifoQueue
    { Net(Queue(), sockets, offered, log) }

    ghost function Front(): Face
      reads this, fifoQueue
    { Face(View(), looped, forwarded) }

    ghost function Lazily(now: nat): B.Lazy
      reads this, sendBucket, receiveBucket
    {
      B.Lazy(timeStartedRefillingBuckets, now, B.Pair(sendBucket.View(), receiveBucket.View()),
             if isRefillPending then B.Some(refillAt) else B.None)
    }

    ghost predicate Valid(now: nat)
      reads this, fifoQueue
    { Good(View()) && sendBucket != receiveBucket && timeStartedRefillingBuckets <= now }

    /** If a bucket is below its capacity, a refill is pending. */
    predicate RefillComing()
      reads this, sendBucket, receiveBucket
    {
      (sendBucket.bytesRemaining < sendBucket.bytesCapacity ||
       receiveBucket.bytesRemaining < receiveBucket.bytesCapacity) ==> isRefillPending
    }

    /** No socket waits while the send bucket could still send. */
    predicate NothingStalls()
      reads this, fifoQueue, sendBucket
    { Queue() != [] ==> sendBucket.bytesRemaining < B.CONFIG_MTU }

    constructor (address: nat, hasRouter: bool, qdisc: Discipline, bwDownKiBps: nat, bwUpKiBps: nat, sockets: nat)
      ensures Valid(0) && View() == Start(sockets) && !isRefillPending && NothingStalls()
      ensures sendBucket.View() == B.New(bwUpKiBps) && receiveBucket.View() == B.New(bwDownKiBps)
      ensures fresh(sendBucket) && fresh(receiveBucket) && fresh(fifoQueue)
      ensures this.address == address && this.hasRouter == hasRouter && this.qdisc == qdisc
    {
      this.address, this.hasRouter, this.qdisc := address, hasRouter, qdisc;
      sendBucket := new TokenBucket(bwUpKiBps);
      receiveBucket := new TokenBucket(bwDownKiBps);
      fifoQueue := new H.PriorityQueue();
      rrQueue, this.sockets, offered, log := [], Empty(sockets), [], [];
      timeStartedRefillingBuckets, isRefillPending, refillAt := 0, false, 0;
      upstream, received, forwarded, looped := [], [], [], [];
      StartGood(sockets);
    }

    method ScheduleNextRefill(now: nat)
      requires timeStartedRefillingBuckets <= now
      modifies this`isRefillPending, this`refillAt
      ensures isRefillPending && refillAt == B.NextGrid(timeStartedRefillingBuckets, now)
    {
      var offset := now - timeStartedRefillingBuckets;
      var sinceLast := offset % B.REFILL_INTERVAL;
      refillAt := now + (B.REFILL_INTERVAL - sinceLast);
      isRefillPending := true;
    }

    method ScheduleNextRefillIfNeeded(now: nat)
      requires timeStartedRefillingBuckets <= now
      modifies this`isRefillPending, this`refillAt
      ensures Lazily(now) == B.Scheduled(old(Lazily(now)))
      ensures RefillComing()
    {
      if (sendBucket.bytesRemaining < sendBucket.bytesCapacity ||
          receiveBucket.bytesRemaining < receiveBucket.bytesCapacity) && !isRefillPending {
        ScheduleNextRefill(now);
      }
    }

    /** rrsocketqueue_pop or fifosocketqueue_pop */
    method PopSocket() returns (s: nat)
      requires Queue() != []
      modifies this`rrQueue, fifoQueue
      ensures s == old(Queue())[0] && Queue() == Remove(qdisc, old(Queue()), sockets)
    {
      if qdisc.RoundRobin? {
        s := rrQueue[0];
        rrQueue := rrQueue[1..];
      } else {
        s := fifoQueue.PopEntry(Keys(sockets));
      }
    }

    /** rrsocketqueue_push or fifosocketqueue_push */
    method PushSocket(s: nat)
      modifies this`rrQueue, fifoQueue
      ensures Queue() == Insert(qdisc, old(Queue()), sockets, s)
    {
      if qdisc.RoundRobin? {
        rrQueue := rrQueue + [s];
      } else {
        fifoQueue.PushEntry(Keys(sockets), s);
      }
    }

    /** The body of both select loops: a socket is popped, a packet pulled if it has one, and the socket
        pushed back if it has more. */
    method TakeFirst() returns (packet: Option<Packet>)
      requires Good(View()) && Queue() != []
      modifies this`rrQueue, this`sockets, this`log, fifoQueue
      ensures old(CanSelect(View())) && View() == Select(qdisc, old(View()))
      ensures log != [] && packet == Some(log[|log| - 1].packet)
    {
      GoodCanSelect(View());
      hide Good, Insert, Remove, Pull;
      packet := None;
      var s := PopSocket();
      if Out(sockets[s]) != [] {
        packet := Some(Out(sockets[s])[0]);
        log := log + [Entry(s, Out(sockets[s])[0])];
        sockets := sockets[s := Pull(sockets[s])];
      }
      if Out(sockets[s]) != [] {
        PushSocket(s);
      }
    }

    /** The loop that _networkinterface_selectRoundRobin and _networkinterface_selectFirstInFirstOut share:
        the packet of the first socket that has one. */
    method SelectPacket() returns (packet: Option<Packet>)
      requires Good(View())
      modifies this`rrQueue, this`sockets, this`log, fifoQueue
      ensures packet.None? <==> old(Queue()) == []
      ensures packet.None? ==> View() == old(View())
      ensures packet.Some? ==> old(CanSelect(View())) && View() == Select(qdisc, old(View()))
      ensures packet.Some? ==> log != [] && packet.value == log[|log| - 1].packet
    {
      hide Good, Out, Pull, Select;
      ghost var was := View();
      packet := None;
      while packet.None? && Queue() != []
        modifies this`rrQueue, this`sockets, this`log, fifoQueue
        invariant packet.None? ==> View() == was
        invariant packet.Some? ==> CanSelect(was) && View() == Select(qdisc, was)
        invariant packet.Some? ==> log != [] && packet.value == log[|log| - 1].packet
        decreases packet.None?
      {
        packet := TakeFirst();
      }
    }

    /** One packet leaves a socket that has it at its head; the other sockets keep theirs. */
    method NextPacket() returns (packet: Option<Packet>)
      requires Good(View())
      modifies this`rrQueue, this`sockets, this`log, fifoQueue
      ensures packet.None? <==> old(Queue()) == []
      ensures packet.None? ==> View() == old(View())
      ensures packet.Some? ==> Enabled(qdisc, old(View()), Selects) && View() == Apply(qdisc, old(View()), Selects)
      ensures packet.Some? ==> log == old(log) + [log[|log| - 1]] && packet.value == log[|log| - 1].packet
      ensures Good(View()) && offered == old(offered)
      ensures packet.Some? ==> Waiting(sockets) < old(Waiting(sockets))
    {
      ghost var was := View();
      packet := SelectPacket();
      hide Good, Select, CanSelect;
      if packet.Some? {
        SelectedOne(qdisc, was);
      }
    }

    /** Where the packet goes, and what it costs; the code charges packets to the own address as well. */
    method Deliver(p: Packet, now: nat, bootstrapping: bool)
      requires timeStartedRefillingBuckets <= now && sendBucket != receiveBucket
      modifies this`forwarded, this`looped, this`isRefillPending, this`refillAt, sendBucket
      ensures looped == old(looped) + if p.destination == address then [p] else []
      ensures forwarded == old(forwarded) + if p.destination == address then [] else [p]
      ensures bootstrapping ==> Lazily(now) == old(Lazily(now))
      ensures !bootstrapping ==> Lazily(now) == B.UseOne(old(Lazily(now)), B.Sending, p.size)
    {
      if p.destination == address {
        looped := looped + [p];
      } else {
        forwarded := forwarded + [p];
      }
      if !bootstrapping {
        sendBucket.Consume(p.size);
        ScheduleNextRefillIfNeeded(now);
      }
    }

    /** One turn of the send loop, unless no socket has a packet. */
    method SendOne(now: nat, bootstrapping: bool) returns (done: bool, ghost e: Entry)
      requires Valid(now)
      modifies this`rrQueue, this`sockets, this`log, this`forwarded, this`looped, this`isRefillPending, this`refillAt
      modifies sendBucket, fifoQueue
      ensures Valid(now)
      ensures done ==> old(Queue()) == [] && View() == old(View()) && Lazily(now) == old(Lazily(now))
      ensures done ==> forwarded == old(forwarded) && looped == old(looped) && sendBucket.View() == old(sendBucket.View())
      ensures !done ==> Enabled(qdisc, old(View()), Selects) && View() == Apply(qdisc, old(View()), Selects)
      ensures !done ==> log == old(log) + [e] && Waiting(sockets) < old(Waiting(sockets))
      ensures !done ==> looped == old(looped) + if e.packet.destination == address then [e.packet] else []
      ensures !done ==> forwarded == old(forwarded) + if e.packet.destination == address then [] else [e.packet]
      ensures !done && bootstrapping ==> Lazily(now) == old(Lazily(now))
      ensures !done && !bootstrapping ==> Lazily(now) == B.UseOne(old(Lazily(now)), B.Sending, e.packet.size)
    {
      hide Good, Enabled, Apply, B.UseOne, Waiting;
      var packet := NextPacket();
      done := packet.None?;
      if done {
        e := Entry(0, Packet(0, 0, 0, 0));
      } else {
        e := log[|log| - 1];
        Deliver(packet.value, now, bootstrapping);
      }
    }

    /** _networkinterface_sendPackets */
    method SendPackets(now: nat, bootstrapping: bool) returns (ghost sent: seq<Entry>, ghost moves: seq<Move>)
      requires Valid(now)
      modifies this`rrQueue, this`sockets, this`log, this`forwarded, this`looped, this`isRefillPending, this`refillAt
      modifies sendBucket, fifoQueue
      ensures Valid(now) && NothingStalls()
      ensures Sent(qdisc, address, old(Front()), moves, sent, Front()) && OfferedBy(moves) == []
      ensures Lazily(now) ==
              if bootstrapping then old(Lazily(now)) else B.Uses(old(Lazily(now)), B.Charges(B.Sending, Sizes(sent)))
      ensures !bootstrapping ==> Spent(old(sendBucket.View()), Sizes(sent), sendBucket.View())
      ensures old(RefillComing()) ==> RefillComing()
    {
      hide Good, Enabled, Apply, B.UseOne, Waiting;
      sent, moves := [], [];
      ghost var was, first, bucket := View(), Lazily(now), sendBucket.View();
      while sendBucket.bytesRemaining >= B.CONFIG_MTU
        modifies this`rrQueue, this`sockets, this`log, this`forwarded, this`looped, this`isRefillPending, this`refillAt
        modifies sendBucket, fifoQueue
        invariant Valid(now)
        invariant Runs(qdisc, was, moves, View()) && log == old(log) + sent && OfferedBy(moves) == []
        invariant Lazily(now) == if bootstrapping then first else B.Uses(first, B.Charges(B.Sending, Sizes(sent)))
        invariant !bootstrapping ==> Spent(bucket, Sizes(sent), sendBucket.View())
        invariant looped == old(looped) + Bound(sent, address, true)
        invariant forwarded == old(forwarded) + Bound(sent, address, false)
        decreases Waiting(sockets)
      {
        ghost var n, sizes, c := View(), Sizes(sent), sendBucket.View();
        var done, e := SendOne(now, bootstrapping);
        if done {
          break;
        }
        RunsThen(qdisc, was, moves, n, Selects);
        OfferedByConcat(moves, [Selects]);
        OneMore(sent, e, address);
        sent, moves := sent + [e], moves + [Selects];
        if !bootstrapping {
          B.ChargesThen(B.Sending, sizes, e.packet.size);
          B.UsesThen(first, B.Charges(B.Sending, sizes), B.Charge(B.Sending, e.packet.size));
          SpentThen(bucket, sizes, c, e.packet.size);
          B.UseOneSends(B.Uses(first, B.Charges(B.Sending, sizes)), e.packet.size);
        }
      }
      if !bootstrapping { B.UsesCovered(first, B.Charges(B.Sending, Sizes(sent))); }
    }

    /** What sockets buffer while a packet is received; each packet is sent at once if possible. */
    method Answer(now: nat, answers: seq<Entry>, bootstrapping: bool)
      returns (ghost sent: seq<Entry>, ghost moves: seq<Move>)
      requires Valid(now)
      modifies this`rrQueue, this`sockets, this`log, this`offered, this`forwarded, this`looped
      modifies this`isRefillPending, this`refillAt, sendBucket, fifoQueue
      ensures Valid(now) && (old(NothingStalls()) ==> NothingStalls()) && (old(RefillComing()) ==> RefillComing())
      ensures Sent(qdisc, address, old(Front()), moves, sent, Front())
      ensures |sockets| == old(|sockets|) && OfferedBy(moves) == OfSockets(answers, |sockets|)
      ensures Lazily(now) ==
              if bootstrapping then old(Lazily(now)) else B.Uses(old(Lazily(now)), B.Charges(B.Sending, Sizes(sent)))
      ensures !bootstrapping ==> Spent(old(sendBucket.View()), Sizes(sent), sendBucket.View())
    {
      sent, moves := [], [];
      ghost var was, first, bucket := Front(), Lazily(now), sendBucket.View();
      SentNothing(qdisc, address, was);
      SpentNothing(bucket);
      hide Good, Sent, Spent, B.UseOne, Sizes, OfferedBy;
      for i := 0 to |answers|
        modifies this`rrQueue, this`sockets, this`log, this`offered, this`forwarded, this`looped
        modifies this`isRefillPending, this`refillAt, sendBucket, fifoQueue
        invariant Valid(now) && (old(NothingStalls()) ==> NothingStalls()) && (old(RefillComing()) ==> RefillComing())
        invariant Sent(qdisc, address, was, moves, sent, Front())
        invariant |sockets| == old(|sockets|) && OfferedBy(moves) == OfSockets(answers[..i], |sockets|)
        invariant Lazily(now) == if bootstrapping then first else B.Uses(first, B.Charges(B.Sending, Sizes(sent)))
        invariant !bootstrapping ==> Spent(bucket, Sizes(sent), sendBucket.View())
      {
        OneOfSockets(answers, i, |sockets|);
        if answers[i].sock < |sockets| {
          ghost var mid, c := Front(), sendBucket.View();
          ghost var more, turns := AddToOutputBuffer(now, answers[i].sock, answers[i].packet, bootstrapping);
          SentJoin(qdisc, address, was, moves, sent, mid, turns, more, Front());
          OfferedByConcat(moves, turns);
          SizesConcat(sent, more);
          if !bootstrapping {
            B.ChargesConcat(B.Sending, Sizes(sent), Sizes(more));
            B.UsesConcat(first, B.Charges(B.Sending, Sizes(sent)), B.Charges(B.Sending, Sizes(more)));
            SpentJoin(bucket, Sizes(sent), c, Sizes(more), sendBucket.View());
          }
          sent, moves := sent + more, moves + turns;
        }
      }
      assert answers[..|answers|] == answers;
    }

    /** One turn of the receive loop: the packet goes to its socket, which may send before the packet is
        accounted for. */
    method ReceiveOne(now: nat, answers: seq<Entry>, bootstrapping: bool)
      returns (ghost p: Packet, ghost used: seq<B.Charge>, ghost sent: seq<Entry>, ghost moves: seq<Move>)
      requires Valid(now) && upstream != [] && (bootstrapping || receiveBucket.bytesRemaining >= B.CONFIG_MTU)
      modifies this`rrQueue, this`sockets, this`log, this`offered, this`forwarded, this`looped
      modifies this`upstream, this`received, this`isRefillPending, this`refillAt, sendBucket, receiveBucket, fifoQueue
      ensures Valid(now) && (old(NothingStalls()) ==> NothingStalls())
      ensures old(upstream) == [p] + upstream && received == old(received) + [p]
      ensures Sent(qdisc, address, old(Front()), moves, sent, Front())
      ensures |sockets| == old(|sockets|) && OfferedBy(moves) == OfSockets(answers, |sockets|)
      ensures Lazily(now) == B.Uses(old(Lazily(now)), used)
      ensures if bootstrapping then used == []
              else used == B.Charges(B.Sending, Sizes(sent)) + [B.Charge(B.Receiving, p.size)]
      ensures !bootstrapping ==> Spent(old(sendBucket.View()), Sizes(sent), sendBucket.View())
      ensures receiveBucket.View() ==
              if bootstrapping then old(receiveBucket.View()) else B.Consume(old(receiveBucket.View()), p.size)
    {
      hide Good, Sent, Spent, B.Charges, Sizes, B.ScheduleIfNeeded;
      var packet := upstream[0];
      p := packet;
      ghost var l := Lazily(now);
      upstream := upstream[1..];
      received := received + [packet];
      sent, moves := Answer(now, answers, bootstrapping);
      ghost var m := Lazily(now);
      Charge(packet, now, bootstrapping);
      used := [];
      if !bootstrapping {
        B.UsesThen(l, B.Charges(B.Sending, Sizes(sent)), B.Charge(B.Receiving, p.size));
        B.UseOneReceives(m, p.size);
        used := B.Charges(B.Sending, Sizes(sent)) + [B.Charge(B.Receiving, p.size)];
      }
    }

    /** networkinterface_receivePackets; `used` are the packets of both directions in the order in which
        they are accounted for. */
    method ReceivePackets(now: nat, answers: seq<seq<Entry>>, bootstrapping: bool)
      returns (ghost taken: seq<Packet>, ghost used: seq<B.Charge>, ghost sent: seq<Entry>, ghost moves: seq<Move>)
      requires Valid(now)
      modifies this`rrQueue, this`sockets, this`log, this`offered, this`forwarded, this`looped
      modifies this`upstream, this`received, this`isRefillPending, this`refillAt, sendBucket, receiveBucket, fifoQueue
      ensures Valid(now) && (old(NothingStalls()) ==> NothingStalls()) && (old(RefillComing()) ==> RefillComing())
      ensures old(upstream) == taken + upstream && received == old(received) + taken
      ensures hasRouter ==> upstream == [] || (!bootstrapping && receiveBucket.bytesRemaining < B.CONFIG_MTU)
      ensures !hasRouter ==> taken == [] && used == [] && sent == [] && moves == []
      ensures Sent(qdisc, address, old(Front()), moves, sent, Front())
      ensures |sockets| == old(|sockets|) && OfferedBy(moves) == AnswersTo(answers, |taken|, |sockets|)
      ensures Lazily(now) == B.Uses(old(Lazily(now)), used) && (bootstrapping ==> used == [])
      ensures !bootstrapping ==> Charged(used, Sizes(sent), PacketSizes(taken))
      ensures !bootstrapping ==> Spent(old(sendBucket.View()), Sizes(sent), sendBucket.View())
      ensures !bootstrapping ==> Spent(old(receiveBucket.View()), PacketSizes(taken), receiveBucket.View())
    {
      hide Good, Sent, Spent, B.Uses, B.Charges, Sizes, PacketSizes, Charged, Bound, OfferedBy, OfSockets, B.Consume;
      taken, used, sent, moves := [], [], [], [];
      ghost var was, first, sb, rb := Front(), Lazily(now), sendBucket.View(), receiveBucket.View();
      SentNothing(qdisc, address, was);
      SpentNothing(sb);
      SpentNothing(rb);
      ChargedNothing();
      UsesNothing(first);
      if !hasRouter { return; }
      var turn := 0;
      while bootstrapping || receiveBucket.bytesRemaining >= B.CONFIG_MTU
        modifies this`rrQueue, this`sockets, this`log, this`offered, this`forwarded, this`looped
        modifies this`upstream, this`received, this`isRefillPending, this`refillAt, sendBucket, receiveBucket, fifoQueue
        invariant Valid(now) && (old(NothingStalls()) ==> NothingStalls())
        invariant old(upstream) == taken + upstream && received == old(received) + taken && turn == |taken|
        invariant Sent(qdisc, address, was, moves, sent, Front())
        invariant |sockets| == old(|sockets|) && OfferedBy(moves) == AnswersTo(answers, turn, |sockets|)
        invariant Lazily(now) == B.Uses(first, used) && (bootstrapping ==> used == [])
        invariant !bootstrapping ==> Charged(used, Sizes(sent), PacketSizes(taken))
        invariant !bootstrapping ==> Spent(sb, Sizes(sent), sendBucket.View())
        invariant !bootstrapping ==> Spent(rb, PacketSizes(taken), receiveBucket.View())
        decreases |upstream|
      {
        if upstream == [] {
          break;
        }
        ghost var mid, s, r := Front(), sendBucket.View(), receiveBucket.View();
        ghost var p, cs, more, turns;
        p, cs, more, turns := ReceiveOne(now, if turn < |answers| then answers[turn] else [], bootstrapping);
        SentJoin(qdisc, address, was, moves, sent, mid, turns, more, Front());
        OfferedByConcat(moves, turns);
        B.UsesConcat(first, used, cs);
        if !bootstrapping { ReceivedThen(used, taken, sent, sb, s, sendBucket.View(), rb, r, more, p); }
        taken, used, sent, moves := taken + [p], used + cs, sent + more, moves + turns;
        turn := turn + 1;
      }
      B.UsesCovered(first, used);
    }

    method Charge(p: Packet, now: nat, bootstrapping: bool)
      requires timeStartedRefillingBuckets <= now && sendBucket != receiveBucket
      modifies this`isRefillPending, this`refillAt, receiveBucket
      ensures bootstrapping ==> Lazily(now) == old(Lazily(now))
      ensures !bootstrapping ==> Lazily(now) == B.UseOne(old(Lazily(now)), B.Receiving, p.size)
    {
      if !bootstrapping {
        receiveBucket.Consume(p.size);
        ScheduleNextRefillIfNeeded(now);
      }
    }

    /** The refill task is not pending any more, and both buckets get their bytes. */
    method RefillBuckets(now: nat)
      requires sendBucket != receiveBucket && timeStartedRefillingBuckets <= now
      modifies this`isRefillPending, sendBucket, receiveBucket
      ensures Lazily(now) == B.AfterRefill(old(Lazily(now)))
      ensures sendBucket.View() == B.Refill(old(sendBucket.View()))
      ensures receiveBucket.View() == B.Refill(old(receiveBucket.View()))
    {
      isRefillPending := false;
      receiveBucket.Refill();
      sendBucket.Refill();
    }

    /** _networkinterface_refillTokenBucketsCB.  Outside bootstrapping the whole task is the refill move
        of the lazy buckets followed by the packets it lets through. */
    method RefillTokenBucketsCB(now: nat, answers: seq<seq<Entry>>, bootstrapping: bool)
      returns (ghost taken: seq<Packet>, ghost used: seq<B.Charge>, ghost sent: seq<Entry>, ghost moves: seq<Move>)
      requires Valid(now)
      modifies this`rrQueue, this`sockets, this`log, this`offered, this`forwarded, this`looped
      modifies this`upstream, this`received, this`isRefillPending, this`refillAt, sendBucket, receiveBucket, fifoQueue
      ensures Valid(now) && NothingStalls() && RefillComing()
      ensures old(upstream) == taken + upstream && received == old(received) + taken
      ensures hasRouter ==> upstream == [] || (!bootstrapping && receiveBucket.bytesRemaining < B.CONFIG_MTU)
      ensures Sent(qdisc, address, old(Front()), moves, sent, Front())
      ensures |sockets| == old(|sockets|) && OfferedBy(moves) == AnswersTo(answers, |taken|, |sockets|)
      ensures Lazily(now) == B.Uses(B.Scheduled(B.AfterRefill(old(Lazily(now)))), used) && (bootstrapping ==> used == [])
      ensures !bootstrapping ==> Charged(used, Sizes(sent), PacketSizes(taken))
      ensures !bootstrapping ==> Spent(B.Refill(old(sendBucket.View())), Sizes(sent), sendBucket.View())
      ensures !bootstrapping ==> Spent(B.Refill(old(receiveBucket.View())), PacketSizes(taken), receiveBucket.View())
    {
      hide Good, Sent, Spent, B.Scheduled, B.UseOne, B.Uses, Sizes, PacketSizes, Charged, B.Charges, B.AfterRefill, B.Refill,
           B.RefillBoth, OfferedBy, AnswersTo;
      ghost var was := Front();
      RefillBuckets(now);
      ghost var l, sb, rb := Lazily(now), sendBucket.View(), receiveBucket.View();
      taken, used, sent, moves := ReceivePackets(now, answers, bootstrapping);
      ghost var mid, s := Front(), sendBucket.View();
      ghost var more, turns := SendPackets(now, bootstrapping);
      SentJoin(qdisc, address, was, moves, sent, mid, turns, more, Front());
      SentSize(qdisc, address, mid, turns, more, Front());
      OfferedByConcat(moves, turns);
      SizesConcat(sent, more);
      ghost var cs := if bootstrapping then [] else B.Charges(B.Sending, Sizes(more));
      B.UsesConcat(l, used, cs);
      if bootstrapping {
        UsesNothing(l);
      } else {
        ChargedSends(used, Sizes(sent), PacketSizes(taken), Sizes(more));
        SpentJoin(sb, Sizes(sent), s, Sizes(more), sendBucket.View());
      }
      sent, moves, used := sent + more, moves + turns, used + cs;
      ScheduleNextRefillIfNeeded(now);
      B.ScheduleLate(l, used);
    }

    /** networkinterface_startRefillingTokenBuckets */
    method StartRefillingTokenBuckets(now: nat, answers: seq<seq<Entry>>, bootstrapping: bool)
      returns (ghost taken: seq<Packet>, ghost used: seq<B.Charge>, ghost sent: seq<Entry>, ghost moves: seq<Move>,
               ghost trace: seq<B.Used>)
      requires Valid(now)
      modifies this, sendBucket, receiveBucket, fifoQueue
      ensures Valid(now) && NothingStalls() && RefillComing() && timeStartedRefillingBuckets == now
      ensures Sent(qdisc, address, old(Front()), moves, sent, Front())
      ensures old(upstream) == taken + upstream && received == old(received) + taken
      ensures !bootstrapping ==> Charged(used, Sizes(sent), PacketSizes(taken))
      ensures var p := B.Pair(old(sendBucket.View()), old(receiveBucket.View()));
              && Lazily(now) == B.Uses(B.LazyBoot(now, p), used) && (bootstrapping ==> used == [])
              && B.Follows(now, p, trace, Lazily(now), B.GridIndex(now, now), 0)
    {
      timeStartedRefillingBuckets := now;
      ghost var p := B.Pair(sendBucket.View(), receiveBucket.View());
      taken, used, sent, moves := RefillTokenBucketsCB(now, answers, bootstrapping);
      trace := B.FollowBoot(now, p, used);
      hide Sent, Charged, B.Uses, B.Follows, B.GridIndex;
    }

    /** networkinterface_wantsSend */
    method WantsSend(now: nat, s: nat, bootstrapping: bool) returns (ghost sent: seq<Entry>, ghost moves: seq<Move>)
      requires s < |sockets| && sendBucket != receiveBucket && timeStartedRefillingBuckets <= now
      requires var n := View(); Good(if Out(sockets[s]) == [] then n else TrackIn(qdisc, n, s))
      modifies this`rrQueue, this`sockets, this`log, this`forwarded, this`looped, this`isRefillPending, this`refillAt
      modifies sendBucket, fifoQueue
      ensures Valid(now) && (old(RefillComing()) ==> RefillComing())
      ensures old(Out(sockets[s])) == [] ==> Front() == old(Front()) && sent == [] && moves == []
      ensures old(Out(sockets[s])) == [] && old(NothingStalls()) ==> NothingStalls()
      ensures old(Out(sockets[s])) != [] ==>
                && NothingStalls() && OfferedBy(moves) == []
                && Sent(qdisc, address, old(Front().(net := TrackIn(qdisc, View(), s))), moves, sent, Front())
      ensures Lazily(now) ==
              if bootstrapping then old(Lazily(now)) else B.Uses(old(Lazily(now)), B.Charges(B.Sending, Sizes(sent)))
      ensures !bootstrapping ==> Spent(old(sendBucket.View()), Sizes(sent), sendBucket.View())
    {
      SpentNothing(sendBucket.View());
      hide Good, Sent, Spent;
      sent, moves := [], [];
      if Out(sockets[s]) == [] {
        return;
      }
      if s !in Queue() {
        PushSocket(s);
      }
      sent, moves := SendPackets(now, bootstrapping);
    }

    /** socket_addToOutputBuffer for a packet that fits: buffered, tracked, and sent if possible. */
    method AddToOutputBuffer(now: nat, s: nat, p: Packet, bootstrapping: bool)
      returns (ghost sent: seq<Entry>, ghost moves: seq<Move>)
      requires Valid(now) && s < |sockets|
      modifies this`rrQueue, this`sockets, this`log, this`offered, this`forwarded, this`looped
      modifies this`isRefillPending, this`refillAt, sendBucket, fifoQueue
      ensures Valid(now) && NothingStalls() && (old(RefillComing()) ==> RefillComing())
      ensures Sent(qdisc, address, old(Front()), moves, sent, Front())
      ensures |sockets| == old(|sockets|) && OfferedBy(moves) == [Entry(s, p)]
      ensures Lazily(now) ==
              if bootstrapping then old(Lazily(now)) else B.Uses(old(Lazily(now)), B.Charges(B.Sending, Sizes(sent)))
      ensures !bootstrapping ==> Spent(old(sendBucket.View()), Sizes(sent), sendBucket.View())
    {
      hide Good, Spent, Bound;
      ghost var was := View();
      OfferGood(qdisc, was, s, p);
      sockets := sockets[s := Buffer(sockets[s], p)];
      offered := offered + [Entry(s, p)];
      assert p in Out(sockets[s]);
      assert TrackIn(qdisc, View(), s) == Offer(qdisc, was, s, p);
      sent, moves := WantsSend(now, s, bootstrapping);
      assert ([Offers(s, p)] + moves)[1..] == moves;
      moves := [Offers(s, p)] + moves;
      RunHistories(qdisc, was, moves, View());
    }

    // ----- whole runs of the interface, after bootstrapping -----------------------------------------

    predicate Happens(op: Op, now: nat)
      reads this
    {
      match op
      case Buffered(s, _) => s < |sockets|
      case Arrived(_, _) => true
      case RefillDue(_) => isRefillPending && refillAt == now
      case Passes(time) => now < time && (isRefillPending ==> time <= refillAt)
    }

    /** One thing that happens to the interface at `now`; what cannot happen then is skipped.  `w` is
        what it did to the buckets, and `seen` what an observer of them has seen since their boot with
        `p`. */
    method Perform(op: Op, now: nat, ghost p: B.Pair, ghost trace: seq<B.Used>, ghost first: nat, ghost ticks: nat)
      returns (time: nat, ghost w: Work, ghost seen: seq<B.Used>)
      requires Valid(now) && NothingStalls() && RefillComing()
      requires B.Follows(timeStartedRefillingBuckets, p, trace, Lazily(now), first, ticks)
      modifies this, sendBucket, receiveBucket, fifoQueue
      ensures now <= time && Valid(time) && NothingStalls() && RefillComing()
      ensures timeStartedRefillingBuckets == old(timeStartedRefillingBuckets)
      ensures B.Follows(timeStartedRefillingBuckets, p, seen, Lazily(time), first, ticks + w.ticks)
      ensures Sent(qdisc, address, old(Front()), w.moves, w.sent, Front()) && |sockets| == old(|sockets|)
      ensures log == old(log) + w.sent && received == old(received) + w.taken
      ensures old(upstream) + Arrivals([op]) == w.taken + upstream
      ensures OfferedBy(w.moves) == if old(Happens(op, now)) then OpOffers(op, |w.taken|, |sockets|) else []
      ensures time == if op.Passes? && old(Happens(op, now)) then op.time else now
      ensures w.ticks == if op.RefillDue? && old(Happens(op, now)) then 1 else 0
      ensures Accounts(old(sendBucket.View()), w.sendUses, sendBucket.View(), Sizes(w.sent), w.ticks)
      ensures Accounts(old(receiveBucket.View()), w.receiveUses, receiveBucket.View(), PacketSizes(w.taken), w.ticks)
    {
      hide Good, Sent, Spent, Charged, OfferedBy, AnswersTo, B.Uses, B.Charges, B.UsedAll, B.Scheduled, B.AfterRefill, B.Follows,
           Accounts, Sizes, PacketSizes, Spends;
      ghost var start, l, sb, rb := timeStartedRefillingBuckets, Lazily(now), sendBucket.View(), receiveBucket.View();
      ghost var was := Front();
      time, w, seen := now, Work([], [], [], [], [], 0), trace;
      NothingHappens(qdisc, address, was, sb, rb);
      if op.Buffered? && op.sock < |sockets| {
        ghost var sent, moves := AddToOutputBuffer(now, op.sock, op.packet, false);
        ghost var cs := B.Charges(B.Sending, Sizes(sent));
        B.FollowUses(start, p, trace, l, first, ticks, cs);
        AccountsSpends(sb, Sizes(sent), sendBucket.View());
        w := w.(moves := moves, sent := sent, sendUses := Spends(Sizes(sent)));
        seen := trace + B.UsedAll(now, cs);
      } else if op.Arrived? {
        upstream := upstream + [op.packet];
        ghost var taken, used, sent, moves := ReceivePackets(now, op.answers, false);
        B.FollowUses(start, p, trace, l, first, ticks, used);
        AccountsSpends(sb, Sizes(sent), sendBucket.View());
        AccountsSpends(rb, PacketSizes(taken), receiveBucket.View());
        w := Work(moves, sent, taken, Spends(Sizes(sent)), Spends(PacketSizes(taken)), 0);
        seen := trace + B.UsedAll(now, used);
      } else if op.RefillDue? && isRefillPending && refillAt == now {
        w, seen := PerformRefill(now, op.answers, p, trace, first, ticks);
      } else if op.Passes? && now < op.time && (isRefillPending ==> op.time <= refillAt) {
        B.FollowAdvance(start, p, trace, l, first, ticks, op.time);
        time := op.time;
      }
      SentIsLogged(qdisc, address, was, w.moves, w.sent, Front());
    }

    method PerformRefill(now: nat, answers: seq<seq<Entry>>, ghost p: B.Pair, ghost trace: seq<B.Used>, ghost first: nat,
                         ghost ticks: nat)
      returns (ghost w: Work, ghost seen: seq<B.Used>)
      requires Valid(now) && isRefillPending && refillAt == now
      requires B.Follows(timeStartedRefillingBuckets, p, trace, Lazily(now), first, ticks)
      modifies this, sendBucket, receiveBucket, fifoQueue
      ensures Valid(now) && NothingStalls() && RefillComing()
      ensures timeStartedRefillingBuckets == old(timeStartedRefillingBuckets)
      ensures B.Follows(timeStartedRefillingBuckets, p, seen, Lazily(now), first, ticks + w.ticks)
      ensures Sent(qdisc, address, old(Front()), w.moves, w.sent, Front()) && |sockets| == old(|sockets|)
      ensures OfferedBy(w.moves) == AnswersTo(answers, |w.taken|, |sockets|) && w.ticks == 1
      ensures old(upstream) == w.taken + upstream && received == old(received) + w.taken
      ensures Accounts(old(sendBucket.View()), w.sendUses, sendBucket.View(), Sizes(w.sent), w.ticks)
      ensures Accounts(old(receiveBucket.View()), w.receiveUses, receiveBucket.View(), PacketSizes(w.taken), w.ticks)
    {
      hide Good, Sent, Spent, Charged, B.Uses, B.Scheduled, B.AfterRefill, B.Follows, Accounts, Sizes, PacketSizes, Spends;
      ghost var start, l, sb, rb := timeStartedRefillingBuckets, Lazily(now), sendBucket.View(), receiveBucket.View();
      ghost var taken, used, sent, moves;
      taken, used, sent, moves := RefillTokenBucketsCB(now, answers, false);
      B.FollowRefill(start, p, trace, l, first, ticks);
      B.FollowUses(start, p, trace, B.Scheduled(B.AfterRefill(l)), first, ticks + 1, used);
      seen := trace + B.UsedAll(now, used);
      AccountsTick(sb, Sizes(sent), sendBucket.View());
      AccountsTick(rb, PacketSizes(taken), receiveBucket.View());
      w := Work(moves, sent, taken, [B.Tick] + Spends(Sizes(sent)), [B.Tick] + Spends(PacketSizes(taken)), 1);
    }

    /** One more thing in a run that did `w` so far. */
    method Continue(op: Op, now: nat, ghost p: B.Pair, ghost first: nat, ghost sb: B.Bucket, ghost rb: B.Bucket,
                    ghost w: Work, ghost trace: seq<B.Used>)
      returns (time: nat, ghost v: Work, ghost seen: seq<B.Used>)
      requires Valid(now) && NothingStalls() && RefillComing()
      requires Progress(timeStartedRefillingBuckets, p, first, sb, rb, w, trace, Lazily(now), sendBucket.View(),
                        receiveBucket.View())
      modifies this, sendBucket, receiveBucket, fifoQueue
      ensures now <= time && Valid(time) && NothingStalls() && RefillComing()
      ensures timeStartedRefillingBuckets == old(timeStartedRefillingBuckets)
      ensures Progress(timeStartedRefillingBuckets, p, first, sb, rb, v, seen, Lazily(time), sendBucket.View(),
                       receiveBucket.View())
      ensures w.moves <= v.moves && w.sent <= v.sent && w.taken <= v.taken
      ensures Sent(qdisc, address, old(Front()), v.moves[|w.moves|..], v.sent[|w.sent|..], Front())
      ensures received == old(received) + v.taken[|w.taken|..]
      ensures old(upstream) + Arrivals([op]) == v.taken[|w.taken|..] + upstream
    {
      hide Good, Sent, OfferedBy, OpOffers, B.Follows, Accounts, Progress, Sizes, PacketSizes;
      ghost var start, sm, rm, l := timeStartedRefillingBuckets, sendBucket.View(), receiveBucket.View(), Lazily(now);
      ProgressFollows(start, p, first, sb, rb, w, trace, l, sm, rm);
      ghost var more;
      time, more, seen := Perform(op, now, p, trace, first, w.ticks);
      ProgressJoin(start, p, first, sb, rb, w, sm, rm, more, seen, Lazily(time), sendBucket.View(), receiveBucket.View());
      v := Join(w, more);
    }

    /** A run of the interface, one thing after the other. */
    method ContinueAll(ops: seq<Op>, now: nat, ghost p: B.Pair, ghost first: nat, ghost trace: seq<B.Used>)
      returns (end: nat, ghost w: Work, ghost seen: seq<B.Used>)
      requires Valid(now) && NothingStalls() && RefillComing()
      requires Progress(timeStartedRefillingBuckets, p, first, sendBucket.View(), receiveBucket.View(),
                        Work([], [], [], [], [], 0), trace, Lazily(now), sendBucket.View(), receiveBucket.View())
      modifies this, sendBucket, receiveBucket, fifoQueue
      ensures now <= end && Valid(end) && NothingStalls() && RefillComing()
      ensures timeStartedRefillingBuckets == old(timeStartedRefillingBuckets)
      ensures Progress(timeStartedRefillingBuckets, p, first, old(sendBucket.View()), old(receiveBucket.View()), w, seen,
                       Lazily(end), sendBucket.View(), receiveBucket.View())
      ensures Sent(qdisc, address, old(Front()), w.moves, w.sent, Front())
      ensures received == old(received) + w.taken && old(upstream) + Arrivals(ops) == w.taken + upstream
    {
      hide *;
      ghost var was := Front();
      SentNothing(qdisc, address, was);
      NoArrivals();
      ghost var sb, rb := sendBucket.View(), receiveBucket.View();
      end, w, seen := now, Work([], [], [], [], [], 0), trace;
      for i := 0 to |ops|
        modifies this, sendBucket, receiveBucket, fifoQueue
        invariant now <= end && Valid(end) && NothingStalls() && RefillComing()
        invariant timeStartedRefillingBuckets == old(timeStartedRefillingBuckets)
        invariant Progress(timeStartedRefillingBuckets, p, first, sb, rb, w, seen, Lazily(end), sendBucket.View(),
                           receiveBucket.View())
        invariant Sent(qdisc, address, was, w.moves, w.sent, Front())
        invariant received == old(received) + w.taken && old(upstream) + Arrivals(ops[..i]) == w.taken + upstream
      {
        ghost var before, mid, waiting := w, Front(), upstream;
        end, w, seen := Continue(ops[i], end, p, first, sb, rb, w, seen);
        SentJoin(qdisc, address, was, before.moves, before.sent, mid, w.moves[|before.moves|..], w.sent[|before.sent|..],
                 Front());
        SplitsAt(before.moves, w.moves);
        SplitsAt(before.sent, w.sent);
        SplitsAt(before.taken, w.taken);
        OneArrival(ops, i);
        TakenInOrder(old(upstream), Arrivals(ops[..i]), before.taken, waiting, Arrivals([ops[i]]),
                     w.taken[|before.taken|..], upstream);
      }
      assert ops[..|ops|] == ops;
    }

    /** Any run of the interface after bootstrapping.  It never stalls and a refill is always on its way.
        It is a run of the lazy buckets, so buckets that tick on every grid point show the same and hold
        the same bytes.  What arrived was received in order or waits in the router.  If no packet is longer than an MTU, the bytes sent, and likewise the bytes
        received, are bounded by the time that has passed: one refill for every grid point in it and two
        more, and one MTU. */
    method Run(ops: seq<Op>, now: nat, ghost p: B.Pair, ghost trace: seq<B.Used>)
      returns (end: nat, ghost w: Work, ghost seen: seq<B.Used>)
      requires Valid(now) && NothingStalls() && RefillComing() && B.BothWithin(p)
      requires B.Follows(timeStartedRefillingBuckets, p, trace, Lazily(now), B.GridIndex(timeStartedRefillingBuckets, now), 0)
      requires Sound(sendBucket.View()) && Sound(receiveBucket.View())
      modifies this, sendBucket, receiveBucket, fifoQueue
      ensures now <= end && Valid(end) && NothingStalls() && RefillComing()
      ensures Sent(qdisc, address, old(Front()), w.moves, w.sent, Front()) && log == old(log) + w.sent
      ensures received == old(received) + w.taken && old(upstream) + Arrivals(ops) == w.taken + upstream
      ensures timeStartedRefillingBuckets == old(timeStartedRefillingBuckets)
      ensures B.LazyReaches(timeStartedRefillingBuckets, p, seen, Lazily(end))
      ensures exists e: B.Eager :: && B.EagerReaches(timeStartedRefillingBuckets, p, seen, e) && e.now == end
                                   && B.SameBytes(e.pair, Lazily(end).pair)
      ensures var span := B.GridIndex(timeStartedRefillingBuckets, end) - B.GridIndex(timeStartedRefillingBuckets, now);
              && (WithinMtu(Sizes(w.sent)) ==>
                    Total(Sizes(w.sent)) <= (span + 2) * old(sendBucket.bytesRefill) + B.CONFIG_MTU)
              && (WithinMtu(PacketSizes(w.taken)) ==>
                    Total(PacketSizes(w.taken)) <= (span + 2) * old(receiveBucket.bytesRefill) + B.CONFIG_MTU)
    {
      hide Good, Sent, Arrivals, B.Follows, B.LazyReaches, B.EagerReaches, B.SameBytes, B.GridIndex, Progress, WithinMtu,
           Sizes, PacketSizes, Total, Sound;
      ghost var sb, rb := sendBucket.View(), receiveBucket.View();
      ghost var start, first := timeStartedRefillingBuckets, B.GridIndex(timeStartedRefillingBuckets, now);
      NoProgressYet(start, p, first, sb, rb, trace, Lazily(now));
      end, w, seen := ContinueAll(ops, now, p, first, trace);
      SentIsLogged(qdisc, address, old(Front()), w.moves, w.sent, Front());
      ProgressEnds(start, p, first, sb, rb, w, seen, Lazily(end), sendBucket.View(), receiveBucket.View());
    }
  }

  /** What a run did: the moves of the queues, the packets, the uses of both buckets, and the refills. */
  datatype Work = Work(moves: seq<Move>, sent: seq<Entry>, taken: seq<Packet>, sendUses: seq<B.Use>, receiveUses: seq<B.Use>,
                       ticks: nat)

  /** The uses lead from `b` to `c` and are those of packets of the given sizes and of so many refills. */
  ghost predicate Accounts(b: B.Bucket, us: seq<B.Use>, c: B.Bucket, sizes: seq<nat>, ticks: nat) {
    B.Bytes(us) == Total(sizes) && B.Ticks(us) == ticks && (WithinMtu(sizes) ==> B.Spans(b, us, c))
  }

  /** The bucket is as it was set up, and its books balance. */
  ghost predicate Sound(b: B.Bucket) {
    B.WithinCapacity(b) && B.Balanced(b) && b.capacity == b.refill + B.CONFIG_MTU
  }

  function Join(w: Work, more: Work): (r: Work)
    ensures r.sent == w.sent + more.sent && r.taken == w.taken + more.taken && r.ticks == w.ticks + more.ticks
    ensures r.moves == w.moves + more.moves
  {
    Work(w.moves + more.moves, w.sent + more.sent, w.taken + more.taken, w.sendUses + more.sendUses,
         w.receiveUses + more.receiveUses,
         w.ticks + more.ticks)
  }

  /** A run that did `w` led from the buckets `sb` and `rb` to `s` and `r`, and followed the lazy buckets. */
  ghost predicate Progress(
    start: nat, p: B.Pair, first: nat, sb: B.Bucket, rb: B.Bucket, w: Work, seen: seq<B.Used>, l: B.Lazy,
    s: B.Bucket, r: B.Bucket)
  {
    && B.Follows(start, p, seen, l, first, w.ticks)
    && Accounts(sb, w.sendUses, s, Sizes(w.sent), w.ticks)
    && Accounts(rb, w.receiveUses, r, PacketSizes(w.taken), w.ticks)
  }

  lemma NoProgressYet(
    start: nat, p: B.Pair, first: nat, sb: B.Bucket, rb: B.Bucket, trace: seq<B.Used>, l: B.Lazy)
    requires B.Follows(start, p, trace, l, first, 0)
    ensures Progress(start, p, first, sb, rb, Work([], [], [], [], [], 0), trace, l, sb, rb)
  {
    AccountsNothing(sb);
    AccountsNothing(rb);
  }

  lemma ProgressFollows(
    start: nat, p: B.Pair, first: nat, sb: B.Bucket, rb: B.Bucket, w: Work, seen: seq<B.Used>, l: B.Lazy,
    s: B.Bucket, r: B.Bucket)
    requires Progress(start, p, first, sb, rb, w, seen, l, s, r)
    ensures B.Follows(start, p, seen, l, first, w.ticks)
  {
  }

  lemma ProgressJoin(
    start: nat, p: B.Pair, first: nat, sb: B.Bucket, rb: B.Bucket, w: Work, s: B.Bucket, r: B.Bucket,
    more: Work, seen: seq<B.Used>, l: B.Lazy, sn: B.Bucket, rn: B.Bucket)
    requires exists before: seq<B.Used>, m: B.Lazy :: Progress(start, p, first, sb, rb, w, before, m, s, r)
    requires B.Follows(start, p, seen, l, first, w.ticks + more.ticks)
    requires Accounts(s, more.sendUses, sn, Sizes(more.sent), more.ticks)
    requires Accounts(r, more.receiveUses, rn, PacketSizes(more.taken), more.ticks)
    ensures Progress(start, p, first, sb, rb, Join(w, more), seen, l, sn, rn)
  {
    hide B.Follows, Accounts, Sizes, PacketSizes;
    SizesConcat(w.sent, more.sent);
    PacketSizesConcat(w.taken, more.taken);
    AccountsJoin(sb, w.sendUses, s, more.sendUses, sn, Sizes(w.sent), Sizes(more.sent), w.ticks, more.ticks);
    AccountsJoin(rb, w.receiveUses, r, more.receiveUses, rn, PacketSizes(w.taken), PacketSizes(more.taken), w.ticks, more.ticks);
  }

  lemma ProgressEnds(
    start: nat, p: B.Pair, first: nat, sb: B.Bucket, rb: B.Bucket, w: Work, seen: seq<B.Used>, l: B.Lazy,
    s: B.Bucket, r: B.Bucket)
    requires Progress(start, p, first, sb, rb, w, seen, l, s, r)
    requires B.BothWithin(p) && Sound(sb) && Sound(rb) && l.start == start <= l.now
    ensures B.LazyReaches(start, p, seen, l)
    ensures exists e: B.Eager :: B.EagerReaches(start, p, seen, e) && e.now == l.now && B.SameBytes(e.pair, l.pair)
    ensures var span := B.GridIndex(start, l.now) - first;
            && (WithinMtu(Sizes(w.sent)) ==> Total(Sizes(w.sent)) <= (span + 2) * sb.refill + B.CONFIG_MTU)
            && (WithinMtu(PacketSizes(w.taken)) ==>
                  Total(PacketSizes(w.taken)) <= (span + 2) * rb.refill + B.CONFIG_MTU)
  {
    hide Accounts, Sizes, PacketSizes, Total, WithinMtu, Sound, B.GridIndex, B.SameBytes, B.EagerReaches;
    var e := B.FollowsEager(start, p, seen, l, first, w.ticks);
    FollowsReaches(start, p, seen, l, first, w.ticks);
    hide B.Follows, B.LazyReaches;
    var span := B.GridIndex(start, l.now) - first;
    AccountsBound(sb, w.sendUses, s, Sizes(w.sent), w.ticks, span + 1);
    AccountsBound(rb, w.receiveUses, r, PacketSizes(w.taken), w.ticks, span + 1);
  }

  lemma AccountsNothing(b: B.Bucket)
    ensures Accounts(b, [], b, Sizes([]), 0) && Accounts(b, [], b, PacketSizes([]), 0)
  {
  }

  lemma NothingHappens(d: Discipline, address: nat, f: Face, sb: B.Bucket, rb: B.Bucket)
    ensures Sent(d, address, f, [], [], f) && OfferedBy([]) == []
    ensures Accounts(sb, [], sb, Sizes([]), 0) && Accounts(rb, [], rb, PacketSizes([]), 0)
    ensures Accounts(sb, [], sb, [], 0) && Accounts(rb, [], rb, [], 0)
  {
    SentNothing(d, address, f);
    AccountsNothing(sb);
    AccountsNothing(rb);
  }

  lemma AccountsSpends(b: B.Bucket, sizes: seq<nat>, c: B.Bucket)
    requires Spent(b, sizes, c)
    ensures Accounts(b, Spends(sizes), c, sizes, 0)
  {
    SpendsCounts(sizes);
  }

  lemma AccountsTick(b: B.Bucket, sizes: seq<nat>, c: B.Bucket)
    requires Spent(B.Refill(b), sizes, c)
    ensures Accounts(b, [B.Tick] + Spends(sizes), c, sizes, 1)
  {
    SpendsCounts(sizes);
    assert ([B.Tick] + Spends(sizes))[1..] == Spends(sizes);
  }

  lemma AccountsJoin(a: B.Bucket, us: seq<B.Use>, b: B.Bucket, vs: seq<B.Use>, c: B.Bucket, xs: seq<nat>, ys: seq<nat>,
                     k: nat, m: nat)
    requires Accounts(a, us, b, xs, k) && Accounts(b, vs, c, ys, m)
    ensures Accounts(a, us + vs, c, xs + ys, k + m)
  {
    hide WithinMtu, B.Spans, B.Bytes, B.Ticks, Total;
    TotalConcat(xs, ys);
    B.CountsConcat(us, vs);
    if WithinMtu(xs + ys) {
      WithinBoth(xs, ys);
      B.SpansConcat(a, us, b, vs, c);
    }
  }

  lemma AccountsBound(b: B.Bucket, us: seq<B.Use>, c: B.Bucket, sizes: seq<nat>, ticks: nat, most: int)
    requires Accounts(b, us, c, sizes, ticks) && Sound(b) && ticks <= most
    ensures WithinMtu(sizes) ==> Total(sizes) <= (most + 1) * b.refill + B.CONFIG_MTU
  {
    hide WithinMtu, B.Spans, Total;
    if WithinMtu(sizes) {
      B.BandwidthBound(b, us, c);
      hide B.Bytes, B.Ticks;
      MoreTicks(ticks + 1, most + 1, b.refill);
    }
  }

  lemma FollowsReaches(start: nat, p: B.Pair, trace: seq<B.Used>, l: B.Lazy, first: nat, ticks: nat)
    requires B.Follows(start, p, trace, l, first, ticks)
    ensures B.LazyReaches(start, p, trace, l)
  {
  }

  lemma {:induction false} PacketSizesConcat(ps: seq<Packet>, qs: seq<Packet>)
    ensures PacketSizes(ps + qs) == PacketSizes(ps) + PacketSizes(qs)
  {
    if qs == [] {
      assert ps + qs == ps;
    } else {
      assert (ps + qs)[..|ps + qs| - 1] == ps + qs[..|qs| - 1];
      PacketSizesConcat(ps, qs[..|qs| - 1]);
    }
  }

  lemma UsesNothing(l: B.Lazy)
    requires l.start <= l.now
    ensures B.Uses(l, []) == l
  {
  }

  lemma MoreTicks(a: nat, b: int, refill: nat)
    requires a <= b
    ensures a * refill <= b * refill
  {
  }

  lemma {:induction false} SizesConcat(es: seq<Entry>, fs: seq<Entry>)
    ensures Sizes(es + fs) == Sizes(es) + Sizes(fs)
  {
    if fs == [] {
      assert es + fs == es;
    } else {
      assert (es + fs)[..|es + fs| - 1] == es + fs[..|fs| - 1];
      SizesConcat(es, fs[..|fs| - 1]);
    }
  }

  lemma {:induction false} TotalConcat(xs: seq<nat>, ys: seq<nat>)
    ensures Total(xs + ys) == Total(xs) + Total(ys)
  {
    if ys == [] {
      assert xs + ys == xs;
    } else {
      assert (xs + ys)[..|xs + ys| - 1] == xs + ys[..|ys| - 1];
      TotalConcat(xs, ys[..|ys| - 1]);
    }
  }

  lemma WithinBoth(xs: seq<nat>, ys: seq<nat>)
    requires WithinMtu(xs + ys)
    ensures WithinMtu(xs) && WithinMtu(ys)
  {
    assert forall k :: 0 <= k < |xs| ==> xs[k] == (xs + ys)[k];
    assert forall k :: 0 <= k < |ys| ==> ys[k] == (xs + ys)[|xs| + k];
  }

  lemma {:induction false} SpendsCounts(sizes: seq<nat>)
    ensures B.Ticks(Spends(sizes)) == 0 && B.Bytes(Spends(sizes)) == Total(sizes)
  {
    if sizes != [] {
      var k := |sizes| - 1;
      SpendsCounts(sizes[..k]);
      B.CountsConcat(Spends(sizes[..k]), [B.Spend(sizes[k])]);
    }
  }

  lemma SelectedOne(d: Discipline, n: Net)
    requires Good(n) && CanSelect(n)
    ensures Good(Select(d, n)) && Waiting(Select(d, n).sockets) < Waiting(n.sockets)
    ensures Select(d, n).offered == n.offered && |Select(d, n).log| == |n.log| + 1 && n.log <= Select(d, n).log
  {
    assert n.queue[0] in n.queue && Conserved(n, n.queue[0]);
    hide Good, Of;
    SelectGood(d, n);
    var s := n.queue[0];
    PullsOne(d, n);
    PullTakesHead(n.sockets[s]);
    hide Select, Pull, Out, Insert, Remove;
    WaitingUpdate(n.sockets, s, Pull(n.sockets[s]));
  }
}
