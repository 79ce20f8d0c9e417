/**
 The queuing disciplines of a network interface (network_queuing_disciplines.c and the two select
 functions of network_interface.c) over the output buffers of its sockets (descriptor/socket.c).
 */
module SocketQueues {
  import H = PriorityQueues

  datatype Option<T> = None | Some(value: T)

  datatype Packet = Packet(priority: nat, size: nat, destination: nat, tag: nat)

  /** The two output buffers of a socket: control packets have priority 0 and leave first. */
  datatype Socket = Socket(control: seq<Packet>, data: seq<Packet>)

  function Out(s: Socket): seq<Packet> { s.control + s.data }

  function Buffer(s: Socket, p: Packet): Socket {
    if p.priority == 0 then s.(control := s.control + [p]) else s.(data := s.data + [p])
  }

  function Pull(s: Socket): Socket
    requires Out(s) != []
  { if s.control != [] then s.(control := s.control[1..]) else s.(data := s.data[1..]) }

  datatype Entry = Entry(sock: nat, packet: Packet)

  /** `queue` holds the sockets that the interface tracks; `offered` and `log` are the histories of what
      the sockets buffered and of what the interface sent. */
  datatype Net = Net(queue: seq<nat>, sockets: seq<Socket>, offered: seq<Entry>, log: seq<Entry>)

  /** Round robin keeps a list; FIFO a heap ordered by the head packets of its sockets. */
  datatype Discipline = RoundRobin | Fifo

  function HeadKey(s: Socket): nat { if Out(s) == [] then 0 else Out(s)[0].priority }

  function Keys(sockets: seq<Socket>): (r: seq<nat>)
    ensures |r| == |sockets| && forall s: nat :: s < |sockets| ==> r[s] == HeadKey(sockets[s])
  { seq(|sockets|, s requires 0 <= s < |sockets| => HeadKey(sockets[s])) }

  /** rrsocketqueue_push or fifosocketqueue_push */
  function Insert(d: Discipline, queue: seq<nat>, sockets: seq<Socket>, s: nat): seq<nat> {
    if d.RoundRobin? then queue + [s] else H.Push(queue, Keys(sockets), s)
  }

  /** rrsocketqueue_pop or fifosocketqueue_pop, which return queue[0] */
  function Remove(d: Discipline, queue: seq<nat>, sockets: seq<Socket>): seq<nat>
    requires queue != []
  { if d.RoundRobin? then queue[1..] else H.Pop(queue, Keys(sockets)) }

  /** networkinterface_wantsSend tracks a socket once; if it is tracked already nothing is moved. */
  function Track(d: Discipline, queue: seq<nat>, sockets: seq<Socket>, s: nat): seq<nat> {
    if s in queue then queue else Insert(d, queue, sockets, s)
  }

  /** socket_addToOutputBuffer up to the tracking in networkinterface_wantsSend */
  function Offer(d: Discipline, n: Net, s: nat, p: Packet): Net
    requires s < |n.sockets|
  {
    var sockets := n.sockets[s := Buffer(n.sockets[s], p)];
    n.(sockets := sockets, offered := n.offered + [Entry(s, p)], queue := Track(d, n.queue, sockets, s))
  }

  predicate CanSelect(n: Net) {
    n.queue != [] && n.queue[0] < |n.sockets| && Out(n.sockets[n.queue[0]]) != []
  }

  /** One turn of a select loop: pop a socket, pull a packet, push the socket back if it has more. */
  function Select(d: Discipline, n: Net): Net
    requires CanSelect(n)
  {
    var s := n.queue[0];
    var rest := Remove(d, n.queue, n.sockets);
    var after := Pull(n.sockets[s]);
    var sockets := n.sockets[s := after];
    Net(if Out(after) != [] then Insert(d, rest, sockets, s) else rest,
        sockets,
        n.offered,
        n.log + [Entry(s, Out(n.sockets[s])[0])])
  }

  // ----- what every step keeps --------------------------------------------------------------------

  predicate NoDups(queue: seq<nat>) { forall i, j :: 0 <= i < j < |queue| ==> queue[i] != queue[j] }

  predicate Tracked(n: Net, s: nat)
    requires s < |n.sockets|
  { s in n.queue <==> Out(n.sockets[s]) != [] }

  /** The packets of one socket and one class in a history. */
  function Of(h: seq<Entry>, s: nat, control: bool): seq<Packet> {
    if h == [] then []
    else
      var e := h[|h| - 1];
      Of(h[..|h| - 1], s, control) +
      (if e.sock == s && (e.packet.priority == 0) == control then [e.packet] else [])
  }

  predicate Classed(s: Socket) {
    && (forall p :: p in s.control ==> p.priority == 0)
    && (forall p :: p in s.data ==> p.priority != 0)
  }

  /** No loss, no duplication, own order: what was sent, followed by what waits, is what was offered. */
  predicate Conserved(n: Net, s: nat)
    requires s < |n.sockets|
  {
    && Classed(n.sockets[s])
    && Of(n.log, s, true) + n.sockets[s].control == Of(n.offered, s, true)
    && Of(n.log, s, false) + n.sockets[s].data == Of(n.offered, s, false)
  }

  predicate Good(n: Net) {
    && NoDups(n.queue)
    && (forall s :: s in n.queue ==> s < |n.sockets|)
    && (forall e :: e in n.offered ==> e.sock < |n.sockets|)
    && (forall s :: 0 <= s < |n.sockets| ==> Tracked(n, s))
    && (forall s :: 0 <= s < |n.sockets| ==> Conserved(n, s))
  }

  lemma OfMore(h: seq<Entry>, e: Entry, s: nat, control: bool)
    ensures Of(h + [e], s, control) ==
            Of(h, s, control) + (if e.sock == s && (e.packet.priority == 0) == control then [e.packet] else [])
  {
    assert (h + [e])[..|h|] == h;
  }

  lemma PullTakesHead(s: Socket)
    requires Out(s) != [] && Classed(s)
    ensures Out(Pull(s)) == Out(s)[1..] && Classed(Pull(s))
    ensures var p := Out(s)[0];
            if p.priority == 0 then s.control == [p] + Pull(s).control && s.data == Pull(s).data
            else s.data == [p] + Pull(s).data && s.control == Pull(s).control
  {
    if s.control != [] { assert Out(s)[0] in s.control; } else { assert Out(s)[0] in s.data; }
  }

  lemma OfferConserves(d: Discipline, n: Net, s: nat, p: Packet, t: nat)
    requires s < |n.sockets| && t < |n.sockets| && Conserved(n, t)
    ensures Conserved(Offer(d, n, s, p), t)
  {
    OfMore(n.offered, Entry(s, p), t, true);
    OfMore(n.offered, Entry(s, p), t, false);
  }

  /** One packet moves from the head of what waits to the end of what was sent. */
  lemma MovesOver(sent: seq<Packet>, p: Packet, waits: seq<Packet>)
    ensures (sent + [p]) + waits == sent + ([p] + waits)
  {
  }

  /** `m` is `n` after socket `s` sent its head packet. */
  predicate Sends(n: Net, s: nat, m: Net) {
    && s < |n.sockets| && Out(n.sockets[s]) != []
    && m.sockets == n.sockets[s := Pull(n.sockets[s])] && m.offered == n.offered
    && m.log == n.log + [Entry(s, Out(n.sockets[s])[0])]
  }

  lemma SendConserves(n: Net, s: nat, m: Net, t: nat)
    requires Sends(n, s, m) && t < |n.sockets| && Conserved(n, t)
    ensures Conserved(m, t)
  {
    var e := Entry(s, Out(n.sockets[s])[0]);
    if s == t { PullTakesHead(n.sockets[s]); }
    hide Of, Pull, Out, Classed;
    OfMore(n.log, e, t, true);
    OfMore(n.log, e, t, false);
    if s == t {
      var after := Pull(n.sockets[t]);
      MovesOver(Of(n.log, t, true), e.packet, after.control);
      MovesOver(Of(n.log, t, false), e.packet, after.data);
    }
  }

  lemma PullsOne(d: Discipline, n: Net)
    requires CanSelect(n)
    ensures Sends(n, n.queue[0], Select(d, n))
  {
  }

  lemma {:induction false} CountOnce(queue: seq<nat>, t: nat)
    requires NoDups(queue)
    ensures multiset(queue)[t] == if t in queue then 1 else 0
  {
    if queue != [] {
      var rest := queue[1..];
      assert queue == [queue[0]] + rest;
      assert queue[0] !in rest;
      CountOnce(rest, t);
    }
  }

  lemma CountTwice(queue: seq<nat>, i: nat, j: nat)
    requires i < j < |queue| && queue[i] == queue[j]
    ensures multiset(queue)[queue[i]] >= 2
  {
    assert queue == queue[..i] + [queue[i]] + queue[i + 1..j] + [queue[j]] + queue[j + 1..];
  }

  lemma OnceEach(queue: seq<nat>)
    requires forall t :: t in queue ==> multiset(queue)[t] == 1
    ensures NoDups(queue)
  {
    forall i, j | 0 <= i < j < |queue| ensures queue[i] != queue[j] {
      if queue[i] == queue[j] { CountTwice(queue, i, j); }
    }
  }

  /** Both disciplines put exactly one element in and take exactly the first one out. */
  lemma InsertContents(d: Discipline, queue: seq<nat>, sockets: seq<Socket>, s: nat)
    ensures multiset(Insert(d, queue, sockets, s)) == multiset(queue) + multiset{s}
  {
    if d.Fifo? { H.PushContents(queue, Keys(sockets), s); }
  }

  lemma RemoveContents(d: Discipline, queue: seq<nat>, sockets: seq<Socket>)
    requires queue != []
    ensures multiset(Remove(d, queue, sockets)) == multiset(queue) - multiset{queue[0]}
  {
    assert queue == [queue[0]] + queue[1..];
    if d.Fifo? { H.PopContents(queue, Keys(sockets)); }
  }

  lemma InsertHas(d: Discipline, queue: seq<nat>, sockets: seq<Socket>, s: nat, t: nat)
    requires NoDups(queue) && s !in queue
    ensures NoDups(Insert(d, queue, sockets, s))
    ensures t in Insert(d, queue, sockets, s) <==> t in queue || t == s
  {
    var r := Insert(d, queue, sockets, s);
    hide Insert, NoDups;
    InsertContents(d, queue, sockets, s);
    forall u | u in r ensures multiset(r)[u] == 1 {
      assert u in multiset(r);
      CountOnce(queue, u);
    }
    OnceEach(r);
    CountOnce(queue, t);
    assert t in r <==> t in multiset(r);
  }

  lemma RemoveHas(d: Discipline, queue: seq<nat>, sockets: seq<Socket>, t: nat)
    requires NoDups(queue) && queue != []
    ensures NoDups(Remove(d, queue, sockets))
    ensures t in Remove(d, queue, sockets) <==> t in queue && t != queue[0]
  {
    var r := Remove(d, queue, sockets);
    hide Remove, NoDups;
    RemoveContents(d, queue, sockets);
    forall u | u in r ensures multiset(r)[u] == 1 {
      assert u in multiset(r);
      CountOnce(queue, u);
    }
    OnceEach(r);
    CountOnce(queue, t);
    CountOnce(queue, queue[0]);
    assert t in r <==> t in multiset(r);
  }

  lemma OfferTracks(d: Discipline, n: Net, s: nat, p: Packet, t: nat)
    requires NoDups(n.queue) && s < |n.sockets| && t < |n.sockets| && Tracked(n, t)
    ensures Tracked(Offer(d, n, s, p), t) && NoDups(Offer(d, n, s, p).queue)
  {
    if s == t { assert p in Out(Buffer(n.sockets[s], p)); }
    hide Insert, NoDups;
    if s !in n.queue { InsertHas(d, n.queue, n.sockets[s := Buffer(n.sockets[s], p)], s, t); }
  }

  /** The queue after a selection holds the same sockets, save the selected one if it has no more. */
  lemma SelectHas(d: Discipline, n: Net, t: nat)
    requires CanSelect(n) && NoDups(n.queue)
    ensures var q := Select(d, n).queue;
            && NoDups(q)
            && (t in q <==> t in n.queue && (t == n.queue[0] ==> Out(Pull(n.sockets[t])) != []))
  {
    var s := n.queue[0];
    var rest := Remove(d, n.queue, n.sockets);
    hide Insert, Remove, NoDups, Out, Pull;
    RemoveHas(d, n.queue, n.sockets, t);
    RemoveHas(d, n.queue, n.sockets, s);
    InsertHas(d, rest, n.sockets[s := Pull(n.sockets[s])], s, t);
  }

  lemma SelectTracks(d: Discipline, n: Net, t: nat)
    requires CanSelect(n) && NoDups(n.queue) && t < |n.sockets| && Tracked(n, t)
    ensures Tracked(Select(d, n), t)
  {
    SelectHas(d, n, t);
    PullsOne(d, n);
    hide Out, Pull, Select, NoDups;
  }

  lemma OfferGood(d: Discipline, n: Net, s: nat, p: Packet)
    requires Good(n) && s < |n.sockets|
    ensures Good(Offer(d, n, s, p))
  {
    hide Tracked, Conserved, Insert;
    var m := Offer(d, n, s, p);
    OfferTracks(d, n, s, p, s);
    forall t | t in m.queue ensures t < |n.sockets| {
      if s !in n.queue { InsertHas(d, n.queue, m.sockets, s, t); }
    }
    hide NoDups;
    forall t | 0 <= t < |m.sockets| ensures Tracked(m, t) && Conserved(m, t) {
      OfferTracks(d, n, s, p, t);
      OfferConserves(d, n, s, p, t);
    }
  }

  lemma GoodCanSelect(n: Net)
    requires Good(n) && n.queue != []
    ensures CanSelect(n)
  {
    assert n.queue[0] in n.queue && Tracked(n, n.queue[0]);
  }

  lemma SelectGood(d: Discipline, n: Net)
    requires Good(n) && n.queue != []
    ensures CanSelect(n) && Good(Select(d, n))
  {
    GoodCanSelect(n);
    PullsOne(d, n);
    hide Tracked, Conserved, Out, Pull, Select, NoDups;
    var m := Select(d, n);
    SelectHas(d, n, 0);
    forall t | t in m.queue ensures t < |n.sockets| { SelectHas(d, n, t); }
    forall t | 0 <= t < |m.sockets| ensures Tracked(m, t) && Conserved(m, t) {
      SelectTracks(d, n, t);
      SendConserves(n, n.queue[0], m, t);
    }
  }

  // ----- runs -------------------------------------------------------------------------------------

  datatype Move = Offers(sock: nat, packet: Packet) | Selects

  predicate Enabled(d: Discipline, n: Net, x: Move) {
    match x
    case Offers(s, _) => s < |n.sockets|
    case Selects => CanSelect(n)
  }

  function Apply(d: Discipline, n: Net, x: Move): Net
    requires Enabled(d, n, x)
  {
    match x
    case Offers(s, p) => Offer(d, n, s, p)
    case Selects => Select(d, n)
  }

  predicate Runs(d: Discipline, n: Net, xs: seq<Move>, m: Net)
    decreases xs
  { if xs == [] then n == m else Enabled(d, n, xs[0]) && Runs(d, Apply(d, n, xs[0]), xs[1..], m) }

  function Start(sockets: nat): Net { Net([], Empty(sockets), [], []) }

  function Empty(k: nat): (r: seq<Socket>)
    ensures |r| == k && forall i :: 0 <= i < k ==> r[i] == Socket([], [])
  { if k == 0 then [] else Empty(k - 1) + [Socket([], [])] }

  lemma StartGood(k: nat)
    ensures Good(Start(k))
  {
    var n := Start(k);
    forall t | 0 <= t < |n.sockets| ensures Tracked(n, t) && Conserved(n, t) {}
  }

  lemma ApplyGood(d: Discipline, n: Net, x: Move)
    requires Good(n) && Enabled(d, n, x)
    ensures Good(Apply(d, n, x))
  {
    hide Good;
    match x {
      case Offers(s, p) => OfferGood(d, n, s, p);
      case Selects => SelectGood(d, n);
    }
  }

  /** Under both disciplines, in every run: no socket is queued twice, exactly the sockets with packets
      are queued, and each socket's packets leave in its own order, none lost and none twice. */
  lemma {:induction false} RunGood(d: Discipline, n: Net, xs: seq<Move>, m: Net)
    requires Good(n) && Runs(d, n, xs, m)
    ensures Good(m)
    decreases xs
  {
    hide Good, Enabled;
    if xs != [] {
      ApplyGood(d, n, xs[0]);
      RunGood(d, Apply(d, n, xs[0]), xs[1..], m);
    }
  }

  /** What the moves buffer. */
  function OfferedBy(xs: seq<Move>): seq<Entry> {
    if xs == [] then [] else (if xs[0].Offers? then [Entry(xs[0].sock, xs[0].packet)] else []) + OfferedBy(xs[1..])
  }

  function Selections(xs: seq<Move>): nat { if xs == [] then 0 else (if xs[0].Selects? then 1 else 0) + Selections(xs[1..]) }

  /** The histories are those of the moves: exactly what they buffered, in order, and one packet sent for each
      selection.  With RunGood, what a socket was given it has sent in order or still holds. */
  lemma {:induction false} RunHistories(d: Discipline, n: Net, xs: seq<Move>, m: Net)
    requires Runs(d, n, xs, m)
    ensures m.offered == n.offered + OfferedBy(xs) && |m.log| == |n.log| + Selections(xs)
    ensures |m.sockets| == |n.sockets|
    decreases xs
  {
    hide Insert, Remove, Track, Pull, Buffer, Out;
    if xs != [] {
      RunHistories(d, Apply(d, n, xs[0]), xs[1..], m);
    }
  }

  lemma {:induction false} OfferedByConcat(xs: seq<Move>, ys: seq<Move>)
    ensures OfferedBy(xs + ys) == OfferedBy(xs) + OfferedBy(ys)
  {
    if xs == [] {
      assert xs + ys == ys;
    } else {
      assert (xs + ys)[1..] == xs[1..] + ys;
      OfferedByConcat(xs[1..], ys);
    }
  }

  // ----- round robin ------------------------------------------------------------------------------

  lemma {:induction false} LogGrows(d: Discipline, n: Net, xs: seq<Move>, m: Net)
    requires Runs(d, n, xs, m)
    ensures n.log <= m.log
    decreases xs
  {
    if xs != [] { LogGrows(d, Apply(d, n, xs[0]), xs[1..], m); }
  }

  lemma TurnStep(n: Net, x: Move, p: nat)
    requires Enabled(RoundRobin, n, x) && p < |n.queue|
    ensures var k := Apply(RoundRobin, n, x);
            && (x.Offers? ==> k.log == n.log && p < |k.queue| && k.queue[p] == n.queue[p])
            && (x.Selects? ==> |k.log| == |n.log| + 1 && k.log[|n.log|].sock == n.queue[0]
                               && (p > 0 ==> p - 1 < |k.queue| && k.queue[p - 1] == n.queue[p]))
  {
    hide Out, Pull;
  }

  /** A socket at position `p` is served by exactly the selection p + 1 from now, whatever the sockets
      buffer and however many others join meanwhile. */
  lemma {:induction false} ServedAtItsTurn(n: Net, xs: seq<Move>, m: Net, p: nat)
    requires Runs(RoundRobin, n, xs, m)
    requires p < |n.queue| && |m.log| > |n.log| + p
    ensures m.log[|n.log| + p].sock == n.queue[p]
    decreases xs
  {
    hide Enabled, Apply;
    if xs != [] {
      var k := Apply(RoundRobin, n, xs[0]);
      TurnStep(n, xs[0], p);
      LogGrows(RoundRobin, k, xs[1..], m);
      if xs[0].Offers? {
        ServedAtItsTurn(k, xs[1..], m, p);
      } else if p > 0 {
        ServedAtItsTurn(k, xs[1..], m, p - 1);
      }
    }
  }

  function Served(log: seq<Entry>, s: nat): nat {
    if log == [] then 0 else Served(log[..|log| - 1], s) + if log[|log| - 1].sock == s then 1 else 0
  }

  /** Both sockets have packets in every state of the run. */
  predicate Backlogged(n: Net, xs: seq<Move>, s: nat, t: nat)
    decreases xs
  {
    && s in n.queue && t in n.queue
    && (xs != [] ==> Enabled(RoundRobin, n, xs[0]) && Backlogged(Apply(RoundRobin, n, xs[0]), xs[1..], s, t))
  }

  function Position(queue: seq<nat>, s: nat): (i: nat)
    requires s in queue
    ensures i < |queue| && queue[i] == s
  { if queue[0] == s then 0 else 1 + Position(queue[1..], s) }

  lemma PositionUnique(queue: seq<nat>, s: nat, i: nat)
    requires NoDups(queue) && i < |queue| && queue[i] == s
    ensures Position(queue, s) == i
  {
  }

  /** One if `s` is behind `t` in the queue. */
  function Behind(n: Net, s: nat, t: nat): (r: nat)
    requires s in n.queue && t in n.queue
    ensures r <= 1
  { if Position(n.queue, s) > Position(n.queue, t) then 1 else 0 }

  lemma OfferKeepsPosition(n: Net, s: nat, p: Packet, t: nat)
    requires s < |n.sockets| && t in n.queue
    ensures t in Offer(RoundRobin, n, s, p).queue && Position(Offer(RoundRobin, n, s, p).queue, t) == Position(n.queue, t)
  {
    PositionAppend(n.queue, s, t);
  }

  lemma {:induction false} PositionAppend(queue: seq<nat>, s: nat, t: nat)
    requires t in queue
    ensures Position(queue + [s], t) == Position(queue, t)
  {
    assert (queue + [s])[1..] == queue[1..] + [s];
    if queue[0] != t { PositionAppend(queue[1..], s, t); }
  }

  /** The head goes to the tail or leaves; the others move up by one. */
  lemma RotatePosition(q: seq<nat>, r: seq<nat>, t: nat)
    requires NoDups(q) && q != [] && t in q && t in r && (r == q[1..] || r == q[1..] + [q[0]])
    ensures Position(r, t) == if t == q[0] then |q| - 1 else Position(q, t) - 1
    ensures t == q[0] <==> Position(q, t) == 0
  {
    hide Position;
    var i := Position(q, t);
    assert NoDups(r);
    if t == q[0] {
      PositionUnique(q, t, 0);
      assert r[|q| - 1] == t;
      hide NoDups;
      PositionUnique(r, t, |q| - 1);
    } else {
      assert r[i - 1] == q[i];
      hide NoDups;
      PositionUnique(r, t, i - 1);
    }
  }

  lemma SelectMovesPosition(n: Net, t: nat)
    requires NoDups(n.queue) && CanSelect(n)
    requires t in n.queue && t in Select(RoundRobin, n).queue
    ensures Position(Select(RoundRobin, n).queue, t) ==
            if t == n.queue[0] then |n.queue| - 1 else Position(n.queue, t) - 1
    ensures t == n.queue[0] <==> Position(n.queue, t) == 0
  {
    hide Out, Pull, Position, NoDups;
    RotatePosition(n.queue, Select(RoundRobin, n).queue, t);
  }

  lemma BehindStep(n: Net, x: Move, s: nat, t: nat)
    requires Good(n) && Enabled(RoundRobin, n, x) && s in n.queue && t in n.queue && s != t
    requires s in Apply(RoundRobin, n, x).queue && t in Apply(RoundRobin, n, x).queue
    ensures var m := Apply(RoundRobin, n, x);
            Behind(m, s, t) - Behind(n, s, t) ==
            (Served(m.log, s) - Served(n.log, s)) - (Served(m.log, t) - Served(n.log, t))
  {
    hide Conserved, Tracked, Of, Out, Pull, Position, Select, Offer, NoDups;
    match x {
      case Offers(u, p) =>
        OfferKeepsPosition(n, u, p, s);
        OfferKeepsPosition(n, u, p, t);
        assert Offer(RoundRobin, n, u, p).log == n.log by { TurnStep(n, x, 0); }
      case Selects =>
        var m := Select(RoundRobin, n);
        SelectMovesPosition(n, s);
        SelectMovesPosition(n, t);
        PullsOne(RoundRobin, n);
        assert m.log[..|m.log| - 1] == n.log;
    }
  }

  /** Two sockets that stay backlogged are served turn about: over any span the number of packets that
      each may send differs by at most one, in favour of the one that was ahead. */
  lemma {:induction false} FairShare(n: Net, xs: seq<Move>, m: Net, s: nat, t: nat)
    requires Good(n) && Runs(RoundRobin, n, xs, m) && Backlogged(n, xs, s, t) && s != t
    ensures s in m.queue && t in m.queue
    ensures (Served(m.log, s) - Served(n.log, s)) - (Served(m.log, t) - Served(n.log, t)) ==
            Behind(m, s, t) - Behind(n, s, t)
    ensures Behind(n, s, t) == 0 ==>
              0 <= (Served(m.log, s) - Served(n.log, s)) - (Served(m.log, t) - Served(n.log, t)) <= 1
    decreases xs
  {
    hide Good, Behind, Served, Enabled, Apply;
    if xs != [] {
      var k := Apply(RoundRobin, n, xs[0]);
      ApplyGood(RoundRobin, n, xs[0]);
      BehindStep(n, xs[0], s, t);
      FairShare(k, xs[1..], m, s, t);
    }
  }

  // ----- first in, first out ----------------------------------------------------------------------

  /** Every packet carries a larger priority than all that were buffered before it. */
  predicate Increasing(h: seq<Entry>) {
    && (forall i :: 0 <= i < |h| ==> h[i].packet.priority > 0)
    && (forall i, j :: 0 <= i < j < |h| ==> h[i].packet.priority < h[j].packet.priority)
  }

  /** What was sent is a prefix of what was buffered, in the same order; the rest waits. */
  predicate InOrder(n: Net) { n.log <= n.offered }

  lemma {:induction false} OfPrefix(h: seq<Entry>, cut: nat, s: nat)
    requires cut <= |h|
    ensures Of(h[..cut], s, false) <= Of(h, s, false)
  {
    if cut == |h| {
      assert h[..cut] == h;
    } else {
      assert h[..|h| - 1][..cut] == h[..cut];
      OfPrefix(h[..|h| - 1], cut, s);
    }
  }

  /** The first packet of `s` that is not among the first `cut` entries stands at or after `cut`. */
  lemma {:induction false} HeadAfter(h: seq<Entry>, cut: nat, s: nat) returns (k: nat)
    requires cut <= |h| && |Of(h, s, false)| > |Of(h[..cut], s, false)|
    ensures cut <= k < |h| && h[k] == Entry(s, Of(h, s, false)[|Of(h[..cut], s, false)|])
  {
    var last := |h| - 1;
    assert cut < |h| by { assert h[..|h|] == h; }
    var g := h[..last];
    assert g[..cut] == h[..cut];
    OfPrefix(g, cut, s);
    if |Of(g, s, false)| > |Of(h[..cut], s, false)| {
      k := HeadAfter(g, cut, s);
      assert h[k] == g[k];
    } else {
      k := last;
    }
  }

  lemma {:induction false} NoControl(h: seq<Entry>, s: nat)
    requires forall i :: 0 <= i < |h| ==> h[i].packet.priority > 0
    ensures Of(h, s, true) == []
  {
    if h != [] { NoControl(h[..|h| - 1], s); }
  }

  /** What waits in a socket when everything sent is a prefix of what was buffered. */
  lemma WaitingIs(n: Net, s: nat)
    requires s < |n.sockets| && Conserved(n, s) && InOrder(n) && Increasing(n.offered)
    ensures Out(n.sockets[s]) == Of(n.offered, s, false)[|Of(n.log, s, false)|..]
    ensures Of(n.log, s, false) <= Of(n.offered, s, false)
  {
    NoControl(n.offered, s);
    assert n.log == n.offered[..|n.log|];
    OfPrefix(n.offered, |n.log|, s);
  }

  /** The head packet of `s` stands in the history after all that was sent. */
  lemma HeadStands(n: Net, s: nat) returns (k: nat)
    requires s < |n.sockets| && Conserved(n, s) && InOrder(n) && Increasing(n.offered)
    requires Out(n.sockets[s]) != []
    ensures |n.log| <= k < |n.offered| && n.offered[k] == Entry(s, Out(n.sockets[s])[0])
  {
    WaitingIs(n, s);
    assert n.log == n.offered[..|n.log|];
    hide Of, Out, Conserved;
    k := HeadAfter(n.offered, |n.log|, s);
  }

  /** The first entry that is not sent yet is the head packet of its socket. */
  lemma NextIsHead(n: Net)
    requires InOrder(n) && Increasing(n.offered) && |n.log| < |n.offered|
    requires var t := n.offered[|n.log|].sock; t < |n.sockets| && Conserved(n, t)
    ensures var e := n.offered[|n.log|];
            Out(n.sockets[e.sock]) != [] && Out(n.sockets[e.sock])[0] == e.packet
  {
    var c, t := |n.log|, n.offered[|n.log|].sock;
    WaitingIs(n, t);
    assert n.offered[..c + 1] == n.log + [n.offered[c]];
    OfMore(n.log, n.offered[c], t, false);
    OfPrefix(n.offered, c + 1, t);
  }

  /** The heap is in order for the packets that its sockets would send now. */
  predicate HeapOk(n: Net) { H.HeapOrder(n.queue, Keys(n.sockets)) }

  /** The socket that a pop takes has a head packet of the least priority. */
  predicate LeastFirst(n: Net) { H.RootLeast(n.queue, Keys(n.sockets)) }

  /** The packet becomes the head packet of a socket that is queued for a later one: the key of the socket
      falls, and since it is queued already nothing is moved. */
  predicate Overtakes(n: Net, s: nat, p: Packet) {
    p.priority == 0 && s in n.queue && s < |n.sockets| && HeadKey(n.sockets[s]) > 0
  }

  lemma BufferKey(s: Socket, p: Packet)
    requires Classed(s)
    ensures HeadKey(Buffer(s, p)) ==
            if Out(s) == [] then p.priority else if p.priority == 0 && HeadKey(s) > 0 then 0 else HeadKey(s)
  {
    if s.control != [] { assert Out(s)[0] in s.control; }
  }

  lemma KeysAfterOffer(n: Net, s: nat, p: Packet, x: nat)
    requires Good(n) && s < |n.sockets|
    ensures var keys, other := Keys(n.sockets), Keys(Offer(Fifo, n, s, p).sockets);
            H.Key(other, x) == if x == s && (s !in n.queue || Overtakes(n, s, p)) then p.priority else H.Key(keys, x)
  {
    assert Conserved(n, s) && Tracked(n, s);
    hide Of, Insert, Good;
    BufferKey(n.sockets[s], p);
  }

  lemma OfferKeepsHeap(n: Net, s: nat, p: Packet)
    requires Good(n) && HeapOk(n) && s < |n.sockets| && !Overtakes(n, s, p)
    ensures HeapOk(Offer(Fifo, n, s, p))
  {
    var other := Keys(Offer(Fifo, n, s, p).sockets);
    hide Good, H.HeapOrder, H.Push, Overtakes, Keys;
    forall k | 0 <= k < |n.queue| ensures H.Key(Keys(n.sockets), n.queue[k]) == H.Key(other, n.queue[k]) {
      KeysAfterOffer(n, s, p, n.queue[k]);
    }
    H.SameOrder(n.queue, Keys(n.sockets), other);
    if s !in n.queue { H.PushOrder(n.queue, other, s); }
  }

  /** After a control packet that overtakes, the heap is in order exactly if its socket is the root or the
      parent has a control packet as well, and the next pop is least exactly if its socket is the root or
      the root has one as well. */
  lemma OvertakingBreaksExactly(n: Net, i: nat, p: Packet)
    requires Good(n) && HeapOk(n) && i < |n.queue| && n.queue[i] < |n.sockets| && Overtakes(n, n.queue[i], p)
    ensures var m := Offer(Fifo, n, n.queue[i], p);
            && (HeapOk(m) <==> i == 0 || H.Key(Keys(n.sockets), n.queue[H.Parent(i)]) == 0)
            && (LeastFirst(m) <==> i == 0 || H.Key(Keys(n.sockets), n.queue[0]) == 0)
  {
    var s := n.queue[i];
    var other := Keys(Offer(Fifo, n, s, p).sockets);
    assert NoDups(n.queue) && Offer(Fifo, n, s, p).queue == n.queue;
    hide Good, H.HeapOrder, H.RootLeast, Keys, Offer;
    forall k | 0 <= k < |n.queue|
      ensures H.Key(other, n.queue[k]) == if k == i then 0 else H.Key(Keys(n.sockets), n.queue[k])
    {
      KeysAfterOffer(n, s, p, n.queue[k]);
    }
    H.FallenKey(n.queue, Keys(n.sockets), other, i);
  }

  /** While the heap is in order, buffering a packet leaves the next pop least exactly if the packet does
      not overtake in a socket behind a root that has no control packet. */
  lemma OfferKeepsLeastExactly(n: Net, s: nat, p: Packet)
    requires Good(n) && HeapOk(n) && s < |n.sockets|
    ensures LeastFirst(Offer(Fifo, n, s, p)) <==>
            !(Overtakes(n, s, p) && s != n.queue[0] && H.Key(Keys(n.sockets), n.queue[0]) > 0)
  {
    if Overtakes(n, s, p) {
      var i :| 0 <= i < |n.queue| && n.queue[i] == s;
      assert NoDups(n.queue);
      hide Good, HeapOk, LeastFirst, Overtakes;
      OvertakingBreaksExactly(n, i, p);
    } else {
      OfferKeepsHeap(n, s, p);
      var m := Offer(Fifo, n, s, p);
      H.RootIsLeast(m.queue, Keys(m.sockets));
    }
  }

  lemma SelectKeepsHeap(n: Net)
    requires Good(n) && HeapOk(n) && CanSelect(n)
    ensures HeapOk(Select(Fifo, n))
  {
    var s := n.queue[0];
    var rest := Remove(Fifo, n.queue, n.sockets);
    var sockets := n.sockets[s := Pull(n.sockets[s])];
    H.PopOrder(n.queue, Keys(n.sockets));
    assert NoDups(n.queue);
    hide Good, H.HeapOrder, H.Push, H.Pop, Out, Pull, NoDups;
    forall k | 0 <= k < |rest| ensures H.Key(Keys(n.sockets), rest[k]) == H.Key(Keys(sockets), rest[k]) {
      RemoveHas(Fifo, n.queue, n.sockets, rest[k]);
      assert rest[k] in rest;
    }
    H.SameOrder(rest, Keys(n.sockets), Keys(sockets));
    H.PushOrder(rest, Keys(sockets), s);
  }

  predicate NoOvertaking(n: Net, xs: seq<Move>)
    decreases xs
  {
    xs != [] && Enabled(Fifo, n, xs[0]) ==>
      && (xs[0].Offers? ==> !Overtakes(n, xs[0].sock, xs[0].packet))
      && NoOvertaking(Apply(Fifo, n, xs[0]), xs[1..])
  }

  lemma HeapStep(n: Net, x: Move)
    requires Good(n) && HeapOk(n) && Enabled(Fifo, n, x) && (x.Offers? ==> !Overtakes(n, x.sock, x.packet))
    ensures HeapOk(Apply(Fifo, n, x))
  {
    hide Good, HeapOk, Overtakes;
    match x {
      case Offers(s, p) => OfferKeepsHeap(n, s, p);
      case Selects => SelectKeepsHeap(n);
    }
  }

  lemma {:induction false} HeapStays(n: Net, xs: seq<Move>, m: Net)
    requires Good(n) && HeapOk(n) && Runs(Fifo, n, xs, m) && NoOvertaking(n, xs)
    ensures HeapOk(m) && LeastFirst(m)
    decreases xs
  {
    if xs == [] {
      H.RootIsLeast(m.queue, Keys(m.sockets));
    } else {
      hide Good, HeapOk, LeastFirst, Enabled, Apply, Overtakes;
      ApplyGood(Fifo, n, xs[0]);
      HeapStep(n, xs[0]);
      HeapStays(Apply(Fifo, n, xs[0]), xs[1..], m);
    }
  }

  /** In every run over `k` sockets each pop takes a least head packet; without `overtaking` only runs in
      which no packet overtakes are meant. */
  ghost predicate AlwaysLeast(k: nat, overtaking: bool) {
    forall xs: seq<Move>, m: Net ::
      Runs(Fifo, Start(k), xs, m) && (overtaking || NoOvertaking(Start(k), xs)) ==> LeastFirst(m)
  }

  lemma {:induction false} SocketsStay(d: Discipline, n: Net, xs: seq<Move>, m: Net)
    requires Runs(d, n, xs, m)
    ensures |m.sockets| == |n.sockets|
    decreases xs
  {
    if xs != [] { SocketsStay(d, Apply(d, n, xs[0]), xs[1..], m); }
  }

  /** Socket 0 buffers priority 1, socket 1 buffers priority 2, then socket 1 buffers a control packet: the
      heap still has socket 0 at its root. */
  lemma ControlPacketOvertakes(k: nat) returns (xs: seq<Move>, m: Net)
    requires k >= 2
    ensures Runs(Fifo, Start(k), xs, m) && !LeastFirst(m)
  {
    var p, q, c := Packet(1, 0, 0, 0), Packet(2, 0, 0, 0), Packet(0, 0, 0, 0);
    var n0 := Start(k);
    var n1 := Offer(Fifo, n0, 0, p);
    var n2 := Offer(Fifo, n1, 1, q);
    m := Offer(Fifo, n2, 1, c);
    assert n1.queue == [0];
    assert n2.queue == [0, 1];
    assert m.queue == [0, 1] && H.Key(Keys(m.sockets), 0) == 1 && H.Key(Keys(m.sockets), 1) == 0;
    assert Runs(Fifo, n0, [], n0);
    hide Offer, Keys, Start;
    RunsThen(Fifo, n0, [], n0, Offers(0, p));
    RunsThen(Fifo, n0, [] + [Offers(0, p)], n1, Offers(1, q));
    RunsThen(Fifo, n0, [] + [Offers(0, p)] + [Offers(1, q)], n2, Offers(1, c));
    xs := [] + [Offers(0, p)] + [Offers(1, q)] + [Offers(1, c)];
    assert m.queue[0] == 0 && m.queue[1] == 1;
  }

  lemma StartHeap(k: nat)
    ensures Good(Start(k)) && HeapOk(Start(k))
  {
    StartGood(k);
  }

  lemma OneSocketIsLeast(m: Net)
    requires Good(m) && |m.sockets| <= 1
    ensures LeastFirst(m)
  {
    forall k | 0 <= k < |m.queue| ensures m.queue[k] == 0 { assert m.queue[k] in m.queue; }
  }

  /** The FIFO discipline pops a least head packet in every run exactly if no control packet may overtake
      in a socket that is queued, or there are not two sockets. */
  lemma FifoPopsLeastExactly(k: nat, overtaking: bool)
    ensures AlwaysLeast(k, overtaking) <==> !overtaking || k <= 1
  {
    StartHeap(k);
    hide Good, HeapOk, LeastFirst, Start;
    if !overtaking {
      forall xs: seq<Move>, m: Net | Runs(Fifo, Start(k), xs, m) && NoOvertaking(Start(k), xs) ensures LeastFirst(m) {
        HeapStays(Start(k), xs, m);
      }
    } else if k <= 1 {
      forall xs: seq<Move>, m: Net | Runs(Fifo, Start(k), xs, m) ensures LeastFirst(m) {
        RunGood(Fifo, Start(k), xs, m);
        SocketsStay(Fifo, Start(k), xs, m);
        StartSize(k);
        OneSocketIsLeast(m);
      }
    } else {
      var xs, m := ControlPacketOvertakes(k);
    }
  }

  lemma StartSize(k: nat)
    ensures |Start(k).sockets| == k
  {
  }

  lemma SelectInOrder(n: Net)
    requires Good(n) && InOrder(n) && Increasing(n.offered) && LeastFirst(n) && CanSelect(n)
    ensures InOrder(Select(Fifo, n))
  {
    var s := n.queue[0];
    assert Tracked(n, s) && Conserved(n, s);
    var k := HeadStands(n, s);
    var t := n.offered[|n.log|].sock;
    assert n.offered[|n.log|] in n.offered;
    assert Tracked(n, t) && Conserved(n, t);
    hide Of, Conserved, Pull, Good;
    NextIsHead(n);
    assert t in n.queue;
    var j :| 0 <= j < |n.queue| && n.queue[j] == t;
    assert H.Key(Keys(n.sockets), n.queue[0]) <= H.Key(Keys(n.sockets), n.queue[j]);
    assert k == |n.log|;
    PullsOne(Fifo, n);
  }

  lemma InOrderStep(n: Net, x: Move)
    requires Good(n) && InOrder(n) && HeapOk(n) && Enabled(Fifo, n, x)
    requires Increasing(n.offered) && (x.Offers? ==> x.packet.priority > 0)
    ensures var k := Apply(Fifo, n, x); Good(k) && InOrder(k) && HeapOk(k)
  {
    ApplyGood(Fifo, n, x);
    HeapStep(n, x);
    if x.Selects? {
      H.RootIsLeast(n.queue, Keys(n.sockets));
      hide Good, Increasing, HeapOk;
      SelectInOrder(n);
    }
  }

  lemma OfferedPositive(d: Discipline, n: Net, x: Move, h: seq<Entry>)
    requires Enabled(d, n, x) && Apply(d, n, x).offered <= h && Increasing(h)
    ensures x.Offers? ==> x.packet.priority > 0
  {
    if x.Offers? { assert h[|n.offered|] == Apply(d, n, x).offered[|n.offered|]; }
  }

  /** If every buffered packet has a larger priority than all packets before it, the FIFO discipline
      sends the packets of all sockets exactly in the order in which they were buffered. */
  lemma {:induction false} FifoKeepsOrder(n: Net, xs: seq<Move>, m: Net)
    requires Good(n) && InOrder(n) && HeapOk(n) && Runs(Fifo, n, xs, m) && Increasing(m.offered)
    ensures Good(m) && m.log <= m.offered
    decreases xs
  {
    hide Good, Increasing, HeapOk, Enabled, Apply;
    if xs != [] {
      var k := Apply(Fifo, n, xs[0]);
      OfferedGrows(Fifo, n, xs, m);
      OfferedGrows(Fifo, k, xs[1..], m);
      EarlierIncreasing(n.offered, m.offered);
      OfferedPositive(Fifo, n, xs[0], m.offered);
      InOrderStep(n, xs[0]);
      FifoKeepsOrder(k, xs[1..], m);
    }
  }

  /** The socket buffered its data packets in the order of their priorities. */
  predicate Rising(h: seq<Entry>, s: nat) {
    var ps := Of(h, s, false);
    forall i, j :: 0 <= i < j < |ps| ==> ps[i].priority <= ps[j].priority
  }

  lemma HeadLeastOfSocket(n: Net, s: nat, p: Packet)
    requires s < |n.sockets| && Conserved(n, s) && Rising(n.offered, s) && p in Out(n.sockets[s])
    ensures HeadKey(n.sockets[s]) <= p.priority
  {
    var sent, data, all := Of(n.log, s, false), n.sockets[s].data, Of(n.offered, s, false);
    var control := n.sockets[s].control;
    hide Of;
    if control != [] {
      assert control[0] in control;
    } else {
      var i :| 0 <= i < |data| && data[i] == p;
      assert all[|sent|] == data[0] && all[|sent| + i] == data[i];
    }
  }

  /** No packet that waits anywhere has a smaller priority than the one that is sent next. */
  predicate SendsLeastWaiting(n: Net)
    requires n.queue != []
  {
    forall s: nat, p :: s < |n.sockets| && p in Out(n.sockets[s]) ==> H.Key(Keys(n.sockets), n.queue[0]) <= p.priority
  }

  /** If each socket by itself buffers in the order of priorities, the next packet is the least of all
      that wait exactly if the popped socket's head packet is the least of the head packets. */
  lemma MergesExactly(n: Net)
    requires Good(n) && n.queue != [] && forall s :: 0 <= s < |n.sockets| ==> Rising(n.offered, s)
    ensures SendsLeastWaiting(n) <==> LeastFirst(n)
  {
    hide Rising;
    if LeastFirst(n) {
      forall s: nat, p | s < |n.sockets| && p in Out(n.sockets[s])
        ensures H.Key(Keys(n.sockets), n.queue[0]) <= p.priority
      {
        assert Tracked(n, s) && Conserved(n, s);
        hide Good, Conserved;
        HeadLeastOfSocket(n, s, p);
        var k :| 0 <= k < |n.queue| && n.queue[k] == s;
        assert H.Key(Keys(n.sockets), n.queue[0]) <= H.Key(Keys(n.sockets), n.queue[k]);
      }
    }
    if SendsLeastWaiting(n) {
      forall k | 0 <= k < |n.queue|
        ensures H.Key(Keys(n.sockets), n.queue[0]) <= H.Key(Keys(n.sockets), n.queue[k])
      {
        var s := n.queue[k];
        assert s in n.queue && Tracked(n, s);
        assert Out(n.sockets[s])[0] in Out(n.sockets[s]);
      }
    }
  }

  /** The FIFO discipline merges the sockets: if each socket buffers in the order of priorities and no
      control packet overtakes, every packet it sends is the least of all that wait then. */
  lemma FifoMerges(k: nat, xs: seq<Move>, m: Net)
    requires Runs(Fifo, Start(k), xs, m) && NoOvertaking(Start(k), xs) && m.queue != []
    requires forall s :: 0 <= s < k ==> Rising(m.offered, s)
    ensures CanSelect(m) && SendsLeastWaiting(m)
  {
    StartHeap(k);
    HeapStays(Start(k), xs, m);
    RunGood(Fifo, Start(k), xs, m);
    SocketsStay(Fifo, Start(k), xs, m);
    StartSize(k);
    GoodCanSelect(m);
    hide Good, HeapOk, LeastFirst, Rising, SendsLeastWaiting;
    MergesExactly(m);
  }

  lemma EarlierIncreasing(g: seq<Entry>, h: seq<Entry>)
    requires g <= h && Increasing(h)
    ensures Increasing(g)
  {
    assert forall i :: 0 <= i < |g| ==> g[i] == h[i];
  }

  lemma {:induction false} OfferedGrows(d: Discipline, n: Net, xs: seq<Move>, m: Net)
    requires Runs(d, n, xs, m)
    ensures n.offered <= m.offered
    decreases xs
  {
    if xs != [] { OfferedGrows(d, Apply(d, n, xs[0]), xs[1..], m); }
  }

  lemma {:induction false} RunsThen(d: Discipline, n: Net, xs: seq<Move>, m: Net, x: Move)
    requires Runs(d, n, xs, m) && Enabled(d, m, x)
    ensures Runs(d, n, xs + [x], Apply(d, m, x))
    decreases xs
  {
    hide Enabled, Apply;
    if xs != [] {
      assert (xs + [x])[1..] == xs[1..] + [x];
      RunsThen(d, Apply(d, n, xs[0]), xs[1..], m, x);
    } else {
      assert (xs + [x])[1..] == [];
      assert Runs(d, Apply(d, m, x), [], Apply(d, m, x));
    }
  }

  /** The number of packets that wait in all sockets. */
  function Waiting(sockets: seq<Socket>): nat {
    if sockets == [] then 0 else |Out(sockets[0])| + Waiting(sockets[1..])
  }

  lemma {:induction false} WaitingUpdate(sockets: seq<Socket>, s: nat, after: Socket)
    requires s < |sockets|
    ensures Waiting(sockets[s := after]) == Waiting(sockets) - |Out(sockets[s])| + |Out(after)|
  {
    if s > 0 {
      assert sockets[s := after][1..] == sockets[1..][s - 1 := after];
      WaitingUpdate(sockets[1..], s - 1, after);
    } else {
      assert sockets[s := after][1..] == sockets[1..];
    }
  }
}
