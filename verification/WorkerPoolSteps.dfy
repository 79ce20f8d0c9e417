/**
 Every step of the pool keeps every invariant: one lemma per step and invariant, then StepInv.
 */
module WorkerPoolSteps {
  import opened WorkerPoolModel

  // ----- each step keeps each invariant ----------------------------------------------------------

  lemma HeadTail(q: seq<nat>)
    requires NoDup(q) && q != []
    ensures NoDup(q[1..]) && forall w :: w in q[1..] <==> w in q && w != q[0]
  {
  }

  lemma PushTail(q: seq<nat>, w: nat)
    requires NoDup(q) && w !in q
    ensures NoDup(q + [w]) && forall v :: v in q + [w] <==> v in q || v == w
  {
  }

  lemma HeadIn(q: seq<nat>, bound: nat)
    requires q != [] && forall i :: 0 <= i < |q| ==> q[i] < bound
    ensures exists w :: 0 <= w < bound && w in q
  {
    assert q[0] in q;
  }

  // Queues.

  lemma PopQueues(s: State, u: nat, lp: nat, from: nat)
    requires Shape(s) && Queues(s) && u <= s.W() && lp < s.L() && from < s.L() && s.ready[from] != []
    ensures Shape(Pop(s, u, lp, from)) && Queues(Pop(s, u, lp, from))
  {
    var n := Pop(s, u, lp, from);
    var w := s.ready[from][0];
    assert ReadyIs(s, from) && w in s.ready[from];
    HeadTail(s.ready[from]);
    forall l | 0 <= l < s.L() ensures ReadyIs(n, l) && DoneIs(n, l) {
      assert ReadyIs(s, l) && DoneIs(s, l);
    }
  }

  lemma StageQueues(s: State, n: State, w: nat)
    requires Shape(s) && Queues(s) && Shape(n) && w < s.W() == n.W() && s.ready == n.ready && s.done == n.done
    requires n.stage == s.stage[w := n.stage[w]]
    requires !s.stage[w].InReady? && !s.stage[w].InDone? && !n.stage[w].InReady? && !n.stage[w].InDone?
    ensures Queues(n)
  {
    forall l | 0 <= l < s.L() ensures ReadyIs(n, l) && DoneIs(n, l) {
      assert ReadyIs(s, l) && DoneIs(s, l);
    }
  }

  lemma SameQueues(s: State, n: State)
    requires Shape(s) && Queues(s) && Shape(n) && s.W() == n.W() && s.ready == n.ready && s.done == n.done && s.stage == n.stage
    ensures Queues(n)
  {
    forall l | 0 <= l < s.L() ensures ReadyIs(n, l) && DoneIs(n, l) {
      assert ReadyIs(s, l) && DoneIs(s, l);
    }
  }

  lemma PushDoneQueues(s: State, w: nat)
    requires Shape(s) && Queues(s) && w < s.W() && s.stage[w] == Active
    ensures Shape(PushDone(s, w)) && Queues(PushDone(s, w))
  {
    var n := PushDone(s, w);
    var lp := s.lpOf[w];
    assert DoneIs(s, lp);
    PushTail(s.done[lp], w);
    assert n.ready == s.ready;
    forall l | 0 <= l < s.L() ensures ReadyIs(n, l) && DoneIs(n, l) {
      assert ReadyIs(s, l) && DoneIs(s, l);
    }
  }

  lemma FinishQueues(s: State)
    requires Shape(s) && Queues(s) && forall w :: 0 <= w < s.W() ==> s.stage[w].InDone?
    ensures Shape(FinishTask(s)) && Queues(FinishTask(s)) && AllEmpty(s)
  {
    var n := FinishTask(s);
    forall l | 0 <= l < s.L() ensures ReadyIs(n, l) && DoneIs(n, l) && s.ready[l] == [] {
      assert ReadyIs(s, l) && DoneIs(s, l);
      if s.ready[l] != [] { HeadIn(s.ready[l], s.W()); }
    }
  }

  // Agents.

  lemma MissAgents(s: State, u: nat, lp: nat, k: nat)
    requires Shape(s) && Agents(s) && u <= s.W() && s.pcs[u] == Scan(lp, k) && k < s.L()
    ensures Shape(Miss(s, u, lp, k)) && Agents(Miss(s, u, lp, k))
  {
    var n := Miss(s, u, lp, k);
    forall w | 0 <= w < s.W() ensures StageOk(n, w) { assert StageOk(s, w); }
    forall v | 0 <= v <= s.W() ensures HandOk(n, v) { assert HandOk(s, v); }
  }

  lemma PopAgents(s: State, u: nat, lp: nat, from: nat)
    requires Shape(s) && Agents(s) && u <= s.W() && s.pcs[u].Scan? && s.pcs[u].lp == lp
    requires from < s.L() && s.ready[from] != [] && s.stage[s.ready[from][0]].InReady?
    requires !Between(s)
    ensures Shape(Pop(s, u, lp, from)) && Agents(Pop(s, u, lp, from))
  {
    var n := Pop(s, u, lp, from);
    assert StageOk(s, s.ready[from][0]);
    forall w | 0 <= w < s.W() ensures StageOk(n, w) { assert StageOk(s, w); }
    forall v | 0 <= v <= s.W() ensures HandOk(n, v) { assert HandOk(s, v); }
  }

  lemma GiveUpAgents(s: State, u: nat, lp: nat)
    requires Shape(s) && Agents(s) && u <= s.W() && s.pcs[u].Scan? && s.pcs[u].lp == lp && !Between(s)
    ensures Shape(GiveUp(s, u, lp)) && Agents(GiveUp(s, u, lp))
  {
    var n := GiveUp(s, u, lp);
    forall w | 0 <= w < s.W() ensures StageOk(n, w) { assert StageOk(s, w); }
    forall v | 0 <= v <= s.W() ensures HandOk(n, v) { assert HandOk(s, v); }
  }

  lemma AssignAgents(s: State, u: nat, lp: nat, w: nat)
    requires Shape(s) && Agents(s) && u <= s.W() && s.pcs[u] == Got(lp, w)
    ensures Shape(Assign(s, u, lp, w)) && Agents(Assign(s, u, lp, w))
  {
    var n := Assign(s, u, lp, w);
    assert HandOk(s, u);
    forall w | 0 <= w < s.W() ensures StageOk(n, w) { assert StageOk(s, w); }
    forall v | 0 <= v <= s.W() ensures HandOk(n, v) { assert HandOk(s, v); }
  }

  lemma PostAgents(s: State, u: nat, lp: nat, w: nat)
    requires Shape(s) && Agents(s) && u <= s.W() && s.pcs[u] == Hand(lp, w) && !Between(s)
    ensures Shape(Post(s, u, lp, w)) && Agents(Post(s, u, lp, w))
  {
    var n := Post(s, u, lp, w);
    assert HandOk(s, u) && StageOk(s, w);
    forall w | 0 <= w < s.W() ensures StageOk(n, w) { assert StageOk(s, w); }
    forall v | 0 <= v <= s.W() ensures HandOk(n, v) { assert HandOk(s, v); }
  }

  lemma CountDownAgents(s: State, u: nat)
    requires Shape(s) && Agents(s) && u < s.W() && s.pcs[u] == Counting && !Between(s)
    ensures Shape(CountDown(s, u)) && Agents(CountDown(s, u))
  {
    var n := CountDown(s, u);
    forall w | 0 <= w < s.W() ensures StageOk(n, w) { assert StageOk(s, w); }
    forall v | 0 <= v <= s.W() ensures HandOk(n, v) { assert HandOk(s, v); }
  }

  lemma StartAgents(s: State, roundEnd: nat, quit: bool)
    requires Shape(s) && Agents(s) && s.phase == Resting && forall w :: 0 <= w < s.W() ==> s.stage[w].InReady?
    ensures Shape(StartTask(s, roundEnd, quit)) && Agents(StartTask(s, roundEnd, quit))
  {
    var n := StartTask(s, roundEnd, quit);
    forall w | 0 <= w < s.W() ensures StageOk(n, w) { assert StageOk(s, w); }
    forall v | 0 <= v <= s.W() ensures HandOk(n, v) { assert HandOk(s, v); }
  }

  lemma FinishAgents(s: State)
    requires Shape(s) && Agents(s) && s.phase == Awaiting
    requires forall w :: 0 <= w < s.W() ==> s.stage[w].InDone? && s.pcs[w] == if s.quitting then Exited else Waiting
    ensures Shape(FinishTask(s)) && Agents(FinishTask(s))
  {
    var n := FinishTask(s);
    forall w | 0 <= w < s.W() ensures StageOk(n, w) { assert StageOk(s, w); }
    forall v | 0 <= v <= s.W() ensures HandOk(n, v) { assert HandOk(s, v); }
  }

  lemma BeginAgents(s: State, w: nat)
    requires Shape(s) && Agents(s) && w < s.W() && s.begin[w] > 0
    ensures Shape(BeginWork(s, w)) && Agents(BeginWork(s, w))
  {
    var n := BeginWork(s, w);
    assert StageOk(s, w);
    forall w | 0 <= w < s.W() ensures StageOk(n, w) { assert StageOk(s, w); }
    forall v | 0 <= v <= s.W() ensures HandOk(n, v) { assert HandOk(s, v); }
  }

  lemma ReportAgents(s: State, w: nat, t: nat)
    requires Shape(s) && Agents(s) && w < s.W() && s.pcs[w] == Running
    ensures Shape(ReportTime(s, w, t)) && Agents(ReportTime(s, w, t))
  {
    var n := ReportTime(s, w, t);
    forall w | 0 <= w < s.W() ensures StageOk(n, w) { assert StageOk(s, w); }
    forall v | 0 <= v <= s.W() ensures HandOk(n, v) { assert HandOk(s, v); }
  }

  lemma StoreAgents(s: State, w: nat, t: nat, seen: nat)
    requires Shape(s) && Agents(s) && w < s.W() && s.pcs[w] == Reporting(t, seen)
    ensures Shape(StoreTime(s, w, t, seen)) && Agents(StoreTime(s, w, t, seen))
  {
    var n := StoreTime(s, w, t, seen);
    forall w | 0 <= w < s.W() ensures StageOk(n, w) { assert StageOk(s, w); }
    forall v | 0 <= v <= s.W() ensures HandOk(n, v) { assert HandOk(s, v); }
  }

  lemma PushDoneAgents(s: State, w: nat)
    requires Shape(s) && Agents(s) && w < s.W() && s.pcs[w] == Running
    ensures Shape(PushDone(s, w)) && Agents(PushDone(s, w))
  {
    var n := PushDone(s, w);
    assert StageOk(s, w);
    forall w | 0 <= w < s.W() ensures StageOk(n, w) { assert StageOk(s, w); }
    forall v | 0 <= v <= s.W() ensures HandOk(n, v) { assert HandOk(s, v); }
  }

  // Exclusion.

  lemma PopExclusion(s: State, u: nat, lp: nat, from: nat)
    requires Shape(s) && Exclusion(s) && u <= s.W() && s.pcs[u].Scan? && s.pcs[u].lp == lp
    requires from < s.L() && s.ready[from] != []
    requires s.stage[s.ready[from][0]].InReady?
    ensures Shape(Pop(s, u, lp, from)) && Exclusion(Pop(s, u, lp, from))
  {
    var n := Pop(s, u, lp, from);
    forall l | 0 <= l < s.L() ensures HolderOk(n, l) { assert HolderOk(s, l); }
  }

  lemma MissExclusion(s: State, u: nat, lp: nat, k: nat)
    requires Shape(s) && Exclusion(s) && u <= s.W() && s.pcs[u] == Scan(lp, k) && k < s.L()
    ensures Shape(Miss(s, u, lp, k)) && Exclusion(Miss(s, u, lp, k))
  {
    var n := Miss(s, u, lp, k);
    forall l | 0 <= l < s.L() ensures HolderOk(n, l) { assert HolderOk(s, l); }
  }

  lemma GiveUpExclusion(s: State, u: nat, lp: nat)
    requires Shape(s) && Exclusion(s) && u <= s.W() && s.pcs[u].Scan? && s.pcs[u].lp == lp
    requires u < s.W() ==> s.stage[u].InDone?
    ensures Shape(GiveUp(s, u, lp)) && Exclusion(GiveUp(s, u, lp))
  {
    var n := GiveUp(s, u, lp);
    forall l | 0 <= l < s.L() ensures HolderOk(n, l) { assert HolderOk(s, l); }
  }

  lemma AssignExclusion(s: State, u: nat, lp: nat, w: nat)
    requires Shape(s) && Exclusion(s) && u <= s.W() && s.pcs[u] == Got(lp, w) && s.stage[w].Popped?
    ensures Shape(Assign(s, u, lp, w)) && Exclusion(Assign(s, u, lp, w))
  {
    var n := Assign(s, u, lp, w);
    forall l | 0 <= l < s.L() ensures HolderOk(n, l) { assert HolderOk(s, l); }
  }

  lemma WorkerPostExclusion(s: State, u: nat, lp: nat, w: nat)
    requires Shape(s) && Exclusion(s) && u < s.W() && s.pcs[u] == Hand(lp, w)
    requires s.stage[w].Popped? && s.lpOf[w] == lp && s.pcs[w] == Waiting && s.stage[u].InDone?
    ensures Shape(Post(s, u, lp, w)) && Exclusion(Post(s, u, lp, w))
  {
    var n := Post(s, u, lp, w);
    forall l | 0 <= l < s.L() ensures HolderOk(n, l) { assert HolderOk(s, l); }
  }

  lemma MainPostExclusion(s: State, lp: nat, w: nat)
    requires Shape(s) && Exclusion(s) && s.pcs[s.W()] == Hand(lp, w)
    requires s.stage[w].Popped? && s.lpOf[w] == lp && s.pcs[w] == Waiting
    requires lp + 1 < s.L() ==> s.holder[lp + 1] == Nobody
    ensures Shape(Post(s, s.W(), lp, w)) && Exclusion(Post(s, s.W(), lp, w))
  {
    var n := Post(s, s.W(), lp, w);
    forall l | 0 <= l < s.L() ensures HolderOk(n, l) { assert HolderOk(s, l); }
  }

  lemma CountDownExclusion(s: State, u: nat)
    requires Shape(s) && Exclusion(s) && u < s.W() && s.pcs[u] == Counting
    ensures Shape(CountDown(s, u)) && Exclusion(CountDown(s, u))
  {
    var n := CountDown(s, u);
    forall l | 0 <= l < s.L() ensures HolderOk(n, l) { assert HolderOk(s, l); }
  }

  lemma StartExclusion(s: State, roundEnd: nat, quit: bool)
    requires Shape(s) && Exclusion(s) && s.holder[0] == Nobody
    requires s.pcs[s.W()] == Waiting
    ensures Shape(StartTask(s, roundEnd, quit)) && Exclusion(StartTask(s, roundEnd, quit))
  {
    var n := StartTask(s, roundEnd, quit);
    forall l | 0 <= l < s.L() ensures HolderOk(n, l) { assert HolderOk(s, l); }
  }

  lemma FinishExclusion(s: State)
    requires Shape(s) && Exclusion(s)
    ensures Shape(FinishTask(s)) && Exclusion(FinishTask(s))
  {
    var n := FinishTask(s);
    assert forall u :: 0 <= u < s.W() ==> n.stage[u] == Swapped(s.stage[u]);
    forall l | 0 <= l < s.L() ensures HolderOk(n, l) { assert HolderOk(s, l); }
  }

  lemma BeginExclusion(s: State, w: nat)
    requires Shape(s) && Exclusion(s) && w < s.W() && s.stage[w] == Posted && s.begin[w] > 0
    requires s.pcs[w] == Waiting
    ensures Shape(BeginWork(s, w)) && Exclusion(BeginWork(s, w))
  {
    var n := BeginWork(s, w);
    forall l | 0 <= l < s.L() ensures HolderOk(n, l) { assert HolderOk(s, l); }
  }

  lemma ReportExclusion(s: State, w: nat, t: nat)
    requires Shape(s) && Exclusion(s) && w < s.W() && s.pcs[w] == Running
    ensures Shape(ReportTime(s, w, t)) && Exclusion(ReportTime(s, w, t))
  {
    var n := ReportTime(s, w, t);
    forall l | 0 <= l < s.L() ensures HolderOk(n, l) { assert HolderOk(s, l); }
  }

  lemma StoreExclusion(s: State, w: nat, t: nat, seen: nat)
    requires Shape(s) && Exclusion(s) && w < s.W() && s.pcs[w] == Reporting(t, seen)
    ensures Shape(StoreTime(s, w, t, seen)) && Exclusion(StoreTime(s, w, t, seen))
  {
    var n := StoreTime(s, w, t, seen);
    forall l | 0 <= l < s.L() ensures HolderOk(n, l) { assert HolderOk(s, l); }
  }

  lemma PushDoneExclusion(s: State, w: nat)
    requires Shape(s) && Exclusion(s) && w < s.W() && s.stage[w] == Active
    requires s.pcs[w] == Running
    ensures Shape(PushDone(s, w)) && Exclusion(PushDone(s, w))
  {
    var n := PushDone(s, w);
    forall l | 0 <= l < s.L() ensures HolderOk(n, l) { assert HolderOk(s, l); }
  }

  // Work.

  lemma MissWork(s: State, u: nat, lp: nat, k: nat)
    requires Shape(s) && Work(s) && u <= s.W() && s.pcs[u] == Scan(lp, k) && k < s.L() && s.ready[From(s, lp, k)] == []
    ensures Shape(Miss(s, u, lp, k)) && Work(Miss(s, u, lp, k))
  {
    var n := Miss(s, u, lp, k);
    forall v | 0 <= v <= s.W() && n.pcs[v].Scan? ensures Seen(n, n.pcs[v].lp, n.pcs[v].k) {
      assert Seen(s, s.pcs[v].lp, s.pcs[v].k);
    }
  }

  lemma PopWork(s: State, u: nat, lp: nat, from: nat)
    requires Shape(s) && Work(s) && u <= s.W() && s.pcs[u].Scan? && s.pcs[u].lp == lp
    requires from < s.L() && s.ready[from] != []
    ensures Shape(Pop(s, u, lp, from)) && Work(Pop(s, u, lp, from))
  {
    var n := Pop(s, u, lp, from);
    forall v | 0 <= v <= s.W() && n.pcs[v].Scan? ensures Seen(n, n.pcs[v].lp, n.pcs[v].k) {
      assert Seen(s, s.pcs[v].lp, s.pcs[v].k);
    }
    assert !AllEmpty(s);
  }

  lemma GiveUpWork(s: State, u: nat, lp: nat)
    requires Shape(s) && MainOk(s) && Work(s) && u <= s.W() && s.pcs[u] == Scan(lp, s.L())
    ensures Shape(GiveUp(s, u, lp)) && Work(GiveUp(s, u, lp)) && AllEmpty(s)
  {
    assert Seen(s, lp, s.L());
    assert AllEmpty(s);
    var n := GiveUp(s, u, lp);
    assert AllEmpty(n);
  }

  lemma AssignWork(s: State, u: nat, lp: nat, w: nat)
    requires Shape(s) && Work(s) && u <= s.W() && s.pcs[u] == Got(lp, w)
    ensures Shape(Assign(s, u, lp, w)) && Work(Assign(s, u, lp, w))
  {
    var n := Assign(s, u, lp, w);
    forall v | 0 <= v <= s.W() && n.pcs[v].Scan? ensures Seen(n, n.pcs[v].lp, n.pcs[v].k) {
      assert Seen(s, s.pcs[v].lp, s.pcs[v].k);
    }
  }

  lemma PostWork(s: State, u: nat, lp: nat, w: nat)
    requires Shape(s) && MainOk(s) && Work(s) && u <= s.W() && s.pcs[u] == Hand(lp, w) && s.holder[lp] != Nobody
    ensures Shape(Post(s, u, lp, w)) && Work(Post(s, u, lp, w))
  {
    var n := Post(s, u, lp, w);
    forall v | 0 <= v <= s.W() && n.pcs[v].Scan? ensures Seen(n, n.pcs[v].lp, n.pcs[v].k) {
      if v != u { assert Seen(s, s.pcs[v].lp, s.pcs[v].k); }
    }
    assert AllEmpty(s) ==> AllEmpty(n);
    forall l | 0 <= l < s.L() && l < Launched(n) && n.holder[l] == Nobody ensures AllEmpty(n) {
      assert l < Launched(s) && s.holder[l] == Nobody;
    }
  }

  /** A step of worker `w` that touches neither the ready queues, nor a holder, nor the phase. */
  lemma LocalWork(s: State, n: State, w: nat)
    requires Shape(s) && Shape(n) && Work(s) && w < s.W() == n.W()
    requires n.ready == s.ready && n.holder == s.holder && n.phase == s.phase && n.pcs == s.pcs[w := n.pcs[w]]
    requires n.pcs[w].Scan? ==> n.pcs[w].k == 0
    ensures Work(n)
  {
    forall v | 0 <= v <= s.W() && n.pcs[v].Scan? ensures Seen(n, n.pcs[v].lp, n.pcs[v].k) {
      if v != w { assert Seen(s, s.pcs[v].lp, s.pcs[v].k); }
    }
    assert AllEmpty(s) ==> AllEmpty(n);
  }

  lemma StartWork(s: State, roundEnd: nat, quit: bool)
    requires Shape(s) && Work(s) && Quiet(s) && s.phase == Resting
    ensures Shape(StartTask(s, roundEnd, quit)) && Work(StartTask(s, roundEnd, quit))
  {
    var n := StartTask(s, roundEnd, quit);
    forall v | 0 <= v <= s.W() && n.pcs[v].Scan? ensures Seen(n, n.pcs[v].lp, n.pcs[v].k) {
      if v != s.W() { assert Seen(s, s.pcs[v].lp, s.pcs[v].k); }
    }
  }

  lemma FinishWork(s: State)
    requires Shape(s) && MainOk(s) && s.phase == Awaiting && forall w :: 0 <= w < s.W() ==> !s.pcs[w].Scan?
    ensures Shape(FinishTask(s)) && Work(FinishTask(s))
  {
  }

  // The latch.

  lemma LatchMoves(s: State, n: State, w: nat)
    requires Shape(s) && Shape(n) && w < s.W() == n.W()
    requires forall v :: 0 <= v < s.W() && v != w ==> n.pcs[v] == s.pcs[v] && n.stage[v] == s.stage[v]
    ensures |Uncounted(n)| == |Uncounted(s)| + (if Counted(s, w) then 1 else 0) - (if Counted(n, w) then 1 else 0)
  {
    var c := Uncounted(s) - {w};
    assert Uncounted(s) == if Counted(s, w) then c else c + {w};
    assert Uncounted(n) == if Counted(n, w) then c else c + {w};
  }

  lemma LatchOpen(s: State)
    requires Shape(s) && Latch(s) && s.latch == 0
    ensures forall w :: 0 <= w < s.W() ==> Counted(s, w)
  {
    forall w: nat | w < s.W() ensures Counted(s, w) {
      assert w !in Uncounted(s);
    }
  }

  lemma SameCounted(s: State, n: State)
    requires Shape(s) && Shape(n) && s.W() == n.W() && forall v :: 0 <= v < s.W() ==> Counted(n, v) == Counted(s, v)
    ensures Uncounted(n) == Uncounted(s)
  {
  }

  lemma AllUncounted(s: State)
    requires Shape(s) && forall v :: 0 <= v < s.W() ==> !s.stage[v].InDone?
    ensures |Uncounted(s)| == s.W()
  {
    assert Uncounted(s) == Below(s.W());
  }

  function Below(n: nat): (r: set<nat>)
    ensures |r| == n && forall w :: w in r <==> 0 <= w < n
  { if n == 0 then {} else Below(n - 1) + {n - 1} }

  lemma Popping(s: State, u: nat)
    requires Shape(s) && Agents(s) && u <= s.W() && Hands(s.pcs[u])
    ensures s.stage[s.pcs[u].w] == Popped(u) && s.pcs[s.pcs[u].w] == (if s.phase == Joined then Exited else Waiting)
    ensures s.pcs[u].Hand? ==> s.lpOf[s.pcs[u].w] == s.pcs[u].lp
  {
    assert HandOk(s, u) && StageOk(s, s.pcs[u].w);
  }

  lemma Holding(s: State, u: nat)
    requires Shape(s) && Exclusion(s) && Work(s) && u <= s.W() && Acts(s.pcs[u])
    ensures s.holder[s.pcs[u].lp] == By(u)
    ensures u == s.W() && s.pcs[u].lp + 1 < s.L() ==> s.holder[s.pcs[u].lp + 1] == Nobody
  {
  }

  lemma HeadReady(s: State, from: nat)
    requires Shape(s) && Queues(s) && from < s.L() && s.ready[from] != []
    ensures s.stage[s.ready[from][0]].InReady?
  {
    assert ReadyIs(s, from) && s.ready[from][0] in s.ready[from];
  }

  lemma StageOf(s: State, w: nat)
    requires Shape(s) && Agents(s) && w < s.W()
    ensures StageOk(s, w)
    ensures Acts(s.pcs[w]) || s.pcs[w] == Counting || s.pcs[w] == Exited ==>
              !Works(s.pcs[w]) && (s.stage[w].InDone? || s.phase == Joined)
  {
    assert StageOk(s, w);
  }

  /** While an agent moves or a worker has been woken, a task is in progress. */
  lemma Busy(s: State, u: nat)
    requires Shape(s) && Agents(s) && Quiet(s) && u <= s.W()
    requires Moves(s.pcs[u]) || Works(s.pcs[u]) || (u < s.W() && s.begin[u] > 0)
    ensures !Between(s)
  {
    if u < s.W() { assert StageOk(s, u); }
  }

  // The minima.

  lemma {:induction false} MinUpdate(ts: seq<nat>, i: nat, t: nat)
    requires i < |ts| && t < ts[i]
    ensures MinOf(ts[i := t]) == Min(t, MinOf(ts))
  {
    if i == 0 {
      assert ts[i := t][1..] == ts[1..];
    } else {
      assert ts[i := t][1..] == ts[1..][i - 1 := t];
      MinUpdate(ts[1..], i - 1, t);
    }
  }

  lemma {:induction false} MinBelow(ts: seq<nat>, i: nat)
    requires i < |ts|
    ensures MinOf(ts) <= ts[i]
  {
    if i > 0 { MinBelow(ts[1..], i - 1); }
  }

  lemma {:induction false} MinFresh(n: nat)
    ensures MinOf(Fill(n, SIMTIME_MAX)) == SIMTIME_MAX
  {
    if n > 0 {
      MinFresh(n - 1);
      assert Fill(n, SIMTIME_MAX)[1..] == Fill(n - 1, SIMTIME_MAX);
    }
  }

  lemma TellOne(told: seq<Told>, x: Told)
    ensures LeastTold(told + [x]) == if x.t >= x.roundEnd then Min(x.t, LeastTold(told)) else LeastTold(told)
  {
    assert (told + [x])[..|told|] == told;
  }

  lemma StoreMinima(s: State, w: nat, t: nat, seen: nat)
    requires Shape(s) && Agents(s) && Exclusion(s) && Minima(s) && w < s.W() && s.pcs[w] == Reporting(t, seen)
    ensures Shape(StoreTime(s, w, t, seen)) && Minima(StoreTime(s, w, t, seen))
  {
    var n := StoreTime(s, w, t, seen);
    var lp := s.lpOf[w];
    TellOne(s.told, Told(t, s.roundEnd));
    if t < seen { MinUpdate(s.minTimes, lp, t); } else { MinBelow(s.minTimes, lp); }
    assert StageOk(s, w);
    forall v | 0 <= v < s.W() && n.pcs[v].Reporting? ensures n.pcs[v].seen == n.minTimes[n.lpOf[v]] {
      assert StageOk(s, v);
      assert s.lpOf[v] != lp;
    }
  }

  lemma ReportMinima(s: State, w: nat, t: nat)
    requires Shape(s) && Minima(s) && w < s.W()
    ensures Shape(ReportTime(s, w, t)) && Minima(ReportTime(s, w, t))
  {
    TellOne(s.told, Told(t, s.roundEnd));
    hide MinOf, LeastTold;
  }

  /** A step that stores no minimum and starts no report. */
  lemma SameMinima(s: State, n: State)
    requires Shape(s) && Shape(n) && Minima(s) && s.W() == n.W() && n.minTimes == s.minTimes && n.told == s.told
    requires forall v :: 0 <= v < s.W() && n.pcs[v].Reporting? ==>
                           n.pcs[v] == s.pcs[v] && n.lpOf[v] == s.lpOf[v] && n.roundEnd == s.roundEnd
    ensures Minima(n)
  {
  }

  // ----- all of it -------------------------------------------------------------------------------

  lemma MissInv(s: State, u: nat, lp: nat, k: nat)
    requires Inv(s) && u <= s.W() && s.pcs[u] == Scan(lp, k) && k < s.L() && s.ready[From(s, lp, k)] == []
    ensures Inv(Miss(s, u, lp, k))
  {
    hide Queues, Agents, Exclusion, Work, Quiet, Latch, RanOnce, Minima;
    var n := Miss(s, u, lp, k);
    Busy(s, u);
    MissAgents(s, u, lp, k);
    SameQueues(s, n);
    MissExclusion(s, u, lp, k);
    MissWork(s, u, lp, k);
    SameCounted(s, n);
    SameMinima(s, n);
    RestSame(s, n);
  }

  lemma RestSame(s: State, n: State)
    requires Shape(s) && Shape(n) && Latch(s) && RanOnce(s) && !Between(s) && Uncounted(s) == Uncounted(n)
    requires s.latch == n.latch && s.phase == n.phase && s.task == n.task && s.ran == n.ran && s.W() == n.W()
    requires forall v :: 0 <= v < s.W() ==> NotYet(s.stage[v]) == NotYet(n.stage[v])
    ensures Latch(n) && RanOnce(n) && Quiet(n)
  {
  }

  lemma PopInv(s: State, u: nat, lp: nat, from: nat)
    requires Inv(s) && u <= s.W() && s.pcs[u].Scan? && s.pcs[u].lp == lp && from < s.L() && s.ready[from] != []
    ensures Inv(Pop(s, u, lp, from))
  {
    hide Queues, Agents, Exclusion, Work, Quiet, Latch, RanOnce, Minima;
    var n := Pop(s, u, lp, from);
    Busy(s, u);
    HeadReady(s, from);
    PopAgents(s, u, lp, from);
    PopQueues(s, u, lp, from);
    PopExclusion(s, u, lp, from);
    PopWork(s, u, lp, from);
    if u < s.W() { StageOf(s, u); }
    SameCounted(s, n);
    SameMinima(s, n);
    RestSame(s, n);
  }

  lemma GiveUpInv(s: State, u: nat, lp: nat)
    requires Inv(s) && u <= s.W() && s.pcs[u] == Scan(lp, s.L())
    ensures Inv(GiveUp(s, u, lp))
  {
    assert MainOk(s);
    hide Queues, Agents, Exclusion, Work, Quiet, Latch, RanOnce, Minima;
    var n := GiveUp(s, u, lp);
    Busy(s, u);
    GiveUpAgents(s, u, lp);
    SameQueues(s, n);
    if u < s.W() { StageOf(s, u); }
    GiveUpExclusion(s, u, lp);
    GiveUpWork(s, u, lp);
    SameCounted(s, n);
    SameMinima(s, n);
    RestPhase(s, n);
  }

  lemma RestPhase(s: State, n: State)
    requires Shape(s) && Shape(n) && Latch(s) && RanOnce(s) && !Between(s) && !Between(n) && Uncounted(s) == Uncounted(n)
    requires s.latch == n.latch && s.task == n.task && s.ran == n.ran && s.W() == n.W()
    requires forall v :: 0 <= v < s.W() ==> NotYet(s.stage[v]) == NotYet(n.stage[v])
    ensures Latch(n) && RanOnce(n) && Quiet(n)
  {
  }

  lemma AssignInv(s: State, u: nat, lp: nat, w: nat)
    requires Inv(s) && u <= s.W() && s.pcs[u] == Got(lp, w)
    ensures Inv(Assign(s, u, lp, w))
  {
    hide Queues, Agents, Exclusion, Work, Quiet, Latch, RanOnce, Minima;
    var n := Assign(s, u, lp, w);
    Busy(s, u);
    Popping(s, u);
    AssignAgents(s, u, lp, w);
    SameQueues(s, n);
    AssignExclusion(s, u, lp, w);
    AssignWork(s, u, lp, w);
    SameCounted(s, n);
    SameMinima(s, n);
    RestSame(s, n);
  }

  lemma PostRest(s: State, u: nat, lp: nat, w: nat)
    requires Inv(s) && u <= s.W() && s.pcs[u] == Hand(lp, w) && !Between(s) && s.stage[w] == Popped(u)
    requires Shape(Post(s, u, lp, w)) && (u < s.W() ==> s.stage[u].InDone?)
    ensures var n := Post(s, u, lp, w); Queues(n) && Latch(n) && Minima(n) && Quiet(n) && RanOnce(n)
  {
    assert MainOk(s);
    hide Queues, Agents, Exclusion, Work, Quiet, Latch, RanOnce, Minima;
    var n := Post(s, u, lp, w);
    StageQueues(s, n, w);
    SameCounted(s, n);
    SameMinima(s, n);
    RestPhase(s, n);
  }

  lemma PostInv(s: State, u: nat, lp: nat, w: nat)
    requires Inv(s) && u <= s.W() && s.pcs[u] == Hand(lp, w)
    ensures Inv(Post(s, u, lp, w))
  {
    assert MainOk(s);
    hide Queues, Agents, Exclusion, Work, Quiet, Latch, RanOnce, Minima, Post;
    Busy(s, u);
    Popping(s, u);
    Holding(s, u);
    PostAgents(s, u, lp, w);
    if u < s.W() { StageOf(s, u); }
    if u < s.W() { WorkerPostExclusion(s, u, lp, w); } else { MainPostExclusion(s, lp, w); }
    PostWork(s, u, lp, w);
    PostRest(s, u, lp, w);
  }

  lemma CountDownInv(s: State, u: nat)
    requires Inv(s) && u <= s.W() && s.pcs[u] == Counting
    ensures Inv(CountDown(s, u)) && s.latch > 0
  {
    assert MainOk(s);
    hide Queues, Agents, Exclusion, Work, Quiet, RanOnce, Minima;
    var n := CountDown(s, u);
    Busy(s, u);
    StageOf(s, u);
    CountDownAgents(s, u);
    SameQueues(s, n);
    CountDownExclusion(s, u);
    LocalWork(s, n, u);
    LatchMoves(s, n, u);
    assert u in Uncounted(s);
    SameMinima(s, n);
    RestRan(s, n);
  }

  lemma RestRan(s: State, n: State)
    requires Shape(s) && Shape(n) && RanOnce(s) && !Between(s) && !Between(n)
    requires s.task == n.task && s.ran == n.ran && s.W() == n.W() && s.stage == n.stage
    ensures RanOnce(n) && Quiet(n)
  {
  }

  lemma BeginInv(s: State, w: nat)
    requires Inv(s) && w < s.W() && s.begin[w] > 0
    ensures Inv(BeginWork(s, w))
  {
    assert StageOk(s, w);
    hide Queues, Agents, Exclusion, Work, Quiet, Latch, RanOnce, Minima;
    var n := BeginWork(s, w);
    Busy(s, w);
    BeginAgents(s, w);
    StageQueues(s, n, w);
    BeginExclusion(s, w);
    LocalWork(s, n, w);
    SameCounted(s, n);
    SameMinima(s, n);
    BeginRest(s, w);
  }

  lemma BeginRest(s: State, w: nat)
    requires Shape(s) && Latch(s) && RanOnce(s) && !Between(s) && w < s.W() && s.begin[w] > 0 && s.stage[w] == Posted
    requires Shape(BeginWork(s, w)) && Uncounted(BeginWork(s, w)) == Uncounted(s)
    ensures var n := BeginWork(s, w); Latch(n) && RanOnce(n) && Quiet(n)
  {
  }

  lemma ReportInv(s: State, w: nat, t: nat)
    requires Inv(s) && w < s.W() && s.pcs[w] == Running
    ensures Inv(ReportTime(s, w, t))
  {
    hide Queues, Agents, Exclusion, Work, Quiet, Latch, RanOnce, Minima;
    var n := ReportTime(s, w, t);
    Busy(s, w);
    ReportAgents(s, w, t);
    SameQueues(s, n);
    ReportExclusion(s, w, t);
    LocalWork(s, n, w);
    SameCounted(s, n);
    ReportMinima(s, w, t);
    RestSame(s, n);
  }

  lemma StoreInv(s: State, w: nat, t: nat, seen: nat)
    requires Inv(s) && w < s.W() && s.pcs[w] == Reporting(t, seen)
    ensures Inv(StoreTime(s, w, t, seen))
  {
    hide Queues, Agents, Exclusion, Work, Quiet, Latch, RanOnce, Minima;
    var n := StoreTime(s, w, t, seen);
    Busy(s, w);
    StoreAgents(s, w, t, seen);
    SameQueues(s, n);
    StoreExclusion(s, w, t, seen);
    LocalWork(s, n, w);
    SameCounted(s, n);
    StoreMinima(s, w, t, seen);
    RestSame(s, n);
  }

  lemma PushDoneInv(s: State, w: nat)
    requires Inv(s) && w < s.W() && s.pcs[w] == Running
    ensures Inv(PushDone(s, w))
  {
    hide Queues, Agents, Exclusion, Work, Quiet, Latch, RanOnce, Minima;
    var n := PushDone(s, w);
    Busy(s, w);
    StageOf(s, w);
    PushDoneAgents(s, w);
    PushDoneQueues(s, w);
    PushDoneExclusion(s, w);
    LocalWork(s, n, w);
    SameCounted(s, n);
    SameMinima(s, n);
    RestSame(s, n);
  }

  lemma StartInv(s: State, roundEnd: nat, quit: bool)
    requires Inv(s) && s.phase == Resting
    ensures Inv(StartTask(s, roundEnd, quit))
  {
    RestingFacts(s);
    hide Queues, Agents, Exclusion, Work, Latch, RanOnce, Minima;
    var n := StartTask(s, roundEnd, quit);
    StartAgents(s, roundEnd, quit);
    SameQueues(s, n);
    StartExclusion(s, roundEnd, quit);
    StartWork(s, roundEnd, quit);
    SameCounted(s, n);
    SameMinima(s, n);
    StartRest(s, roundEnd, quit);
  }

  lemma RestingFacts(s: State)
    requires Shape(s) && Agents(s) && Quiet(s) && s.phase == Resting
    ensures forall w :: 0 <= w < s.W() ==> s.stage[w].InReady? && s.pcs[w] == Waiting
    ensures s.holder[0] == Nobody
  {
    forall w | 0 <= w < s.W() ensures s.stage[w].InReady? && s.pcs[w] == Waiting { assert StageOk(s, w); }
  }

  lemma StartRest(s: State, roundEnd: nat, quit: bool)
    requires Shape(s) && Latch(s) && RanOnce(s) && s.phase == Resting
    requires forall w :: 0 <= w < s.W() ==> s.stage[w].InReady?
    requires Shape(StartTask(s, roundEnd, quit)) && Uncounted(StartTask(s, roundEnd, quit)) == Uncounted(s)
    ensures var n := StartTask(s, roundEnd, quit); Latch(n) && RanOnce(n) && Quiet(n)
  {
  }

  /** When the latch is open every worker has finished and is idle again, and no ready worker is
      left. */
  lemma AllFinished(s: State)
    requires Inv(s) && s.phase == Awaiting && s.latch == 0
    ensures forall w :: 0 <= w < s.W() ==> s.stage[w].InDone? && s.pcs[w] == if s.quitting then Exited else Waiting
    ensures forall l :: 0 <= l < s.L() ==> s.holder[l] == Nobody
    ensures AllEmpty(s)
  {
    LatchOpen(s);
    forall w | 0 <= w < s.W() ensures s.stage[w].InDone? && s.pcs[w] == if s.quitting then Exited else Waiting {
      assert Counted(s, w) && StageOk(s, w);
    }
    FinishQueues(s);
    forall l | 0 <= l < s.L() ensures s.holder[l] == Nobody {
      assert HolderOk(s, l);
    }
  }

  lemma FinishInv(s: State)
    requires Inv(s) && s.phase == Awaiting && s.latch == 0
    ensures Inv(FinishTask(s))
  {
    AllFinished(s);
    assert MainOk(s);
    hide Queues, Agents, Exclusion, Work, Latch, Minima;
    var n := FinishTask(s);
    FinishAgents(s);
    FinishQueues(s);
    FinishExclusion(s);
    FinishWork(s);
    AllUncounted(n);
    FinishLatch(n);
    SameMinima(s, n);
  }

  lemma FinishLatch(n: State)
    requires Shape(n) && n.latch == n.W() && |Uncounted(n)| == n.W()
    ensures Latch(n)
  {
  }

  lemma CollectInv(s: State)
    requires Inv(s) && s.phase == Resting
    ensures Inv(Apply(s, Collect))
    ensures MinOf(s.minTimes) == LeastTold(s.told)
  {
    RestingFacts(s);
    assert MinOf(s.minTimes) == LeastTold(s.told);
    hide Queues, Agents, Exclusion, Work, Latch, RanOnce;
    var n := Apply(s, Collect);
    MinFresh(s.L());
    CollectAgents(s);
    SameQueues(s, n);
    SameCounted(s, n);
    CollectRest(s);
  }

  lemma CollectAgents(s: State)
    requires Shape(s) && Agents(s) && Exclusion(s) && s.phase == Resting
    ensures var n := Apply(s, Collect); Shape(n) && Agents(n) && Exclusion(n)
  {
    var n := Apply(s, Collect);
    forall w | 0 <= w < s.W() ensures StageOk(n, w) { assert StageOk(s, w); }
    forall v | 0 <= v <= s.W() ensures HandOk(n, v) { assert HandOk(s, v); }
    forall l | 0 <= l < s.L() ensures HolderOk(n, l) { assert HolderOk(s, l); }
  }

  lemma CollectRest(s: State)
    requires Shape(s) && Work(s) && RanOnce(s) && Latch(s) && s.phase == Resting
    requires Uncounted(Apply(s, Collect)) == Uncounted(s)
    ensures var n := Apply(s, Collect); Work(n) && RanOnce(n) && Latch(n)
  {
    var n := Apply(s, Collect);
    forall v | 0 <= v <= s.W() && n.pcs[v].Scan? ensures Seen(n, n.pcs[v].lp, n.pcs[v].k) {
      assert Seen(s, s.pcs[v].lp, s.pcs[v].k);
    }
    assert AllEmpty(s) ==> AllEmpty(n);
  }

  lemma StepInv(s: State, a: Action)
    requires Inv(s) && Enabled(s, a)
    ensures Inv(Apply(s, a))
  {
    assert Shape(s) && MainOk(s);
    hide Inv;
    match a
    case Start(roundEnd, quit) => StartInv(s, roundEnd, quit);
    case Finish => FinishInv(s);
    case Collect => CollectInv(s);
    case Begin(w) => BeginInv(s, w);
    case Report(w, t) => ReportInv(s, w, t);
    case Store(w) => StoreInv(s, w, s.pcs[w].t, s.pcs[w].seen);
    case DonePush(w) => PushDoneInv(s, w);
    case Next(u) => NextInv(s, u);
  }

  lemma NextInv(s: State, u: nat)
    requires Inv(s) && Enabled(s, Next(u))
    ensures Inv(Apply(s, Next(u)))
  {
    assert Shape(s) && MainOk(s);
    hide Inv;
    match s.pcs[u]
    case Scan(lp, k) =>
      if k == s.L() { GiveUpInv(s, u, lp); }
      else if s.ready[From(s, lp, k)] == [] { MissInv(s, u, lp, k); }
      else { PopInv(s, u, lp, From(s, lp, k)); }
    case Got(lp, w) => AssignInv(s, u, lp, w);
    case Hand(lp, w) => PostInv(s, u, lp, w);
    case Counting => CountDownInv(s, u);
  }
}
