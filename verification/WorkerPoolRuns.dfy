/**
 What holds of every run of the pool: one place per worker, exclusion per processor, exactly one
 execution per worker and task, the lock-free minimum, progress and termination.
 */
module WorkerPoolRuns {
  import opened WorkerPoolModel
  import opened WorkerPoolSteps

  // ----- the initial state -------------------------------------------------------------------------

  function Home(lps: nat, w: nat): (l: nat)
    requires lps > 0
    ensures l < lps
  { w % lps }

  /** The workers below `n` that are dealt to processor `l`, in order. */
  function Dealt(n: nat, lps: nat, l: nat): seq<nat>
    requires lps > 0
  {
    if n == 0 then []
    else if Home(lps, n - 1) == l then Dealt(n - 1, lps, l) + [n - 1] else Dealt(n - 1, lps, l)
  }

  lemma {:induction false} DealtToOne(n: nat, lps: nat, l: nat)
    requires lps > 0
    ensures var q := Dealt(n, lps, l); NoDup(q) && forall w :: w in q <==> 0 <= w < n && Home(lps, w) == l
  {
    if n > 0 {
      DealtToOne(n - 1, lps, l);
      var q := Dealt(n - 1, lps, l);
      assert forall i :: 0 <= i < |q| ==> q[i] in q;
    }
  }

  function Queued(nWorkers: nat, lps: nat): (r: seq<seq<nat>>)
    requires lps > 0
    ensures |r| == lps && forall l :: 0 <= l < lps ==> r[l] == Dealt(nWorkers, lps, l)
  { seq(lps, l requires 0 <= l => Dealt(nWorkers, lps, l)) }

  function Homes(nWorkers: nat, lps: nat): (r: seq<nat>)
    requires lps > 0
    ensures |r| == nWorkers && forall w :: 0 <= w < nWorkers ==> r[w] == Home(lps, w)
  { seq(nWorkers, w requires 0 <= w => Home(lps, w)) }

  function ReadyStages(nWorkers: nat, lps: nat): (r: seq<Stage>)
    requires lps > 0
    ensures |r| == nWorkers && forall w :: 0 <= w < nWorkers ==> r[w] == InReady(Home(lps, w))
  { seq(nWorkers, w requires 0 <= w => InReady(Home(lps, w))) }

  /** Never more logical processors than workers. */
  function Processors(nWorkers: nat, nParallel: nat): nat { Min(nParallel, nWorkers) }

  /** The pool as workerpool_new leaves it. */
  function Init(nWorkers: nat, nParallel: nat): State
    requires nWorkers > 0 && nParallel > 0
  {
    var lps := Processors(nWorkers, nParallel);
    State(Queued(nWorkers, lps), Fill(lps, []), Homes(nWorkers, lps), Fill(nWorkers, 0), nWorkers, false, 0,
          Fill(lps, SIMTIME_MAX), Resting, Fill(nWorkers + 1, Waiting), 0, Fill(nWorkers, 0), [],
          ReadyStages(nWorkers, lps), Fill(lps, Nobody))
  }

  lemma InitShape(nWorkers: nat, nParallel: nat)
    requires nWorkers > 0 && nParallel > 0
    ensures Shape(Init(nWorkers, nParallel)) && Queues(Init(nWorkers, nParallel))
  {
    var s := Init(nWorkers, nParallel);
    forall l, i | 0 <= l < s.L() && 0 <= i < |s.ready[l]| ensures s.ready[l][i] < s.W() {
      DealtToOne(nWorkers, s.L(), l);
      assert s.ready[l][i] in s.ready[l];
    }
    assert Shape(s);
    forall l | 0 <= l < s.L() ensures ReadyIs(s, l) && DoneIs(s, l) {
      DealtToOne(nWorkers, s.L(), l);
    }
  }

  lemma InitInv(nWorkers: nat, nParallel: nat)
    requires nWorkers > 0 && nParallel > 0
    ensures Inv(Init(nWorkers, nParallel))
  {
    var s := Init(nWorkers, nParallel);
    InitShape(nWorkers, nParallel);
    AllUncounted(s);
    MinFresh(s.L());
    forall w | 0 <= w < s.W() ensures StageOk(s, w) {}
    forall u | 0 <= u <= s.W() ensures HandOk(s, u) {}
    forall l | 0 <= l < s.L() ensures HolderOk(s, l) {}
    hide Queues, StageOk, HandOk, HolderOk, Uncounted;
  }

  /** Step `i` of the schedule `acts` leads from state `i` of `run` to the next. */
  ghost predicate StepAt(run: seq<State>, acts: seq<Action>, i: nat)
    requires |run| == |acts| + 1 && i < |acts|
  { Shape(run[i]) && Enabled(run[i], acts[i]) && run[i + 1] == Apply(run[i], acts[i]) }

  /** The schedule `acts` leads through the states `run`. */
  ghost predicate Path(run: seq<State>, acts: seq<Action>) {
    |run| == |acts| + 1 && forall i: nat :: i < |acts| ==> StepAt(run, acts, i)
  }

  /** `s` is reached from the new pool by some schedule. */
  ghost predicate Reachable(nWorkers: nat, nParallel: nat, s: State)
    requires nWorkers > 0 && nParallel > 0
  {
    exists run: seq<State>, acts: seq<Action> ::
      Path(run, acts) && run[0] == Init(nWorkers, nParallel) && run[|acts|] == s
  }

  lemma PathFront(run: seq<State>, acts: seq<Action>)
    requires Path(run, acts) && acts != []
    ensures Path(run[..|acts|], acts[..|acts| - 1]) && StepAt(run, acts, |acts| - 1)
  {
    var front, before := run[..|acts|], acts[..|acts| - 1];
    forall i: nat | i < |before| ensures StepAt(front, before, i) { assert StepAt(run, acts, i); }
  }

  lemma PathJoin(run: seq<State>, acts: seq<Action>, more: seq<State>, after: seq<Action>)
    requires Path(run, acts) && Path(more, after) && run[|acts|] == more[0]
    ensures var all := run + more[1..];
            Path(all, acts + after) && all[0] == run[0] && all[|acts + after|] == more[|after|]
  {
    hide Shape, Enabled, Apply;
    var all, steps := run + more[1..], acts + after;
    forall i: nat | i < |steps| ensures StepAt(all, steps, i) {
      if i < |acts| {
        assert StepAt(run, acts, i);
      } else {
        assert StepAt(more, after, i - |acts|);
        assert all[i] == more[i - |acts|] && all[i + 1] == more[i - |acts| + 1];
      }
    }
  }

  lemma OneStep(s: State, a: Action)
    requires Shape(s) && Enabled(s, a)
    ensures Path([s, Apply(s, a)], [a])
  {
    assert StepAt([s, Apply(s, a)], [a], 0);
  }

  lemma {:induction false} RunInv(nWorkers: nat, nParallel: nat, run: seq<State>, acts: seq<Action>)
    requires nWorkers > 0 && nParallel > 0 && Path(run, acts) && run[0] == Init(nWorkers, nParallel)
    ensures Inv(run[|acts|]) && run[|acts|].W() == nWorkers
    decreases |acts|
  {
    hide Inv, Shape, Apply, Enabled, StepAt;
    if acts == [] {
      InitInv(nWorkers, nParallel);
    } else {
      var last := |acts| - 1;
      PathFront(run, acts);
      RunInv(nWorkers, nParallel, run[..|acts|], acts[..last]);
      StepInv(run[last], acts[last]);
      SameSize(run[last], acts[last]);
    }
  }

  lemma ReachableInv(nWorkers: nat, nParallel: nat, s: State)
    requires nWorkers > 0 && nParallel > 0 && Reachable(nWorkers, nParallel, s)
    ensures Inv(s) && s.W() == nWorkers
  {
    hide Inv, StepAt, Init;
    var run: seq<State>, acts: seq<Action> :|
      Path(run, acts) && run[0] == Init(nWorkers, nParallel) && run[|acts|] == s;
    RunInv(nWorkers, nParallel, run, acts);
  }

  lemma SameSize(s: State, a: Action)
    requires Shape(s) && Enabled(s, a)
    ensures Apply(s, a).W() == s.W()
  {
  }

  // ----- what every run of the pool keeps ----------------------------------------------------------

  /** How often `w` occurs in the queues `qs`. */
  function Occurrences(qs: seq<seq<nat>>, w: nat): nat {
    if qs == [] then 0 else multiset(qs[0])[w] + Occurrences(qs[1..], w)
  }

  lemma {:induction false} OccursNowhere(qs: seq<seq<nat>>, w: nat)
    requires forall l :: 0 <= l < |qs| ==> w !in qs[l]
    ensures Occurrences(qs, w) == 0
  {
    if qs != [] {
      assert w !in qs[0];
      assert forall l :: 0 <= l < |qs[1..]| ==> qs[1..][l] == qs[l + 1];
      OccursNowhere(qs[1..], w);
    }
  }

  lemma OnceIn(q: seq<nat>, w: nat)
    requires NoDup(q) && w in q
    ensures multiset(q)[w] == 1
  {
    var i :| 0 <= i < |q| && q[i] == w;
    assert q == q[..i] + [w] + q[i + 1..];
    assert w !in q[..i] && w !in q[i + 1..];
  }

  lemma {:induction false} OccursOnce(qs: seq<seq<nat>>, w: nat, at: nat)
    requires at < |qs| && NoDup(qs[at]) && w in qs[at]
    requires forall l :: 0 <= l < |qs| && l != at ==> w !in qs[l]
    ensures Occurrences(qs, w) == 1
  {
    assert forall l :: 0 <= l < |qs[1..]| ==> qs[1..][l] == qs[l + 1];
    if at == 0 {
      OnceIn(qs[0], w);
      OccursNowhere(qs[1..], w);
    } else {
      assert w !in qs[0];
      OccursOnce(qs[1..], w, at - 1);
    }
  }

  /** The agents that have popped `w` and not yet posted it. */
  ghost function Carriers(s: State, w: nat): set<nat> {
    set u: nat | u < |s.pcs| && Hands(s.pcs[u]) && s.pcs[u].w == w
  }

  /** Every worker is in exactly one place: once in one ready queue, once in one done queue, popped
      by one agent, posted, or running. */
  lemma OnePlace(s: State, w: nat)
    requires Inv(s) && w < s.W()
    ensures Occurrences(s.ready, w) + Occurrences(s.done, w) + |Carriers(s, w)| + s.begin[w]
            + (if Works(s.pcs[w]) then 1 else 0) == 1
  {
    InQueues(s, w);
    CarriedBy(s, w);
    assert StageOk(s, w);
  }

  lemma InQueues(s: State, w: nat)
    requires Shape(s) && Queues(s) && w < s.W()
    ensures Occurrences(s.ready, w) == if s.stage[w].InReady? then 1 else 0
    ensures Occurrences(s.done, w) == if s.stage[w].InDone? then 1 else 0
  {
    forall l | 0 <= l < s.L()
      ensures NoDup(s.ready[l]) && NoDup(s.done[l])
      ensures (w in s.ready[l] <==> s.stage[w] == InReady(l)) && (w in s.done[l] <==> s.stage[w] == InDone(l))
    {
      assert ReadyIs(s, l) && DoneIs(s, l);
    }
    if s.stage[w].InReady? { OccursOnce(s.ready, w, s.stage[w].lp); } else { OccursNowhere(s.ready, w); }
    if s.stage[w].InDone? { OccursOnce(s.done, w, s.stage[w].lp); } else { OccursNowhere(s.done, w); }
  }

  lemma CarriedBy(s: State, w: nat)
    requires Shape(s) && Agents(s) && w < s.W()
    ensures |Carriers(s, w)| == if s.stage[w].Popped? then 1 else 0
  {
    assert StageOk(s, w);
    forall u: nat | u < |s.pcs| ensures u in Carriers(s, w) <==> s.stage[w] == Popped(u) {
      assert HandOk(s, u);
    }
    assert Carriers(s, w) == if s.stage[w].Popped? then {s.stage[w].agent} else {};
  }

  /** In every reachable state: each worker is in exactly one place; no two workers are woken or
      running on the same processor, nor is one while another agent acts for that processor; and a
      processor without a holder means that no ready worker is left anywhere. */
  lemma PoolSafety(nWorkers: nat, nParallel: nat, s: State)
    requires nWorkers > 0 && nParallel > 0 && Reachable(nWorkers, nParallel, s)
    ensures Inv(s)
    ensures forall w: nat :: w < s.W() ==>
              Occurrences(s.ready, w) + Occurrences(s.done, w) + |Carriers(s, w)| + s.begin[w]
              + (if Works(s.pcs[w]) then 1 else 0) == 1
    ensures forall v, w :: 0 <= v < w < s.W() && (s.begin[v] > 0 || Works(s.pcs[v])) && (s.begin[w] > 0 || Works(s.pcs[w])) ==>
              s.lpOf[v] != s.lpOf[w]
    ensures forall u, w :: 0 <= u <= s.W() && Acts(s.pcs[u]) && 0 <= w < s.W() && u != w && (s.begin[w] > 0 || Works(s.pcs[w])) ==>
              s.pcs[u].lp != s.lpOf[w]
    ensures forall l :: 0 <= l < s.L() && l < Launched(s) && s.holder[l] == Nobody ==> AllEmpty(s)
  {
    ReachableInv(nWorkers, nParallel, s);
    forall w: nat | w < s.W()
      ensures Occurrences(s.ready, w) + Occurrences(s.done, w) + |Carriers(s, w)| + s.begin[w]
              + (if Works(s.pcs[w]) then 1 else 0) == 1
    {
      OnePlace(s, w);
    }
    AtWork(s);
  }

  lemma AtWork(s: State)
    requires Shape(s) && Agents(s) && Exclusion(s)
    ensures forall w :: 0 <= w < s.W() && (s.begin[w] > 0 || Works(s.pcs[w])) ==> s.holder[s.lpOf[w]] == By(w)
    ensures forall u :: 0 <= u <= s.W() && Acts(s.pcs[u]) ==> s.holder[s.pcs[u].lp] == By(u)
  {
    forall w | 0 <= w < s.W() && (s.begin[w] > 0 || Works(s.pcs[w])) ensures s.holder[s.lpOf[w]] == By(w) {
      assert StageOk(s, w);
    }
  }

  /** Exactly once per task: when workerpool_awaitTaskFn gets past the latch, every worker has run
      every task started so far exactly once, all ready queues are empty, and the swap makes every
      worker ready again, each in one queue. */
  lemma TaskComplete(nWorkers: nat, nParallel: nat, s: State)
    requires nWorkers > 0 && nParallel > 0 && Reachable(nWorkers, nParallel, s)
    requires s.phase == Awaiting && s.latch == 0
    ensures Shape(s)
    ensures forall w :: 0 <= w < s.W() ==> s.ran[w] == s.task && !Works(s.pcs[w]) && s.begin[w] == 0
    ensures AllEmpty(s)
    ensures var f := Apply(s, Finish);
            && f.latch == s.W()
            && forall w: nat :: w < s.W() ==> Occurrences(f.ready, w) == 1 && Occurrences(f.done, w) == 0
  {
    ReachableInv(nWorkers, nParallel, s);
    AllFinished(s);
    FinishInv(s);
    var f := FinishTask(s);
    forall w: nat | w < s.W() ensures s.ran[w] == s.task && !Works(s.pcs[w]) && s.begin[w] == 0 && Occurrences(f.ready, w) == 1 && Occurrences(f.done, w) == 0 {
      assert StageOk(s, w);
      InQueues(f, w);
    }
  }

  /** The unlocked minima lose no report: what the main thread computes between two rounds is the
      least time reported since the last computation that was not before the end of its round. */
  lemma GlobalMinimum(nWorkers: nat, nParallel: nat, s: State)
    requires nWorkers > 0 && nParallel > 0 && Reachable(nWorkers, nParallel, s)
    ensures MinOf(s.minTimes) == LeastTold(s.told)
  {
    ReachableInv(nWorkers, nParallel, s);
  }

  /** LeastTold is the minimum it claims to be. */
  lemma {:induction false} LeastToldIsLeast(told: seq<Told>)
    ensures forall x :: x in told && x.t >= x.roundEnd ==> LeastTold(told) <= x.t
    ensures LeastTold(told) <= SIMTIME_MAX
    ensures LeastTold(told) == SIMTIME_MAX || exists x :: x in told && x.t >= x.roundEnd && LeastTold(told) == x.t
  {
    if told != [] {
      var rest := told[..|told| - 1];
      LeastToldIsLeast(rest);
      assert told == rest + [told[|told| - 1]];
    }
  }

  // ----- progress ------------------------------------------------------------------------------------

  predicate InTask(s: State) { s.phase == Launching || s.phase == Awaiting }

  predicate LatchOpens(s: State) { s.phase == Awaiting && s.latch == 0 }

  /** Some agent can move otherwise than by starting a report. */
  ghost predicate CanMove(s: State) {
    || (exists u: nat :: Enabled(s, Next(u)))
    || (exists w: nat :: Enabled(s, Begin(w)))
    || (exists w: nat :: Enabled(s, DonePush(w)))
    || (exists w: nat :: Enabled(s, Store(w)))
  }

  /** Until the latch opens somebody can always move. */
  lemma CanMoveUntilOpen(s: State)
    requires Inv(s) && InTask(s) && !LatchOpens(s)
    ensures CanMove(s)
  {
    if s.phase == Launching {
      assert MainOk(s);
      assert Enabled(s, Next(s.W()));
    } else {
      var w := Somebody(s);
      if s.stage[w].InReady? { HeldWhileReady(s, w); } else { UncountedMoves(s, w); }
    }
  }

  lemma Somebody(s: State) returns (w: nat)
    requires Shape(s) && Latch(s) && s.latch > 0
    ensures w < s.W() && !Counted(s, w)
  {
    w :| w in Uncounted(s);
  }

  lemma UncountedMoves(s: State, w: nat)
    requires Shape(s) && Agents(s) && s.phase == Awaiting && w < s.W() && !Counted(s, w) && !s.stage[w].InReady?
    ensures CanMove(s)
  {
    assert StageOk(s, w);
    match s.stage[w]
    case Posted => assert NotYet(s.stage[w]) && Enabled(s, Begin(w));
    case Active => assert Enabled(s, DonePush(w)) || Enabled(s, Store(w));
    case Popped(u) => assert Enabled(s, Next(u));
    case InDone(_) => assert Enabled(s, Next(w));
  }

  /** While a worker is still ready, processor 0 has a holder, and that one can move. */
  lemma HeldWhileReady(s: State, w: nat)
    requires Shape(s) && Queues(s) && Agents(s) && Exclusion(s) && Work(s)
    requires s.phase == Awaiting && w < s.W() && s.stage[w].InReady?
    ensures CanMove(s)
  {
    assert ReadyIs(s, s.stage[w].lp) && s.ready[s.stage[w].lp] != [];
    assert MainOk(s) && !AllEmpty(s) && s.holder[0] != Nobody;
    assert HolderOk(s, 0);
    var u := s.holder[0].agent;
    if Acts(s.pcs[u]) {
      assert Enabled(s, Next(u));
    } else {
      assert StageOk(s, u);
      assert Enabled(s, Begin(u)) || Enabled(s, DonePush(u)) || Enabled(s, Store(u));
    }
  }

  // ----- termination ---------------------------------------------------------------------------------

  /** The steps a launch of `n` further processors may take. */
  function LaunchCost(lps: nat, n: nat): nat { if n == 0 then 0 else LaunchCost(lps, n - 1) + lps + 6 }

  function AgentCost(s: State, u: nat): nat
    requires Shape(s) && u <= s.W()
  {
    var later := if u == s.W() && Acts(s.pcs[u]) then LaunchCost(s.L(), s.L() - s.pcs[u].lp - 1) else 0;
    match s.pcs[u]
    case Counting => 1
    case Hand(_, _) => later + 2
    case Got(_, _) => later + 3
    case Scan(_, k) => later + 4 + s.L() - k
    case Running => s.L() + 6
    case Reporting(_, _) => s.L() + 6
    case _ => 0
  }

  function StageCost(s: State, w: nat): nat
    requires Shape(s) && w < s.W()
  {
    match s.stage[w]
    case InReady(_) => s.L() + 9
    case Popped(_) => s.L() + 9
    case Posted => s.L() + 8
    case _ => 0
  }

  function Sum(ws: seq<nat>): nat { if ws == [] then 0 else ws[0] + Sum(ws[1..]) }

  /** How many steps the current task can still take, not counting reports. */
  function Budget(s: State): nat
    requires Shape(s)
  {
    Sum(seq(s.W() + 1, u requires 0 <= u <= s.W() => AgentCost(s, u)))
    + Sum(seq(s.W(), w requires 0 <= w < s.W() => StageCost(s, w)))
  }

  lemma {:induction false} SumUpdate(xs: seq<nat>, ys: seq<nat>, i: nat)
    requires |xs| == |ys| && i < |xs| && forall j :: 0 <= j < |xs| && j != i ==> xs[j] == ys[j]
    ensures Sum(ys) == Sum(xs) - xs[i] + ys[i]
  {
    if i == 0 {
      assert xs[1..] == ys[1..];
    } else {
      SumUpdate(xs[1..], ys[1..], i - 1);
    }
  }

  /** A step that changes the program counter of one agent and the stage of at most one worker. */
  lemma BudgetStep(s: State, n: State, u: nat, w: nat)
    requires Shape(s) && Shape(n) && s.W() == n.W() && s.L() == n.L() && u <= s.W() && w < s.W()
    requires forall v :: 0 <= v <= s.W() && v != u ==> n.pcs[v] == s.pcs[v]
    requires forall v :: 0 <= v < s.W() && v != w ==> n.stage[v] == s.stage[v]
    ensures Budget(n) == Budget(s) - AgentCost(s, u) + AgentCost(n, u) - StageCost(s, w) + StageCost(n, w)
  {
    SumUpdate(seq(s.W() + 1, v requires 0 <= v <= s.W() => AgentCost(s, v)),
              seq(n.W() + 1, v requires 0 <= v <= n.W() => AgentCost(n, v)), u);
    SumUpdate(seq(s.W(), v requires 0 <= v < s.W() => StageCost(s, v)),
              seq(n.W(), v requires 0 <= v < n.W() => StageCost(n, v)), w);
  }

  predicate TaskStep(a: Action) { a.Begin? || a.Report? || a.Store? || a.DonePush? || a.Next? }

  lemma WorkerShrinks(s: State, a: Action)
    requires Shape(s) && Enabled(s, a) && (a.Begin? || a.Report? || a.Store? || a.DonePush?) && StageOk(s, a.w)
    requires Shape(Apply(s, a))
    ensures Budget(Apply(s, a)) + (if a.Report? || a.Store? then 0 else 1) <= Budget(s)
  {
    var n := Apply(s, a);
    hide Budget;
    BudgetStep(s, n, a.w, a.w);
  }

  lemma ScanShrinks(s: State, u: nat, lp: nat, k: nat)
    requires Shape(s) && MainOk(s) && u <= s.W() && s.pcs[u] == Scan(lp, k) && s.W() > 0
    requires k < s.L() && s.ready[From(s, lp, k)] != [] ==> s.stage[s.ready[From(s, lp, k)][0]].InReady?
    requires Shape(StepAgent(s, u))
    ensures Budget(StepAgent(s, u)) < Budget(s)
  {
    var n := StepAgent(s, u);
    hide Budget;
    if k < s.L() && s.ready[From(s, lp, k)] != [] {
      BudgetStep(s, n, u, s.ready[From(s, lp, k)][0]);
    } else {
      BudgetStep(s, n, u, 0);
    }
  }

  lemma HandShrinks(s: State, u: nat)
    requires Shape(s) && MainOk(s) && u <= s.W() && (Hands(s.pcs[u]) || s.pcs[u] == Counting)
    requires s.pcs[u].Hand? ==> s.stage[s.pcs[u].w].Popped?
    requires Shape(StepAgent(s, u))
    ensures Budget(StepAgent(s, u)) < Budget(s)
  {
    var n := StepAgent(s, u);
    hide Budget;
    BudgetStep(s, n, u, if Hands(s.pcs[u]) then s.pcs[u].w else u);
  }

  /** Reports cost nothing; every other step of a task uses up some of its budget. */
  lemma BudgetShrinks(s: State, a: Action)
    requires Inv(s) && s.W() > 0 && Enabled(s, a) && TaskStep(a)
    ensures Shape(Apply(s, a)) && Inv(Apply(s, a))
    ensures Budget(Apply(s, a)) + (if a.Report? || a.Store? then 0 else 1) <= Budget(s)
  {
    StepInv(s, a);
    assert MainOk(s) && Shape(Apply(s, a));
    if a.Next? {
      if Hands(s.pcs[a.u]) { Popping(s, a.u); }
      if s.pcs[a.u].Scan? {
        var lp, k := s.pcs[a.u].lp, s.pcs[a.u].k;
        if k < s.L() && s.ready[From(s, lp, k)] != [] { HeadReady(s, From(s, lp, k)); }
        ScanShrinks(s, a.u, lp, k);
      } else {
        HandShrinks(s, a.u);
      }
    } else {
      assert StageOk(s, a.w);
      WorkerShrinks(s, a);
    }
  }

  /** The steps of `acts` other than reports. */
  function Moved(acts: seq<Action>): nat {
    if acts == [] then 0
    else Moved(acts[..|acts| - 1]) + if acts[|acts| - 1].Report? || acts[|acts| - 1].Store? then 0 else 1
  }

  /** `acts` leads from `s` to `n` within one task. */
  ghost predicate WithinTask(s: State, acts: seq<Action>, n: State) {
    && (forall i :: 0 <= i < |acts| ==> TaskStep(acts[i]))
    && exists run: seq<State> :: Path(run, acts) && run[0] == s && run[|acts|] == n
  }

  /** However the threads are scheduled, a task takes at most Budget steps besides its reports. */
  lemma TaskEnds(s: State, acts: seq<Action>, n: State)
    requires Inv(s) && s.W() > 0 && WithinTask(s, acts, n)
    ensures Inv(n) && n.W() > 0 && Moved(acts) + Budget(n) <= Budget(s)
  {
    hide Inv, Budget, StepAt;
    var run: seq<State> :| Path(run, acts) && run[0] == s && run[|acts|] == n;
    PathEnds(run, acts);
  }

  lemma {:induction false} PathEnds(run: seq<State>, acts: seq<Action>)
    requires Path(run, acts) && Inv(run[0]) && run[0].W() > 0
    requires forall i :: 0 <= i < |acts| ==> TaskStep(acts[i])
    ensures var n := run[|acts|]; Inv(n) && n.W() > 0 && Moved(acts) + Budget(n) <= Budget(run[0])
    decreases |acts|
  {
    hide Inv, Budget, Shape, StepAt, Enabled, Apply, TaskStep;
    if acts != [] {
      var last := |acts| - 1;
      PathFront(run, acts);
      PathEnds(run[..|acts|], acts[..last]);
      BudgetShrinks(run[last], acts[last]);
      SameSize(run[last], acts[last]);
    }
  }

  // ----- progress uses up the budget -----------------------------------------------------------------

  lemma WithinConcat(s: State, xs: seq<Action>, p: State, ys: seq<Action>, n: State)
    requires WithinTask(s, xs, p) && WithinTask(p, ys, n)
    ensures WithinTask(s, xs + ys, n)
  {
    hide StepAt, TaskStep;
    var run: seq<State> :| Path(run, xs) && run[0] == s && run[|xs|] == p;
    var more: seq<State> :| Path(more, ys) && more[0] == p && more[|ys|] == n;
    PathJoin(run, xs, more, ys);
  }

  lemma WithinOne(s: State, a: Action)
    requires Shape(s) && Enabled(s, a) && TaskStep(a)
    ensures WithinTask(s, [a], Apply(s, a))
  {
    hide Shape, Enabled, Apply, StepAt;
    OneStep(s, a);
  }

  lemma WithinNone(s: State)
    ensures WithinTask(s, [], s)
  {
    assert Path([s], []);
  }

  lemma TaskGoesOn(s: State, a: Action)
    requires Shape(s) && InTask(s) && Enabled(s, a) && TaskStep(a)
    ensures InTask(Apply(s, a)) && Apply(s, a).W() == s.W()
  {
  }

  /** The step that `CanMove` promises: it uses up budget, or is a store that completes a report. */
  lemma SomeStep(s: State) returns (a: Action)
    requires Inv(s) && InTask(s) && !LatchOpens(s)
    ensures Enabled(s, a) && TaskStep(a) && !a.Report?
  {
    CanMoveUntilOpen(s);
    hide Inv;
    if u: nat :| Enabled(s, Next(u)) {
      a := Next(u);
    } else if w: nat :| Enabled(s, Begin(w)) {
      a := Begin(w);
    } else if w: nat :| Enabled(s, DonePush(w)) {
      a := DonePush(w);
    } else {
      var w: nat :| Enabled(s, Store(w));
      a := Store(w);
    }
  }

  lemma StoreThenPush(s: State, w: nat)
    requires Shape(s) && Enabled(s, Store(w))
    ensures Enabled(Apply(s, Store(w)), DonePush(w))
  {
  }

  /** Until the latch opens, some one or two steps use up budget. */
  lemma PoolAdvances(s: State) returns (acts: seq<Action>, n: State)
    requires Inv(s) && s.W() > 0 && InTask(s) && !LatchOpens(s)
    ensures WithinTask(s, acts, n) && |acts| <= 2 && Inv(n) && n.W() > 0 && InTask(n)
    ensures Shape(s) && Shape(n) && Budget(n) < Budget(s)
  {
    var a := SomeStep(s);
    assert Shape(s);
    hide Inv, Budget, Shape, Enabled, InTask, LatchOpens;
    BudgetShrinks(s, a);
    n := Apply(s, a);
    WithinOne(s, a);
    TaskGoesOn(s, a);
    acts := [a];
    if a.Store? {
      StoreThenPush(s, a.w);
      var b := DonePush(a.w);
      BudgetShrinks(n, b);
      WithinOne(n, b);
      TaskGoesOn(n, b);
      WithinConcat(s, [a], n, [b], Apply(n, b));
      acts, n := [a] + [b], Apply(n, b);
    }
  }

  /** From any state of a task some continuation opens the latch; TaskEnds bounds every other one. */
  lemma {:induction false} TaskCanFinish(s: State) returns (acts: seq<Action>, n: State)
    requires Inv(s) && s.W() > 0 && InTask(s)
    ensures WithinTask(s, acts, n) && Inv(n) && LatchOpens(n)
    decreases Budget(s)
  {
    if LatchOpens(s) {
      WithinNone(s);
      acts, n := [], s;
    } else {
      var xs, p := PoolAdvances(s);
      hide Inv, Budget, Shape, InTask, LatchOpens;
      var ys;
      ys, n := TaskCanFinish(p);
      WithinConcat(s, xs, p, ys, n);
      acts := xs + ys;
    }
  }

  /** Pool progress: in every reachable state of a task the latch can still be opened, and unless it is
      open some one or two steps bring the task closer to its end. */
  lemma PoolProgress(nWorkers: nat, nParallel: nat, s: State)
    requires nWorkers > 0 && nParallel > 0 && Reachable(nWorkers, nParallel, s) && InTask(s)
    ensures Shape(s)
    ensures LatchOpens(s) || exists acts: seq<Action>, n: State ::
              WithinTask(s, acts, n) && Shape(n) && |acts| <= 2 && Budget(n) < Budget(s)
    ensures exists acts: seq<Action>, n: State :: WithinTask(s, acts, n) && LatchOpens(n)
  {
    ReachableInv(nWorkers, nParallel, s);
    assert Shape(s);
    hide Inv, Budget, Shape, InTask, LatchOpens;
    if !LatchOpens(s) {
      var xs, p := PoolAdvances(s);
    }
    var acts, n := TaskCanFinish(s);
  }
}
