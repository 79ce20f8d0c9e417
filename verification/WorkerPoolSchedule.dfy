/**
 What the schedule of the pool's threads determines: which task runs until when, how often every worker has
 begun one, and what has been reported.
 */
module WorkerPoolSchedule {
  import opened WorkerPoolModel
  import opened WorkerPoolSteps
  import opened WorkerPoolRuns

  function Tasks(acts: seq<Action>): nat {
    if acts == [] then 0 else Tasks(acts[..|acts| - 1]) + if acts[|acts| - 1].Start? then 1 else 0
  }

  /** The end of the round of the task that was started last. */
  function RoundEnd(acts: seq<Action>): nat {
    if acts == [] then 0
    else if acts[|acts| - 1].Start? then acts[|acts| - 1].roundEnd else RoundEnd(acts[..|acts| - 1])
  }

  /** The task that was started last tells the workers to exit. */
  predicate Quits(acts: seq<Action>) {
    acts != [] && if acts[|acts| - 1].Start? then acts[|acts| - 1].quit else Quits(acts[..|acts| - 1])
  }

  /** How often worker `w` began the task that it was woken for. */
  function Begun(acts: seq<Action>, w: nat): nat {
    if acts == [] then 0 else Begun(acts[..|acts| - 1], w) + if acts[|acts| - 1] == Begin(w) then 1 else 0
  }

  /** The time with which worker `w` called worker_setMinEventTimeNextRound last. */
  function LastReport(acts: seq<Action>, w: nat): nat {
    if acts == [] then 0
    else
      var a := acts[|acts| - 1];
      if a.Report? && a.w == w then a.t else LastReport(acts[..|acts| - 1], w)
  }

  /** All that was reported since the minimum was last collected: a time in the current round when the call
      was made, another one when it was stored. */
  function Reports(acts: seq<Action>): seq<Told> {
    if acts == [] then []
    else
      var before, a := acts[..|acts| - 1], acts[|acts| - 1];
      match a
      case Collect => []
      case Report(w, t) => Reports(before) + if t < RoundEnd(before) then [Told(t, RoundEnd(before))] else []
      case Store(w) => Reports(before) + [Told(LastReport(before, w), RoundEnd(before))]
      case _ => Reports(before)
  }

  ghost predicate WorkerFollows(s: State, acts: seq<Action>, w: nat) {
    && w < |s.ran| == s.W() && w < |s.pcs|
    && s.ran[w] == Begun(acts, w)
    && (s.pcs[w].Reporting? ==> s.pcs[w].t == LastReport(acts, w))
  }

  predicate TaskFollows(s: State, acts: seq<Action>) {
    s.task == Tasks(acts) && s.roundEnd == RoundEnd(acts) && s.quitting == Quits(acts)
  }

  lemma StepTask(s: State, acts: seq<Action>, a: Action)
    requires Shape(s) && Enabled(s, a) && TaskFollows(s, acts)
    ensures TaskFollows(Apply(s, a), acts + [a])
  {
    assert (acts + [a])[..|acts|] == acts;
  }

  lemma StepWorker(s: State, acts: seq<Action>, a: Action, w: nat)
    requires Shape(s) && Enabled(s, a) && WorkerFollows(s, acts, w)
    ensures WorkerFollows(Apply(s, a), acts + [a], w)
  {
    assert (acts + [a])[..|acts|] == acts;
  }

  lemma StepReports(s: State, acts: seq<Action>, a: Action)
    requires Shape(s) && Enabled(s, a) && TaskFollows(s, acts) && s.told == Reports(acts)
    requires a.Store? ==> WorkerFollows(s, acts, a.w)
    ensures Apply(s, a).told == Reports(acts + [a])
  {
    assert (acts + [a])[..|acts|] == acts;
    hide Tasks, RoundEnd, Begun, LastReport;
  }

  lemma {:induction false} RunFollows(nWorkers: nat, nParallel: nat, run: seq<State>, acts: seq<Action>)
    requires nWorkers > 0 && nParallel > 0 && Path(run, acts) && run[0] == Init(nWorkers, nParallel)
    ensures TaskFollows(run[|acts|], acts) && run[|acts|].told == Reports(acts)
    ensures forall w: nat :: w < nWorkers ==> WorkerFollows(run[|acts|], acts, w)
    decreases |acts|
  {
    if acts != [] {
      var k := |acts| - 1;
      hide StepAt, Init, TaskFollows, WorkerFollows, Apply, Enabled;
      PathFront(run, acts);
      StepIs(run, acts, k);
      RunFollows(nWorkers, nParallel, run[..|acts|], acts[..k]);
      WorkersAre(nWorkers, nParallel, run[..|acts|], acts[..k]);
      assert acts[..k] + [acts[k]] == acts;
      StepTask(run[k], acts[..k], acts[k]);
      if acts[k].Store? { StoreOfWorker(run[k], acts[k].w); }
      StepReports(run[k], acts[..k], acts[k]);
      forall w: nat | w < nWorkers ensures WorkerFollows(run[|acts|], acts, w) {
        StepWorker(run[k], acts[..k], acts[k], w);
      }
    }
  }

  lemma StepIs(run: seq<State>, acts: seq<Action>, k: nat)
    requires |run| == |acts| + 1 && k < |acts| && StepAt(run, acts, k)
    ensures Shape(run[k]) && Enabled(run[k], acts[k]) && run[k + 1] == Apply(run[k], acts[k])
  {
  }

  lemma WorkersAre(nWorkers: nat, nParallel: nat, run: seq<State>, acts: seq<Action>)
    requires nWorkers > 0 && nParallel > 0 && Path(run, acts) && run[0] == Init(nWorkers, nParallel)
    ensures run[|acts|].W() == nWorkers
  {
    hide StepAt, Init, Inv;
    RunInv(nWorkers, nParallel, run, acts);
  }

  lemma StoreOfWorker(s: State, w: nat)
    requires Enabled(s, Store(w))
    ensures w < s.W()
  {
  }

  /** The schedule alone determines what the pool is doing for whom: the task and the end of its round are
      those started last, every worker has begun each task that it was woken for, and what has been reported
      is what was asked for, with the end of the round in which it was. */
  lemma ScheduleDecides(nWorkers: nat, nParallel: nat, run: seq<State>, acts: seq<Action>, w: nat)
    requires nWorkers > 0 && nParallel > 0 && Path(run, acts) && run[0] == Init(nWorkers, nParallel) && w < nWorkers
    ensures var s := run[|acts|];
            && s.roundEnd == RoundEnd(acts) && s.told == Reports(acts)
            && w < |s.ran| == |s.pcs| - 1
            && MinOf(s.minTimes) == LeastTold(Reports(acts))
            && (s.phase == Awaiting && s.latch == 0 ==>
                  && Begun(acts, w) == Tasks(acts) && (s.pcs[w] == if Quits(acts) then Exited else Waiting)
                  && Shape(s) && Enabled(s, Finish) && Apply(s, Finish).phase == if Quits(acts) then Joined else Resting)
  {
    hide Path, Reports, Tasks, RoundEnd, Begun, LastReport, Quits;
    assert |run| == |acts| + 1 by { PathLength(run, acts); }
    RunFollows(nWorkers, nParallel, run, acts);
    RunInv(nWorkers, nParallel, run, acts);
    var s := run[|acts|];
    hide Inv, Init;
    MinimumAndRuns(s);
    assert WorkerFollows(s, acts, w);
  }

  lemma MinimumAndRuns(s: State)
    requires Inv(s)
    ensures Shape(s) && MinOf(s.minTimes) == LeastTold(s.told)
    ensures s.phase == Awaiting && s.latch == 0 ==>
              forall w :: 0 <= w < s.W() ==> s.ran[w] == s.task && s.pcs[w] == if s.quitting then Exited else Waiting
  {
    hide Queues, Exclusion, Work;
    if s.phase == Awaiting && s.latch == 0 { AllFinished(s); }
  }

  lemma PathLength(run: seq<State>, acts: seq<Action>)
    requires Path(run, acts)
    ensures |run| == |acts| + 1
  {
  }

  // ----- affinity -----------------------------------------------------------------------------------

  /** A queued worker is in a queue of the processor that it is assigned to. */
  ghost predicate AtHome(s: State, w: nat) {
    w < |s.stage| && w < s.W() && (s.stage[w].InReady? || s.stage[w].InDone? ==> s.stage[w].lp == s.lpOf[w])
  }

  lemma StepAtHome(s: State, a: Action, w: nat)
    requires Inv(s) && Enabled(s, a) && AtHome(s, w)
    ensures AtHome(Apply(s, a), w)
  {
    assert Shape(s) && (a.Next? ==> HandOk(s, a.u));
    hide Inv, Apply;
    if a.Next? { AgentKeepsHome(s, a.u, w); } else { OthersKeepHome(s, a, w); }
  }

  lemma AgentKeepsHome(s: State, u: nat, w: nat)
    requires Shape(s) && Enabled(s, Next(u)) && AtHome(s, w) && HandOk(s, u)
    ensures AtHome(Apply(s, Next(u)), w)
  {
    var n := Apply(s, Next(u));
    match s.pcs[u] {
      case Got(lp, v) => assert s.stage[v] == Popped(u);
      case _ =>
    }
  }

  lemma OthersKeepHome(s: State, a: Action, w: nat)
    requires Shape(s) && Enabled(s, a) && AtHome(s, w) && !a.Next?
    ensures AtHome(Apply(s, a), w)
  {
  }

  /** In every run a worker that waits in a queue waits in that of the processor that it ran on last. */
  lemma {:induction false} WorkersStayHome(nWorkers: nat, nParallel: nat, run: seq<State>, acts: seq<Action>, w: nat)
    requires nWorkers > 0 && nParallel > 0 && Path(run, acts) && run[0] == Init(nWorkers, nParallel) && w < nWorkers
    ensures AtHome(run[|acts|], w)
    decreases |acts|
  {
    if acts != [] {
      hide StepAt, Init, Inv, Apply, Enabled, AtHome;
      var k := |acts| - 1;
      PathFront(run, acts);
      StepIs(run, acts, k);
      WorkersStayHome(nWorkers, nParallel, run[..|acts|], acts[..k], w);
      RunInv(nWorkers, nParallel, run[..|acts|], acts[..k]);
      StepAtHome(run[k], acts[k], w);
    }
  }
}
