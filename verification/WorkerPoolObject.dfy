/**
 The pool as the object that the threads share: its queues, arrays, latch and semaphores, updated in
 place one access at a time.  Every method is proved to be the step of WorkerPoolModel with the same
 name, so what the runs of that model keep holds of the object under every schedule.
 */
module WorkerPoolObject {
  import opened WorkerPoolModel
  import opened WorkerPoolSteps
  import opened WorkerPoolRuns

  /** logical_processor.rs: per processor a queue of ready and a queue of done workers. */
  class LogicalProcessors {
    var ready: seq<seq<nat>>
    var done: seq<seq<nat>>

    constructor (n: nat)
      ensures ready == Fill(n, []) && done == Fill(n, [])
    {
      ready, done := Fill(n, []), Fill(n, []);
    }

    method ReadyPush(lpi: nat, worker: nat)
      requires lpi < |ready|
      modifies this`ready
      ensures ready == old(ready)[lpi := old(ready)[lpi] + [worker]]
    {
      ready := ready[lpi := ready[lpi] + [worker]];
    }

    method DonePush(lpi: nat, worker: nat)
      requires lpi < |done|
      modifies this`done
      ensures done == old(done)[lpi := old(done)[lpi] + [worker]]
    {
      done := done[lpi := done[lpi] + [worker]];
    }

    /** One pop of one ready queue: its oldest worker, or -1. */
    method TryPop(from: nat) returns (worker: int)
      requires from < |ready|
      modifies this`ready
      ensures old(ready)[from] == [] ==> worker == -1 && ready == old(ready)
      ensures old(ready)[from] != [] ==>
                worker == old(ready)[from][0] && ready == old(ready)[from := old(ready)[from][1..]]
    {
      if ready[from] == [] {
        return -1;
      }
      worker := ready[from][0];
      ready := ready[from := ready[from][1..]];
    }

    /** The whole scan when nobody interferes: the oldest worker of the first nonempty queue, going
        round from `lpi`; -1 exactly when all queues are empty. */
    method PopWorkerToRunOn(lpi: nat) returns (worker: int, ghost k: nat)
      requires lpi < |ready|
      modifies this`ready
      ensures k <= |ready| == |old(ready)|
      ensures forall j: nat :: j < k ==> old(ready)[Turn(|ready|, lpi, j)] == []
      ensures k < |ready| ==>
                var from := Turn(|ready|, lpi, k);
                && old(ready)[from] != [] && worker == old(ready)[from][0]
                && ready == old(ready)[from := old(ready)[from][1..]]
      ensures k == |ready| ==> worker == -1 && ready == old(ready)
      ensures worker == -1 <==> forall l :: 0 <= l < |old(ready)| ==> old(ready)[l] == []
    {
      k := 0;
      for i := 0 to |ready|
        invariant ready == old(ready) && k == i
        invariant forall j: nat :: j < i ==> ready[Turn(|ready|, lpi, j)] == []
      {
        worker := TryPop(Turn(|ready|, lpi, i));
        if worker >= 0 {
          return;
        }
        k := k + 1;
      }
      worker := -1;
      forall l | 0 <= l < |ready| ensures ready[l] == [] {
        var j := TurnOf(|ready|, lpi, l);
      }
    }

    /** Marks all workers ready again. */
    method FinishTask()
      requires |ready| == |done|
      modifies this
      ensures ready == old(done) && done == old(ready)
    {
      for i := 0 to |ready|
        invariant |ready| == |done| == |old(ready)|
        invariant forall l :: 0 <= l < i ==> ready[l] == old(done)[l] && done[l] == old(ready)[l]
        invariant forall l :: i <= l < |ready| ==> ready[l] == old(ready)[l] && done[l] == old(done)[l]
      {
        ready, done := ready[i := done[i]], done[i := ready[i]];
      }
    }
  }

  /** The queue that a scan for `lp` over `n` queues looks at in turn `k`. */
  function Turn(n: nat, lp: nat, k: nat): (from: nat)
    requires n > 0
    ensures from < n
  { (lp + k) % n }

  lemma TurnOf(n: nat, lp: nat, l: nat) returns (k: nat)
    requires lp < n && l < n
    ensures k < n && Turn(n, lp, k) == l
  {
    k := if l >= lp then l - lp else l + n - lp;
    if l < lp { ModWrap(l + n, n); }
  }

  lemma {:induction false} MinAppend(ts: seq<nat>, t: nat)
    ensures MinOf(ts + [t]) == Min(t, MinOf(ts))
  {
    if ts == [] {
      assert [t][1..] == [];
    } else {
      assert (ts + [t])[1..] == ts[1..] + [t];
      MinAppend(ts[1..], t);
    }
  }

  /** Deals the workers to the processors in turn. */
  method DealWorkers(queues: LogicalProcessors, idxs: array<nat>)
    requires |queues.ready| > 0 && queues.ready == Fill(|queues.ready|, [])
    modifies queues`ready, idxs
    ensures |queues.ready| == old(|queues.ready|)
    ensures queues.ready == Queued(idxs.Length, |queues.ready|)
    ensures idxs[..] == Homes(idxs.Length, |queues.ready|)
  {
    var n := |queues.ready|;
    for i := 0 to idxs.Length
      invariant |queues.ready| == n
      invariant forall l :: 0 <= l < n ==> queues.ready[l] == Dealt(i, n, l)
      invariant forall w :: 0 <= w < i ==> idxs[w] == Home(n, w)
    {
      queues.ReadyPush(Home(n, i), i);
      idxs[i] := Home(n, i);
    }
  }

  lemma OneMore(nWorkers: nat, nParallel: nat, s: State, a: Action)
    requires nWorkers > 0 && nParallel > 0 && Reachable(nWorkers, nParallel, s) && Shape(s) && Enabled(s, a)
    ensures Reachable(nWorkers, nParallel, Apply(s, a))
  {
    hide StepAt, Init, Shape, Enabled, Apply;
    var run: seq<State>, acts: seq<Action> :|
      Path(run, acts) && run[0] == Init(nWorkers, nParallel) && run[|acts|] == s;
    OneStep(s, a);
    PathJoin(run, acts, [s, Apply(s, a)], [a]);
  }

  class WorkerPool {
    const nWorkers: nat
    const lps: LogicalProcessors
    const workerLogicalProcessorIdxs: array<nat>
    const workerBeginSems: array<nat>
    const minEventTimes: array<nat>
    var finishLatch: nat
    var quitting: bool
    var roundEnd: nat
    var phase: Phase
    var pcs: seq<PC>
    // History.
    var task: nat
    var ran: seq<nat>
    var told: seq<Told>
    var stage: seq<Stage>
    var holder: seq<Holder>

    ghost predicate Distinct() {
      && workerLogicalProcessorIdxs != workerBeginSems
      && workerBeginSems != minEventTimes
      && workerLogicalProcessorIdxs != minEventTimes
    }

    ghost function Snapshot(): State
      reads this, lps, workerLogicalProcessorIdxs, workerBeginSems, minEventTimes
    {
      State(lps.ready, lps.done, workerLogicalProcessorIdxs[..], workerBeginSems[..], finishLatch, quitting, roundEnd,
            minEventTimes[..], phase, pcs, task, ran, told, stage, holder)
    }

    /** workerpool_new: the workers are dealt to the processors in turn. */
    constructor (nWorkers: nat, nParallel: nat)
      requires nWorkers > 0 && nParallel > 0
      ensures fresh(lps) && fresh(workerLogicalProcessorIdxs) && fresh(workerBeginSems) && fresh(minEventTimes)
      ensures this.nWorkers == nWorkers && Distinct() && Snapshot() == Init(nWorkers, nParallel)
    {
      var n := Min(nParallel, nWorkers);
      this.nWorkers := nWorkers;
      var queues := new LogicalProcessors(n);
      var idxs := new nat[nWorkers](i => 0);
      var sems := new nat[nWorkers](i => 0);
      var mins := new nat[n](i => SIMTIME_MAX);
      DealWorkers(queues, idxs);
      lps, workerLogicalProcessorIdxs, workerBeginSems, minEventTimes := queues, idxs, sems, mins;
      finishLatch, quitting, roundEnd, phase, task, told := nWorkers, false, 0, Resting, 0, [];
      pcs, ran, stage, holder := Fill(nWorkers + 1, Waiting), Fill(nWorkers, 0), ReadyStages(nWorkers, n), Fill(n, Nobody);
      new;
      assert workerBeginSems[..] == Fill(nWorkers, 0);
      assert minEventTimes[..] == Fill(n, SIMTIME_MAX);
    }

    /** One queue of the scan of agent `u`, or its end. */
    method ScanNext(u: nat)
      requires Distinct() && Shape(Snapshot()) && u < |pcs| && pcs[u].Scan?
      modifies this, lps
      ensures Snapshot() == StepAgent(old(Snapshot()), u)
    {
      var lp, k := pcs[u].lp, pcs[u].k;
      if k == |lps.ready| {
        holder := holder[lp := Nobody];
        if u + 1 == |pcs| {
          pcs := pcs[u := Waiting];
          phase := Awaiting;
        } else {
          pcs := pcs[u := Counting];
        }
      } else {
        FromIsModulo(Snapshot(), lp, k);
        var worker := lps.TryPop(Turn(|lps.ready|, lp, k));
        if worker >= 0 {
          stage := stage[worker := Popped(u)];
          pcs := pcs[u := Got(lp, worker)];
        } else {
          pcs := pcs[u := Scan(lp, k + 1)];
        }
      }
    }

    /** _workerpool_setLogicalProcessorIdx for the worker that agent `u` popped. */
    method SetLogicalProcessorIdx(u: nat)
      requires Distinct() && Shape(Snapshot()) && u < |pcs| && pcs[u].Got?
      modifies this, workerLogicalProcessorIdxs
      ensures Snapshot() == StepAgent(old(Snapshot()), u)
    {
      var lp, w := pcs[u].lp, pcs[u].w;
      workerLogicalProcessorIdxs[w] := lp;
      pcs := pcs[u := Hand(lp, w)];
    }

    /** Agent `u` posts the begin semaphore of the worker it popped. */
    method PostBegin(u: nat)
      requires Distinct() && Shape(Snapshot()) && u < |pcs| && pcs[u].Hand?
      modifies this, workerBeginSems
      ensures Snapshot() == StepAgent(old(Snapshot()), u)
    {
      var lp, w := pcs[u].lp, pcs[u].w;
      workerBeginSems[w] := workerBeginSems[w] + 1;
      stage := stage[w := Posted];
      holder := holder[lp := By(w)];
      if u + 1 < |pcs| {
        pcs := pcs[u := Counting];
      } else if lp + 1 < |lps.ready| {
        pcs := pcs[u := Scan(lp + 1, 0)];
        holder := holder[lp + 1 := By(u)];
      } else {
        pcs := pcs[u := Waiting];
        phase := Awaiting;
      }
    }

    method LatchCountDown(u: nat)
      requires Distinct() && Shape(Snapshot()) && u < |pcs| && pcs[u] == Counting
      modifies this
      ensures Snapshot() == StepAgent(old(Snapshot()), u)
    {
      finishLatch := if finishLatch == 0 then 0 else finishLatch - 1;
      pcs := pcs[u := if quitting then Exited else Waiting];
    }

    /** sem_wait on its begin semaphore lets worker `w` run the task. */
    method BeginTask(w: nat)
      requires Distinct() && Shape(Snapshot()) && Enabled(Snapshot(), Begin(w))
      modifies this, workerBeginSems
      ensures Snapshot() == Apply(old(Snapshot()), Begin(w))
    {
      workerBeginSems[w] := workerBeginSems[w] - 1;
      pcs := pcs[w := Running];
      ran := ran[w := ran[w] + 1];
      stage := stage[w := Active];
    }

    /** worker_setMinEventTimeNextRound: the filter, and the read of the processor's minimum. */
    method SetMinEventTimeNextRound(w: nat, simtime: nat)
      requires Distinct() && Shape(Snapshot()) && Enabled(Snapshot(), Report(w, simtime))
      modifies this
      ensures Snapshot() == Apply(old(Snapshot()), Report(w, simtime))
    {
      if simtime < roundEnd {
        told := told + [Told(simtime, roundEnd)];
        return;
      }
      pcs := pcs[w := Reporting(simtime, minEventTimes[workerLogicalProcessorIdxs[w]])];
    }

    /** The unlocked store that follows that read. */
    method StoreMinEventTime(w: nat)
      requires Distinct() && Shape(Snapshot()) && Enabled(Snapshot(), Store(w))
      modifies this, minEventTimes
      ensures Snapshot() == Apply(old(Snapshot()), Store(w))
    {
      var t, seen := pcs[w].t, pcs[w].seen;
      if t < seen {
        minEventTimes[workerLogicalProcessorIdxs[w]] := t;
      }
      told := told + [Told(t, roundEnd)];
      pcs := pcs[w := Running];
    }

    method PushOnDone(w: nat)
      requires Distinct() && Shape(Snapshot()) && Enabled(Snapshot(), DonePush(w))
      modifies this, lps
      ensures Snapshot() == Apply(old(Snapshot()), DonePush(w))
    {
      var lpi := workerLogicalProcessorIdxs[w];
      lps.DonePush(lpi, w);
      stage := stage[w := InDone(lpi)];
      pcs := pcs[w := Scan(lpi, 0)];
    }

    /** _workerpool_startTaskFn up to its first look at a queue. */
    method StartTaskFn(roundEnd: nat, quit: bool)
      requires Distinct() && Shape(Snapshot()) && phase == Resting
      modifies this
      ensures Snapshot() == Apply(old(Snapshot()), Start(roundEnd, quit))
    {
      this.roundEnd, quitting, task, phase := roundEnd, quit, task + 1, Launching;
      pcs := pcs[|pcs| - 1 := Scan(0, 0)];
      holder := holder[0 := By(|pcs| - 1)];
    }

    /** workerpool_awaitTaskFn once the latch is open. */
    method AwaitTaskFn()
      requires Distinct() && Shape(Snapshot()) && Enabled(Snapshot(), Finish)
      modifies this, lps
      ensures Snapshot() == Apply(old(Snapshot()), Finish)
    {
      finishLatch := workerBeginSems.Length;
      phase := if quitting then Joined else Resting;
      lps.FinishTask();
      stage := SwappedAll(stage);
    }

    /** workerpool_getGlobalNextEventTime: the minimum over the processors, which it resets. */
    method GetGlobalNextEventTime() returns (minTime: nat)
      requires Distinct() && Shape(Snapshot()) && phase == Resting
      modifies this, minEventTimes
      ensures minTime == MinOf(old(minEventTimes[..]))
      ensures Snapshot() == Apply(old(Snapshot()), Collect)
    {
      minTime := SIMTIME_MAX;
      for i := 0 to minEventTimes.Length
        invariant minTime == MinOf(old(minEventTimes[..i]))
        invariant forall l :: 0 <= l < i ==> minEventTimes[l] == SIMTIME_MAX
        invariant forall l :: i <= l < minEventTimes.Length ==> minEventTimes[l] == old(minEventTimes[l])
        modifies minEventTimes
      {
        assert old(minEventTimes[..i + 1]) == old(minEventTimes[..i]) + [minEventTimes[i]];
        MinAppend(old(minEventTimes[..i]), minEventTimes[i]);
        if minEventTimes[i] < minTime {
          minTime := minEventTimes[i];
        }
        minEventTimes[i] := SIMTIME_MAX;
      }
      assert old(minEventTimes[..minEventTimes.Length]) == old(minEventTimes[..]);
      told := [];
      assert minEventTimes[..] == Fill(minEventTimes.Length, SIMTIME_MAX);
    }

    method CanDo(a: Action) returns (possible: bool)
      requires Shape(Snapshot())
      ensures possible <==> Enabled(Snapshot(), a)
    {
      match a
      case Start(_, _) => possible := phase == Resting;
      case Collect => possible := phase == Resting;
      case Finish => possible := phase == Awaiting && finishLatch == 0;
      case Begin(w) => possible := w < workerBeginSems.Length && pcs[w] == Waiting && workerBeginSems[w] > 0;
      case Report(w, _) => possible := w < workerBeginSems.Length && pcs[w] == Running;
      case Store(w) => possible := w < workerBeginSems.Length && pcs[w].Reporting?;
      case DonePush(w) => possible := w < workerBeginSems.Length && pcs[w] == Running;
      case Next(u) => possible := u < |pcs| && Moves(pcs[u]);
    }

    /** One step of some thread. */
    method Perform(a: Action)
      requires Distinct() && Shape(Snapshot()) && Enabled(Snapshot(), a)
      modifies this, lps, workerLogicalProcessorIdxs, workerBeginSems, minEventTimes
      ensures Snapshot() == Apply(old(Snapshot()), a)
    {
      if a.Start? {
        StartTaskFn(a.roundEnd, a.quit);
      } else if a.Finish? {
        AwaitTaskFn();
      } else if a.Collect? {
        var t := GetGlobalNextEventTime();
      } else if a.Begin? {
        BeginTask(a.w);
      } else if a.Report? {
        SetMinEventTimeNextRound(a.w, a.t);
      } else if a.Store? {
        StoreMinEventTime(a.w);
      } else if a.DonePush? {
        PushOnDone(a.w);
      } else if pcs[a.u].Scan? {
        ScanNext(a.u);
      } else if pcs[a.u].Got? {
        SetLogicalProcessorIdx(a.u);
      } else if pcs[a.u].Hand? {
        PostBegin(a.u);
      } else {
        LatchCountDown(a.u);
      }
    }

    /** Lets the threads run along a schedule; steps that are not possible are skipped.  The object
        is always in a reachable state, and the minimum it holds for the next round is exact. */
    method Run(ghost nParallel: nat, schedule: seq<Action>)
      requires nWorkers > 0 && nParallel > 0 && Distinct() && Reachable(nWorkers, nParallel, Snapshot())
      modifies this, lps, workerLogicalProcessorIdxs, workerBeginSems, minEventTimes
      ensures Reachable(nWorkers, nParallel, Snapshot())
      ensures MinOf(minEventTimes[..]) == LeastTold(told)
    {
      hide Apply, Enabled, Reachable;
      for i := 0 to |schedule|
        invariant Reachable(nWorkers, nParallel, Snapshot())
      {
        ReachableInv(nWorkers, nParallel, Snapshot());
        var possible := CanDo(schedule[i]);
        if possible {
          OneMore(nWorkers, nParallel, Snapshot(), schedule[i]);
          Perform(schedule[i]);
        }
      }
      GlobalMinimum(nWorkers, nParallel, Snapshot());
    }
  }
}
