/**
 Where the machines meet: the semaphores of an IPC block obey the discipline under which the futex
 semaphore is safe, and the minimum that the worker pool computes is the time at which the next round
 of the simulation starts.
 */
module Composition {
  import ControllerModel
  import IpcProtocol
  import Rounds
  import ShadowSemaphore
  import WorkerPoolModel
  import WorkerPoolRuns
  import WorkerPoolSteps

  // ----- the IPC block as a user of the semaphore -------------------------------------------------

  /** A post of either side finds its semaphore at 0, so it raises it to 1 and no further: the discipline
      under which the semaphore loses no wake-up.  IpcBlock follows both down to their atomic accesses. */
  lemma IpcPostsAreBinary(explicitBlock: bool, acts: seq<IpcProtocol.Action>, s: IpcProtocol.State,
                          a: IpcProtocol.Action)
    requires IpcProtocol.Runs(IpcProtocol.Init(explicitBlock), acts, s) && IpcProtocol.Enabled(s, a)
    ensures a.ShadowPosts? ==> s.semPlugin == 0 && IpcProtocol.Apply(s, a).semPlugin == 1
    ensures a.PluginPosts? ==> s.semShadow == 0 && IpcProtocol.Apply(s, a).semShadow == 1
    ensures IpcProtocol.Apply(s, a).semPlugin <= 1 && IpcProtocol.Apply(s, a).semShadow <= 1
  {
    IpcProtocol.SingleToken(explicitBlock, acts, s);
    IpcProtocol.RunsThen(IpcProtocol.Init(explicitBlock), acts, s, a);
    IpcProtocol.SingleToken(explicitBlock, acts + [a], IpcProtocol.Apply(s, a));
    hide IpcProtocol.Runs;
  }

  // ----- the pool's minimum and the next round ----------------------------------------------------

  /** What a step of a round reports to the pool: each event it queues, and the head of a queue that is
      left over. */
  ghost function Tells(s: Rounds.State, a: Rounds.Action): seq<WorkerPoolModel.Told>
    requires Rounds.Shape(s) && Rounds.Enabled(s, a)
  {
    match a
    case PushLocal(h, delay) => TellsPush(s, Rounds.Wrap(s.now[h].value + delay), false)
    case PushRemote(h, _, delay) => TellsPush(s, Rounds.Wrap(s.now[h].value + delay), true)
    case Leave(h) => [WorkerPoolModel.Told(Rounds.Head(s.pending[h]), s.windowEnd)]
    case _ => []
  }

  function TellsPush(s: Rounds.State, t: nat, remote: bool): seq<WorkerPoolModel.Told> {
    if t >= s.endTime then [] else [WorkerPoolModel.Told(if remote then Rounds.Clamped(s, t) else t, s.windowEnd)]
  }

  ghost predicate RoundRun(s: Rounds.State, acts: seq<Rounds.Action>, n: Rounds.State)
    decreases acts
  {
    if acts == [] then s == n
    else
      && Rounds.Shape(s) && !acts[0].NextRound? && Rounds.Enabled(s, acts[0])
      && RoundRun(Rounds.Apply(s, acts[0]), acts[1..], n)
  }

  ghost function ToldBy(s: Rounds.State, acts: seq<Rounds.Action>): seq<WorkerPoolModel.Told>
    decreases acts
  {
    if acts == [] || !Rounds.Shape(s) || !Rounds.Enabled(s, acts[0]) then []
    else Tells(s, acts[0]) + ToldBy(Rounds.Apply(s, acts[0]), acts[1..])
  }

  lemma StepTells(s: Rounds.State, a: Rounds.Action, told: seq<WorkerPoolModel.Told>)
    requires Rounds.Shape(s) && Rounds.Enabled(s, a) && !a.NextRound? && s.minNext == WorkerPoolModel.LeastTold(told)
    ensures Rounds.Apply(s, a).minNext == WorkerPoolModel.LeastTold(told + Tells(s, a))
  {
    var more := Tells(s, a);
    if more == [] {
      assert told + more == told;
    } else {
      WorkerPoolSteps.TellOne(told, more[0]);
      assert more == [more[0]];
    }
    hide WorkerPoolModel.LeastTold, Rounds.Least, Rounds.Head;
  }

  lemma FirstTells(s: Rounds.State, acts: seq<Rounds.Action>, n: Rounds.State)
    requires acts != [] && RoundRun(s, acts, n)
    ensures Rounds.Shape(s) && Rounds.Enabled(s, acts[0]) && !acts[0].NextRound?
    ensures RoundRun(Rounds.Apply(s, acts[0]), acts[1..], n)
    ensures ToldBy(s, acts) == Tells(s, acts[0]) + ToldBy(Rounds.Apply(s, acts[0]), acts[1..])
  {
    hide Rounds.Enabled, Rounds.Apply, Rounds.Shape, Tells;
  }

  lemma Joined(a: seq<WorkerPoolModel.Told>, b: seq<WorkerPoolModel.Told>, c: seq<WorkerPoolModel.Told>)
    ensures (a + b) + c == a + (b + c)
  {
  }

  /** The least report that the rounds keep is the least of what was told. */
  lemma {:induction false} RoundTells(s: Rounds.State, acts: seq<Rounds.Action>, n: Rounds.State,
                                          told: seq<WorkerPoolModel.Told>)
    requires RoundRun(s, acts, n) && s.minNext == WorkerPoolModel.LeastTold(told)
    ensures n.minNext == WorkerPoolModel.LeastTold(told + ToldBy(s, acts))
    decreases acts
  {
    if acts == [] {
      assert told + ToldBy(s, acts) == told;
    } else {
      hide *;
      var a, rest := acts[0], acts[1..];
      FirstTells(s, acts, n);
      StepTells(s, a, told);
      RoundTells(Rounds.Apply(s, a), rest, n, told + Tells(s, a));
      Joined(told, Tells(s, a), ToldBy(Rounds.Apply(s, a), rest));
    }
  }

  /** The order of the reports, and of the workers that make them, does not matter. */
  lemma OrderDoesNotMatter(a: seq<WorkerPoolModel.Told>, b: seq<WorkerPoolModel.Told>)
    requires forall x :: x in a <==> x in b
    ensures WorkerPoolModel.LeastTold(a) == WorkerPoolModel.LeastTold(b)
  {
    WorkerPoolRuns.LeastToldIsLeast(a);
    WorkerPoolRuns.LeastToldIsLeast(b);
    hide WorkerPoolModel.LeastTold;
  }

  /** worker_setMinEventTimeNextRound ignores what lies in the current round. */
  predicate Counts(x: WorkerPoolModel.Told) { x.t >= x.roundEnd }

  ghost predicate NoLater(told: seq<WorkerPoolModel.Told>, t: nat) {
    exists x :: x in told && Counts(x) && x.t <= t
  }

  /** The reports `a` stand for the reports `b`: of those that count, each one of either is matched by one
      of the other that is no later, save that `a` may also say that nothing is queued. */
  ghost predicate StandsFor(a: seq<WorkerPoolModel.Told>, b: seq<WorkerPoolModel.Told>) {
    && (forall x :: x in a && Counts(x) ==> x.t >= WorkerPoolModel.SIMTIME_MAX || NoLater(b, x.t))
    && (forall x :: x in b && Counts(x) ==> NoLater(a, x.t))
  }

  lemma StandInHasSameLeast(a: seq<WorkerPoolModel.Told>, b: seq<WorkerPoolModel.Told>)
    requires StandsFor(a, b)
    ensures WorkerPoolModel.LeastTold(a) == WorkerPoolModel.LeastTold(b)
  {
    WorkerPoolRuns.LeastToldIsLeast(a);
    WorkerPoolRuns.LeastToldIsLeast(b);
    hide WorkerPoolModel.LeastTold;
  }

  /** What the workers report at the end of a round: each one time, the least head of its hosts. */
  function WorkersTell(hosts: seq<seq<WorkerPoolModel.Told>>, roundEnd: nat): seq<WorkerPoolModel.Told> {
    if hosts == [] then []
    else WorkersTell(hosts[1..], roundEnd) + [WorkerPoolModel.Told(WorkerPoolModel.LeastTold(hosts[0]), roundEnd)]
  }

  /** The heads that they look at, worker by worker. */
  function HostsTell(hosts: seq<seq<WorkerPoolModel.Told>>): seq<WorkerPoolModel.Told> {
    if hosts == [] then [] else HostsTell(hosts[1..]) + hosts[0]
  }

  predicate OfRound(told: seq<WorkerPoolModel.Told>, roundEnd: nat) {
    forall x :: x in told ==> x.t >= x.roundEnd == roundEnd
  }

  lemma {:induction false} WorkersStandForHosts(hosts: seq<seq<WorkerPoolModel.Told>>, roundEnd: nat)
    requires roundEnd <= WorkerPoolModel.SIMTIME_MAX && OfRound(HostsTell(hosts), roundEnd)
    ensures StandsFor(WorkersTell(hosts, roundEnd), HostsTell(hosts)) && OfRound(WorkersTell(hosts, roundEnd), roundEnd)
  {
    if hosts != [] {
      var w, h := WorkersTell(hosts[1..], roundEnd), HostsTell(hosts[1..]);
      var least := WorkerPoolModel.Told(WorkerPoolModel.LeastTold(hosts[0]), roundEnd);
      WorkerPoolRuns.LeastToldIsLeast(hosts[0]);
      WorkersStandForHosts(hosts[1..], roundEnd);
      hide WorkerPoolModel.LeastTold, WorkersTell, HostsTell;
      AppendStandsFor(w, h, least, hosts[0]);
    }
  }

  lemma AppendStandsFor(a: seq<WorkerPoolModel.Told>, b: seq<WorkerPoolModel.Told>, x: WorkerPoolModel.Told,
                        ys: seq<WorkerPoolModel.Told>)
    requires StandsFor(a, b) && Counts(x)
    requires x.t == WorkerPoolModel.SIMTIME_MAX || exists y :: y in ys && Counts(y) && y.t == x.t
    requires forall y :: y in ys && Counts(y) ==> x.t <= y.t
    ensures StandsFor(a + [x], b + ys)
  {
    forall y | y in a + [x] && Counts(y) ensures y.t >= WorkerPoolModel.SIMTIME_MAX || NoLater(b + ys, y.t) {
      if y in a && NoLater(b, y.t) { MoreNoLater(b, ys, y.t); }
    }
    forall y | y in b + ys && Counts(y) ensures NoLater(a + [x], y.t) {
      if y in b { MoreNoLater(a, [x], y.t); } else { assert x in a + [x]; }
    }
  }

  lemma MoreNoLater(a: seq<WorkerPoolModel.Told>, b: seq<WorkerPoolModel.Told>, t: nat)
    requires NoLater(a, t)
    ensures NoLater(a + b, t)
  {
    var x :| x in a && Counts(x) && x.t <= t;
    assert x in a + b;
  }

  /** What the pool is told at the end of a round stands for all that the round has to tell: it is told of
      every push, and each worker looks at the heads of its hosts when it reports; a head is by then the one
      that its host left over, or an earlier event that another host has pushed since. */
  lemma WorkersReport(told: seq<WorkerPoolModel.Told>, pushes: seq<WorkerPoolModel.Told>,
                      hosts: seq<seq<WorkerPoolModel.Told>>, roundEnd: nat, tells: seq<WorkerPoolModel.Told>)
    requires roundEnd <= WorkerPoolModel.SIMTIME_MAX && OfRound(HostsTell(hosts), roundEnd)
    requires forall x :: x in told <==> x in pushes || x in WorkersTell(hosts, roundEnd)
    requires forall x :: x in pushes || x in HostsTell(hosts) ==> x in tells
    requires forall x :: x in tells && Counts(x) ==> x in pushes || NoLater(HostsTell(hosts), x.t)
    ensures StandsFor(told, tells)
  {
    WorkersStandForHosts(hosts, roundEnd);
    var w, h := WorkersTell(hosts, roundEnd), HostsTell(hosts);
    hide WorkersTell, HostsTell;
    forall x | x in told && Counts(x) ensures x.t >= WorkerPoolModel.SIMTIME_MAX || NoLater(tells, x.t) {
      if x in w && x.t < WorkerPoolModel.SIMTIME_MAX {
        var y :| y in h && Counts(y) && y.t <= x.t;
      }
    }
    forall x | x in tells && Counts(x) ensures NoLater(told, x.t) {
      if x !in pushes {
        var y :| y in h && Counts(y) && y.t <= x.t;
        var z :| z in w && Counts(z) && z.t <= y.t;
      }
    }
  }

  /** The pool's lock-free minimum is where the next round starts: if what its workers reported stands for
      what the hosts of a round had to tell (WorkersReport), in whatever order, the minimum is the least
      report of the round, and once every host has left the round it is the least queued time, or
      SIMTIME_MAX if nothing is queued. */
  lemma PoolMinimumStartsNextRound(
      nWorkers: nat, nParallel: nat, p: WorkerPoolModel.State, s: Rounds.State, acts: seq<Rounds.Action>, n: Rounds.State)
    requires nWorkers > 0 && nParallel > 0 && WorkerPoolRuns.Reachable(nWorkers, nParallel, p)
    requires s.minNext == Rounds.SIMTIME_MAX && RoundRun(s, acts, n)
    requires StandsFor(p.told, ToldBy(s, acts))
    ensures WorkerPoolModel.MinOf(p.minTimes) == n.minNext
    ensures Rounds.Reachable(n) && !n.stopped && (forall h :: 0 <= h < |n.left| ==> n.left[h]) ==>
              && (forall h, t :: 0 <= h < |n.pending| && t in n.pending[h] ==> WorkerPoolModel.MinOf(p.minTimes) <= t)
              && (WorkerPoolModel.MinOf(p.minTimes) == Rounds.SIMTIME_MAX ||
                  exists h :: 0 <= h < |n.pending| && WorkerPoolModel.MinOf(p.minTimes) in n.pending[h])
  {
    WorkerPoolRuns.GlobalMinimum(nWorkers, nParallel, p);
    RoundTells(s, acts, n, []);
    assert [] + ToldBy(s, acts) == ToldBy(s, acts);
    StandInHasSameLeast(p.told, ToldBy(s, acts));
    if Rounds.Reachable(n) && !n.stopped && forall h :: 0 <= h < |n.left| ==> n.left[h] {
      Rounds.ReportExact(n);
    }
    hide WorkerPoolModel.MinOf, WorkerPoolModel.LeastTold, RoundRun, ToldBy, StandsFor, Rounds.Reachable,
         WorkerPoolRuns.Reachable;
  }

  // ----- the controller and the next round ----------------------------------------------------------------

  /** What the controller computes from the report of a round is the next round of the simulation: the loop
      goes on for the one exactly if it does for the other, and the windows are the same. */
  method StartNextRound(controller: ControllerModel.Controller, minNextEventTime: nat, ghost s: Rounds.State)
    returns (keepRunning: bool, ghost jump: nat)
    requires Rounds.Reachable(s) && Rounds.Shape(s) && !s.stopped && forall h :: 0 <= h < |s.left| ==> s.left[h]
    requires controller.endTime == s.endTime && minNextEventTime == s.minNext
    requires controller.nextMinJumpTime < Rounds.TIME_BOUND && controller.minJumpTimeConfig < Rounds.TIME_BOUND
    modifies controller
    ensures Rounds.Enabled(s, Rounds.NextRound(jump))
    ensures var n := Rounds.Apply(s, Rounds.NextRound(jump));
            && (keepRunning <==> !n.stopped)
            && (keepRunning ==> n.windowStart == controller.executeWindowStart && n.windowEnd == controller.executeWindowEnd)
  {
    Rounds.LeftIffReported(s);
    var windowStart, windowEnd;
    keepRunning, windowStart, windowEnd, jump := controller.ManagerFinishedCurrentRound(minNextEventTime);
    hide Rounds.Reachable;
  }
}
