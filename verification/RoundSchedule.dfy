/**
 What the schedule of a simulation determines of its events: every event that a host pushes is queued at the
 time that follows from the event it is executing, and nothing else is queued or executed.
 */
module RoundSchedule {
  import opened Rounds

  /** The time of the event that host `h` popped last. */
  function LastPop(acts: seq<Action>, h: nat): Option<nat> {
    if acts == [] then None
    else
      var a := acts[|acts| - 1];
      if a.Pop? && a.h == h then Some(a.t) else LastPop(acts[..|acts| - 1], h)
  }

  /** The time of the event that host `h` is executing, if it has not ended. */
  function Executing(acts: seq<Action>, h: nat): Option<nat> {
    if acts == [] then None
    else
      var a := acts[|acts| - 1];
      if a.Pop? && a.h == h then Some(a.t) else if a == Done(h) then None else Executing(acts[..|acts| - 1], h)
  }

  /** The time at which a push asks for its event, in 64-bit arithmetic. */
  function AskedFor(before: seq<Action>, a: Action): nat
    requires a.PushLocal? || a.PushRemote?
  { if LastPop(before, a.h).Some? then Wrap(LastPop(before, a.h).value + a.delay) else 0 }

  /** The events that one action queues for host `h` in a round that ends at `windowEnd`: an own event at the
      time asked for, one for another host not before the end of the round; none at or after the end. */
  function Queues(before: seq<Action>, a: Action, h: nat, windowEnd: nat, endTime: nat): multiset<nat> {
    if a.PushLocal? && a.h == h && AskedFor(before, a) < endTime then multiset{AskedFor(before, a)}
    else if a.PushRemote? && a.dst == h && AskedFor(before, a) < endTime then
      multiset{if AskedFor(before, a) < windowEnd then windowEnd else AskedFor(before, a)}
    else multiset{}
  }

  /** All that was queued for host `h`. */
  function Queued(run: seq<State>, acts: seq<Action>, h: nat): multiset<nat>
    requires |run| == |acts| + 1
    decreases |acts|
  {
    if acts == [] then multiset{}
    else
      var k := |acts| - 1;
      Queued(run[..|acts|], acts[..k], h) + Queues(acts[..k], acts[k], h, run[k].windowEnd, run[k].endTime)
  }

  /** All that host `h` executed. */
  function Executed(acts: seq<Action>, h: nat): multiset<nat> {
    if acts == [] then multiset{}
    else
      var a := acts[|acts| - 1];
      Executed(acts[..|acts| - 1], h) + if a.Pop? && a.h == h then multiset{a.t} else multiset{}
  }

  /** The pushes that ask for a time before the end. */
  function Pushes(acts: seq<Action>, endTime: nat): nat {
    if acts == [] then 0
    else
      var before, a := acts[..|acts| - 1], acts[|acts| - 1];
      Pushes(before, endTime) + if (a.PushLocal? || a.PushRemote?) && AskedFor(before, a) < endTime then 1 else 0
  }

  function Pops(acts: seq<Action>): nat {
    if acts == [] then 0 else Pops(acts[..|acts| - 1]) + if acts[|acts| - 1].Pop? then 1 else 0
  }

  // ----- one push -----------------------------------------------------------------------------------

  /** An event that a host schedules for itself before the end of the simulation is queued at its time plus
      the delay, whether or not that lies in the current round, and no other queue changes. */
  lemma OwnEventQueued(s: State, h: nat, delay: nat)
    requires Shape(s) && Enabled(s, PushLocal(h, delay)) && s.endTime <= SIMTIME_MAX
    requires s.now[h].value + delay < s.endTime
    ensures var n := Apply(s, PushLocal(h, delay));
            && |n.pending| == |s.pending|
            && n.pending[h] == s.pending[h] + multiset{s.now[h].value + delay}
            && forall g :: 0 <= g < |s.pending| && g != h ==> n.pending[g] == s.pending[g]
  {
  }

  /** One for another host is queued at the same sum, or at the end of the round if that is later. */
  lemma RemoteEventQueued(s: State, h: nat, dst: nat, delay: nat)
    requires Shape(s) && Enabled(s, PushRemote(h, dst, delay)) && s.endTime <= SIMTIME_MAX
    requires s.now[h].value + delay < s.endTime
    ensures var n, t := Apply(s, PushRemote(h, dst, delay)), s.now[h].value + delay;
            && |n.pending| == |s.pending|
            && n.pending[dst] == s.pending[dst] + multiset{if t < s.windowEnd then s.windowEnd else t}
            && forall g :: 0 <= g < |s.pending| && g != dst ==> n.pending[g] == s.pending[g]
  {
  }

  // ----- every run ----------------------------------------------------------------------------------

  predicate TimesFollow(s: State, acts: seq<Action>, h: nat) {
    && h < |s.now| == |s.pending| && h < |s.last|
    && s.now[h] == Executing(acts, h) && (s.now[h].Some? ==> s.now[h] == LastPop(acts, h))
    && (LastPop(acts, h).Some? ==> s.last[h] == LastPop(acts, h).value)
  }

  predicate HostFollows(s0: State, s: State, run: seq<State>, acts: seq<Action>, h: nat)
    requires |run| == |acts| + 1
  {
    && h < |s.pending| == |s0.pending|
    && TimesFollow(s, acts, h)
    && s.pending[h] + Executed(acts, h) == s0.pending[h] + Queued(run, acts, h)
  }

  predicate CountsFollow(s0: State, s: State, acts: seq<Action>) {
    && |s.pending| == |s0.pending| && s.endTime == s0.endTime
    && s.pushed == s0.pushed + Pushes(acts, s0.endTime) && s.executed == s0.executed + Pops(acts)
  }

  function PoppedBy(a: Action, h: nat): multiset<nat> { if a.Pop? && a.h == h then multiset{a.t} else multiset{} }

  /** What one step does to the queue of host `h`. */
  lemma StepBalances(s: State, a: Action, before: seq<Action>, h: nat)
    requires Shape(s) && Enabled(s, a) && h < |s.pending|
    requires a.PushLocal? || a.PushRemote? ==> s.now[a.h] == LastPop(before, a.h)
    ensures h < |Apply(s, a).pending| == |s.pending|
    ensures Apply(s, a).pending[h] + PoppedBy(a, h) == s.pending[h] + Queues(before, a, h, s.windowEnd, s.endTime)
  {
    hide LastPop, Head, Reported, Wrap;
    if a.Pop? { PopBalances(s, a, h); }
    else if a.PushLocal? || a.PushRemote? { PushBalances(s, a, before, h); }
    hide Push;
  }

  lemma PopBalances(s: State, a: Action, h: nat)
    requires Shape(s) && Enabled(s, a) && h < |s.pending| && a.Pop?
    ensures h < |Apply(s, a).pending| == |s.pending|
    ensures Apply(s, a).pending[h] + PoppedBy(a, h) == s.pending[h]
  {
    if a.h == h { assert a.t in s.pending[h]; }
  }

  lemma PushBalances(s: State, a: Action, before: seq<Action>, h: nat)
    requires Shape(s) && Enabled(s, a) && h < |s.pending| && (a.PushLocal? || a.PushRemote?)
    requires s.now[a.h] == LastPop(before, a.h)
    ensures h < |Apply(s, a).pending| == |s.pending|
    ensures Apply(s, a).pending[h] == s.pending[h] + Queues(before, a, h, s.windowEnd, s.endTime)
  {
    hide LastPop, Head, Reported, Wrap;
  }

  lemma Balances(before: multiset<nat>, after: multiset<nat>, popped: multiset<nat>, queued: multiset<nat>,
                 executed: multiset<nat>, start: multiset<nat>, all: multiset<nat>)
    requires after + popped == before + queued && before + executed == start + all
    ensures after + (executed + popped) == start + (all + queued)
  {
    assert after + (executed + popped) == (after + popped) + executed;
    assert (before + queued) + executed == (before + executed) + queued;
  }

  lemma StepHost(s0: State, run: seq<State>, acts: seq<Action>, h: nat)
    requires Path(run, acts) && acts != []
    requires var k := |acts| - 1; HostFollows(s0, run[k], run[..|acts|], acts[..k], h)
    requires var k := |acts| - 1; acts[k].PushLocal? || acts[k].PushRemote? ==>
               HostFollows(s0, run[k], run[..|acts|], acts[..k], acts[k].h)
    ensures HostFollows(s0, run[|acts|], run, acts, h)
  {
    var k := |acts| - 1;
    var s, a, before := run[k], acts[k], acts[..k];
    assert StepAt(run, acts, k);
    assert Shape(s) && Enabled(s, a) && run[k + 1] == Apply(s, a);
    assert a.PushLocal? || a.PushRemote? ==> s.now[a.h].Some?;
    hide Path, Apply, Enabled, InRange, Queues, LastPop, Executing;
    assert a.PushLocal? || a.PushRemote? ==> s.now[a.h] == LastPop(before, a.h);
    hide TimesFollow;
    StepBalances(s, a, before, h);
    StepTimes(s, before, a, h);
    assert before + [a] == acts;
    Balances(s.pending[h], run[k + 1].pending[h], PoppedBy(a, h), Queues(before, a, h, s.windowEnd, s.endTime),
             Executed(before, h), s0.pending[h], Queued(run[..|acts|], before, h));
  }

  lemma StepNow(s: State, a: Action, h: nat)
    requires Shape(s) && Enabled(s, a) && h < |s.pending|
    ensures h < |Apply(s, a).now| == |s.pending|
    ensures Apply(s, a).now[h] ==
            if a.Pop? && a.h == h then Some(a.t) else if a.Done? && a.h == h then None else s.now[h]
    ensures |Apply(s, a).last| == |s.last|
    ensures Apply(s, a).last[h] == if a.Pop? && a.h == h then a.t else s.last[h]
  {
  }

  lemma StepTimes(s: State, acts: seq<Action>, a: Action, h: nat)
    requires Shape(s) && Enabled(s, a) && h < |s.pending| && TimesFollow(s, acts, h)
    ensures TimesFollow(Apply(s, a), acts + [a], h)
  {
    assert (acts + [a])[..|acts|] == acts;
    StepNow(s, a, h);
    hide Apply, Enabled;
  }

  lemma StepCounts(s0: State, s: State, acts: seq<Action>, a: Action)
    requires CountsFollow(s0, s, acts) && Shape(s) && Enabled(s, a)
    requires a.PushLocal? || a.PushRemote? ==> s.now[a.h] == LastPop(acts, a.h)
    ensures CountsFollow(s0, Apply(s, a), acts + [a])
  {
    assert (acts + [a])[..|acts|] == acts;
    hide LastPop, Head, Reported;
  }

  lemma {:induction false} RunFollows(run: seq<State>, acts: seq<Action>)
    requires Path(run, acts) && Shape(run[0])
    requires forall h :: 0 <= h < |run[0].now| ==> run[0].now[h] == None
    ensures CountsFollow(run[0], run[|acts|], acts)
    ensures forall h: nat :: h < |run[0].pending| ==> HostFollows(run[0], run[|acts|], run, acts, h)
    decreases |acts|
  {
    if acts != [] {
      var k := |acts| - 1;
      var front, before := run[..|acts|], acts[..k];
      PathFront(run, acts);
      RunFollows(front, before);
      assert before + [acts[k]] == acts;
      hide Path, Apply, Enabled, InRange, CountsFollow;
      var a := acts[k];
      if a.PushLocal? || a.PushRemote? { PushFromHere(run[0], run[k], front, before, a); }
      StepCounts(run[0], run[k], before, a);
      forall h: nat | h < |run[0].pending| ensures HostFollows(run[0], run[|acts|], run, acts, h) {
        assert HostFollows(run[0], run[k], front, before, h);
        StepHost(run[0], run, acts, h);
      }
    }
  }

  lemma PushFromHere(s0: State, s: State, run: seq<State>, acts: seq<Action>, a: Action)
    requires Shape(s) && Enabled(s, a) && (a.PushLocal? || a.PushRemote?) && |s.pending| == |s0.pending|
    requires |run| == |acts| + 1 && forall h: nat :: h < |s0.pending| ==> HostFollows(s0, s, run, acts, h)
    ensures HostFollows(s0, s, run, acts, a.h) && s.now[a.h] == LastPop(acts, a.h)
  {
    hide LastPop, Queued, Executed;
    assert HostFollows(s0, s, run, acts, a.h);
  }

  /** Whatever the order in which the hosts run, each of them executes its events in the order of their times:
      between two pops of a host in the schedule, the later one is of no earlier time; and only what a host has
      begun and not ended can push. */
  lemma HostsRunInOrder(run: seq<State>, acts: seq<Action>, h: nat, t: nat)
    requires Path(run, acts) && Initial(run[0]) && Shape(run[|acts|]) && Enabled(run[|acts|], Pop(h, t))
    ensures LastPop(acts, h).Some? ==> LastPop(acts, h).value <= t
    ensures Executing(acts, h).None?
    ensures forall delay: nat :: delay < TIME_BOUND ==>
              Enabled(Apply(run[|acts|], Pop(h, t)), PushLocal(h, delay)) && Executing(acts + [Pop(h, t)], h) == Some(t)
  {
    RunFollows(run, acts);
    assert Reachable(run[|acts|]);
    hide StepAt, LastPop, Executing, Queued, Executed, Pushes, Pops, Reachable;
    Causality(run[|acts|], h, t);
    assert HostFollows(run[0], run[|acts|], run, acts, h);
    PopIsExecuting(acts, h, t);
  }

  lemma PopIsExecuting(acts: seq<Action>, h: nat, t: nat)
    ensures Executing(acts + [Pop(h, t)], h) == Some(t)
  {
  }

  /** No event is lost, invented or moved: for every host and in every run, what is still queued and what it
      has executed are together the events it began with and those that were pushed for it, each at the time
      that the schedule gives it.  The counters are the numbers of pushes before the end and of pops. */
  lemma EventsAreConserved(run: seq<State>, acts: seq<Action>, h: nat)
    requires Path(run, acts) && Initial(run[0]) && h < |run[0].pending|
    ensures var s := run[|acts|];
            && h < |s.pending|
            && s.pending[h] + Executed(acts, h) == run[0].pending[h] + Queued(run, acts, h)
            && s.pushed == run[0].pushed + Pushes(acts, s.endTime)
            && s.executed == Pops(acts)
  {
    hide StepAt, LastPop, Executing, Queued, Executed, Pushes, Pops;
    RunFollows(run, acts);
    assert HostFollows(run[0], run[|acts|], run, acts, h);
  }

  /** The round that the loop goes on with has work: some host can execute an event in it. */
  lemma NextRoundHasWork(s: State, jump: nat) returns (h: nat, t: nat)
    requires Reachable(s) && Shape(s) && Enabled(s, NextRound(jump)) && KeepsRunning(s, jump)
    ensures var n := Apply(s, NextRound(jump));
            && Shape(n) && Enabled(n, Pop(h, t)) && t == n.windowStart == s.minNext
            && n.windowEnd == Min(s.minNext + jump, s.endTime)
  {
    ReachableInv(s);
    ReportExact(s);
    WindowsSound(s, jump);
    h :| 0 <= h < |s.pending| && s.minNext in s.pending[h];
    t := s.minNext;
    assert HostOk(s, h);
    hide Reachable, Head;
  }
}
