/**
 Whole simulations: conservative rounds over per-host event queues (worker.c, scheduler.c and the
 single-queue-per-host policy), with the execution windows that the controller picks.

 Hosts run in parallel and in any order within a round.  One step pops an event, pushes an event
 while one is running, ends an event, lets a host leave the round, or starts the next round.
 */
module Rounds {

  const TIME_BOUND: nat := 0x1_0000_0000_0000_0000
  const SIMTIME_MAX: nat := TIME_BOUND - 2

  datatype Option<T> = None | Some(value: T)

  datatype State = State(
    windowStart: nat,
    windowEnd: nat,
    endTime: nat,
    jump: nat,                      // the jump that was in force when the window was picked
    pending: seq<multiset<nat>>,    // per host: the times of its queued events
    last: seq<nat>,                 // per host: the time of the last event it executed
    now: seq<Option<nat>>,          // per host: the time of the event it is executing
    left: seq<bool>,                // per host: done with this round, queue head reported
    minNext: nat,                   // least report of this round
    stopped: bool,
    rounds: nat,                    // history: rounds started
    pushed: nat,                    // history: events queued
    executed: nat                   // history: events popped
  )

  datatype Action =
    | Pop(h: nat, t: nat)
    | PushLocal(h: nat, delay: nat)
    | PushRemote(h: nat, dst: nat, delay: nat)
    | Done(h: nat)
    | Leave(h: nat)
    | NextRound(jump: nat)

  function Min(a: nat, b: nat): nat { if a < b then a else b }

  /** The 64-bit value of a sum of two 64-bit times. */
  function Wrap(t: nat): nat { if t < TIME_BOUND then t else t - TIME_BOUND }

  predicate Least(m: multiset<nat>, t: nat) { t in m && forall u :: u in m ==> t <= u }

  ghost predicate Shape(s: State) {
    |s.last| == |s.now| == |s.left| == |s.pending|
  }

  /** The time an event for another host is queued with: never before the end of the round. */
  function Clamped(s: State, t: nat): nat { if t < s.windowEnd then s.windowEnd else t }

  /** worker_setMinEventTimeNextRound. */
  function Reported(s: State, t: nat): nat { if t < s.windowEnd then s.minNext else Min(s.minNext, t) }

  /** scheduler_push: an event at or after the end of the simulation is dropped. */
  function Push(s: State, dst: nat, t: nat, remote: bool): State
    requires dst < |s.pending|
  {
    if t >= s.endTime then s
    else
      var at := if remote then Clamped(s, t) else t;
      s.(pending := s.pending[dst := s.pending[dst] + multiset{at}], minNext := Reported(s, at), pushed := s.pushed + 1)
  }

  /** The least time of a queue, or SIMTIME_MAX. */
  ghost function Head(m: multiset<nat>): nat
    ensures Head(m) == SIMTIME_MAX || Head(m) in m
    ensures forall u :: u in m ==> Head(m) <= u
    decreases |m|
  {
    if m == multiset{} then SIMTIME_MAX
    else
      var x :| x in m;
      assert forall u :: u in m ==> u == x || u in m - multiset{x};
      Min(x, Head(m - multiset{x}))
  }

  /** The window the controller picks, in 64-bit arithmetic. */
  function NextEnd(s: State, jump: nat): nat { Min(Wrap(s.minNext + jump), s.endTime) }

  predicate KeepsRunning(s: State, jump: nat) { s.minNext < NextEnd(s, jump) }

  ghost predicate Enabled(s: State, a: Action)
    requires Shape(s)
  {
    && !s.stopped
    && match a
       case Pop(h, t) =>
         h < |s.pending| && s.now[h] == None && !s.left[h] && Least(s.pending[h], t) && t < s.windowEnd
       case PushLocal(h, delay) => h < |s.pending| && s.now[h].Some? && delay < TIME_BOUND
       case PushRemote(h, dst, delay) => h < |s.pending| && s.now[h].Some? && dst < |s.pending| && dst != h && delay < TIME_BOUND
       case Done(h) => h < |s.pending| && s.now[h].Some?
       case Leave(h) =>
         && h < |s.pending| && s.now[h] == None && !s.left[h]
         && forall t :: t in s.pending[h] ==> t >= s.windowEnd
       case NextRound(jump) => 0 < jump < TIME_BOUND && forall h :: 0 <= h < |s.left| ==> s.left[h]
  }

  ghost function Apply(s: State, a: Action): State
    requires Shape(s) && Enabled(s, a)
  {
    match a
    case Pop(h, t) =>
      s.(pending := s.pending[h := s.pending[h] - multiset{t}], last := s.last[h := t], now := s.now[h := Some(t)],
         executed := s.executed + 1)
    case PushLocal(h, delay) => Push(s, h, Wrap(s.now[h].value + delay), false)
    case PushRemote(h, dst, delay) => Push(s, dst, Wrap(s.now[h].value + delay), true)
    case Done(h) => s.(now := s.now[h := None])
    case Leave(h) => s.(left := s.left[h := true], minNext := Reported(s, Head(s.pending[h])))
    case NextRound(jump) =>
      if KeepsRunning(s, jump) then
        s.(windowStart := s.minNext, windowEnd := NextEnd(s, jump), jump := jump, minNext := SIMTIME_MAX,
           left := seq(|s.left|, h => false), rounds := s.rounds + 1)
      else s.(stopped := true)
  }

  /** The hosts have booted and queued their first events; the first window is [0, 1). */
  ghost predicate Initial(s: State) {
    && Shape(s)
    && s.windowStart == 0 && s.windowEnd == 1 && s.jump == 1
    && 0 < s.endTime <= SIMTIME_MAX
    && (forall h :: 0 <= h < |s.pending| ==> s.last[h] == 0 && s.now[h] == None && !s.left[h])
    && (forall h, t :: 0 <= h < |s.pending| && t in s.pending[h] ==> t < s.endTime)
    && s.minNext == SIMTIME_MAX && !s.stopped && s.rounds == 1
    && s.pushed == Total(s.pending) && s.executed == 0
  }

  function Total(qs: seq<multiset<nat>>): nat { if qs == [] then 0 else |qs[0]| + Total(qs[1..]) }

  /** The time of a host's own next event does not wrap around: see WrapBreaksOrder. */
  predicate InRange(s: State, a: Action) {
    a.PushLocal? && a.h < |s.now| && s.now[a.h].Some? ==> s.now[a.h].value + a.delay < TIME_BOUND
  }

  /** Step `i` of the schedule `acts` leads from state `i` of `run` to the next. */
  ghost predicate StepAt(run: seq<State>, acts: seq<Action>, i: nat)
    requires |run| == |acts| + 1 && i < |acts|
  {
    && Shape(run[i]) && Enabled(run[i], acts[i]) && InRange(run[i], acts[i])
    && run[i + 1] == Apply(run[i], acts[i])
  }

  /** The schedule `acts` leads through the states `run`. */
  ghost predicate Path(run: seq<State>, acts: seq<Action>) {
    |run| == |acts| + 1 && forall i: nat :: i < |acts| ==> StepAt(run, acts, i)
  }

  ghost predicate Reachable(s: State) {
    exists run: seq<State>, acts: seq<Action> :: Path(run, acts) && Initial(run[0]) && run[|acts|] == s
  }

  // ----- invariants ------------------------------------------------------------------------------

  ghost predicate HostOk(s: State, h: nat)
    requires Shape(s) && h < |s.pending|
  {
    && s.last[h] < s.windowEnd
    && (forall t :: t in s.pending[h] ==> s.last[h] <= t && s.windowStart <= t)
    && (s.now[h].Some? ==> s.now[h].value == s.last[h] && s.windowStart <= s.now[h].value)
    && (s.left[h] ==> s.now[h] == None && forall t :: t in s.pending[h] ==> s.windowEnd <= t && s.minNext <= t)
  }

  ghost predicate Window(s: State) {
    && s.windowStart < s.windowEnd <= Min(s.endTime, SIMTIME_MAX)
    && s.windowEnd <= s.windowStart + s.jump
    && s.windowEnd <= s.minNext <= SIMTIME_MAX
    && 1 <= s.rounds <= s.windowStart + 1
    && s.endTime <= SIMTIME_MAX
  }

  /** The least report is the time of a queued event, or SIMTIME_MAX. */
  ghost predicate Attained(s: State) {
    s.minNext == SIMTIME_MAX || exists h :: 0 <= h < |s.pending| && s.minNext in s.pending[h]
  }

  ghost predicate Inv(s: State) {
    && Shape(s)
    && (forall h :: 0 <= h < |s.pending| ==> HostOk(s, h))
    && Window(s)
    && Attained(s)
    && s.pushed == s.executed + Total(s.pending)
  }

  lemma {:induction false} TotalUpdate(qs: seq<multiset<nat>>, i: nat, m: multiset<nat>)
    requires i < |qs|
    ensures Total(qs[i := m]) == Total(qs) - |qs[i]| + |m|
  {
    if i == 0 {
      assert qs[i := m][1..] == qs[1..];
    } else {
      assert qs[i := m][1..] == qs[1..][i - 1 := m];
      TotalUpdate(qs[1..], i - 1, m);
    }
  }

  lemma PopInv(s: State, h: nat, t: nat)
    requires Inv(s) && Enabled(s, Pop(h, t))
    ensures Inv(Apply(s, Pop(h, t)))
  {
    var n := Apply(s, Pop(h, t));
    TotalUpdate(s.pending, h, s.pending[h] - multiset{t});
    forall g | 0 <= g < |s.pending| ensures HostOk(n, g) { assert HostOk(s, g); }
    assert HostOk(s, h);
    if s.minNext != SIMTIME_MAX {
      var g :| 0 <= g < |s.pending| && s.minNext in s.pending[g];
      assert s.minNext in n.pending[g];
    }
  }

  lemma PushInv(s: State, dst: nat, t: nat, remote: bool)
    requires Inv(s) && dst < |s.pending|
    requires remote || (s.now[dst].Some? && s.now[dst].value <= t)
    ensures Inv(Push(s, dst, t, remote))
  {
    var n := Push(s, dst, t, remote);
    if t < s.endTime {
      var at := if remote then Clamped(s, t) else t;
      TotalUpdate(s.pending, dst, s.pending[dst] + multiset{at});
      forall g | 0 <= g < |s.pending| ensures HostOk(n, g) { assert HostOk(s, g); }
      assert at in n.pending[dst];
      if n.minNext != SIMTIME_MAX && n.minNext != at {
        var g :| 0 <= g < |s.pending| && s.minNext in s.pending[g];
        assert s.minNext in n.pending[g];
      }
    }
  }

  lemma LeaveInv(s: State, h: nat)
    requires Inv(s) && Enabled(s, Leave(h))
    ensures Inv(Apply(s, Leave(h)))
  {
    var n := Apply(s, Leave(h));
    forall g | 0 <= g < |s.pending| ensures HostOk(n, g) { assert HostOk(s, g); }
    if n.minNext != SIMTIME_MAX && n.minNext != s.minNext {
      assert n.minNext in n.pending[h];
    }
  }

  lemma NextInv(s: State, jump: nat)
    requires Inv(s) && Enabled(s, NextRound(jump))
    ensures Inv(Apply(s, NextRound(jump)))
  {
    var n := Apply(s, NextRound(jump));
    forall g | 0 <= g < |s.pending| ensures HostOk(n, g) { assert HostOk(s, g); }
  }

  lemma DoneInv(s: State, h: nat)
    requires Inv(s) && Enabled(s, Done(h))
    ensures Inv(Apply(s, Done(h)))
  {
    forall g | 0 <= g < |s.pending| ensures HostOk(Apply(s, Done(h)), g) { assert HostOk(s, g); }
  }

  lemma StepInv(s: State, a: Action)
    requires Inv(s) && Enabled(s, a) && InRange(s, a)
    ensures Inv(Apply(s, a))
  {
    if a.PushLocal? { assert HostOk(s, a.h); }
    hide Inv, HostOk, Push, Least;
    match a
    case Pop(h, t) => PopInv(s, h, t);
    case PushLocal(h, delay) => PushInv(s, h, Wrap(s.now[h].value + delay), false);
    case PushRemote(h, dst, delay) => PushInv(s, dst, Wrap(s.now[h].value + delay), true);
    case Done(h) => DoneInv(s, h);
    case Leave(h) => LeaveInv(s, h);
    case NextRound(jump) => NextInv(s, jump);
  }

  lemma InitialInv(s: State)
    requires Initial(s)
    ensures Inv(s)
  {
    forall g | 0 <= g < |s.pending| ensures HostOk(s, g) {}
  }

  lemma PathFront(run: seq<State>, acts: seq<Action>)
    requires Path(run, acts) && acts != []
    ensures Path(run[..|acts|], acts[..|acts| - 1]) && StepAt(run, acts, |acts| - 1)
  {
    hide Shape, Enabled, InRange, Apply;
    var front, before := run[..|acts|], acts[..|acts| - 1];
    forall i: nat | i < |before| ensures StepAt(front, before, i) { assert StepAt(run, acts, i); }
  }

  lemma {:induction false} RunInv(run: seq<State>, acts: seq<Action>)
    requires Path(run, acts) && Initial(run[0])
    ensures Inv(run[|acts|])
    decreases |acts|
  {
    hide Initial, Inv, Shape, Enabled, Apply;
    if acts == [] {
      InitialInv(run[0]);
    } else {
      var last := |acts| - 1;
      PathFront(run, acts);
      RunInv(run[..|acts|], acts[..last]);
      StepInv(run[last], acts[last]);
    }
  }

  lemma ReachableInv(s: State)
    requires Reachable(s)
    ensures Inv(s)
  {
    hide Inv, Initial, StepAt;
    var run: seq<State>, acts: seq<Action> :| Path(run, acts) && Initial(run[0]) && run[|acts|] == s;
    RunInv(run, acts);
  }

  // ----- whole runs --------------------------------------------------------------------------------

  /** Causality: a host never executes an event earlier than one it has executed before, and never
      outside the current window, whatever the order in which the hosts run. */
  lemma Causality(s: State, h: nat, t: nat)
    requires Reachable(s) && Shape(s) && Enabled(s, Pop(h, t))
    ensures s.last[h] <= t && s.windowStart <= t < s.windowEnd
  {
    ReachableInv(s);
    assert HostOk(s, h);
  }

  /** No queued event of the host lies before the last event it executed. */
  ghost predicate QueueInOrder(s: State, h: nat)
    requires Shape(s) && h < |s.pending|
  { forall t :: t in s.pending[h] ==> s.last[h] <= t }

  lemma PushInOrder(s: State, h: nat, t: nat)
    requires Shape(s) && h < |s.pending| && QueueInOrder(s, h)
    ensures QueueInOrder(Push(s, h, t, false), h) <==> t >= s.endTime || s.last[h] <= t
  {
    if t < s.endTime {
      assert t in Push(s, h, t, false).pending[h];
      assert forall u :: u in Push(s, h, t, false).pending[h] ==> u in s.pending[h] || u == t;
    }
  }

  /** A host's own event keeps its queue in order exactly if the 64-bit sum of the time and the delay
      does not wrap around; with a wrap the event lies in the host's past, and the policy's assertion on
      the order of events fails when it is popped. */
  lemma WrapBreaksOrder(s: State, h: nat, delay: nat)
    requires Reachable(s) && Shape(s) && Enabled(s, PushLocal(h, delay))
    ensures QueueInOrder(Apply(s, PushLocal(h, delay)), h) <==> InRange(s, PushLocal(h, delay))
  {
    ReachableInv(s);
    assert HostOk(s, h) && Window(s);
    assert QueueInOrder(s, h);
    hide Inv, Reachable, HostOk, QueueInOrder, Push;
    PushInOrder(s, h, Wrap(s.now[h].value + delay));
  }

  /** No event for another host is queued before the end of the round that sends it, hence none
      before an event its receiver has executed or executes in this round. */
  lemma CrossHostDelivery(s: State, h: nat, dst: nat, delay: nat)
    requires Reachable(s) && Shape(s) && Enabled(s, PushRemote(h, dst, delay))
    ensures var n := Apply(s, PushRemote(h, dst, delay));
            n == s || exists at :: at >= s.windowEnd && at > s.last[dst] && n.pending[dst] == s.pending[dst] + multiset{at}
  {
    ReachableInv(s);
    assert HostOk(s, dst);
    var t := Wrap(s.now[h].value + delay);
    if t < s.endTime {
      assert Clamped(s, t) >= s.windowEnd;
    }
  }

  /** Lookahead: if the path delay is at least the jump in force, the policy never has to move an
      event: a packet that is not past the end of the simulation is delivered exactly `delay` after
      it was sent. */
  lemma Lookahead(s: State, h: nat, dst: nat, delay: nat)
    requires Reachable(s) && Shape(s) && Enabled(s, PushRemote(h, dst, delay))
    requires delay >= s.jump && s.now[h].value + delay < TIME_BOUND
    ensures var t := s.now[h].value + delay;
            var n := Apply(s, PushRemote(h, dst, delay));
            && s.windowEnd <= t
            && (t < s.endTime ==> n.pending[dst] == s.pending[dst] + multiset{t})
            && (t >= s.endTime ==> n == s)
  {
    ReachableInv(s);
    assert HostOk(s, h) && Window(s);
    assert s.windowStart <= s.now[h].value;
    hide Inv, Reachable, HostOk;
  }

  /** When every host has left the round, the report that the next window starts at is exactly the
      least queued time, or SIMTIME_MAX if nothing is queued. */
  lemma ReportExact(s: State)
    requires Reachable(s) && !s.stopped && forall h :: 0 <= h < |s.left| ==> s.left[h]
    ensures forall h, t :: 0 <= h < |s.pending| && t in s.pending[h] ==> s.windowEnd <= s.minNext <= t
    ensures s.minNext == SIMTIME_MAX || exists h :: 0 <= h < |s.pending| && s.minNext in s.pending[h]
  {
    ReachableInv(s);
    forall h, t | 0 <= h < |s.pending| && t in s.pending[h] ensures s.windowEnd <= s.minNext <= t {
      assert HostOk(s, h);
    }
  }

  /** Successive windows are disjoint and increasing and lie within the simulation, no queued event
      is skipped between them, and there are never more rounds than nanoseconds. */
  lemma WindowsSound(s: State, jump: nat)
    requires Reachable(s) && Shape(s) && Enabled(s, NextRound(jump)) && KeepsRunning(s, jump)
    ensures var n := Apply(s, NextRound(jump));
            && s.windowEnd <= n.windowStart < n.windowEnd <= s.endTime
            && n.windowEnd <= n.windowStart + jump
            && (forall h, t :: 0 <= h < |n.pending| && t in n.pending[h] ==> n.windowStart <= t)
            && s.rounds < n.rounds <= n.windowStart + 1 <= s.endTime
  {
    ReachableInv(s);
    ReportExact(s);
    StepInv(s, NextRound(jump));
  }

  ghost predicate EventLeft(s: State) {
    exists h, t :: 0 <= h < |s.pending| && t in s.pending[h] && t < s.endTime
  }

  lemma LeftIffReported(s: State)
    requires Reachable(s) && !s.stopped && forall h :: 0 <= h < |s.left| ==> s.left[h]
    ensures EventLeft(s) <==> s.minNext < s.endTime
    ensures s.minNext <= SIMTIME_MAX && s.endTime <= SIMTIME_MAX && s.pushed == s.executed + Total(s.pending)
  {
    ReachableInv(s);
    ReportExact(s);
    if s.minNext < s.endTime {
      var h :| 0 <= h < |s.pending| && s.minNext in s.pending[h];
      assert EventLeft(s);
    }
  }

  /** The loop goes on exactly while an event before the end is queued and the 64-bit sum of its time
      and the jump does not wrap around; so without wrap-around it stops exactly when every event
      before the end has been executed. */
  lemma StopsExactly(s: State, jump: nat)
    requires Reachable(s) && Shape(s) && Enabled(s, NextRound(jump))
    ensures KeepsRunning(s, jump) <==> EventLeft(s) && s.minNext + jump < TIME_BOUND
    ensures s.pushed == s.executed + Total(s.pending)
  {
    LeftIffReported(s);
    hide Reachable, EventLeft;
  }
}
