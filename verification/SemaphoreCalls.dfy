/**
 What each call on the semaphore does by the time it returns, whatever the other threads do meanwhile: a
 post raises the value by one, a wait lowers it by one, a trywait never blocks.
 */
module SemaphoreCalls {
  import opened ShadowSemaphore

  datatype Option<T> = None | Some(value: T)

  ghost predicate StepAt(cap: nat, run: seq<State>, acts: seq<Action>, i: nat)
    requires |run| == |acts| + 1 && i < |acts|
  { Enabled(cap, run[i], acts[i]) && run[i + 1] == Apply(run[i], acts[i]) }

  /** The schedule `acts` leads through the states `run`. */
  ghost predicate Path(cap: nat, run: seq<State>, acts: seq<Action>) {
    |run| == |acts| + 1 && forall i: nat :: i < |acts| ==> StepAt(cap, run, acts, i)
  }

  /** The call that thread `t` made last. */
  function LastOp(acts: seq<Action>, t: Tid): Option<Op> {
    if acts == [] then None
    else
      var a := acts[|acts| - 1];
      if a.Call? && a.t == t then Some(a.op) else LastOp(acts[..|acts| - 1], t)
  }

  /** By how much the accesses of thread `t` have changed the value since its last call. */
  function Net(run: seq<State>, acts: seq<Action>, t: Tid): int
    requires |run| == |acts| + 1
    decreases |acts|
  {
    if acts == [] then 0
    else
      var k := |acts| - 1;
      var a := acts[k];
      if a.Call? && a.t == t then 0
      else Net(run[..|acts|], acts[..k], t) + if a.t == t then run[k + 1].value - run[k].value else 0
  }

  /** The value that was there at the last access of thread `t`. */
  function Loaded(run: seq<State>, acts: seq<Action>, t: Tid): nat
    requires |run| == |acts| + 1
    decreases |acts|
  {
    if acts == [] then 0
    else
      var k := |acts| - 1;
      if acts[k].t == t && !acts[k].Leave? then run[k].value else Loaded(run[..|acts|], acts[..k], t)
  }

  /** How often since its last call thread `t` had to act on a value of 0. */
  function Misses(run: seq<State>, acts: seq<Action>, t: Tid): nat
    requires |run| == |acts| + 1
    decreases |acts|
  {
    if acts == [] then 0
    else
      var k := |acts| - 1;
      var a, before := acts[k], run[..|acts|];
      if a.Call? && a.t == t then 0
      else Misses(before, acts[..k], t) + if a.Step? && a.t == t && Loaded(before, acts[..k], t) == 0 then 1 else 0
  }

  predicate Posts(op: Op) { op.Post? || op.BinaryPost? }

  /** Calls of BinarySpinningSem, which panic where the others return an error. */
  predicate Strict(op: Op) { op.BinaryPost? || op.SpinWait? }

  /** A wait may block at once; a spinning one only after as many attempts as its bound, if it has one. */
  predicate MayBlock(op: Op, misses: nat) { op.Wait? || (op.SpinWait? && 0 <= op.thresh <= misses) }

  /** How far a thread has come in its call `op`, in which it changed the value by `net` so far. */
  predicate InCall(pc: PC, op: Op, net: int, loaded: nat, misses: nat) {
    match pc
    case Idle =>
      match op {
        case Post => net == 1 || net == 0
        case BinaryPost => net == 1
        case TryWait => net == -1 || net == 0
        case Wait => net == -1 || net == 0
        case SpinWait(_) => net == -1
      }
    case PostLoop(prev) => Posts(op) && net == 0 && prev == loaded
    case PostRaised => Posts(op) && net == 1
    case PostWaking => Posts(op) && net == 1
    case TryLoop(prev, Once) => op.TryWait? && net == 0 && prev == loaded
    case TryLoop(prev, Spinning(i, thresh)) => op == SpinWait(thresh) && net == 0 && prev == loaded && i == misses
    case WaitLoop(prev) => MayBlock(op, misses) && net == 0 && prev == loaded
    case Panicked => Strict(op) && net == 0
    case _ => MayBlock(op, misses) && net == 0
  }

  predicate ThreadFollows(s: State, run: seq<State>, acts: seq<Action>, t: Tid)
    requires |run| == |acts| + 1
  {
    && t in s.pcs
    && (LastOp(acts, t).None? ==> s.pcs[t] == Idle && t !in s.strict)
    && (LastOp(acts, t).Some? ==>
          && (t in s.strict <==> Strict(LastOp(acts, t).value))
          && InCall(s.pcs[t], LastOp(acts, t).value, Net(run, acts, t), Loaded(run, acts, t),
                    Misses(run, acts, t)))
  }

  /** One access, seen by the thread that makes it. */
  lemma OwnStep(cap: nat, s: State, a: Action, op: Op, net: int, loaded: nat, misses: nat)
    requires Enabled(cap, s, a) && a.Step? && InCall(s.pcs[a.t], op, net, loaded, misses)
    requires s.pcs[a.t].WaitLoop? ==> s.nwaiters < UINT32_MAX
    requires a.t in s.strict <==> Strict(op)
    ensures var n := Apply(s, a);
            a.t in n.pcs && InCall(n.pcs[a.t], op, net + n.value - s.value, s.value, misses + if loaded == 0 then 1 else 0) && n.strict == s.strict
  {
  }

  /** A call begins. */
  lemma CallStep(cap: nat, s: State, a: Action)
    requires Enabled(cap, s, a) && a.Call?
    ensures var n := Apply(s, a);
            && a.t in n.pcs && InCall(n.pcs[a.t], a.op, 0, s.value, 0) && n.value == s.value
            && (a.t in n.strict <==> Strict(a.op))
  {
  }

  /** The end of a sleep, and the steps of others: the value of the thread's own accesses stays. */
  lemma OtherStep(cap: nat, s: State, a: Action, t: Tid, op: Op, net: int, loaded: nat, misses: nat)
    requires Enabled(cap, s, a) && t in s.pcs && (t != a.t || a.Leave?) && InCall(s.pcs[t], op, net, loaded, misses)
    ensures var n := Apply(s, a);
            && t in n.pcs && InCall(n.pcs[t], op, net, loaded, misses) && (t in n.strict <==> t in s.strict)
            && (a.Leave? ==> n.value == s.value)
  {
  }

  lemma IdleStays(cap: nat, s: State, a: Action, t: Tid)
    requires Enabled(cap, s, a) && t in s.pcs && s.pcs[t] == Idle && !(a.Call? && a.t == t)
    ensures t in Apply(s, a).pcs && Apply(s, a).pcs[t] == Idle && (t in Apply(s, a).strict <==> t in s.strict)
  {
  }

  lemma StepFollows(cap: nat, run: seq<State>, acts: seq<Action>, t: Tid)
    requires Path(cap, run, acts) && acts != []
    requires ThreadFollows(run[|acts| - 1], run[..|acts|], acts[..|acts| - 1], t)
    requires run[|acts| - 1].pcs[t].WaitLoop? ==> run[|acts| - 1].nwaiters < UINT32_MAX
    ensures ThreadFollows(run[|acts|], run, acts, t)
  {
    var k := |acts| - 1;
    var s, a, before := run[k], acts[k], acts[..k];
    assert StepAt(cap, run, acts, k);
    hide Path, Enabled, Apply, InCall, Strict;
    if a.Call? && a.t == t {
      CallStep(cap, s, a);
    } else if LastOp(before, t).None? {
      IdleStays(cap, s, a, t);
    } else {
      var op, net, loaded := LastOp(before, t).value, Net(run[..|acts|], before, t), Loaded(run[..|acts|], before, t);
      var misses := Misses(run[..|acts|], before, t);
      if a.Step? && a.t == t {
        OwnStep(cap, s, a, op, net, loaded, misses);
      } else {
        OtherStep(cap, s, a, t, op, net, loaded, misses);
      }
    }
  }

  lemma PathFront(cap: nat, run: seq<State>, acts: seq<Action>)
    requires Path(cap, run, acts) && acts != []
    ensures Path(cap, run[..|acts|], acts[..|acts| - 1]) && StepAt(cap, run, acts, |acts| - 1)
  {
    hide Enabled, Apply;
    var front, before := run[..|acts|], acts[..|acts| - 1];
    forall i: nat | i < |before| ensures StepAt(cap, front, before, i) { assert StepAt(cap, run, acts, i); }
  }

  lemma {:induction false} RunFollows(cap: nat, threads: set<Tid>, run: seq<State>, acts: seq<Action>)
    requires |threads| <= UINT32_MAX && Path(cap, run, acts) && run[0] == Init(threads)
    ensures Inv(threads, run[|acts|])
    ensures forall t :: t in threads ==> ThreadFollows(run[|acts|], run, acts, t)
    decreases |acts|
  {
    if acts == [] {
      StartsIdle(threads);
    } else {
      var k := |acts| - 1;
      PathFront(cap, run, acts);
      RunFollows(cap, threads, run[..|acts|], acts[..k]);
      CountedFits(threads, run[k]);
      InvStep(cap, threads, run[k], acts[k]);
      hide Enabled, Apply, ThreadFollows, CountedSet, StepAt;
      forall t | t in threads ensures ThreadFollows(run[|acts|], run, acts, t) {
        StepFollows(cap, run, acts, t);
      }
    }
  }

  lemma StartsIdle(threads: set<Tid>)
    ensures Inv(threads, Init(threads))
    ensures forall t :: t in threads ==> ThreadFollows(Init(threads), [Init(threads)], [], t)
  {
    assert CountedSet(Init(threads)) == {};
  }

  /** By the time a call has returned, with any interference: a post of BinarySpinningSem has raised the value
      by exactly one and a wait of it has lowered it by exactly one, or they panicked; the plain calls did the
      same or returned an error and changed nothing; a trywait that is under way has nothing to do but its
      exchange, so it never blocks, and a spinning wait blocks only after as many attempts as its bound. */
  lemma WhatCallsDo(cap: nat, threads: set<Tid>, run: seq<State>, acts: seq<Action>, t: Tid)
    requires |threads| <= UINT32_MAX && Path(cap, run, acts) && run[0] == Init(threads)
    requires t in threads && LastOp(acts, t).Some?
    ensures t in run[|acts|].pcs
    ensures var pc, op, net := run[|acts|].pcs[t], LastOp(acts, t).value, Net(run, acts, t);
            && (pc == Idle ==> match op {
                  case BinaryPost => net == 1
                  case SpinWait(_) => net == -1
                  case Post => 0 <= net <= 1
                  case TryWait => -1 <= net <= 0
                  case Wait => -1 <= net <= 0
                })
            && (op.TryWait? ==> pc == Idle || (pc.TryLoop? && pc.spin == Once))
            && (pc != Idle && !pc.Panicked? && !pc.TryLoop? && !Posts(op) ==> MayBlock(op, Misses(run, acts, t)))
            && (pc.Panicked? ==> Strict(op) && net == 0)
            && (!Posts(op) ==> net <= 0) && (Posts(op) ==> net >= 0)
  {
    RunFollows(cap, threads, run, acts);
    assert ThreadFollows(run[|acts|], run, acts, t);
    hide Path, Net, Loaded, Misses, LastOp, Inv;
  }

  /** A trywait fails exactly if the value was 0 when its thread looked at it last, and a post exactly if it
      was the greatest. */
  lemma FailsExactly(cap: nat, threads: set<Tid>, run: seq<State>, acts: seq<Action>, t: Tid, spurious: bool, woken: Tid)
    requires |threads| <= UINT32_MAX && Path(cap, run, acts) && run[0] == Init(threads)
    requires t in threads && LastOp(acts, t).Some? && t in run[|acts|].pcs
    requires Enabled(cap, run[|acts|], Step(t, spurious, woken))
    ensures var s := run[|acts|];
            var n := Apply(s, Step(t, spurious, woken));
            && t in n.pcs
            && (s.pcs[t].TryLoop? && s.pcs[t].spin == Once ==>
                  (n.pcs[t] == Idle && n.value == s.value <==> Loaded(run, acts, t) == 0))
            && (s.pcs[t].PostLoop? ==>
                  (n.pcs[t] in {Idle, Panicked} && n.value == s.value <==> Loaded(run, acts, t) >= SEM_VALUE_MAX))
  {
    RunFollows(cap, threads, run, acts);
    assert ThreadFollows(run[|acts|], run, acts, t);
    hide Path, Net, Loaded, Misses, LastOp, Inv;
  }
}
