/**
 What the schedule alone determines of thread starts: which block every start uses, and which block every
 child reads.
 */
module ThreadSchedule {
  import opened ThreadStart

  /** The block with which thread `i` was last told to start a thread. */
  function LastWant(acts: seq<Action>, i: nat): Option<nat> {
    if acts == [] then None
    else
      var a := acts[|acts| - 1];
      if a.Want? && a.i == i then Some(a.block) else LastWant(acts[..|acts| - 1], i)
  }

  /** For every thread cloned, in order, the block with which its parent was last told to start one. */
  function Wanted(acts: seq<Action>): seq<Option<nat>> {
    if acts == [] then []
    else
      var before, a := acts[..|acts| - 1], acts[|acts| - 1];
      Wanted(before) + if a.CloneOk? then [LastWant(before, a.i)] else []
  }

  /** On the way from the request to the release of the lock. */
  predicate Starting(pc: Pc) { pc.Spin? || pc.SawFree? || InStart(pc) }

  /** Thread `i` starts what it was told to start, and was itself started with what its parent was told;
      the threads of the initial state `s0` had no parent here. */
  predicate ThreadFollows(s0: State, s: State, acts: seq<Action>, i: nat)
    requires i < |s.threads|
  {
    var t := s.threads[i];
    && (Starting(t.pc) ==> LastWant(acts, i) == Some(t.pc.block))
    && (if i < |s0.threads| then t.wants == s0.threads[i].wants
        else i - |s0.threads| < |Wanted(acts)| && Wanted(acts)[i - |s0.threads|] == Some(t.wants))
  }

  predicate Follows(s0: State, s: State, acts: seq<Action>) {
    && |s.threads| == |s0.threads| + |Wanted(acts)|
    && forall i :: 0 <= i < |s.threads| ==> ThreadFollows(s0, s, acts, i)
  }

  lemma Extended(acts: seq<Action>, a: Action)
    ensures Wanted(acts + [a]) == Wanted(acts) + if a.CloneOk? then [LastWant(acts, a.i)] else []
  {
    assert (acts + [a])[..|acts|] == acts;
  }

  lemma WantExtended(acts: seq<Action>, a: Action, i: nat)
    ensures LastWant(acts + [a], i) == if a.Want? && a.i == i then Some(a.block) else LastWant(acts, i)
  {
    assert (acts + [a])[..|acts|] == acts;
  }

  lemma ThreadStepFollows(s0: State, s: State, acts: seq<Action>, a: Action, i: nat)
    requires Follows(s0, s, acts) && Enabled(s, a) && i < |s.threads|
    ensures i < |Apply(s, a).threads| && ThreadFollows(s0, Apply(s, a), acts + [a], i)
  {
    hide LastWant, Wanted;
    assert ThreadFollows(s0, s, acts, i) && ThreadFollows(s0, s, acts, a.i);
    Extended(acts, a);
    WantExtended(acts, a, i);
  }

  lemma ChildFollows(s0: State, s: State, acts: seq<Action>, i: nat)
    requires Follows(s0, s, acts) && Enabled(s, CloneOk(i))
    ensures ThreadFollows(s0, Apply(s, CloneOk(i)), acts + [CloneOk(i)], |s.threads|)
  {
    hide LastWant, Wanted;
    assert ThreadFollows(s0, s, acts, i);
    Extended(acts, CloneOk(i));
  }

  lemma CountFollows(s0: State, s: State, acts: seq<Action>, a: Action)
    requires Follows(s0, s, acts) && Enabled(s, a)
    ensures |Apply(s, a).threads| == |s0.threads| + |Wanted(acts + [a])|
    ensures |Apply(s, a).threads| == |s.threads| + if a.CloneOk? then 1 else 0
  {
    hide LastWant, Wanted, ThreadFollows;
    Extended(acts, a);
  }

  lemma StepFollows(s0: State, s: State, acts: seq<Action>, a: Action)
    requires Follows(s0, s, acts) && Enabled(s, a)
    ensures Follows(s0, Apply(s, a), acts + [a])
  {
    hide LastWant, Wanted, ThreadFollows, Apply, Enabled;
    CountFollows(s0, s, acts, a);
    forall i | 0 <= i < |Apply(s, a).threads| ensures ThreadFollows(s0, Apply(s, a), acts + [a], i) {
      if i < |s.threads| { ThreadStepFollows(s0, s, acts, a, i); } else { ChildFollows(s0, s, acts, a.i); }
    }
  }

  lemma {:induction false} RunsFront(s0: State, acts: seq<Action>, s: State) returns (m: State)
    requires acts != [] && Runs(s0, acts, s)
    ensures Runs(s0, acts[..|acts| - 1], m) && Enabled(m, acts[|acts| - 1]) && s == Apply(m, acts[|acts| - 1])
    decreases |acts|
  {
    hide Enabled, Apply;
    if |acts| == 1 {
      m := s0;
      assert Runs(s0, [], s0) && Runs(Apply(s0, acts[0]), [], s);
    } else {
      m := RunsFront(Apply(s0, acts[0]), acts[1..], s);
      assert acts[1..][..|acts| - 2] == acts[..|acts| - 1][1..];
      assert Runs(s0, acts[..|acts| - 1], m);
    }
  }

  lemma {:induction false} RunFollows(s0: State, acts: seq<Action>, s: State)
    requires Init(s0) && Runs(s0, acts, s)
    ensures Follows(s0, s, acts)
    decreases |acts|
  {
    if acts != [] {
      hide Enabled, Apply, Follows, Init;
      var front, last := acts[..|acts| - 1], acts[|acts| - 1];
      var m := RunsFront(s0, acts, s);
      RunFollows(s0, front, m);
      StepFollows(s0, m, front, last);
      assert front + [last] == acts;
    }
  }

  /** A thread that is starting one uses the block with which it was last told to; and the block that the
      k-th thread cloned has read is the one with which its parent was last told to start a thread before
      that clone. */
  lemma BlocksAreThoseWanted(s0: State, acts: seq<Action>, s: State, i: nat, k: nat)
    requires Init(s0) && Runs(s0, acts, s)
    ensures |s.threads| == |s0.threads| + |Wanted(acts)|
    ensures i < |s.threads| && Starting(PcOf(s, i)) ==> LastWant(acts, i) == Some(PcOf(s, i).block)
    ensures k < |Wanted(acts)| && s.threads[|s0.threads| + k].ipc.Some? ==>
              s.threads[|s0.threads| + k].ipc == Wanted(acts)[k]
    ensures i < |s.threads| && PcOf(s, i).Finishing? ==> Some(s.childIpcBlk) == LastWant(acts, i)
  {
    RunFollows(s0, acts, s);
    InitInv(s0);
    RunInv(s0, acts, s);
    hide LastWant, Wanted, Runs;
    if i < |s.threads| { assert ThreadFollows(s0, s, acts, i) && ThreadOk(s, i); }
    if k < |Wanted(acts)| {
      var j := |s0.threads| + k;
      assert ThreadFollows(s0, s, acts, j) && ThreadOk(s, j);
    }
  }
}
