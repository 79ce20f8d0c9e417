/**
 The futex semaphore that Shadow and its shim share (shadow_sem.c), together with the bounded
 spinning that BinarySpinningSem puts in front of it.

 Every atomic access of the C code is one step.  Threads interleave freely, weak exchanges may
 fail spuriously, and the kernel may end a sleep early (timeout, signal, spurious wake-up).
 `cap` is the discipline of the callers: no post raises the value above it.  The documented
 discipline of the binary semaphore is `cap == 1`.
 */
module ShadowSemaphore {

  const SEM_VALUE_MAX: nat := 0x7fff_ffff
  const UINT32_MAX: nat := 0xffff_ffff

  type Tid = nat

  /** Once: a plain trywait.  Spinning: attempt number `i` of a spin bounded by `thresh`
      (a negative `thresh` spins for ever). */
  datatype Spin = Once | Spinning(i: nat, thresh: int)

  /** BinaryPost and SpinWait are those of BinarySpinningSem, which panics if the semaphore reports an error. */
  datatype Op = Post | BinaryPost | TryWait | Wait | SpinWait(thresh: int)

  /** Where a thread stands between two atomic accesses. */
  datatype PC =
    | Idle
    | PostLoop(prev: nat)             // `prev_value` loaded, exchange not yet done
    | PostRaised                      // raised 0 to 1, `_nwaiters` not yet read
    | PostWaking                      // saw waiters, FUTEX_WAKE not yet issued
    | TryLoop(prev: nat, spin: Spin)
    | WaitLoop(prev: nat)
    | Counted                         // added itself to `_nwaiters`, futex call not yet issued
    | Sleeping
    | Returned(again: bool)           // the futex call returned, `_nwaiters` not yet decremented
    | Reload
    | Panicked

  datatype State = State(
    value: nat,
    nwaiters: nat,
    pcs: map<Tid, PC>,
    raised: nat,                      // history: completed raises of the value
    taken: nat,                       // history: completed takes
    strict: set<Tid>,                 // threads in a call of BinarySpinningSem, which panics on an error
    failed: set<Tid>                  // history: strict threads whose sleep ended with an error, or whose
                                      // post found the greatest value
  )

  datatype Action =
    | Call(t: Tid, op: Op)
    | Step(t: Tid, spurious: bool, woken: Tid)
    | Leave(t: Tid, again: bool)      // the kernel ends the sleep of `t` without a FUTEX_WAKE

  function Init(threads: set<Tid>): State {
    State(0, 0, map t | t in threads :: Idle, 0, 0, {}, {})
  }

  predicate HasSleeper(s: State) {
    exists t :: t in s.pcs && s.pcs[t] == Sleeping
  }

  /** The exchange of a thread with loaded value `prev` goes through. */
  predicate Exchanges(s: State, prev: nat, spurious: bool) {
    !spurious && s.value == prev
  }

  predicate Enabled(cap: nat, s: State, a: Action) {
    && a.t in s.pcs
    && match a
       case Call(t, _) => s.pcs[t] == Idle
       case Leave(t, _) => s.pcs[t] == Sleeping
       case Step(t, spurious, woken) =>
         match s.pcs[t]
         case PostLoop(prev) =>
           prev < SEM_VALUE_MAX && Exchanges(s, prev, spurious) ==> prev + 1 <= cap
         case PostWaking =>
           HasSleeper(s) ==> woken in s.pcs && s.pcs[woken] == Sleeping
         case Idle => false
         case Sleeping => false
         case Panicked => false
         case _ => true
  }

  function Move(s: State, t: Tid, pc: PC): State {
    s.(pcs := s.pcs[t := pc])
  }

  /** A trywait that found the value 0: EAGAIN, the next spin, or the blocking wait. */
  function AfterEmpty(spin: Spin, value: nat): PC {
    match spin
    case Once => Idle
    case Spinning(i, thresh) =>
      if thresh < 0 || i + 1 < thresh then TryLoop(value, Spinning(i + 1, thresh)) else WaitLoop(value)
  }

  function StartOp(op: Op, value: nat): PC {
    match op
    case Post => PostLoop(value)
    case BinaryPost => PostLoop(value)
    case TryWait => TryLoop(value, Once)
    case Wait => WaitLoop(value)
    case SpinWait(thresh) => if thresh == 0 then WaitLoop(value) else TryLoop(value, Spinning(0, thresh))
  }

  function StepThread(s: State, t: Tid, spurious: bool, woken: Tid): State
    requires t in s.pcs
  {
    match s.pcs[t]
    case PostLoop(prev) =>
      if prev >= SEM_VALUE_MAX then                                  // EOVERFLOW
        if t in s.strict then Move(s, t, Panicked).(failed := s.failed + {t}) else Move(s, t, Idle)
      else if Exchanges(s, prev, spurious) then
        Move(s, t, if prev == 0 then PostRaised else Idle).(value := s.value + 1, raised := s.raised + 1)
      else Move(s, t, PostLoop(s.value))
    case PostRaised => Move(s, t, if s.nwaiters == 0 then Idle else PostWaking)
    case PostWaking =>
      if HasSleeper(s) then Move(Move(s, woken, Returned(true)), t, Idle) else Move(s, t, Idle)
    case TryLoop(prev, spin) =>
      if prev == 0 then Move(s, t, AfterEmpty(spin, s.value))
      else if Exchanges(s, prev, spurious) then
        Move(s, t, Idle).(value := s.value - 1, taken := s.taken + 1)
      else Move(s, t, TryLoop(s.value, spin))
    case WaitLoop(prev) =>
      if prev == 0 then
        Move(s, t, if s.nwaiters == UINT32_MAX then Panicked else Counted)
        .(nwaiters := (s.nwaiters + 1) % (UINT32_MAX + 1))
      else if Exchanges(s, prev, spurious) then
        Move(s, t, Idle).(value := s.value - 1, taken := s.taken + 1)
      else Move(s, t, WaitLoop(s.value))
    case Counted => Move(s, t, if s.value != 0 then Returned(true) else Sleeping)
    case Returned(again) =>
      Move(s, t, if again then Reload else if t in s.strict then Panicked else Idle)
      .(nwaiters := if s.nwaiters == 0 then UINT32_MAX else s.nwaiters - 1)
    case Reload => Move(s, t, WaitLoop(s.value))
    case _ => s
  }

  function Apply(s: State, a: Action): State
    requires a.t in s.pcs
  {
    match a
    case Call(t, op) =>
      Move(s, t, StartOp(op, s.value)).(strict := if op.SpinWait? || op.BinaryPost? then s.strict + {t} else s.strict - {t})
    case Leave(t, again) =>
      Move(s, t, Returned(again))
      .(failed := if !again && t in s.strict then s.failed + {t} else s.failed)
    case Step(t, spurious, woken) => StepThread(s, t, spurious, woken)
  }

  /** `s` is reached from `Init(threads)` by some schedule of `n` steps. */
  ghost predicate ReachesIn(cap: nat, threads: set<Tid>, n: nat, s: State) {
    if n == 0 then s == Init(threads)
    else exists p: State, a: Action :: ReachesIn(cap, threads, n - 1, p) && Enabled(cap, p, a) && s == Apply(p, a)
  }

  ghost predicate Reachable(cap: nat, threads: set<Tid>, s: State) {
    exists n: nat :: ReachesIn(cap, threads, n, s)
  }

  // ----- invariants ----------------------------------------------------------------------------

  /** Between its fetch_add and its fetch_sub on `_nwaiters`. */
  predicate IsCounted(pc: PC) { pc.Counted? || pc.Sleeping? || pc.Returned? }

  function CountedSet(s: State): set<Tid> { set t | t in s.pcs && IsCounted(s.pcs[t]) }

  /** A bounded spin makes no more attempts than its bound. */
  predicate SpinOk(pc: PC) {
    pc.TryLoop? && pc.spin.Spinning? && pc.spin.thresh >= 0 ==> pc.spin.i < pc.spin.thresh
  }

  /** The two causes of a panic: a sleep of BinarySpinningSem::wait that ended with an error, and a post
      of BinarySpinningSem::post that found the greatest value. */
  predicate PanicOk(s: State, t: Tid)
    requires t in s.pcs
  {
    t in s.failed <==> s.pcs[t] == Panicked || (s.pcs[t] == Returned(false) && t in s.strict)
  }

  ghost predicate Inv(threads: set<Tid>, s: State) {
    && s.pcs.Keys == threads
    && s.nwaiters == |CountedSet(s)|
    && s.raised == s.value + s.taken
    && forall t :: t in s.pcs ==> PanicOk(s, t) && SpinOk(s.pcs[t])
  }

  /** A poster that still owes the sleepers a FUTEX_WAKE. */
  predicate Owes(pc: PC) { pc.PostRaised? || pc.PostWaking? }

  /** An awake waiter that has not left its wait loop. */
  predicate Retries(pc: PC) {
    pc.WaitLoop? || pc.Counted? || pc.Reload? || pc == Returned(true) || (pc.TryLoop? && pc.spin.Spinning?)
  }

  predicate Helps(pc: PC) { Owes(pc) || Retries(pc) }

  /** The wake-up of some sleeper has been lost: a token is there, somebody sleeps, and nobody is
      left who would take the token or wake the sleeper. */
  predicate Lost(s: State) {
    && s.value > 0
    && HasSleeper(s)
    && forall t :: t in s.pcs ==> !Helps(s.pcs[t])
  }

  function Weight(pc: PC): nat { if IsCounted(pc) then 1 else 0 }

  lemma CountedAfterMove(s: State, s': State, t: Tid)
    requires t in s.pcs && t in s'.pcs && s'.pcs == s.pcs[t := s'.pcs[t]]
    ensures |CountedSet(s')| == |CountedSet(s)| + Weight(s'.pcs[t]) - Weight(s.pcs[t])
  {
    var c := CountedSet(s) - {t};
    assert CountedSet(s) == if IsCounted(s.pcs[t]) then c + {t} else c;
    assert CountedSet(s') == if IsCounted(s'.pcs[t]) then c + {t} else c;
  }

  lemma CountedFits(threads: set<Tid>, s: State)
    requires Inv(threads, s)
    ensures s.nwaiters <= |threads|
    ensures forall t :: t in s.pcs && !IsCounted(s.pcs[t]) ==> s.nwaiters < |threads|
    ensures forall t :: t in s.pcs && IsCounted(s.pcs[t]) ==> s.nwaiters > 0
  {
    var c := CountedSet(s);
    SubsetSize(c, threads);
    forall t | t in s.pcs && !IsCounted(s.pcs[t]) ensures s.nwaiters < |threads| {
      SubsetSize(c, threads - {t});
    }
    forall t | t in s.pcs && IsCounted(s.pcs[t]) ensures s.nwaiters > 0 {
      assert t in c;
    }
  }

  lemma {:induction false} SubsetSize<T>(a: set<T>, b: set<T>)
    requires a <= b
    ensures |a| <= |b|
  {
    assert b == a + (b - a);
  }

  lemma CountStep(cap: nat, s: State, a: Action)
    requires a.t in s.pcs && Enabled(cap, s, a)
    ensures |CountedSet(Apply(s, a))| == |CountedSet(s)| + Weight(Apply(s, a).pcs[a.t]) - Weight(s.pcs[a.t])
  {
    var s' := Apply(s, a);
    if a.Step? && s.pcs[a.t] == PostWaking && HasSleeper(s) {
      var m := Move(s, a.woken, Returned(true));
      CountedAfterMove(s, m, a.woken);
      CountedAfterMove(m, s', a.t);
    } else {
      CountedAfterMove(s, s', a.t);
    }
  }

  lemma WaitersStep(cap: nat, threads: set<Tid>, s: State, a: Action)
    requires |threads| <= UINT32_MAX
    requires Inv(threads, s) && Enabled(cap, s, a)
    ensures Apply(s, a).nwaiters == |CountedSet(Apply(s, a))|
    ensures PanicOk(Apply(s, a), a.t)
  {
    CountedFits(threads, s);
    CountStep(cap, s, a);
    if a.Step? && s.pcs[a.t].WaitLoop? {
      assert s.nwaiters < UINT32_MAX;
    }
  }

  lemma InvStep(cap: nat, threads: set<Tid>, s: State, a: Action)
    requires |threads| <= UINT32_MAX
    requires Inv(threads, s) && Enabled(cap, s, a)
    ensures Inv(threads, Apply(s, a))
  {
    WaitersStep(cap, threads, s, a);
    UnitsStep(cap, s, a);
    hide CountedSet, SpinOk, PanicOk, Apply, Enabled;
    forall t | t in Apply(s, a).pcs ensures PanicOk(Apply(s, a), t) && SpinOk(Apply(s, a).pcs[t]) {
      SpinStep(cap, s, a, t);
    }
  }

  lemma UnitsStep(cap: nat, s: State, a: Action)
    requires Enabled(cap, s, a) && s.raised == s.value + s.taken
    ensures Apply(s, a).pcs.Keys == s.pcs.Keys && Apply(s, a).raised == Apply(s, a).value + Apply(s, a).taken
  {
  }

  lemma SpinStep(cap: nat, s: State, a: Action, t: Tid)
    requires Enabled(cap, s, a) && t in s.pcs && SpinOk(s.pcs[a.t]) && SpinOk(s.pcs[t])
    ensures t in Apply(s, a).pcs && SpinOk(Apply(s, a).pcs[t])
    ensures t != a.t && PanicOk(s, t) ==> PanicOk(Apply(s, a), t)
  {
  }

  // ----- the binary discipline -------------------------------------------------------------------

  /** A helper that moves leaves a helper behind, as long as the token is not taken and somebody
      sleeps: itself, or the sleeper it wakes. */
  lemma HelperMoves(cap: nat, threads: set<Tid>, s: State, a: Action)
    requires |threads| <= UINT32_MAX && s.value == 1
    requires Inv(threads, s) && Enabled(cap, s, a) && Helps(s.pcs[a.t]) && HasSleeper(s)
    ensures Apply(s, a).value > 0 ==> exists u :: u in Apply(s, a).pcs && Helps(Apply(s, a).pcs[u])
  {
    CountedFits(threads, s);
    var s' := Apply(s, a);
    var u := if s.pcs[a.t] == PostWaking then a.woken else a.t;
    if s'.value > 0 {
      assert Helps(s'.pcs[u]);
    }
  }

  lemma NotLostStep(cap: nat, threads: set<Tid>, s: State, a: Action)
    requires |threads| <= UINT32_MAX && cap <= 1 && s.value <= cap
    requires Inv(threads, s) && Enabled(cap, s, a) && !Lost(s)
    ensures Apply(s, a).value <= cap && !Lost(Apply(s, a))
  {
    var s' := Apply(s, a);
    if s'.value > 0 && HasSleeper(s') {
      if s.value == 0 {
        assert Helps(s'.pcs[a.t]);
      } else {
        assert HasSleeper(s);
        var t :| t in s.pcs && Helps(s.pcs[t]);
        if t == a.t {
          HelperMoves(cap, threads, s, a);
        } else {
          assert Helps(s'.pcs[t]);
        }
      }
    }
  }

  /** With at most two threads a sleeper has only one other thread, and that one still owes it the
      wake-up whenever the value is positive. */
  ghost predicate PairInv(s: State) {
    s.value > 0 && HasSleeper(s) ==> exists u :: u in s.pcs && Owes(s.pcs[u])
  }

  lemma PairStep(cap: nat, threads: set<Tid>, s: State, a: Action)
    requires |threads| <= 2
    requires Inv(threads, s) && Enabled(cap, s, a) && PairInv(s)
    ensures PairInv(Apply(s, a))
  {
    var s' := Apply(s, a);
    CountedFits(threads, s);
    if s'.value > 0 && HasSleeper(s') {
      var t :| t in s'.pcs && s'.pcs[t] == Sleeping;
      if s.value > 0 {
        assert s.pcs[t] == Sleeping;
        var u :| u in s.pcs && Owes(s.pcs[u]);
        Pigeon(threads, t, u, a.t);
        if s.pcs[u] == PostWaking && a.t == u { Pigeon(threads, t, u, a.woken); }
        assert Owes(s'.pcs[u]);
      } else {
        assert Owes(s'.pcs[a.t]);
      }
    }
  }

  lemma Pigeon(threads: set<Tid>, t: Tid, u: Tid, x: Tid)
    requires |threads| <= 2 && t in threads && u in threads && x in threads && t != u
    ensures x == t || x == u
  {
    SubsetSize({t, u, x}, threads);
  }

  // ----- every run -------------------------------------------------------------------------------

  lemma {:induction false} RunInv(cap: nat, threads: set<Tid>, n: nat, s: State)
    requires |threads| <= UINT32_MAX && ReachesIn(cap, threads, n, s)
    ensures Inv(threads, s)
    ensures cap <= 1 ==> s.value <= cap && !Lost(s)
    ensures |threads| <= 2 ==> PairInv(s)
  {
    if n == 0 {
      assert CountedSet(s) == {};
    } else {
      var p: State, a: Action :| ReachesIn(cap, threads, n - 1, p) && Enabled(cap, p, a) && s == Apply(p, a);
      RunInv(cap, threads, n - 1, p);
      InvStep(cap, threads, p, a);
      if cap <= 1 { NotLostStep(cap, threads, p, a); }
      if |threads| <= 2 { PairStep(cap, threads, p, a); }
    }
  }

  /** No schedule of these threads under the discipline `cap` loses a wake-up. */
  ghost predicate NeverLoses(cap: nat, threads: set<Tid>) {
    forall s: State :: Reachable(cap, threads, s) ==> !Lost(s)
  }

  lemma Then(cap: nat, threads: set<Tid>, s: State, a: Action, s': State)
    requires Reachable(cap, threads, s) && Enabled(cap, s, a)
    requires Apply(s, a).(pcs := map[]) == s'.(pcs := map[]) && Apply(s, a).pcs == s'.pcs
    ensures Reachable(cap, threads, s')
  {
    assert Apply(s, a) == s';
    var n: nat :| ReachesIn(cap, threads, n, s);
    assert ReachesIn(cap, threads, n + 1, s');
  }

  /** Thread `t` calls sem_wait on the empty semaphore and falls asleep. */
  lemma FallAsleep(cap: nat, threads: set<Tid>, s: State, t: Tid)
    requires Reachable(cap, threads, s) && t in s.pcs && s.pcs[t] == Idle
    requires s.value == 0 && s.nwaiters < UINT32_MAX
    requires s.strict == {}
    ensures Reachable(cap, threads, Move(s, t, Sleeping).(nwaiters := s.nwaiters + 1))
  {
    var s1 := Move(s, t, WaitLoop(0));
    var s2 := Move(s, t, Counted).(nwaiters := s.nwaiters + 1);
    Then(cap, threads, s, Call(t, Wait), s1);
    Then(cap, threads, s1, Step(t, false, t), s2);
    Then(cap, threads, s2, Step(t, false, t), Move(s, t, Sleeping).(nwaiters := s.nwaiters + 1));
  }

  /** A post on the empty semaphore that wakes the sleeper `x`. */
  lemma FirstPost(cap: nat, threads: set<Tid>, s: State, x: Tid, z: Tid)
    requires cap >= 1 && Reachable(cap, threads, s)
    requires {x, z} <= s.pcs.Keys && x != z && s.pcs[x] == Sleeping && s.pcs[z] == Idle
    requires s.value == 0 && s.nwaiters > 0
    requires s.strict == {}
    ensures Reachable(cap, threads, Move(s, x, Returned(true)).(value := 1, raised := s.raised + 1))
  {
    var s1 := Move(s, z, PostLoop(0));
    var s2 := Move(s, z, PostRaised).(value := 1, raised := s.raised + 1);
    var s3 := Move(s, z, PostWaking).(value := 1, raised := s.raised + 1);
    Then(cap, threads, s, Call(z, Post), s1);
    Then(cap, threads, s1, Step(z, false, z), s2);
    Then(cap, threads, s2, Step(z, false, z), s3);
    assert s3.pcs[x] == Sleeping;
    Then(cap, threads, s3, Step(z, false, x), Move(s, x, Returned(true)).(value := 1, raised := s.raised + 1));
  }

  /** A second post right after it sees the value 1 and skips its FUTEX_WAKE; then `x` takes one
      of the two tokens. */
  lemma SecondPost(cap: nat, threads: set<Tid>, s: State, x: Tid, z: Tid)
    requires cap >= 2 && Reachable(cap, threads, s)
    requires {x, z} <= s.pcs.Keys && x != z && s.pcs[x] == Returned(true) && s.pcs[z] == Idle
    requires s.value == 1 && s.nwaiters > 0
    requires s.strict == {}
    ensures Reachable(cap, threads,
                      Move(s, x, Idle).(nwaiters := s.nwaiters - 1, raised := s.raised + 1, taken := s.taken + 1))
  {
    var s1 := Move(s, z, PostLoop(1));
    var s2 := s.(value := 2, raised := s.raised + 1);
    var s3 := Move(s2, x, Reload).(nwaiters := s.nwaiters - 1);
    var s4 := Move(s2, x, WaitLoop(2)).(nwaiters := s.nwaiters - 1);
    Then(cap, threads, s, Call(z, Post), s1);
    Then(cap, threads, s1, Step(z, false, z), s2);
    Then(cap, threads, s2, Step(x, false, x), s3);
    Then(cap, threads, s3, Step(x, false, x), s4);
    Then(cap, threads, s4, Step(x, false, x),
         Move(s, x, Idle).(nwaiters := s.nwaiters - 1, raised := s.raised + 1, taken := s.taken + 1));
  }

  /** Two sleepers and two posts without a wait in between leave one token unused while one of the
      two threads sleeps on. */
  lemma TwoPostsLose(cap: nat, threads: set<Tid>, x: Tid, y: Tid, z: Tid) returns (s: State)
    requires cap >= 2 && {x, y, z} <= threads && x != y && y != z && x != z
    ensures Reachable(cap, threads, s) && Lost(s)
  {
    var s0 := Init(threads);
    assert ReachesIn(cap, threads, 0, s0);
    FallAsleep(cap, threads, s0, x);
    var s1 := Move(s0, x, Sleeping).(nwaiters := 1);
    FallAsleep(cap, threads, s1, y);
    var s2 := Move(s1, y, Sleeping).(nwaiters := 2);
    FirstPost(cap, threads, s2, x, z);
    var s3 := Move(s2, x, Returned(true)).(value := 1, raised := 1);
    SecondPost(cap, threads, s3, x, z);
    s := Move(s3, x, Idle).(nwaiters := 1, raised := 2, taken := 1);
    assert s.pcs[y] == Sleeping;
  }

  /** Exactly when the semaphore is safe: the callers keep the value at 1 or below, as the binary
      semaphore documents, or there are too few threads for two of them to sleep. */
  lemma NoLostWakeupExactly(cap: nat, threads: set<Tid>)
    requires |threads| <= UINT32_MAX
    ensures NeverLoses(cap, threads) <==> cap <= 1 || |threads| <= 2
  {
    if cap <= 1 || |threads| <= 2 {
      forall s: State | Reachable(cap, threads, s) ensures !Lost(s) {
        var n: nat :| ReachesIn(cap, threads, n, s);
        RunInv(cap, threads, n, s);
      }
    } else {
      var x, y, z := ThreeOf(threads);
      var s := TwoPostsLose(cap, threads, x, y, z);
    }
  }

  lemma ThreeOf(threads: set<Tid>) returns (x: Tid, y: Tid, z: Tid)
    requires |threads| > 2
    ensures {x, y, z} <= threads && x != y && y != z && x != z
  {
    x :| x in threads;
    var r := threads - {x};
    assert |r| >= 2;
    y :| y in r;
    var q := r - {y};
    assert |q| >= 1;
    z :| z in q;
  }

  /** In every run: the waiter count is the number of threads between their fetch_add and their
      fetch_sub, every unit raised is still there or was taken exactly once, nobody spins beyond its
      bound, a thread panics exactly if a sleep of its BinarySpinningSem::wait ended with an error or its
      BinarySpinningSem::post found the greatest value, and under the binary discipline no wake-up is
      lost. */
  lemma EveryRun(cap: nat, threads: set<Tid>, s: State)
    requires |threads| <= UINT32_MAX && Reachable(cap, threads, s)
    ensures s.nwaiters == |CountedSet(s)| && s.raised == s.value + s.taken
    ensures forall t :: t in s.pcs ==> PanicOk(s, t) && SpinOk(s.pcs[t])
    ensures cap <= 1 ==> s.value <= cap
    ensures cap <= 1 && s.value > 0 && HasSleeper(s) ==> exists t :: t in s.pcs && Helps(s.pcs[t])
  {
    var n: nat :| ReachesIn(cap, threads, n, s);
    RunInv(cap, threads, n, s);
  }

  // ----- the token is taken -----------------------------------------------------------------------

  predicate Runs(cap: nat, s: State, acts: seq<Action>, n: State)
    decreases acts
  { if acts == [] then s == n else Enabled(cap, s, acts[0]) && Runs(cap, Apply(s, acts[0]), acts[1..], n) }

  /** The steps that a helper and the sleeper it wakes still need to take a token. */
  function StepsToTake(pc: PC, value: nat): nat {
    match pc
    case PostRaised => 5
    case PostWaking => 4
    case Counted => 4
    case Returned(_) => 3
    case Reload => 2
    case WaitLoop(prev) => if prev == value then 1 else if prev == 0 then 5 else 2
    case TryLoop(prev, _) => if prev == value then 1 else 2
    case _ => 0
  }

  /** A helper that moves alone takes a token, or it or the sleeper that it wakes comes nearer to that. */
  lemma HelperNears(cap: nat, threads: set<Tid>, s: State, t: Tid, sleeper: Tid) returns (a: Action, u: Tid)
    requires |threads| <= UINT32_MAX && Inv(threads, s) && s.value > 0
    requires t in s.pcs && Helps(s.pcs[t])
    requires Owes(s.pcs[t]) ==> sleeper in s.pcs && s.pcs[sleeper] == Sleeping
    ensures Enabled(cap, s, a) && u in s.pcs
    ensures var n := Apply(s, a);
            || (n.value == s.value - 1 && n.taken == s.taken + 1)
            || (&& n.value == s.value && n.taken == s.taken && u in n.pcs && Helps(n.pcs[u])
                && StepsToTake(n.pcs[u], n.value) < StepsToTake(s.pcs[t], s.value)
                && (Owes(n.pcs[u]) ==> sleeper in n.pcs && n.pcs[sleeper] == Sleeping))
  {
    CountedFits(threads, s);
    hide CountedSet;
    a := Step(t, false, sleeper);
    u := if s.pcs[t] == PostWaking then sleeper else t;
  }

  lemma {:induction false} HelperTakes(cap: nat, threads: set<Tid>, s: State, t: Tid, sleeper: Tid)
    returns (acts: seq<Action>, n: State)
    requires |threads| <= UINT32_MAX && Inv(threads, s) && s.value > 0
    requires t in s.pcs && Helps(s.pcs[t])
    requires Owes(s.pcs[t]) ==> sleeper in s.pcs && s.pcs[sleeper] == Sleeping
    ensures Runs(cap, s, acts, n) && |acts| <= StepsToTake(s.pcs[t], s.value)
    ensures n.value == s.value - 1 && n.taken == s.taken + 1
    decreases StepsToTake(s.pcs[t], s.value)
  {
    var a, u := HelperNears(cap, threads, s, t, sleeper);
    var m := Apply(s, a);
    hide Inv, Helps, Owes, Enabled, Apply;
    if m.value < s.value {
      acts, n := [a], m;
      assert Runs(cap, m, [], m);
    } else {
      InvStep(cap, threads, s, a);
      acts, n := HelperTakes(cap, threads, m, u, sleeper);
      acts := [a] + acts;
    }
    assert [a] + acts[1..] == acts;
  }

  /** The other half of a wake-up that is not lost: whenever a token is there while somebody sleeps, five
      steps of the threads that are up, or that one of them wakes, take it. */
  lemma TokenIsTaken(cap: nat, threads: set<Tid>, s: State) returns (acts: seq<Action>, n: State)
    requires |threads| <= UINT32_MAX && (cap <= 1 || |threads| <= 2)
    requires Reachable(cap, threads, s) && s.value > 0 && HasSleeper(s)
    ensures Runs(cap, s, acts, n) && |acts| <= 5 && n.value == s.value - 1 && n.taken == s.taken + 1
  {
    var k: nat :| ReachesIn(cap, threads, k, s);
    RunInv(cap, threads, k, s);
    var sleeper :| sleeper in s.pcs && s.pcs[sleeper] == Sleeping;
    var t :| t in s.pcs && Helps(s.pcs[t]);
    hide Inv, Runs;
    acts, n := HelperTakes(cap, threads, s, t, sleeper);
  }

  // ----- the object ------------------------------------------------------------------------------

  /** The semaphore with its two atomic words, and the threads that use it. */
  class Semaphore {
    var value: nat
    var nwaiters: nat
    var pcs: map<Tid, PC>
    var raised: nat
    var taken: nat
    var strict: set<Tid>
    var failed: set<Tid>

    function Snapshot(): State
      reads this
    { State(value, nwaiters, pcs, raised, taken, strict, failed) }

    constructor (threads: set<Tid>)
      ensures Snapshot() == Init(threads)
    {
      value, nwaiters, raised, taken, strict, failed := 0, 0, 0, 0, {}, {};
      pcs := map t | t in threads :: Idle;
    }

    /** One weak compare-exchange of `value` by `t`; a failure hands back the current value. */
    method ExchangeWeak(expected: nat, desired: nat, spurious: bool) returns (ok: bool, seen: nat)
      modifies this`value
      ensures ok <==> !spurious && old(value) == expected
      ensures value == if ok then desired else old(value)
      ensures seen == if ok then expected else old(value)
    {
      if !spurious && value == expected {
        value := desired;
        return true, expected;
      }
      return false, value;
    }

    /** The next atomic access of a thread inside shadow_sem_post. */
    method Post(t: Tid, spurious: bool, woken: Tid)
      requires t in pcs && (pcs[t].PostLoop? || pcs[t].PostRaised? || pcs[t].PostWaking?)
      requires pcs[t] == PostWaking && HasSleeper(Snapshot()) ==> woken in pcs && pcs[woken] == Sleeping
      modifies this
      ensures Snapshot() == StepThread(old(Snapshot()), t, spurious, woken)
    {
      match pcs[t]
      case PostLoop(prev) =>
        if prev >= SEM_VALUE_MAX {
          pcs := pcs[t := if t in strict then Panicked else Idle];
          failed := if t in strict then failed + {t} else failed;
        } else {
          var ok, seen := ExchangeWeak(prev, prev + 1, spurious);
          if ok {
            raised := raised + 1;
            pcs := pcs[t := if prev != 0 then Idle else PostRaised];
          } else {
            pcs := pcs[t := PostLoop(seen)];
          }
        }
      case PostRaised =>
        pcs := pcs[t := if nwaiters == 0 then Idle else PostWaking];
      case PostWaking =>
        if HasSleeper(Snapshot()) {
          pcs := pcs[woken := Returned(true)];
        }
        pcs := pcs[t := Idle];
    }

    /** The next atomic access of a thread inside shadow_sem_trywait, alone or under the spin of
        BinarySpinningSem::wait. */
    method TryWait(t: Tid, spurious: bool)
      requires t in pcs && pcs[t].TryLoop?
      modifies this
      ensures Snapshot() == StepThread(old(Snapshot()), t, spurious, t)
    {
      var prev, spin := pcs[t].prev, pcs[t].spin;
      if prev == 0 {
        pcs := pcs[t := AfterEmpty(spin, value)];
      } else {
        var ok, seen := ExchangeWeak(prev, prev - 1, spurious);
        if ok {
          taken := taken + 1;
          pcs := pcs[t := Idle];
        } else {
          pcs := pcs[t := TryLoop(seen, spin)];
        }
      }
    }

    /** The next atomic access of a thread inside _shadow_sem_timedwait. */
    method TimedWait(t: Tid, spurious: bool)
      requires t in pcs && (pcs[t].WaitLoop? || pcs[t].Counted? || pcs[t].Returned? || pcs[t].Reload?)
      modifies this
      ensures Snapshot() == StepThread(old(Snapshot()), t, spurious, t)
    {
      match pcs[t]
      case WaitLoop(prev) =>
        if prev == 0 {
          var before := nwaiters;
          nwaiters := (nwaiters + 1) % (UINT32_MAX + 1);
          pcs := pcs[t := if before == UINT32_MAX then Panicked else Counted];
        } else {
          var ok, seen := ExchangeWeak(prev, prev - 1, spurious);
          if ok {
            taken := taken + 1;
            pcs := pcs[t := Idle];
          } else {
            pcs := pcs[t := WaitLoop(seen)];
          }
        }
      case Counted =>
        pcs := pcs[t := if value != 0 then Returned(true) else Sleeping];
      case Returned(again) =>
        nwaiters := if nwaiters == 0 then UINT32_MAX else nwaiters - 1;
        pcs := pcs[t := if again then Reload else if t in strict then Panicked else Idle];
      case Reload =>
        pcs := pcs[t := WaitLoop(value)];
    }

    /** Lets the threads run along a schedule; steps that are not possible are skipped.  Whatever
        the schedule, the object ends in a reachable state, so the lemmas above apply to it. */
    method Run(cap: nat, ghost threads: set<Tid>, schedule: seq<Action>)
      requires |threads| <= UINT32_MAX && Reachable(cap, threads, Snapshot())
      modifies this
      ensures Reachable(cap, threads, Snapshot())
      ensures cap <= 1 ==> !Lost(Snapshot())
    {
      for i := 0 to |schedule|
        invariant Reachable(cap, threads, Snapshot())
      {
        var a := schedule[i];
        if Enabled(cap, Snapshot(), a) {
          ghost var before := Snapshot();
          match a {
            case Call(t, op) =>
              pcs := pcs[t := StartOp(op, value)];
              strict := if op.SpinWait? || op.BinaryPost? then strict + {t} else strict - {t};
            case Leave(t, again) =>
              pcs := pcs[t := Returned(again)];
              failed := if !again && t in strict then failed + {t} else failed;
            case Step(t, spurious, woken) =>
              var pc := pcs[t];
              if pc.TryLoop? {
                TryWait(t, spurious);
              } else if pc.PostLoop? || pc.PostRaised? || pc.PostWaking? {
                Post(t, spurious, woken);
              } else {
                TimedWait(t, spurious);
              }
          }
          Then(cap, threads, before, a, Snapshot());
        }
      }
      NoLostWakeupExactly(cap, threads);
    }
  }
}
