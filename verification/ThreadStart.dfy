/**
 The start of plugin threads (shim.c, preload_syscall.c, shadow_spinlock.c): a parent takes a spin lock,
 initialises a semaphore, deposits the IPC block of its child, clones, and waits until the child has
 posted the semaphore.  Any number of threads do this at once; each step is one atomic access.
 */
module ThreadStart {

  datatype Pc =
    | Running
    | Spin(block: nat)          // about to load the lock
    | SawFree(block: nat)       // about to exchange the lock
    | InitSem(block: nat)
    | Deposit(block: nat)
    | Clone(block: nat)
    | Finishing(block: nat)     // waits for its child
    | Unlock(block: nat)
    | Fresh                     // a new child, about to read the deposited block
    | Posting                   // a child about to post
    | AwaitStart

  /** `wants` is the block that the thread's parent was told to start it with, `ipc` the one it read. */
  datatype Thread = Thread(pc: Pc, wants: nat, ipc: Option<nat>)

  datatype Option<T> = None | Some(value: T)

  /** `holder` and `child` are history: who holds the lock, and who was cloned and has not posted yet. */
  datatype State = State(
    locked: bool,
    value: nat,
    childIpcBlk: nat,
    threads: seq<Thread>,
    holder: Option<nat>,
    child: Option<nat>,
    failed: bool
  )

  datatype Action =
    | Want(i: nat, block: nat)
    | Load(i: nat)
    | Exchange(i: nat, spurious: bool)
    | InitSemaphore(i: nat)
    | DepositBlock(i: nat)
    | CloneOk(i: nat)
    | CloneFails(i: nat)
    | TryWait(i: nat, spurious: bool)
    | Release(i: nat)
    | ReadBlock(i: nat)
    | Post(i: nat)
    | Started(i: nat)

  function PcOf(s: State, i: nat): Pc
    requires i < |s.threads|
  { s.threads[i].pc }

  predicate Enabled(s: State, a: Action) {
    && a.i < |s.threads|
    && match a
       case Want(_, _) => PcOf(s, a.i).Running?
       case Load(_) => PcOf(s, a.i).Spin?
       case Exchange(_, _) => PcOf(s, a.i).SawFree?
       case InitSemaphore(_) => PcOf(s, a.i).InitSem?
       case DepositBlock(_) => PcOf(s, a.i).Deposit?
       case CloneOk(_) => PcOf(s, a.i).Clone?
       case CloneFails(_) => PcOf(s, a.i).Clone?
       case TryWait(_, _) => PcOf(s, a.i).Finishing?
       case Release(_) => PcOf(s, a.i).Unlock?
       case ReadBlock(_) => PcOf(s, a.i).Fresh?
       case Post(_) => PcOf(s, a.i).Posting?
       case Started(_) => PcOf(s, a.i).AwaitStart?
  }

  function At(s: State, i: nat, pc: Pc): State
    requires i < |s.threads|
  { s.(threads := s.threads[i := s.threads[i].(pc := pc)]) }

  function Apply(s: State, a: Action): State
    requires Enabled(s, a)
  {
    var i := a.i;
    match a
    case Want(_, b) => At(s, i, Spin(b))
    case Load(_) => if s.locked then s else At(s, i, SawFree(PcOf(s, i).block))
    case Exchange(_, spurious) =>
      if spurious || s.locked then At(s, i, Spin(PcOf(s, i).block))
      else At(s.(locked := true, holder := Some(i)), i, InitSem(PcOf(s, i).block))
    case InitSemaphore(_) => At(s.(value := 0), i, Deposit(PcOf(s, i).block))
    case DepositBlock(_) => At(s.(childIpcBlk := PcOf(s, i).block), i, Clone(PcOf(s, i).block))
    case CloneOk(_) =>
      var t := At(s, i, Finishing(PcOf(s, i).block));
      t.(threads := t.threads + [Thread(Fresh, PcOf(s, i).block, None)], child := Some(|s.threads|))
    case CloneFails(_) => At(s.(failed := true), i, Finishing(PcOf(s, i).block))
    case TryWait(_, spurious) =>
      if spurious || s.value == 0 then s
      else At(s.(value := s.value - 1), i, Unlock(PcOf(s, i).block))
    case Release(_) => At(s.(locked := false, holder := None), i, Running)
    case ReadBlock(_) =>
      s.(threads := s.threads[i := s.threads[i].(pc := Posting, ipc := Some(s.childIpcBlk))])
    case Post(_) => At(s.(value := s.value + 1, child := None), i, AwaitStart)
    case Started(_) => At(s, i, Running)
  }

  // ----- what every step keeps --------------------------------------------------------------------

  /** Between taking the lock and releasing it. */
  predicate InStart(pc: Pc) { pc.InitSem? || pc.Deposit? || pc.Clone? || pc.Finishing? || pc.Unlock? }

  /** Cloned, and still to post the semaphore. */
  predicate WillPost(pc: Pc) { pc.Fresh? || pc.Posting? }

  predicate ThreadOk(s: State, i: nat)
    requires i < |s.threads|
  {
    var t := s.threads[i];
    && (InStart(t.pc) <==> s.holder == Some(i))
    && (WillPost(t.pc) <==> s.child == Some(i))
    && (t.ipc.None? <==> t.pc.Fresh?)
    && (t.ipc.Some? ==> t.ipc.value == t.wants)
  }

  /** How far the one start in progress has come. */
  predicate StartOk(s: State) {
    && (s.locked <==> s.holder.Some?)
    && (s.holder.Some? ==> s.holder.value < |s.threads|)
    && (s.child.Some? ==> s.holder.Some? && s.child.value < |s.threads|)
    && (s.failed ==> s.holder.Some? && PcOf(s, s.holder.value).Finishing? && s.child == None && s.value == 0)
    && (s.holder.Some? ==>
          var pc := PcOf(s, s.holder.value);
          && (s.child.Some? ==> pc.Finishing? && s.value == 0 && s.threads[s.child.value].wants == pc.block)
          && (pc.Clone? || pc.Finishing? ==> s.childIpcBlk == pc.block)
          && (pc.Deposit? || pc.Clone? || pc.Unlock? ==> s.value == 0)
          && (pc.Finishing? && s.child == None && !s.failed ==> s.value == 1))
  }

  predicate Inv(s: State) { StartOk(s) && forall i :: 0 <= i < |s.threads| ==> ThreadOk(s, i) }

  /** Some threads run, nobody starts one. */
  predicate Init(s: State) {
    && !s.locked && s.holder == None && s.child == None && !s.failed
    && forall i :: 0 <= i < |s.threads| ==> s.threads[i].pc.Running? && s.threads[i].ipc == Some(s.threads[i].wants)
  }

  lemma InitInv(s: State)
    requires Init(s)
    ensures Inv(s)
  {
  }

  lemma ThreadStep(s: State, a: Action, i: nat)
    requires StartOk(s) && Enabled(s, a) && i < |s.threads| && ThreadOk(s, i) && ThreadOk(s, a.i)
    ensures ThreadOk(Apply(s, a), i)
  {
  }

  lemma StartStep(s: State, a: Action)
    requires StartOk(s) && Enabled(s, a) && ThreadOk(s, a.i)
    requires s.holder.Some? ==> ThreadOk(s, s.holder.value)
    requires s.child.Some? ==> ThreadOk(s, s.child.value)
    ensures StartOk(Apply(s, a))
  {
  }

  lemma NewThreadOk(s: State, i: nat)
    requires StartOk(s) && Enabled(s, CloneOk(i))
    ensures ThreadOk(Apply(s, CloneOk(i)), |s.threads|)
  {
  }

  lemma StepInv(s: State, a: Action)
    requires Inv(s) && Enabled(s, a)
    ensures Inv(Apply(s, a))
  {
    StartStep(s, a);
    var n := Apply(s, a);
    forall i | 0 <= i < |n.threads| ensures ThreadOk(n, i) {
      if i < |s.threads| { ThreadStep(s, a, i); } else { NewThreadOk(s, a.i); }
    }
  }

  // ----- whole runs -------------------------------------------------------------------------------

  predicate Runs(s: State, acts: seq<Action>, t: State)
    decreases acts
  { if acts == [] then s == t else Enabled(s, acts[0]) && Runs(Apply(s, acts[0]), acts[1..], t) }

  lemma {:induction false} RunInv(s: State, acts: seq<Action>, t: State)
    requires Inv(s) && Runs(s, acts, t)
    ensures Inv(t)
    decreases acts
  {
    hide Inv, Enabled, Apply;
    if acts != [] {
      StepInv(s, acts[0]);
      RunInv(Apply(s, acts[0]), acts[1..], t);
    }
  }

  /** In every run, with any number of parents: at most one start is in progress; at most one child has
      yet to post, and then its own parent waits for it; every child has read exactly the block that its
      own parent deposited; and whoever is about to initialise the semaphore finds nobody left to post. */
  lemma StartsArePaired(s: State, acts: seq<Action>, t: State, i: nat, j: nat)
    requires Init(s) && Runs(s, acts, t) && i < |t.threads| && j < |t.threads|
    ensures InStart(PcOf(t, i)) && InStart(PcOf(t, j)) ==> i == j
    ensures WillPost(PcOf(t, i)) && WillPost(PcOf(t, j)) ==> i == j
    ensures WillPost(PcOf(t, i)) && InStart(PcOf(t, j)) ==>
              PcOf(t, j).Finishing? && PcOf(t, j).block == t.threads[i].wants == t.childIpcBlk
    ensures t.threads[i].ipc.Some? ==> t.threads[i].ipc.value == t.threads[i].wants
    ensures PcOf(t, j).InitSem? ==> !WillPost(PcOf(t, i))
  {
    InitInv(s);
    RunInv(s, acts, t);
    assert ThreadOk(t, i) && ThreadOk(t, j);
  }

  // ----- progress, and a failed clone -------------------------------------------------------------

  /** The steps that the start in progress still needs. */
  function Left(s: State): nat
    requires Inv(s) && s.holder.Some?
  {
    match PcOf(s, s.holder.value)
    case InitSem(_) => 7
    case Deposit(_) => 6
    case Clone(_) => 5
    case Finishing(_) =>
      if s.child == None then 2 else if s.threads[s.child.value].pc.Fresh? then 4 else 3
    case _ => 1
  }

  /** The next step of the start in progress. */
  lemma NextOfStart(s: State) returns (a: Action)
    requires Inv(s) && s.holder.Some? && !s.failed
    ensures Enabled(s, a) && !Apply(s, a).failed
    ensures var t := Apply(s, a); Inv(t) && (t.holder == None || (t.holder == s.holder && Left(t) < Left(s)))
  {
    var h := s.holder.value;
    assert ThreadOk(s, h);
    if s.child.Some? { assert ThreadOk(s, s.child.value); }
    match PcOf(s, h) {
      case InitSem(_) => a := InitSemaphore(h);
      case Deposit(_) => a := DepositBlock(h);
      case Clone(_) => a := CloneOk(h);
      case Finishing(_) =>
        a := if s.child == None then TryWait(h, false)
             else if s.threads[s.child.value].pc.Fresh? then ReadBlock(s.child.value) else Post(s.child.value);
      case _ => a := Release(h);
    }
    StepInv(s, a);
  }

  /** Nobody else's step undoes what the start in progress has done. */
  lemma OthersDoNotHinder(s: State, a: Action)
    requires Inv(s) && s.holder.Some? && Enabled(s, a) && !a.CloneFails?
    ensures var t := Apply(s, a); Inv(t) && (t.holder == None || (t.holder == s.holder && Left(t) <= Left(s)))
  {
    StepInv(s, a);
    assert ThreadOk(s, s.holder.value) && ThreadOk(s, a.i);
    if s.child.Some? { assert ThreadOk(s, s.child.value); }
    hide StartOk;
  }

  /** A parent whose clone failed waits for a child that does not exist: it holds the lock in every
      later state, so no thread of the process is ever started again. */
  lemma {:induction false} FailedCloneHangs(s: State, acts: seq<Action>, t: State)
    requires Inv(s) && s.failed && Runs(s, acts, t)
    ensures Inv(t) && t.failed && t.locked && t.holder == s.holder && PcOf(t, t.holder.value).Finishing?
    ensures |t.threads| == |s.threads|
    decreases acts
  {
    if acts != [] {
      StepInv(s, acts[0]);
      assert ThreadOk(s, acts[0].i);
      FailedCloneHangs(Apply(s, acts[0]), acts[1..], t);
    }
  }

  /** Such a parent exists in a run: from any initial state any thread can get there in six steps. */
  lemma FailureIsReachable(s: State, i: nat, block: nat) returns (acts: seq<Action>, t: State)
    requires Init(s) && i < |s.threads|
    ensures Runs(s, acts, t) && t.failed && t.holder == Some(i)
    ensures forall more: seq<Action>, u: State :: Runs(t, more, u) ==> u.locked && |u.threads| == |s.threads|
  {
    var s1 := At(s, i, Spin(block));
    var s2 := At(s1, i, SawFree(block));
    var s3 := At(s2.(locked := true, holder := Some(i)), i, InitSem(block));
    var s4 := At(s3.(value := 0), i, Deposit(block));
    var s5 := At(s4.(childIpcBlk := block), i, Clone(block));
    t := At(s5.(failed := true), i, Finishing(block));
    acts := [Want(i, block), Load(i), Exchange(i, false), InitSemaphore(i), DepositBlock(i), CloneFails(i)];
    Cons(s5, CloneFails(i), [], t);
    Cons(s4, DepositBlock(i), [CloneFails(i)], t);
    Cons(s3, InitSemaphore(i), [DepositBlock(i), CloneFails(i)], t);
    Cons(s2, Exchange(i, false), acts[3..], t);
    Cons(s1, Load(i), acts[2..], t);
    Cons(s, Want(i, block), acts[1..], t);
    assert [acts[0]] + acts[1..] == acts;
    InitInv(s);
    RunInv(s, acts, t);
    forall more: seq<Action>, u: State | Runs(t, more, u) ensures u.locked && |u.threads| == |s.threads| {
      FailedCloneHangs(t, more, u);
    }
  }

  lemma Cons(s: State, a: Action, acts: seq<Action>, t: State)
    requires Enabled(s, a) && Runs(Apply(s, a), acts, t)
    ensures Runs(s, [a] + acts, t)
  {
    assert ([a] + acts)[1..] == acts;
  }

  lemma {:induction false} FinishStart(s: State) returns (acts: seq<Action>, t: State)
    requires Inv(s) && s.holder.Some? && !s.failed
    ensures Runs(s, acts, t) && t.holder == None
    decreases Left(s)
  {
    var a := NextOfStart(s);
    var n := Apply(s, a);
    hide Inv, Left;
    if n.holder == None {
      acts, t := [a], n;
      assert acts[1..] == [];
      assert Runs(n, [], n);
    } else {
      acts, t := FinishStart(n);
      assert ([a] + acts)[1..] == acts;
      acts := [a] + acts;
    }
  }

  /** A start can be completed exactly if its clone has not failed. */
  lemma CompletesExactly(s: State)
    requires Inv(s) && s.holder.Some?
    ensures !s.failed <==> exists acts: seq<Action>, t: State :: Runs(s, acts, t) && t.holder == None
  {
    if s.failed {
      forall acts: seq<Action>, t: State | Runs(s, acts, t) ensures t.holder != None {
        FailedCloneHangs(s, acts, t);
      }
    } else {
      var acts, t := FinishStart(s);
    }
  }

  // ----- the shim's state, updated in place ---------------------------------------------------------

  /** The globals of shim.c and the threads that use them; each method is one step of the thread `i`. */
  class Shim {
    var startThreadLock: bool
    var childInitd: nat
    var childIpcBlk: nat
    var threads: seq<Thread>
    ghost var holder: Option<nat>
    ghost var child: Option<nat>
    ghost var failed: bool

    ghost function View(): State
      reads this
    { State(startThreadLock, childInitd, childIpcBlk, threads, holder, child, failed) }

    method Goto(i: nat, pc: Pc)
      requires i < |threads|
      modifies this`threads
      ensures View() == At(old(View()), i, pc)
    {
      threads := threads[i := threads[i].(pc := pc)];
    }

    /** shadow_spin_lock: a load, then a weak exchange that may fail spuriously */
    method SpinLock(i: nat, spurious: bool)
      requires i < |threads| && (threads[i].pc.Spin? || threads[i].pc.SawFree?)
      modifies this
      ensures View() == Apply(old(View()), if old(threads[i].pc.Spin?) then Load(i) else Exchange(i, spurious))
    {
      var block := threads[i].pc.block;
      if threads[i].pc.Spin? {
        if !startThreadLock {
          Goto(i, SawFree(block));
        }
      } else if spurious || startThreadLock {
        Goto(i, Spin(block));
      } else {
        startThreadLock, holder := true, Some(i);
        Goto(i, InitSem(block));
      }
    }

    /** shim_newThreadStart once it has the lock */
    method NewThreadStart(i: nat)
      requires i < |threads| && (threads[i].pc.InitSem? || threads[i].pc.Deposit?)
      modifies this
      ensures View() == Apply(old(View()), if old(threads[i].pc.InitSem?) then InitSemaphore(i) else DepositBlock(i))
    {
      var block := threads[i].pc.block;
      if threads[i].pc.InitSem? {
        childInitd := 0;
        Goto(i, Deposit(block));
      } else {
        childIpcBlk := block;
        Goto(i, Clone(block));
      }
    }

    /** The clone system call of shadow_vreal_raw_syscall */
    method CloneThread(i: nat, ok: bool)
      requires i < |threads| && threads[i].pc.Clone?
      modifies this
      ensures View() == Apply(old(View()), if ok then CloneOk(i) else CloneFails(i))
    {
      var block := threads[i].pc.block;
      Goto(i, Finishing(block));
      if ok {
        child := Some(|threads|);
        threads := threads + [Thread(Fresh, block, None)];
      } else {
        failed := true;
      }
    }

    /** _shim_preload_only_child_init_ipc and shim_newThreadChildInitd */
    method ChildInit(i: nat)
      requires i < |threads| && (threads[i].pc.Fresh? || threads[i].pc.Posting?)
      modifies this
      ensures View() == Apply(old(View()), if old(threads[i].pc.Fresh?) then ReadBlock(i) else Post(i))
    {
      if threads[i].pc.Fresh? {
        threads := threads[i := threads[i].(pc := Posting, ipc := Some(childIpcBlk))];
      } else {
        childInitd, child := childInitd + 1, None;
        Goto(i, AwaitStart);
      }
    }

    /** shim_newThreadFinish: the wait for the child, then the release of the lock */
    method NewThreadFinish(i: nat, spurious: bool)
      requires i < |threads| && (threads[i].pc.Finishing? || threads[i].pc.Unlock?)
      modifies this
      ensures View() == Apply(old(View()), if old(threads[i].pc.Finishing?) then TryWait(i, spurious) else Release(i))
    {
      if threads[i].pc.Unlock? {
        startThreadLock, holder := false, None;
        Goto(i, Running);
      } else if !spurious && childInitd > 0 {
        childInitd := childInitd - 1;
        Goto(i, Unlock(threads[i].pc.block));
      }
    }

    method Perform(a: Action)
      requires Enabled(View(), a)
      modifies this
      ensures View() == Apply(old(View()), a)
    {
      if a.Want? {
        Goto(a.i, Spin(a.block));
      } else if a.Started? {
        Goto(a.i, Running);
      } else if a.Load? || a.Exchange? {
        SpinLock(a.i, a.Exchange? && a.spurious);
      } else if a.InitSemaphore? || a.DepositBlock? {
        NewThreadStart(a.i);
      } else if a.CloneOk? || a.CloneFails? {
        CloneThread(a.i, a.CloneOk?);
      } else if a.ReadBlock? || a.Post? {
        ChildInit(a.i);
      } else {
        NewThreadFinish(a.i, a.TryWait? && a.spurious);
      }
    }
  }
}
