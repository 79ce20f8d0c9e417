/**
 The IPC block with its two real semaphores (ipc.cc, binary_spinning_sem.cc, shadow_sem.c): the posts and
 takes of the two programs are no longer single steps but calls of BinarySpinningSem, whose atomic accesses
 interleave with everything else.  No discipline is imposed on the semaphores: that they are used as
 binary ones is a consequence of the programs.
 */
module IpcBlock {
  import P = IpcProtocol
  import S = ShadowSemaphore

  /** `p` is xfer_ctrl_to_plugin and `q` is xfer_ctrl_to_shadow. */
  datatype Block = Block(s: P.State, p: S.State, q: S.State)

  const SHADOW: S.Tid := 0
  const PLUGIN: S.Tid := 1

  const BOTH: set<S.Tid> := {SHADOW, PLUGIN}

  /** A step of a program between two calls, or a step inside a call on one of the semaphores. */
  datatype Action = Program(a: P.Action) | OnPlugin(b: S.Action) | OnShadow(b: S.Action)

  function Init(explicitBlock: bool): Block { Block(P.Init(explicitBlock), S.Init(BOTH), S.Init(BOTH)) }

  predicate UsesSemaphore(a: P.Action) { a.ShadowPosts? || a.ShadowTakes? || a.PluginPosts? || a.PluginTakes? }

  /** The calls on a semaphore: the one side posts what it wrote, the other waits, neither while it is
      still inside a call on the other semaphore. */
  predicate MayCall(b: S.Action, poster: S.Tid, wrote: bool, waiter: S.Tid, waiting: bool, other: S.State) {
    b.Call? ==>
      && b.t in other.pcs && other.pcs[b.t] == S.Idle
      && ((b.t == poster && b.op.BinaryPost? && wrote) || (b.t == waiter && b.op.SpinWait? && waiting))
  }

  predicate Enabled(x: Block, a: Action) {
    match a
    case Program(m) => !UsesSemaphore(m) && P.Enabled(x.s, m)
    case OnPlugin(b) =>
      S.Enabled(S.SEM_VALUE_MAX, x.p, b) && MayCall(b, SHADOW, x.s.sio.Wrote?, PLUGIN, x.s.pio.Waiting?, x.q)
    case OnShadow(b) =>
      S.Enabled(S.SEM_VALUE_MAX, x.q, b) && MayCall(b, PLUGIN, x.s.pio.Wrote?, SHADOW, x.s.sio.Waiting?, x.p)
  }

  /** The programs see a post when the value is raised and a take when it is lowered. */
  function Moved(s: P.State, before: nat, after: nat, post: P.Action, take: P.Action): P.State {
    if after > before && P.Enabled(s, post) then P.Apply(s, post)
    else if after < before && P.Enabled(s, take) then P.Apply(s, take)
    else s
  }

  function Apply(x: Block, a: Action): Block
    requires Enabled(x, a)
  {
    match a
    case Program(m) => x.(s := P.Apply(x.s, m))
    case OnPlugin(b) =>
      var p := S.Apply(x.p, b);
      x.(p := p, s := Moved(x.s, x.p.value, p.value, P.ShadowPosts, P.PluginTakes))
    case OnShadow(b) =>
      var q := S.Apply(x.q, b);
      x.(q := q, s := Moved(x.s, x.q.value, q.value, P.PluginPosts, P.ShadowTakes))
  }

  predicate Runs(x: Block, acts: seq<Action>, y: Block)
    decreases acts
  { if acts == [] then x == y else Enabled(x, acts[0]) && Runs(Apply(x, acts[0]), acts[1..], y) }

  // ----- one semaphore ------------------------------------------------------------------------------

  predicate PosterOk(pc: S.PC, wrote: bool) {
    pc.Idle? || pc.Panicked? || pc.PostRaised? || pc.PostWaking? || (pc.PostLoop? && wrote)
  }

  predicate WaiterOk(pc: S.PC, waiting: bool) {
    || pc.Idle? || pc.Panicked?
    || (&& waiting
        && (|| pc.WaitLoop? || pc.Counted? || pc.Sleeping? || pc.Returned? || pc.Reload?
            || (pc.TryLoop? && pc.spin.Spinning?)))
  }

  /** The semaphore is at a place that fits the two programs, and it was reached without a second post. */
  ghost predicate Fits(x: S.State, poster: S.Tid, wrote: bool, waiter: S.Tid, waiting: bool) {
    && S.Reachable(1, BOTH, x)
    && x.pcs.Keys == BOTH && poster in x.pcs && waiter in x.pcs
    && PosterOk(x.pcs[poster], wrote) && WaiterOk(x.pcs[waiter], waiting)
  }

  predicate Sides(poster: S.Tid, waiter: S.Tid) { {poster, waiter} == BOTH && poster != waiter }

  /** A step inside a call raises the value, lowers it, or leaves it as it is. */
  ghost predicate StepFits(x: S.State, y: S.State, poster: S.Tid, wrote: bool, waiter: S.Tid, waiting: bool)
    requires y.pcs.Keys == BOTH && poster in BOTH && waiter in BOTH
  {
    || (y.value == x.value && PosterOk(y.pcs[poster], wrote) && WaiterOk(y.pcs[waiter], waiting))
    || (y.value == x.value + 1 && wrote && PosterOk(y.pcs[poster], false) && WaiterOk(y.pcs[waiter], waiting))
    || (y.value + 1 == x.value && waiting && PosterOk(y.pcs[poster], wrote) && WaiterOk(y.pcs[waiter], false))
  }

  lemma PosterSteps(x: S.State, b: S.Action, poster: S.Tid, wrote: bool, waiter: S.Tid, waiting: bool, other: S.State)
    requires Sides(poster, waiter) && x.pcs.Keys == BOTH && b.t == poster
    requires PosterOk(x.pcs[poster], wrote) && WaiterOk(x.pcs[waiter], waiting)
    requires S.Enabled(S.SEM_VALUE_MAX, x, b) && MayCall(b, poster, wrote, waiter, waiting, other)
    requires wrote ==> x.value == 0
    ensures S.Enabled(1, x, b) && S.Apply(x, b).pcs.Keys == BOTH
    ensures StepFits(x, S.Apply(x, b), poster, wrote, waiter, waiting)
  {
  }

  lemma WaiterSteps(x: S.State, b: S.Action, poster: S.Tid, wrote: bool, waiter: S.Tid, waiting: bool, other: S.State)
    requires Sides(poster, waiter) && x.pcs.Keys == BOTH && b.t == waiter
    requires PosterOk(x.pcs[poster], wrote) && WaiterOk(x.pcs[waiter], waiting)
    requires S.Enabled(S.SEM_VALUE_MAX, x, b) && MayCall(b, poster, wrote, waiter, waiting, other)
    ensures S.Enabled(1, x, b) && S.Apply(x, b).pcs.Keys == BOTH
    ensures StepFits(x, S.Apply(x, b), poster, wrote, waiter, waiting)
  {
  }

  lemma SemaphoreStep(x: S.State, b: S.Action, poster: S.Tid, wrote: bool, waiter: S.Tid, waiting: bool, other: S.State)
    requires Sides(poster, waiter) && Fits(x, poster, wrote, waiter, waiting)
    requires S.Enabled(S.SEM_VALUE_MAX, x, b) && MayCall(b, poster, wrote, waiter, waiting, other)
    requires wrote ==> x.value == 0
    ensures S.Enabled(1, x, b) && S.Apply(x, b).pcs.Keys == BOTH && S.Reachable(1, BOTH, S.Apply(x, b))
    ensures StepFits(x, S.Apply(x, b), poster, wrote, waiter, waiting)
  {
    assert b.t in x.pcs && (b.t == poster || b.t == waiter);
    hide S.Enabled, S.Apply, S.Reachable, MayCall, PosterOk, WaiterOk, StepFits;
    if b.t == poster {
      PosterSteps(x, b, poster, wrote, waiter, waiting, other);
    } else {
      WaiterSteps(x, b, poster, wrote, waiter, waiting, other);
    }
    SemaphoreReaches(x, b);
  }

  lemma SemaphoreReaches(x: S.State, b: S.Action)
    requires S.Reachable(1, BOTH, x) && S.Enabled(1, x, b)
    ensures S.Reachable(1, BOTH, S.Apply(x, b))
  {
    S.Then(1, BOTH, x, b, S.Apply(x, b));
  }

  // ----- the block ------------------------------------------------------------------------------------

  /** Some run of the protocol is the one that the programs have made. */
  ghost predicate Reached(explicitBlock: bool, s: P.State) {
    exists acts: seq<P.Action> :: P.Runs(P.Init(explicitBlock), acts, s)
  }

  ghost predicate Inv(explicitBlock: bool, x: Block) {
    && Reached(explicitBlock, x.s)
    && x.p.value == x.s.semPlugin && x.q.value == x.s.semShadow
    && Fits(x.p, SHADOW, x.s.sio.Wrote?, PLUGIN, x.s.pio.Waiting?)
    && Fits(x.q, PLUGIN, x.s.pio.Wrote?, SHADOW, x.s.sio.Waiting?)
  }

  lemma ReachedThen(explicitBlock: bool, s: P.State, a: P.Action)
    requires Reached(explicitBlock, s) && P.Enabled(s, a)
    ensures Reached(explicitBlock, P.Apply(s, a))
  {
    hide P.Enabled, P.Apply;
    var acts :| P.Runs(P.Init(explicitBlock), acts, s);
    P.RunsThen(P.Init(explicitBlock), acts, s, a);
  }

  /** Whoever has written and not posted holds the only token. */
  lemma WroteMeansEmpty(explicitBlock: bool, s: P.State)
    requires Reached(explicitBlock, s)
    ensures s.sio.Wrote? || s.pio.Wrote? ==> s.semPlugin == 0 && s.semShadow == 0
    ensures s.sio.Wrote? ==> !s.pio.Wrote?
  {
    var acts :| P.Runs(P.Init(explicitBlock), acts, s);
    P.SingleToken(explicitBlock, acts, s);
    hide P.Runs;
  }

  lemma InitInv(explicitBlock: bool)
    ensures Inv(explicitBlock, Init(explicitBlock))
  {
    assert P.Runs(P.Init(explicitBlock), [], P.Init(explicitBlock));
    assert S.ReachesIn(1, BOTH, 0, S.Init(BOTH));
  }

  /** What a program does between two calls on the semaphores leaves them alone. */
  lemma ProgramLeaves(s: P.State, m: P.Action)
    requires P.Enabled(s, m) && !UsesSemaphore(m)
    ensures var t := P.Apply(s, m);
            && t.semPlugin == s.semPlugin && t.semShadow == s.semShadow
            && (s.sio.Wrote? ==> t.sio.Wrote?) && (s.pio.Wrote? ==> t.pio.Wrote?)
            && (s.sio.Waiting? ==> t.sio.Waiting?) && (s.pio.Waiting? ==> t.pio.Waiting?)
  {
  }

  lemma FitsStill(x: S.State, poster: S.Tid, wrote: bool, waiter: S.Tid, waiting: bool, wrote': bool, waiting': bool)
    requires Fits(x, poster, wrote, waiter, waiting) && (wrote ==> wrote') && (waiting ==> waiting')
    ensures Fits(x, poster, wrote', waiter, waiting')
  {
    hide S.Reachable;
  }

  lemma ProgramKeeps(explicitBlock: bool, x: Block, m: P.Action)
    requires Inv(explicitBlock, x) && Enabled(x, Program(m))
    ensures Inv(explicitBlock, Apply(x, Program(m)))
  {
    ReachedThen(explicitBlock, x.s, m);
    ProgramLeaves(x.s, m);
    var s, t := x.s, P.Apply(x.s, m);
    FitsStill(x.p, SHADOW, s.sio.Wrote?, PLUGIN, s.pio.Waiting?, t.sio.Wrote?, t.pio.Waiting?);
    FitsStill(x.q, PLUGIN, s.pio.Wrote?, SHADOW, s.sio.Waiting?, t.pio.Wrote?, t.sio.Waiting?);
    hide Reached, Fits, P.Apply, P.Enabled;
  }

  lemma OnPluginKeeps(explicitBlock: bool, x: Block, b: S.Action)
    requires Inv(explicitBlock, x) && Enabled(x, OnPlugin(b))
    ensures Inv(explicitBlock, Apply(x, OnPlugin(b)))
  {
    var s, y := x.s, Apply(x, OnPlugin(b));
    WroteMeansEmpty(explicitBlock, s);
    hide Reached, Fits, S.Apply, S.Enabled, MayCall;
    SemaphoreStep(x.p, b, SHADOW, s.sio.Wrote?, PLUGIN, s.pio.Waiting?, x.q);
    PluginMoves(explicitBlock, s, x.p.value, y.p.value);
    hide Moved, StepFits, P.Apply, P.Enabled;
    StepKeeps(x.p, y.p, SHADOW, s.sio.Wrote?, PLUGIN, s.pio.Waiting?, y.s.sio.Wrote?, y.s.pio.Waiting?);
    FitsStill(x.q, PLUGIN, s.pio.Wrote?, SHADOW, s.sio.Waiting?, y.s.pio.Wrote?, y.s.sio.Waiting?);
  }

  /** The programs after the step keep up with the semaphore to the plugin. */
  lemma PluginMoves(explicitBlock: bool, s: P.State, before: nat, after: nat)
    requires Reached(explicitBlock, s) && before == s.semPlugin
    requires after == before || (after == before + 1 && s.sio.Wrote?) || (after + 1 == before && s.pio.Waiting?)
    ensures var t := Moved(s, before, after, P.ShadowPosts, P.PluginTakes);
            && Reached(explicitBlock, t) && t.semPlugin == after && t.semShadow == s.semShadow
            && t.sio.Wrote? == (s.sio.Wrote? && after <= before) && t.pio.Waiting? == (s.pio.Waiting? && after >= before)
            && t.pio.Wrote? == s.pio.Wrote? && (s.sio.Waiting? ==> t.sio.Waiting?)
  {
    if P.Enabled(s, P.ShadowPosts) { ReachedThen(explicitBlock, s, P.ShadowPosts); }
    if P.Enabled(s, P.PluginTakes) { ReachedThen(explicitBlock, s, P.PluginTakes); }
    hide Reached;
  }

  lemma ShadowMoves(explicitBlock: bool, s: P.State, before: nat, after: nat)
    requires Reached(explicitBlock, s) && before == s.semShadow
    requires after == before || (after == before + 1 && s.pio.Wrote?) || (after + 1 == before && s.sio.Waiting?)
    ensures var t := Moved(s, before, after, P.PluginPosts, P.ShadowTakes);
            && Reached(explicitBlock, t) && t.semShadow == after && t.semPlugin == s.semPlugin
            && t.pio.Wrote? == (s.pio.Wrote? && after <= before) && t.sio.Waiting? == (s.sio.Waiting? && after >= before)
            && t.sio.Wrote? == s.sio.Wrote? && (s.pio.Waiting? ==> t.pio.Waiting?)
  {
    if P.Enabled(s, P.PluginPosts) { ReachedThen(explicitBlock, s, P.PluginPosts); }
    if P.Enabled(s, P.ShadowTakes) { ReachedThen(explicitBlock, s, P.ShadowTakes); }
    hide Reached;
  }

  lemma StepKeeps(x: S.State, y: S.State, poster: S.Tid, wrote: bool, waiter: S.Tid, waiting: bool,
                  wrote': bool, waiting': bool)
    requires Sides(poster, waiter) && y.pcs.Keys == BOTH && S.Reachable(1, BOTH, y)
    requires StepFits(x, y, poster, wrote, waiter, waiting)
    requires wrote' == (wrote && y.value <= x.value) && waiting' == (waiting && y.value >= x.value)
    ensures Fits(y, poster, wrote', waiter, waiting')
  {
    hide S.Reachable;
  }

  lemma OnShadowKeeps(explicitBlock: bool, x: Block, b: S.Action)
    requires Inv(explicitBlock, x) && Enabled(x, OnShadow(b))
    ensures Inv(explicitBlock, Apply(x, OnShadow(b)))
  {
    var s, y := x.s, Apply(x, OnShadow(b));
    WroteMeansEmpty(explicitBlock, s);
    hide Reached, Fits, S.Apply, S.Enabled, MayCall;
    SemaphoreStep(x.q, b, PLUGIN, s.pio.Wrote?, SHADOW, s.sio.Waiting?, x.p);
    ShadowMoves(explicitBlock, s, x.q.value, y.q.value);
    hide Moved, StepFits, P.Apply, P.Enabled;
    StepKeeps(x.q, y.q, PLUGIN, s.pio.Wrote?, SHADOW, s.sio.Waiting?, y.s.pio.Wrote?, y.s.sio.Waiting?);
    FitsStill(x.p, SHADOW, s.sio.Wrote?, PLUGIN, s.pio.Waiting?, y.s.sio.Wrote?, y.s.pio.Waiting?);
  }

  lemma {:induction false} RunInv(explicitBlock: bool, x: Block, acts: seq<Action>, y: Block)
    requires Inv(explicitBlock, x) && Runs(x, acts, y)
    ensures Inv(explicitBlock, y)
    decreases acts
  {
    hide Inv, Enabled, Apply;
    if acts != [] {
      match acts[0] {
        case Program(m) => ProgramKeeps(explicitBlock, x, m);
        case OnPlugin(b) => OnPluginKeeps(explicitBlock, x, b);
        case OnShadow(b) => OnShadowKeeps(explicitBlock, x, b);
      }
      RunInv(explicitBlock, Apply(x, acts[0]), acts[1..], y);
    }
  }

  /** However the atomic accesses of both sides interleave, the programs make a run of the protocol, the
      values of the semaphores are its tokens, both semaphores are in states that the binary discipline
      reaches, and no wake-up is lost. */
  lemma BlockRefinesProtocol(explicitBlock: bool, acts: seq<Action>, x: Block)
    requires Runs(Init(explicitBlock), acts, x)
    ensures exists moves: seq<P.Action> :: P.Runs(P.Init(explicitBlock), moves, x.s)
    ensures x.p.value == x.s.semPlugin && x.q.value == x.s.semShadow && x.p.value + x.q.value <= 1
    ensures S.Reachable(1, BOTH, x.p) && S.Reachable(1, BOTH, x.q)
    ensures !S.Lost(x.p) && !S.Lost(x.q)
  {
    InitInv(explicitBlock);
    RunInv(explicitBlock, Init(explicitBlock), acts, x);
    var moves :| P.Runs(P.Init(explicitBlock), moves, x.s);
    P.SingleToken(explicitBlock, moves, x.s);
    assert |BOTH| == 2;
    S.NoLostWakeupExactly(1, BOTH);
    hide P.Runs, S.Reachable, S.Lost, PosterOk, WaiterOk;
  }

  // ----- nobody gets stuck ------------------------------------------------------------------------------

  predicate NoPanic(x: S.State) { forall t :: t in x.pcs ==> !x.pcs[t].Panicked? }

  /** A thread inside a call can take a step, unless it sleeps. */
  lemma InsideGoesOn(x: S.State, t: S.Tid) returns (b: S.Action)
    requires t in x.pcs && !x.pcs[t].Idle? && !x.pcs[t].Panicked? && !x.pcs[t].Sleeping? && x.value <= 1
    ensures b.Step? && S.Enabled(S.SEM_VALUE_MAX, x, b)
  {
    var woken := t;
    if S.HasSleeper(x) { woken :| woken in x.pcs && x.pcs[woken] == S.Sleeping; }
    b := S.Step(t, false, woken);
  }

  /** Who has something to post can call, or goes on inside the call. */
  lemma PostGoesOn(x: S.State, poster: S.Tid, waiter: S.Tid, waiting: bool, other: S.State) returns (b: S.Action)
    requires Sides(poster, waiter) && NoPanic(x) && Fits(x, poster, true, waiter, waiting) && x.value <= 1
    requires poster in other.pcs && other.pcs[poster] == S.Idle
    ensures !b.Leave? && S.Enabled(S.SEM_VALUE_MAX, x, b) && MayCall(b, poster, true, waiter, waiting, other)
  {
    hide S.Reachable;
    if x.pcs[poster].Idle? {
      b := S.Call(poster, S.BinaryPost);
    } else {
      b := InsideGoesOn(x, poster);
    }
  }

  /** Who waits while a token is there can call or goes on inside the call, or the poster still owes it
      the wake-up. */
  lemma TakeGoesOn(x: S.State, poster: S.Tid, wrote: bool, waiter: S.Tid, other: S.State) returns (b: S.Action)
    requires Sides(poster, waiter) && NoPanic(x) && Fits(x, poster, wrote, waiter, true) && x.value == 1 && !S.Lost(x)
    requires waiter in other.pcs && other.pcs[waiter] == S.Idle
    ensures !b.Leave? && S.Enabled(S.SEM_VALUE_MAX, x, b) && MayCall(b, poster, wrote, waiter, true, other)
  {
    hide S.Reachable;
    if x.pcs[waiter].Idle? {
      b := S.Call(waiter, S.SpinWait(0));
    } else if x.pcs[waiter].Sleeping? {
      assert S.HasSleeper(x);
      var u :| u in x.pcs && S.Helps(x.pcs[u]);
      b := InsideGoesOn(x, u);
    } else {
      b := InsideGoesOn(x, waiter);
    }
  }

  /** Unless an error has made a thread panic, and until the plugin's thread has exited, some step of the
      two threads is possible, however deep they are in their calls. */
  lemma BlockNeverStuck(explicitBlock: bool, acts: seq<Action>, x: Block) returns (a: Action)
    requires Runs(Init(explicitBlock), acts, x) && NoPanic(x.p) && NoPanic(x.q)
    requires !(x.s.pat.Gone? && x.s.pio.Holding?)
    ensures Enabled(x, a) && !(a.OnPlugin? && a.b.Leave?) && !(a.OnShadow? && a.b.Leave?)
  {
    BlockRefinesProtocol(explicitBlock, acts, x);
    InitInv(explicitBlock);
    RunInv(explicitBlock, Init(explicitBlock), acts, x);
    var moves :| P.Runs(P.Init(explicitBlock), moves, x.s);
    var m := P.NeverStuck(explicitBlock, moves, x.s);
    hide Runs, P.Runs, Reached, S.Reachable, S.Lost, S.Enabled, MayCall;
    if m.ShadowPosts? || m.PluginTakes? {
      a := PluginSideGoesOn(explicitBlock, x, m);
    } else if m.PluginPosts? || m.ShadowTakes? {
      a := ShadowSideGoesOn(explicitBlock, x, m);
    } else {
      a := Program(m);
    }
  }

  lemma PluginSideGoesOn(explicitBlock: bool, x: Block, m: P.Action) returns (a: Action)
    requires Inv(explicitBlock, x) && P.Enabled(x.s, m) && (m.ShadowPosts? || m.PluginTakes?)
    requires NoPanic(x.p) && NoPanic(x.q) && x.p.value <= 1 && x.q.value <= 1 && !S.Lost(x.p)
    ensures Enabled(x, a) && !(a.OnPlugin? && a.b.Leave?) && !(a.OnShadow? && a.b.Leave?)
  {
    hide Reached, S.Reachable, S.Lost, S.Enabled, MayCall;
    if m.ShadowPosts? {
      var b := PostGoesOn(x.p, SHADOW, PLUGIN, x.s.pio.Waiting?, x.q);
      a := OnPlugin(b);
    } else if x.q.pcs[PLUGIN].Idle? {
      var b := TakeGoesOn(x.p, SHADOW, x.s.sio.Wrote?, PLUGIN, x.q);
      a := OnPlugin(b);
    } else {
      var b := InsideGoesOn(x.q, PLUGIN);
      a := OnShadow(b);
      assert MayCall(b, PLUGIN, x.s.pio.Wrote?, SHADOW, x.s.sio.Waiting?, x.p) by { StepIsNoCall(x, b); }
    }
  }

  lemma ShadowSideGoesOn(explicitBlock: bool, x: Block, m: P.Action) returns (a: Action)
    requires Inv(explicitBlock, x) && P.Enabled(x.s, m) && (m.PluginPosts? || m.ShadowTakes?)
    requires NoPanic(x.p) && NoPanic(x.q) && x.p.value <= 1 && x.q.value <= 1 && !S.Lost(x.q)
    ensures Enabled(x, a) && !(a.OnPlugin? && a.b.Leave?) && !(a.OnShadow? && a.b.Leave?)
  {
    hide Reached, S.Reachable, S.Lost, S.Enabled, MayCall;
    if m.PluginPosts? {
      var b := PostGoesOn(x.q, PLUGIN, SHADOW, x.s.sio.Waiting?, x.p);
      a := OnShadow(b);
    } else if x.p.pcs[SHADOW].Idle? {
      var b := TakeGoesOn(x.q, PLUGIN, x.s.pio.Wrote?, SHADOW, x.p);
      a := OnShadow(b);
    } else {
      var b := InsideGoesOn(x.p, SHADOW);
      a := OnPlugin(b);
      assert MayCall(b, SHADOW, x.s.sio.Wrote?, PLUGIN, x.s.pio.Waiting?, x.q) by { StepIsNoCall(x, b); }
    }
  }

  lemma StepIsNoCall(x: Block, b: S.Action)
    requires b.Step?
    ensures MayCall(b, PLUGIN, x.s.pio.Wrote?, SHADOW, x.s.sio.Waiting?, x.p)
    ensures MayCall(b, SHADOW, x.s.sio.Wrote?, PLUGIN, x.s.pio.Waiting?, x.q)
  {
  }
}
