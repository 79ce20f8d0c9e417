/**
 What becomes of Shadow when the plugin dies (ipcData_markPluginExited): from then on only Shadow takes
 steps, every receive of it returns STOP, and the mark has posted its semaphore once more.  The cleanup
 is reached by STOP, by the exit call, or from outside when the process is stopped
 (threadpreload_handleProcessExit), which needs the thread to have returned from its resume.
 */
module IpcDeath {
  import opened IpcProtocol

  /** `checked` says that assertions are compiled in (utility_assert is empty otherwise), `stop` that the
      current event is STOP, `failed` that the assertion on a reply failed. */
  datatype Dead = Dead(s: State, checked: bool, stop: bool, failed: bool, cleaned: bool)

  /** A step of threadpreload_resume, or process_stop and whatever else handles the process's exit. */
  datatype Step = Move(a: Action) | ProcessExit

  /** The watcher of child processes marks the plugin of `s` as exited. */
  function Mark(s: State, checked: bool): Dead {
    Dead(s.(semShadow := s.semShadow + 1), checked, false, false, false)
  }

  predicate MoveEnabled(d: Dead, a: Action) {
    match a
    case Dispatch(_) => if d.stop then d.s.sio.Holding? && d.s.sat.Looping? else Enabled(d.s, a)
    case Resume | Ask(_) | Finish(_, _) | ShadowPosts | ShadowTakes => Enabled(d.s, a)
    case ShadowReads => d.s.sio.Woken? && (d.s.sat.Asked? || d.s.sat.AwaitAck? || d.s.sat.AwaitEvent?)
    case _ => false
  }

  predicate DeadEnabled(d: Dead, a: Step) {
    && !d.failed && !d.cleaned
    && match a
       case Move(m) => MoveEnabled(d, m)
       case ProcessExit => d.s.sio.Holding? && d.s.sat.Resting?
  }

  /** The three places where Shadow receives make different things of STOP. */
  function ReadStop(d: Dead): Dead
    requires MoveEnabled(d, ShadowReads)
  {
    var t := d.s.(sio := Holding);
    match d.s.sat
    case AwaitEvent => d.(s := t.(sat := Looping), stop := true)
    case AwaitAck => d.(s := t.(sat := Resting))
    case Asked(_) => if d.checked then d.(s := t, failed := true) else d.(s := t.(sat := Serving))
  }

  function DeadApply(d: Dead, a: Step): Dead
    requires DeadEnabled(d, a)
  {
    match a
    case ProcessExit => d.(cleaned := true)
    case Move(m) =>
      if m.ShadowReads? then ReadStop(d)
      else if m.Dispatch? && d.stop then d.(cleaned := true)
      else d.(s := Apply(d.s, m))
  }

  predicate DeadRuns(d: Dead, acts: seq<Step>, e: Dead)
    decreases acts
  { if acts == [] then d == e else DeadEnabled(d, acts[0]) && DeadRuns(DeadApply(d, acts[0]), acts[1..], e) }

  /** Shadow has reached _threadpreload_cleanup. */
  predicate Cleaned(d: Dead) { d.cleaned || d.s.sat.Over? }

  ghost predicate CanClean(d: Dead) { exists acts: seq<Step>, e: Dead :: DeadRuns(d, acts, e) && Cleaned(e) }

  /** Whatever happens next, the cleanup stays possible. */
  ghost predicate MustClean(d: Dead) { forall acts: seq<Step>, e: Dead :: DeadRuns(d, acts, e) ==> CanClean(e) }

  /** The posts that Shadow has yet to read. */
  function Posts(d: Dead): nat { Posted(d.s) }

  function Posted(s: State): nat { s.semShadow + if s.sio.Woken? then 1 else 0 }

  predicate ExitCalled(s: State) { s.current.Syscall? && s.current.call.number == SYS_exit }

  /** The current event is a call that the handler serves. */
  predicate Serves(s: State) { s.current.Syscall? && s.current.call.number != SYS_exit && !Unexpected(s) }

  predicate Receiving(s: State) { s.sio.Wrote? || s.sio.Waiting? || s.sio.Woken? }

  /** The call can block and Shadow then rests without a receive. */
  predicate RestsAtOnce(s: State) { !s.explicitBlock && s.current.Syscall? && s.current.call.number >= 0 }

  // ----- where Shadow can stand -------------------------------------------------------------------

  predicate Standing(d: Dead) {
    || Cleaned(d)
    || (d.failed && !d.stop && d.s.sat.Asked?)
    || (d.stop && !d.failed && d.s.sat.Looping? && d.s.sio.Holding?)
    || (&& !d.stop && !d.failed
        && match d.s.sat
           case Resting | Looping =>
             d.s.sio.Holding? && (Serves(d.s) || ExitCalled(d.s) || (d.s.current.Start? && Posts(d) >= 1))
           case Serving => d.s.sio.Holding? && Serves(d.s)
           case AwaitEvent => Receiving(d.s)
           case AwaitAck | Asked(_) => Receiving(d.s) && Serves(d.s)
           case Over => true)
  }

  /** The posts and the places of Shadow that may be found when the mark comes. */
  lemma Stands(s: State, checked: bool)
    requires Inv(s)
    ensures Standing(Mark(s, checked))
    ensures Posted(s) <= 1
  {
    assert Tokens(s) == 1;
    hide Delivered, AppSees, ClockAgrees, Retried;
  }

  /** The steps of the syscall handler. */
  predicate Handler(a: Action) { a.Ask? || a.Finish? }

  lemma StandingStep(d: Dead, a: Step)
    requires Standing(d) && DeadEnabled(d, a)
    ensures Standing(DeadApply(d, a))
  {
    if a.Move? && Handler(a.a) { StandingHandler(d, a.a); } else { StandingControl(d, a); }
    hide *;
  }

  lemma StandingHandler(d: Dead, a: Action)
    requires Standing(d) && DeadEnabled(d, Move(a)) && Handler(a)
    ensures Standing(DeadApply(d, Move(a)))
  {
  }

  lemma StandingControl(d: Dead, a: Step)
    requires Standing(d) && DeadEnabled(d, a) && !(a.Move? && Handler(a.a))
    ensures Standing(DeadApply(d, a))
  {
  }

  lemma {:induction false} StandingStays(d: Dead, acts: seq<Step>, e: Dead)
    requires Standing(d) && DeadRuns(d, acts, e)
    ensures Standing(e)
    decreases acts
  {
    hide Standing, DeadEnabled, DeadApply;
    if acts != [] {
      StandingStep(d, acts[0]);
      StandingStays(DeadApply(d, acts[0]), acts[1..], e);
    }
  }

  // ----- when the cleanup is lost -----------------------------------------------------------------

  /** Every way on leads to a receive for which no post is left, or to the failed assertion. */
  predicate Doomed(d: Dead) {
    && !d.stop && !Cleaned(d)
    && (d.failed ||
        match d.s.sat
        case Looping | Serving => Posts(d) == 0 && Serves(d.s) && !RestsAtOnce(d.s)
        case AwaitEvent | AwaitAck => Posts(d) == 0
        case Asked(_) => d.checked || Posts(d) == 0 || (Posts(d) == 1 && Serves(d.s) && !RestsAtOnce(d.s))
        case _ => false)
  }

  lemma DoomedStep(d: Dead, a: Step)
    requires Doomed(d) && DeadEnabled(d, a)
    ensures Doomed(DeadApply(d, a))
  {
    if a.Move? && Handler(a.a) { DoomedHandler(d, a.a); } else { DoomedControl(d, a); }
    hide *;
  }

  lemma DoomedHandler(d: Dead, a: Action)
    requires Doomed(d) && DeadEnabled(d, Move(a)) && Handler(a)
    ensures Doomed(DeadApply(d, Move(a)))
  {
  }

  lemma DoomedControl(d: Dead, a: Step)
    requires Doomed(d) && DeadEnabled(d, a) && !(a.Move? && Handler(a.a))
    ensures Doomed(DeadApply(d, a))
  {
  }

  lemma {:induction false} DoomedStays(d: Dead, acts: seq<Step>, e: Dead)
    requires Doomed(d) && DeadRuns(d, acts, e)
    ensures Doomed(e)
    decreases acts
  {
    hide Doomed, DeadEnabled, DeadApply;
    if acts != [] {
      DoomedStep(d, acts[0]);
      DoomedStays(DeadApply(d, acts[0]), acts[1..], e);
    }
  }

  lemma DoomedCannotClean(d: Dead)
    requires Doomed(d)
    ensures !CanClean(d)
  {
    forall acts: seq<Step>, e: Dead | DeadRuns(d, acts, e) ensures !Cleaned(e) {
      DoomedStays(d, acts, e);
    }
  }

  // ----- when the cleanup is possible ---------------------------------------------------------------

  /** The way to the nearest cleanup. */
  function TowardsCleanup(d: Dead): Step {
    match d.s.sat
    case Resting => ProcessExit
    case Looping => Move(Dispatch(0))
    case Serving => if Posts(d) == 0 then Move(Finish(MustBlock, 0)) else Move(Finish(Done(0), 0))
    case _ => if d.s.sio.Wrote? then Move(ShadowPosts) else if d.s.sio.Waiting? then Move(ShadowTakes) else Move(ShadowReads)
  }

  function Distance(d: Dead): nat {
    if Cleaned(d) then 0
    else
      var io := if d.s.sio.Wrote? then 3 else if d.s.sio.Waiting? then 2 else 1;
      match d.s.sat
      case Resting => 1
      case Looping => if d.stop then 1 else 7
      case Serving => 6
      case AwaitEvent | AwaitAck => 1 + io
      case _ => 6 + io
  }

  lemma HopefulStep(d: Dead)
    requires Standing(d) && !Doomed(d) && !Cleaned(d)
    ensures var a := TowardsCleanup(d);
            && DeadEnabled(d, a) && !Doomed(DeadApply(d, a)) && Distance(DeadApply(d, a)) < Distance(d)
  {
    if d.s.sat.Resting? || d.s.sat.Looping? || d.s.sat.Serving? { HopefulHolds(d); } else { HopefulReceives(d); }
    hide *;
  }

  lemma HopefulHolds(d: Dead)
    requires Standing(d) && !Doomed(d) && !Cleaned(d) && (d.s.sat.Resting? || d.s.sat.Looping? || d.s.sat.Serving?)
    ensures var a := TowardsCleanup(d);
            && DeadEnabled(d, a) && !Doomed(DeadApply(d, a)) && Distance(DeadApply(d, a)) < Distance(d)
  {
  }

  lemma HopefulReceives(d: Dead)
    requires Standing(d) && !Doomed(d) && (d.s.sat.AwaitEvent? || d.s.sat.AwaitAck? || d.s.sat.Asked?) && !d.cleaned
    ensures var a := TowardsCleanup(d);
            && DeadEnabled(d, a) && !Doomed(DeadApply(d, a)) && Distance(DeadApply(d, a)) < Distance(d)
  {
  }

  /** Unless Shadow is lost, the steps that lead it to its cleanup. */
  lemma {:induction false} HopefulCanClean(d: Dead) returns (acts: seq<Step>, e: Dead)
    requires Standing(d) && !Doomed(d)
    ensures DeadRuns(d, acts, e) && Cleaned(e)
    decreases Distance(d)
  {
    if Cleaned(d) {
      acts, e := [], d;
    } else {
      var a := TowardsCleanup(d);
      HopefulStep(d);
      StandingStep(d, a);
      hide Standing, Doomed, Distance, DeadEnabled, DeadApply, Cleaned;
      acts, e := HopefulCanClean(DeadApply(d, a));
      assert ([a] + acts)[1..] == acts;
      acts := [a] + acts;
    }
  }

  lemma Possible(d: Dead, acts: seq<Step>, e: Dead)
    requires DeadRuns(d, acts, e) && Cleaned(e)
    ensures CanClean(d)
  {
  }

  lemma CanCleanExactly(d: Dead)
    requires Standing(d)
    ensures CanClean(d) <==> !Doomed(d)
  {
    hide CanClean;
    if Doomed(d) {
      DoomedCannotClean(d);
    } else {
      var acts, e := HopefulCanClean(d);
      Possible(d, acts, e);
    }
  }

  /** The mark suffices unless Shadow waits for the answer to a request and either the assertion on it
      fails or the one post goes to that answer and the call cannot rest without a receive. */
  predicate MarkIsEnough(s: State, checked: bool) {
    s.sat.Asked? ==> !checked && (Posted(s) > 0 || RestsAtOnce(s))
  }

  /** After the mark the cleanup is possible exactly if Shadow does not wait for the answer to a request;
      without assertions also if that answer has been posted, or the call can rest without a receive. */
  lemma CleanupPossibleExactly(explicitBlock: bool, checked: bool, acts: seq<Action>, s: State)
    requires Runs(Init(explicitBlock), acts, s)
    ensures CanClean(Mark(s, checked)) <==> MarkIsEnough(s, checked)
    ensures checked ==> (CanClean(Mark(s, checked)) <==> !s.sat.Asked?)
  {
    InitInv(explicitBlock);
    RunInv(Init(explicitBlock), acts, s);
    Stands(s, checked);
    hide Inv, Runs, CanClean;
    CanCleanExactly(Mark(s, checked));
    assert Doomed(Mark(s, checked)) <==> !MarkIsEnough(s, checked);
  }

  /** At any time after the mark the cleanup is lost exactly in the places named by Doomed. */
  lemma CleanupLostExactly(explicitBlock: bool, checked: bool, acts: seq<Action>, s: State, more: seq<Step>, e: Dead)
    requires Runs(Init(explicitBlock), acts, s) && DeadRuns(Mark(s, checked), more, e)
    ensures CanClean(e) <==> !Doomed(e)
    ensures e.s.sat.Resting? ==> CanClean(e)
  {
    InitInv(explicitBlock);
    RunInv(Init(explicitBlock), acts, s);
    Stands(s, checked);
    StandingStays(Mark(s, checked), more, e);
    CanCleanExactly(e);
    hide Inv, Runs, CanClean, DeadRuns;
  }

  // ----- when the cleanup is certain ------------------------------------------------------------------

  /** The receive that takes the mark's post must be that of an event, or none is needed any more. */
  predicate MarkIsCertain(s: State) {
    s.sat.AwaitEvent? || s.sat.Over? || ((s.sat.Resting? || s.sat.Looping?) && (s.current.Start? || ExitCalled(s)))
  }

  predicate Certain(d: Dead) {
    !d.failed &&
      (|| Cleaned(d)
       || (d.stop && d.s.sat.Looping? && d.s.sio.Holding?)
       || (!d.stop && (d.s.sat.Resting? || d.s.sat.Looping?) && d.s.sio.Holding? && ExitCalled(d.s))
       || (!d.stop && (d.s.sat.Resting? || d.s.sat.Looping?) && d.s.sio.Holding? && d.s.current.Start? && Posts(d) >= 1)
       || (!d.stop && d.s.sat.AwaitEvent? && Receiving(d.s) && Posts(d) >= 1))
  }

  lemma CertainStep(d: Dead, a: Step)
    requires Certain(d) && DeadEnabled(d, a)
    ensures Certain(DeadApply(d, a))
  {
  }

  lemma {:induction false} CertainStays(d: Dead, acts: seq<Step>, e: Dead)
    requires Certain(d) && DeadRuns(d, acts, e)
    ensures Certain(e) && Standing(e) && !Doomed(e)
    decreases acts
  {
    if acts != [] {
      CertainStep(d, acts[0]);
      hide Certain, DeadEnabled, DeadApply, Standing, Doomed;
      CertainStays(DeadApply(d, acts[0]), acts[1..], e);
    }
  }

  /** The handler may still ask something of the dead plugin. */
  predicate Risky(d: Dead) {
    && !d.stop && !d.failed && !d.cleaned && Serves(d.s)
    && match d.s.sat
       case Resting | Looping | Serving => d.s.sio.Holding?
       case Asked(_) | AwaitAck => Receiving(d.s)
       case _ => false
  }

  /** The way to the loss of the cleanup: ask until no post is left. */
  function TowardsLoss(d: Dead): Step {
    match d.s.sat
    case Resting => Move(Resume)
    case Looping => Move(Dispatch(0))
    case Serving => Move(Ask(Memory(0)))
    case _ => if d.s.sio.Wrote? then Move(ShadowPosts) else if d.s.sio.Waiting? then Move(ShadowTakes) else Move(ShadowReads)
  }

  function Rank(d: Dead): nat {
    8 * Posts(d) +
    match d.s.sat
    case Resting => 6
    case Looping => 5
    case Serving => 4
    case _ => if d.s.sio.Wrote? then 3 else if d.s.sio.Waiting? then 2 else 1
  }

  lemma RiskyStep(d: Dead)
    requires Risky(d) && !Doomed(d)
    ensures var a := TowardsLoss(d);
            && DeadEnabled(d, a) && Risky(DeadApply(d, a)) && Rank(DeadApply(d, a)) < Rank(d)
  {
  }

  lemma {:induction false} RiskyCanFail(d: Dead) returns (acts: seq<Step>, e: Dead)
    requires Risky(d)
    ensures DeadRuns(d, acts, e) && Doomed(e)
    decreases Rank(d)
  {
    if Doomed(d) {
      acts, e := [], d;
    } else {
      var a := TowardsLoss(d);
      RiskyStep(d);
      hide Risky, Rank, DeadEnabled, DeadApply, Doomed;
      acts, e := RiskyCanFail(DeadApply(d, a));
      assert ([a] + acts)[1..] == acts;
      acts := [a] + acts;
    }
  }

  /** After the mark the cleanup stays possible whatever happens exactly if Shadow waits for an event, has
      yet to start the thread, or lets it exit; with and without assertions. */
  lemma CleanupCertainExactly(explicitBlock: bool, checked: bool, acts: seq<Action>, s: State)
    requires Runs(Init(explicitBlock), acts, s)
    ensures MustClean(Mark(s, checked)) <==> MarkIsCertain(s)
  {
    InitInv(explicitBlock);
    RunInv(Init(explicitBlock), acts, s);
    Stands(s, checked);
    hide Inv, Runs, CanClean;
    var d := Mark(s, checked);
    if MarkIsCertain(s) {
      assert Certain(d);
      hide Certain, Standing, Doomed;
      forall more: seq<Step>, e: Dead | DeadRuns(d, more, e) ensures CanClean(e) {
        CertainStays(d, more, e);
        CanCleanExactly(e);
      }
    } else {
      assert Risky(d);
      hide Risky, Standing, Doomed;
      var more, e := RiskyCanFail(d);
      DoomedCannotClean(e);
    }
  }

  // ----- a run that loses the STOP ----------------------------------------------------------------------

  lemma Extend(s0: State, acts: seq<Action>, s: State, a: Action) returns (more: seq<Action>, n: State)
    requires Runs(s0, acts, s) && Enabled(s, a)
    ensures n == Apply(s, a) && Runs(s0, more, n)
  {
    RunsThen(s0, acts, s, a);
    more, n := acts + [a], Apply(s, a);
  }

  /** The plugin runs its application. */
  lemma ReachesApp() returns (acts: seq<Action>, s: State)
    ensures Runs(Init(true), acts, s) && s.explicitBlock && s.semPlugin == s.semShadow == 0 && s.blockedNR == -1
    ensures s.pat.App? && s.pio.Holding? && s.sat.AwaitEvent? && s.sio.Waiting?
  {
    var s0 := Init(true);
    hide Runs;
    assert Runs(s0, [], s0) by { StaysPut(s0); }
    acts, s := Extend(s0, [], s0, Resume);
    acts, s := Extend(s0, acts, s, Dispatch(0));
    acts, s := Extend(s0, acts, s, ShadowPosts);
    acts, s := Extend(s0, acts, s, PluginTakes);
    acts, s := Extend(s0, acts, s, PluginReads);
  }

  lemma StaysPut(s: State)
    ensures Runs(s, [], s)
  {
  }

  /** Shadow serves a call of the plugin. */
  lemma ReachesServing(call: Call) returns (acts: seq<Action>, s: State)
    requires call.number != SYS_exit
    ensures Runs(Init(true), acts, s) && s.explicitBlock
    ensures s.sat.Serving? && s.sio.Holding? && s.current == Syscall(call) && s.semPlugin == s.semShadow == 0
  {
    acts, s := ReachesApp();
    hide Runs;
    acts, s := Extend(Init(true), acts, s, Invoke(call));
    acts, s := Extend(Init(true), acts, s, PluginPosts);
    acts, s := Extend(Init(true), acts, s, ShadowTakes);
    acts, s := Extend(Init(true), acts, s, ShadowReads);
    acts, s := Extend(Init(true), acts, s, Dispatch(0));
  }

  /** The plugin dies while Shadow awaits the acknowledgement of a block message: the STOP is read there
      and dropped, and no post is left.  The cleanup can still come from outside, if the process is stopped
      while the thread rests; once the thread is resumed it is lost. */
  lemma StopIsDropped(call: Call, checked: bool) returns (acts: seq<Action>, s: State, e: Dead)
    requires call.number >= 0 && call.number != SYS_exit
    ensures Runs(Init(true), acts, s) && s.sat.AwaitAck? && Tokens(Mark(s, checked).s) == 2
    ensures DeadRuns(Mark(s, checked), [Move(ShadowTakes), Move(ShadowReads)], e)
    ensures e.s.sat.Resting? && !e.stop && Posts(e) == 0 && CanClean(e)
    ensures DeadEnabled(e, Move(Resume)) && !CanClean(DeadApply(e, Move(Resume)))
  {
    var s0;
    acts, s0 := ReachesServing(call);
    var s1 := Apply(s0, Finish(MustBlock, 0));
    s := Apply(s1, ShadowPosts);
    RunsThen(Init(true), acts, s0, Finish(MustBlock, 0));
    RunsThen(Init(true), acts + [Finish(MustBlock, 0)], s1, ShadowPosts);
    acts := acts + [Finish(MustBlock, 0)] + [ShadowPosts];
    SingleToken(true, acts, s);
    hide Runs, CanClean;
    var d := DeadApply(Mark(s, checked), Move(ShadowTakes));
    e := DeadApply(d, Move(ShadowReads));
    assert DeadRuns(e, [], e);
    assert DeadRuns(d, [Move(ShadowReads)], e);
    CanCleanExactly(e);
    DoomedCannotClean(DeadApply(e, Move(Resume)));
  }
}
