/**
 What the schedule alone determines.  The calls of the application, the requests and results of the syscall
 handler and the results of native calls are the inputs of a conversation; every message, every answer and
 the time that the shim shows follow from them as they would from direct calls, with no look at the state of
 either program.
 */
module IpcSchedule {
  import opened IpcProtocol

  /** The call that the application made last. */
  function LastCall(acts: seq<Action>): Option<Call> {
    if acts == [] then None
    else if acts[|acts| - 1].Invoke? then Some(acts[|acts| - 1].call)
    else LastCall(acts[..|acts| - 1])
  }

  /** What Shadow did last for the application: a turn of its loop, a request, or a result. */
  function LastOrder(acts: seq<Action>): Option<Action> {
    if acts == [] then None
    else
      var a := acts[|acts| - 1];
      if a.Dispatch? || a.Ask? || a.Finish? then Some(a) else LastOrder(acts[..|acts| - 1])
  }

  predicate Exits(acts: seq<Action>) { LastCall(acts).Some? && LastCall(acts).value.number == SYS_exit }

  /** What the plugin answers to the order: a request gets its reply, a block message is acknowledged, a
      result needs no answer. */
  function Reply(order: Option<Action>, native: int): seq<Msg> {
    if order.None? then []
    else match order.value
      case Ask(Native(_)) => [ToShadow(Complete(native, 0))]
      case Ask(Memory(_)) => [ToShadow(ShmemComplete)]
      case Ask(AddThread(_)) => [ToShadow(AddThreadParentRes)]
      case Finish(MustBlock, _) => [ToShadow(Block)]
      case _ => []
  }

  /** What one action sends after `before`. */
  function Sends(explicitBlock: bool, before: seq<Action>, a: Action): seq<Msg> {
    match a
    case Invoke(call) => [ToShadow(Syscall(call))]
    case Dispatch(now) =>
      if LastOrder(before).None? then [ToPlugin(Start(now))]
      else if Exits(before) then [ToPlugin(DoNative)] else []
    case Ask(Native(call)) => [ToPlugin(Syscall(call))]
    case Ask(Memory(kind)) => [ToPlugin(MemoryReq(kind))]
    case Ask(AddThread(block)) => [ToPlugin(AddThreadReq(block))]
    case Finish(Done(v), now) => [ToPlugin(Complete(v, now))]
    case Finish(Natively, _) => [ToPlugin(DoNative)]
    case Finish(MustBlock, _) => if explicitBlock then [ToPlugin(Block)] else []
    case Handle(native) => Reply(LastOrder(before), native)
    case _ => []
  }

  function Messages(explicitBlock: bool, acts: seq<Action>): seq<Msg> {
    if acts == [] then []
    else
      var before := acts[..|acts| - 1];
      Messages(explicitBlock, before) + Sends(explicitBlock, before, acts[|acts| - 1])
  }

  /** The results of the handler, each for the call that the application made last. */
  function HandlerServed(acts: seq<Action>): seq<Served> {
    if acts == [] then []
    else
      var before, a := acts[..|acts| - 1], acts[|acts| - 1];
      HandlerServed(before) +
      if a.Finish? && LastCall(before).Some? then [Served(LastCall(before).value, a.result)] else []
  }

  /** How one action answers the application's last call. */
  function AnswersCall(before: seq<Action>, a: Action): seq<Answer> {
    if LastCall(before).None? then []
    else match a
      case Finish(Done(v), now) => [Returned(LastCall(before).value, v, now)]
      case Finish(Natively, _) => [RanNatively(LastCall(before).value)]
      case Dispatch(_) => if Exits(before) then [RanNatively(LastCall(before).value)] else []
      case _ => []
  }

  function Answers(acts: seq<Action>): seq<Answer> {
    if acts == [] then [] else Answers(acts[..|acts| - 1]) + AnswersCall(acts[..|acts| - 1], acts[|acts| - 1])
  }

  /** The time of the start, or of the last result that carries one. */
  function TimeTold(acts: seq<Action>): nat {
    if acts == [] then 0
    else
      var before, a := acts[..|acts| - 1], acts[|acts| - 1];
      if a.Dispatch? && LastOrder(before).None? then a.now
      else if a.Finish? && a.result.Done? then a.now
      else TimeTold(before)
  }

  function Towards(trace: seq<Msg>, plugin: bool): seq<Event> {
    if trace == [] then []
    else
      var m := trace[|trace| - 1];
      Towards(trace[..|trace| - 1], plugin) + if m.ToPlugin? == plugin then [m.e] else []
  }

  // ----- what every step keeps --------------------------------------------------------------------

  /** Where the two programs stand is where the schedule has brought them. */
  predicate Places(explicitBlock: bool, s: State, acts: seq<Action>) {
    && s.explicitBlock == explicitBlock
    && (s.phase == Some(Fresh) <==> LastOrder(acts).None?)
    && (s.phase == Some(Fresh) ==> LastCall(acts).None?)
    && (s.pat.Pending? || s.pat.Handling? ==> LastCall(acts) == Some(s.pat.call))
    && match s.sat
       case Asked(r) => LastOrder(acts) == Some(Ask(r))
       case AwaitAck => LastOrder(acts).Some? && LastOrder(acts).value.Finish? && LastOrder(acts).value.result.MustBlock?
       case AwaitEvent | Over => LastOrder(acts).Some? && Settles(LastOrder(acts).value)
       case _ => true
  }

  predicate Settles(a: Action) { a.Dispatch? || (a.Finish? && !a.result.MustBlock?) }

  predicate Recorded(explicitBlock: bool, s: State, acts: seq<Action>) {
    && s.trace == Messages(explicitBlock, acts)
    && s.sentP == Towards(s.trace, true) && s.sentS == Towards(s.trace, false)
    && s.calls == HandlerServed(acts)
    && s.decided == Answers(acts)
    && s.told == TimeTold(acts)
  }

  lemma LastIs(acts: seq<Action>, a: Action)
    ensures (acts + [a])[..|acts + [a]| - 1] == acts && (acts + [a])[|acts + [a]| - 1] == a
  {
  }

  lemma Extended(explicitBlock: bool, acts: seq<Action>, a: Action)
    ensures LastCall(acts + [a]) == if a.Invoke? then Some(a.call) else LastCall(acts)
    ensures LastOrder(acts + [a]) == if a.Dispatch? || a.Ask? || a.Finish? then Some(a) else LastOrder(acts)
    ensures Messages(explicitBlock, acts + [a]) == Messages(explicitBlock, acts) + Sends(explicitBlock, acts, a)
    ensures HandlerServed(acts + [a]) == HandlerServed(acts) +
              if a.Finish? && LastCall(acts).Some? then [Served(LastCall(acts).value, a.result)] else []
    ensures Answers(acts + [a]) == Answers(acts) + AnswersCall(acts, a)
    ensures TimeTold(acts + [a]) ==
              if (a.Dispatch? && LastOrder(acts).None?) || (a.Finish? && a.result.Done?) then a.now else TimeTold(acts)
  {
    LastIs(acts, a);
    hide Sends, AnswersCall;
  }

  /** What the handler sees when it serves a call: the one that the application made last. */
  lemma ServingLast(explicitBlock: bool, s: State, acts: seq<Action>)
    requires Inv(s) && Places(explicitBlock, s, acts) && s.sio.Holding? && s.current.Syscall?
    ensures LastCall(acts) == Some(s.current.call) && LastOrder(acts).Some?
  {
    OpenIs(s);
    hide Inv;
  }

  /** What the plugin handles is what Shadow ordered last. */
  lemma HandlingLast(explicitBlock: bool, s: State, acts: seq<Action>)
    requires Inv(s) && Places(explicitBlock, s, acts) && s.pio.Holding? && s.pat.Handling?
    ensures LastOrder(acts).Some?
    ensures match s.pat.got
            case Complete(_, _) | DoNative => Settles(LastOrder(acts).value)
            case Block => LastOrder(acts).value.Finish? && LastOrder(acts).value.result.MustBlock?
            case e => RequestOf(e).Some? ==> LastOrder(acts).value == Ask(RequestOf(e).value)
  {
    assert Where(s).AtPlugin?;
    hide Ring, Where, Delivered, BlockedIsCurrent, RetriesSame, AppSees, ClockAgrees, LastOrder, LastCall;
  }

  lemma PlacesInit(explicitBlock: bool)
    ensures Places(explicitBlock, Init(explicitBlock), []) && Recorded(explicitBlock, Init(explicitBlock), [])
  {
  }

  predicate Follows(explicitBlock: bool, s: State, acts: seq<Action>) {
    Places(explicitBlock, s, acts) && Recorded(explicitBlock, s, acts)
  }

  /** A message more, towards either side. */
  lemma OneMessage(trace: seq<Msg>, m: Msg)
    ensures Towards(trace + [m], true) == Towards(trace, true) + if m.ToPlugin? then [m.e] else []
    ensures Towards(trace + [m], false) == Towards(trace, false) + if m.ToPlugin? then [] else [m.e]
  {
    assert (trace + [m])[..|trace|] == trace;
  }

  lemma QuietFollows(explicitBlock: bool, s: State, acts: seq<Action>, a: Action)
    requires Follows(explicitBlock, s, acts) && Enabled(s, a)
    requires !a.Dispatch? && !a.Ask? && !a.Finish? && !a.Invoke? && !a.Handle?
    ensures Follows(explicitBlock, Apply(s, a), acts + [a])
  {
    Extended(explicitBlock, acts, a);
    hide LastCall, LastOrder, Messages, HandlerServed, Answers, TimeTold, Towards;
  }

  lemma DispatchFollows(explicitBlock: bool, s: State, acts: seq<Action>, now: nat)
    requires Inv(s) && Follows(explicitBlock, s, acts) && Enabled(s, Dispatch(now))
    ensures Follows(explicitBlock, Apply(s, Dispatch(now)), acts + [Dispatch(now)])
  {
    hide Inv, LastCall, LastOrder, Messages, HandlerServed, Answers, TimeTold, Towards;
    Extended(explicitBlock, acts, Dispatch(now));
    if s.current.Start? {
      FreshIs(s);
      OneMessage(s.trace, ToPlugin(Start(now)));
    } else if s.current.Syscall? {
      OpenIs(s);
      ServingLast(explicitBlock, s, acts);
      OneMessage(s.trace, ToPlugin(DoNative));
    } else {
      NotComplete(s);
    }
  }

  lemma AppIs(s: State)
    requires Inv(s) && s.pio.Holding? && s.pat.App?
    ensures s.phase == Some(Running) && s.sat.AwaitEvent?
  {
    assert Where(s).AtPlugin?;
    hide Ring, Where, Delivered, BlockedIsCurrent, RetriesSame, AppSees, ClockAgrees;
  }

  lemma HandlingIs(s: State)
    requires Inv(s) && s.pio.Holding? && s.pat.Handling?
    ensures s.phase.Some? && !s.phase.value.Fresh?
  {
    assert Where(s).AtPlugin?;
    hide Ring, Where, Delivered, BlockedIsCurrent, RetriesSame, AppSees, ClockAgrees;
  }

  lemma NotComplete(s: State)
    requires Inv(s) && s.sio.Holding? && s.sat.Looping?
    ensures !s.current.Complete?
  {
    assert Where(s).AtShadow?;
    hide Ring, Where, Delivered, BlockedIsCurrent, RetriesSame, AppSees, ClockAgrees;
  }

  lemma AskFollows(explicitBlock: bool, s: State, acts: seq<Action>, r: Request)
    requires Inv(s) && Follows(explicitBlock, s, acts) && Enabled(s, Ask(r))
    ensures Follows(explicitBlock, Apply(s, Ask(r)), acts + [Ask(r)])
  {
    hide Inv, LastCall, LastOrder, Messages, HandlerServed, Answers, TimeTold, Towards;
    Extended(explicitBlock, acts, Ask(r));
    ServingHasCall(s);
    OpenIs(s);
    ServingLast(explicitBlock, s, acts);
    OneMessage(s.trace, ToPlugin(Asking(r)));
  }

  lemma FinishFollows(explicitBlock: bool, s: State, acts: seq<Action>, result: Result, now: nat)
    requires Inv(s) && Follows(explicitBlock, s, acts) && Enabled(s, Finish(result, now))
    ensures Follows(explicitBlock, Apply(s, Finish(result, now)), acts + [Finish(result, now)])
  {
    hide Inv, LastCall, LastOrder, Messages, HandlerServed, Answers, TimeTold, Towards;
    Extended(explicitBlock, acts, Finish(result, now));
    OpenIs(s);
    ServingLast(explicitBlock, s, acts);
    var e := match result case Done(v) => Complete(v, now) case Natively => DoNative case MustBlock => Block;
    OneMessage(s.trace, ToPlugin(e));
  }

  lemma InvokeFollows(explicitBlock: bool, s: State, acts: seq<Action>, call: Call)
    requires Inv(s) && Follows(explicitBlock, s, acts) && Enabled(s, Invoke(call))
    ensures Follows(explicitBlock, Apply(s, Invoke(call)), acts + [Invoke(call)])
  {
    hide Inv, LastCall, LastOrder, Messages, HandlerServed, Answers, TimeTold, Towards;
    Extended(explicitBlock, acts, Invoke(call));
    AppIs(s);
    OneMessage(s.trace, ToShadow(Syscall(call)));
  }

  lemma HandleFollows(explicitBlock: bool, s: State, acts: seq<Action>, native: int)
    requires Inv(s) && Follows(explicitBlock, s, acts) && Enabled(s, Handle(native))
    ensures Follows(explicitBlock, Apply(s, Handle(native)), acts + [Handle(native)])
  {
    hide Inv, LastCall, LastOrder, Messages, HandlerServed, Answers, TimeTold, Towards;
    Extended(explicitBlock, acts, Handle(native));
    HandlingLast(explicitBlock, s, acts);
    var reply := Reply(LastOrder(acts), native);
    if reply != [] { OneMessage(s.trace, reply[0]); }
    HandlingIs(s);
  }

  lemma StepFollows(explicitBlock: bool, s: State, acts: seq<Action>, a: Action)
    requires Inv(s) && Follows(explicitBlock, s, acts) && Enabled(s, a)
    ensures Follows(explicitBlock, Apply(s, a), acts + [a])
  {
    hide *;
    match a {
      case Dispatch(now) => DispatchFollows(explicitBlock, s, acts, now);
      case Ask(r) => AskFollows(explicitBlock, s, acts, r);
      case Finish(result, now) => FinishFollows(explicitBlock, s, acts, result, now);
      case Invoke(call) => InvokeFollows(explicitBlock, s, acts, call);
      case Handle(native) => HandleFollows(explicitBlock, s, acts, native);
      case _ => QuietFollows(explicitBlock, s, acts, a);
    }
  }

  // ----- whole runs -------------------------------------------------------------------------------

  /** The last step of a run. */
  lemma {:induction false} RunsFront(s0: State, acts: seq<Action>, s: State) returns (m: State)
    requires acts != [] && Runs(s0, acts, s)
    ensures Runs(s0, acts[..|acts| - 1], m) && Enabled(m, acts[|acts| - 1]) && s == Apply(m, acts[|acts| - 1])
    decreases |acts|
  {
    hide Enabled, Apply;
    if |acts| == 1 {
      m := s0;
      assert Runs(s0, [], s0) && Runs(Apply(s0, acts[0]), [], s);
    } else {
      m := RunsFront(Apply(s0, acts[0]), acts[1..], s);
      assert acts[1..][..|acts| - 2] == acts[..|acts| - 1][1..];
      assert Runs(s0, acts[..|acts| - 1], m);
    }
  }

  lemma {:induction false} RunFollows(explicitBlock: bool, acts: seq<Action>, s: State)
    requires Runs(Init(explicitBlock), acts, s)
    ensures Inv(s) && Follows(explicitBlock, s, acts)
    decreases |acts|
  {
    hide Inv, Enabled, Apply, Follows;
    if acts == [] {
      InitInv(explicitBlock);
      NothingFollows(explicitBlock);
    } else {
      var front, last := acts[..|acts| - 1], acts[|acts| - 1];
      var m := RunsFront(Init(explicitBlock), acts, s);
      RunFollows(explicitBlock, front, m);
      StepInv(m, last);
      StepFollows(explicitBlock, m, front, last);
      assert front + [last] == acts;
    }
  }

  lemma NothingFollows(explicitBlock: bool)
    ensures Follows(explicitBlock, Init(explicitBlock), [])
  {
  }

  /** The inputs of a run determine all that is said: every message in either direction, every result of
      the handler with the call it is for, and the answers.  Whenever the application runs it has got
      exactly the handler's answers, and its clock shows the time that the last of them told. */
  lemma ScheduleDecides(explicitBlock: bool, acts: seq<Action>, s: State)
    requires Runs(Init(explicitBlock), acts, s)
    ensures s.trace == Messages(explicitBlock, acts)
    ensures s.readP <= Towards(s.trace, true) && s.readS <= Towards(s.trace, false)
    ensures s.calls == HandlerServed(acts)
    ensures s.seen <= Answers(acts) && |Answers(acts)| <= |s.seen| + 1
    ensures s.pat.App? && s.pio.Holding? ==> s.seen == Answers(acts) && s.shimTime == TimeTold(acts)
    ensures s.pat.Gone? ==> s.seen == Answers(acts)
  {
    RunFollows(explicitBlock, acts, s);
    hide Runs, Messages, HandlerServed, Answers, TimeTold, Towards, Places, RetriesSame, BlockedIsCurrent;
  }

  /** The result of the handler is the answer to the call that the application made last: the value it
      returned, at the time it returned it, or that the call ran natively. */
  lemma ResultIsAnswer(explicitBlock: bool, acts: seq<Action>, s: State, result: Result, now: nat)
    requires Runs(Init(explicitBlock), acts, s) && Enabled(s, Finish(result, now)) && !result.MustBlock?
    ensures LastCall(acts).Some? && LastCall(acts).value.number != SYS_exit
    ensures var c, n := LastCall(acts).value, Apply(s, Finish(result, now));
            && Answers(acts + [Finish(result, now)]) == Answers(acts) +
                 [if result.Done? then Returned(c, result.retval, now) else RanNatively(c)]
            && n.slotPlugin == (if result.Done? then Complete(result.retval, now) else DoNative)
            && n.decided == Answers(acts + [Finish(result, now)])
  {
    RunFollows(explicitBlock, acts, s);
    OpenIs(s);
    ServingLast(explicitBlock, s, acts);
    StepFollows(explicitBlock, s, acts, Finish(result, now));
    Extended(explicitBlock, acts, Finish(result, now));
    hide Inv, Runs, Places, Messages, HandlerServed, Answers, TimeTold, Towards, LastCall, LastOrder;
  }

  lemma ThreeRuns(t: State, u1: State, u2: State, u: State)
    requires Enabled(t, PluginPosts) && u1 == Apply(t, PluginPosts)
    requires Enabled(u1, ShadowTakes) && u2 == Apply(u1, ShadowTakes)
    requires Enabled(u2, ShadowReads) && u == Apply(u2, ShadowReads)
    ensures Runs(t, [PluginPosts, ShadowTakes, ShadowReads], u)
  {
    hide Enabled, Apply;
    assert Runs(u, [], u);
    assert [ShadowReads][1..] == [] && Runs(u2, [ShadowReads], u);
    assert [ShadowTakes, ShadowReads][1..] == [ShadowReads] && Runs(u1, [ShadowTakes, ShadowReads], u);
    assert [PluginPosts, ShadowTakes, ShadowReads][1..] == [ShadowTakes, ShadowReads];
  }

  lemma NativeIsReady(explicitBlock: bool, s: State, acts: seq<Action>)
    requires Inv(s) && Places(explicitBlock, s, acts) && s.pio.Holding? && s.pat.Handling?
    requires LastOrder(acts).Some? && LastOrder(acts).value.Ask? && LastOrder(acts).value.request.Native?
    ensures s.sat == Asked(LastOrder(acts).value.request) && s.pat.got.Syscall?
    ensures s.sio.Waiting? && s.semPlugin == s.semShadow == 0
  {
    assert Where(s).AtPlugin?;
    hide Delivered, BlockedIsCurrent, RetriesSame, AppSees, ClockAgrees, LastOrder, LastCall;
  }

  /** A native call that the handler asks for: Shadow's next read takes the value that the call returned at
      the plugin, and the handler goes on. */
  lemma NativeResultIsRead(explicitBlock: bool, acts: seq<Action>, s: State, native: int)
    requires Runs(Init(explicitBlock), acts, s) && Enabled(s, Handle(native))
    requires LastOrder(acts).Some? && LastOrder(acts).value.Ask? && LastOrder(acts).value.request.Native?
    ensures var t := Apply(s, Handle(native));
            exists u :: Runs(t, [PluginPosts, ShadowTakes, ShadowReads], u) && u.sat.Serving? && u.sio.Holding? && u.current == s.current
                        && u.readS == s.readS + [Complete(native, 0)]
  {
    hide Inv, Places, Recorded, LastOrder, LastCall, Messages, Answers, Runs;
    RunFollows(explicitBlock, acts, s);
    NativeIsReady(explicitBlock, s, acts);
    var t := Apply(s, Handle(native));
    var u1 := Apply(t, PluginPosts);
    var u2 := Apply(u1, ShadowTakes);
    var u := Apply(u2, ShadowReads);
    ThreeRuns(t, u1, u2, u);
  }
}
