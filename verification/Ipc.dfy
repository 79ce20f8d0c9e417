/**
 Control transfer between Shadow and one plugin thread over one IPC block (ipc.cc, thread_preload.c,
 preload_syscall.c): two message slots, two binary semaphores, and the two programs that use them.  A
 send is two steps, the write of the slot and the post; a receive is two steps, the take and the read.
 */
module IpcProtocol {

  const SYS_exit: int := 60

  datatype Call = Call(number: int, args: seq<int>)

  datatype Event =
    | Start(nanos: nat)
    | Syscall(call: Call)
    | Complete(retval: int, nanos: nat)
    | DoNative
    | Block
    | MemoryReq(kind: nat)
    | ShmemComplete
    | AddThreadReq(block: nat)
    | AddThreadParentRes

  /** What a syscall handler may ask of the plugin before it answers. */
  datatype Request = Native(call: Call) | Memory(kind: nat) | AddThread(block: nat)

  function Asking(r: Request): Event {
    match r
    case Native(call) => Syscall(call)
    case Memory(kind) => MemoryReq(kind)
    case AddThread(block) => AddThreadReq(block)
  }

  predicate Answers(r: Request, e: Event) {
    match r
    case Native(_) => e.Complete?
    case Memory(_) => e.ShmemComplete?
    case AddThread(_) => e.AddThreadParentRes?
  }

  /** What a syscall handler returns. */
  datatype Result = Done(retval: int) | Natively | MustBlock

  /** What became of a syscall in the end. */
  datatype Answer = Returned(call: Call, retval: int, nanos: nat) | RanNatively(call: Call)

  datatype Served = Served(call: Call, result: Result)

  datatype Io = Holding | Wrote | Waiting | Woken | Ended

  datatype ShadowAt = Resting | Looping | Serving | Asked(request: Request) | AwaitAck | AwaitEvent | Over

  datatype PluginAt = AwaitStart | App | Pending(call: Call) | Handling(call: Call, got: Event) | Gone

  datatype Msg = ToPlugin(e: Event) | ToShadow(e: Event)

  datatype State = State(
    explicitBlock: bool,
    semPlugin: nat, semShadow: nat,
    slotPlugin: Event, slotShadow: Event,
    sio: Io, sat: ShadowAt, current: Event, blockedNR: int,
    pio: Io, pat: PluginAt,
    trace: seq<Msg>,
    sentP: seq<Event>, readP: seq<Event>, sentS: seq<Event>, readS: seq<Event>,
    calls: seq<Served>,
    decided: seq<Answer>, seen: seq<Answer>,
    told: nat, shimTime: nat,
    phase: Option<Phase>
  )

  datatype Action =
    | Resume
    | Dispatch(now: nat)
    | Ask(request: Request)
    | Finish(result: Result, now: nat)
    | ShadowPosts
    | ShadowTakes
    | ShadowReads
    | Invoke(call: Call)
    | Handle(native: int)
    | PluginPosts
    | PluginTakes
    | PluginReads

  function Init(explicitBlock: bool): State {
    State(explicitBlock, 0, 0, Block, Block, Holding, Resting, Start(0), -1, Waiting, AwaitStart,
          [], [], [], [], [], [], [], [], 0, 0, Some(Fresh))
  }

  // ----- the grammar of the dialogue --------------------------------------------------------------

  datatype Phase =
    | Fresh
    | Running
    | Open(call: Call)
    | Nested(call: Call, request: Request)
    | Halted(call: Call)
    | Closed

  datatype Option<T> = None | Some(value: T)

  function RequestOf(e: Event): Option<Request> {
    match e
    case Syscall(call) => Some(Native(call))
    case MemoryReq(kind) => Some(Memory(kind))
    case AddThreadReq(block) => Some(AddThread(block))
    case _ => None
  }

  /** The phase after one more message, or None if the message is out of place. */
  function Next(p: Phase, m: Msg): Option<Phase> {
    match p
    case Fresh => if m.ToPlugin? && m.e.Start? then Some(Running) else None
    case Running => if m.ToShadow? && m.e.Syscall? then Some(Open(m.e.call)) else None
    case Open(call) =>
      if m.ToShadow? then None
      else if m.e.Complete? then Some(Running)
      else if m.e.DoNative? then Some(if call.number == SYS_exit then Closed else Running)
      else if m.e.Block? then Some(Halted(call))
      else if RequestOf(m.e).Some? then Some(Nested(call, RequestOf(m.e).value))
      else None
    case Nested(call, r) => if m.ToShadow? && Answers(r, m.e) then Some(Open(call)) else None
    case Halted(call) => if m.ToShadow? && m.e.Block? then Some(Open(call)) else None
    case Closed => None
  }

  /** The phase after one more message, if there is one. */
  function Then(p: Option<Phase>, m: Msg): Option<Phase> { if p.None? then None else Next(p.value, m) }

  // ----- the programs -----------------------------------------------------------------------------

  /** The first half of shimevent_sendEventToPlugin. */
  function WriteToPlugin(s: State, e: Event, next: ShadowAt): State {
    s.(slotPlugin := e, sio := Wrote, sat := next, trace := s.trace + [ToPlugin(e)], sentP := s.sentP + [e],
       phase := Then(s.phase, ToPlugin(e)))
  }

  /** The first half of shimevent_sendEventToShadow. */
  function WriteToShadow(s: State, e: Event, call: Call): State {
    s.(slotShadow := e, pio := Wrote, pat := Pending(call), trace := s.trace + [ToShadow(e)], sentS := s.sentS + [e],
       phase := Then(s.phase, ToShadow(e)))
  }

  /** The check of syscallhandler_make_syscall that panics if another syscall is blocked. */
  predicate Unexpected(s: State) {
    s.current.Syscall? && s.blockedNR >= 0 && s.blockedNR != s.current.call.number
  }

  predicate Enabled(s: State, a: Action) {
    match a
    case Resume => s.sio.Holding? && s.sat.Resting?
    case Dispatch(_) =>
      && s.sio.Holding? && s.sat.Looping?
      && (s.current.Start? || s.current.Complete? || (s.current.Syscall? && (s.current.call.number == SYS_exit || !Unexpected(s))))
    case Ask(_) => s.sio.Holding? && s.sat.Serving?
    case Finish(result, _) =>
      s.sio.Holding? && s.sat.Serving? && s.current.Syscall? && (result.MustBlock? ==> s.current.call.number >= 0)
    case ShadowPosts => s.sio.Wrote?
    case ShadowTakes => s.sio.Waiting? && s.semShadow > 0
    case ShadowReads =>
      && s.sio.Woken?
      && (s.sat.AwaitAck? || s.sat.AwaitEvent? || (s.sat.Asked? && Answers(s.sat.request, s.slotShadow)))
    case Invoke(_) => s.pio.Holding? && s.pat.App?
    case Handle(_) =>
      && s.pio.Holding? && s.pat.Handling?
      && !s.pat.got.Start? && !s.pat.got.ShmemComplete? && !s.pat.got.AddThreadParentRes?
    case PluginPosts => s.pio.Wrote?
    case PluginTakes => s.pio.Waiting? && s.semPlugin > 0
    case PluginReads => s.pio.Woken? && (s.pat.Pending? || (s.pat.AwaitStart? && s.slotPlugin.Start?))
  }

  function Apply(s: State, a: Action): State
    requires Enabled(s, a)
  {
    match a
    case Resume => s.(sat := Looping)
    case Dispatch(now) => DoDispatch(s, now)
    case Ask(r) => WriteToPlugin(s, Asking(r), Asked(r))
    case Finish(result, now) => DoFinish(s, result, now)
    case ShadowPosts => s.(semPlugin := s.semPlugin + 1, sio := if s.sat.Over? then Ended else Waiting)
    case ShadowTakes => s.(semShadow := s.semShadow - 1, sio := Woken)
    case ShadowReads => DoShadowRead(s)
    case Invoke(call) => WriteToShadow(s, Syscall(call), call)
    case Handle(native) => DoHandle(s, native)
    case PluginPosts => s.(semShadow := s.semShadow + 1, pio := Waiting)
    case PluginTakes => s.(semPlugin := s.semPlugin - 1, pio := Woken)
    case PluginReads => DoPluginRead(s)
  }

  /** One turn of the switch in threadpreload_resume, up to the call of the syscall handler. */
  function DoDispatch(s: State, now: nat): State
    requires Enabled(s, Dispatch(now))
  {
    if s.current.Start? then WriteToPlugin(s.(told := now), Start(now), AwaitEvent)
    else if s.current.Complete? then WriteToPlugin(s, s.current, AwaitEvent)
    else if s.current.call.number == SYS_exit then
      WriteToPlugin(s.(decided := s.decided + [RanNatively(s.current.call)]), DoNative, Over)
    else s.(sat := Serving)
  }

  /** The syscall handler returns. */
  function DoFinish(s: State, result: Result, now: nat): State
    requires Enabled(s, Finish(result, now))
  {
    var call := s.current.call;
    var t := s.(calls := s.calls + [Served(call, result)],
                blockedNR := if result.MustBlock? then call.number else if s.blockedNR >= 0 then -1 else s.blockedNR);
    match result
    case MustBlock => if s.explicitBlock then WriteToPlugin(t, Block, AwaitAck) else t.(sat := Resting)
    case Done(v) => WriteToPlugin(t.(decided := t.decided + [Returned(call, v, now)], told := now), Complete(v, now), AwaitEvent)
    case Natively => WriteToPlugin(t.(decided := t.decided + [RanNatively(call)]), DoNative, AwaitEvent)
  }

  /** The second half of shimevent_recvEventFromPlugin at each of its three places. */
  function DoShadowRead(s: State): State
    requires Enabled(s, ShadowReads)
  {
    var t := s.(sio := Holding, readS := s.readS + [s.slotShadow]);
    match s.sat
    case Asked(_) => t.(sat := Serving)
    case AwaitAck => t.(sat := Resting)
    case AwaitEvent => t.(current := s.slotShadow, sat := Looping)
  }

  /** One turn of the switch in _shadow_raw_syscall_event. */
  function DoHandle(s: State, native: int): State
    requires Enabled(s, Handle(native))
  {
    var call := s.pat.call;
    match s.pat.got
    case Block => WriteToShadow(s, Block, call)
    case Complete(v, now) => s.(pat := App, seen := s.seen + [Returned(call, v, now)], shimTime := now)
    case DoNative =>
      s.(pat := if call.number == SYS_exit then Gone else App, seen := s.seen + [RanNatively(call)])
    case Syscall(_) => WriteToShadow(s, Complete(native, 0), call)
    case MemoryReq(_) => WriteToShadow(s, ShmemComplete, call)
    case AddThreadReq(_) => WriteToShadow(s, AddThreadParentRes, call)
  }

  function DoPluginRead(s: State): State
    requires Enabled(s, PluginReads)
  {
    s.(pio := Holding, readP := s.readP + [s.slotPlugin],
       shimTime := if s.pat.AwaitStart? then s.slotPlugin.nanos else s.shimTime,
       pat := if s.pat.AwaitStart? then App else Handling(s.pat.call, s.slotPlugin))
  }

  // ----- dialogues as sequences of messages ----------------------------------------------------------

  function Parse(trace: seq<Msg>): Option<Phase> {
    if trace == [] then Some(Fresh)
    else
      Then(Parse(trace[..|trace| - 1]), trace[|trace| - 1])
  }

  lemma ParseThen(trace: seq<Msg>, m: Msg)
    ensures Parse(trace + [m]) == Then(Parse(trace), m)
  {
    assert (trace + [m])[..|trace|] == trace;
  }

  /** Syscalls that the plugin sent while it ran, as opposed to answers to requests. */
  function Invocations(trace: seq<Msg>): nat {
    if trace == [] then 0
    else
      var m := trace[|trace| - 1];
      Invocations(trace[..|trace| - 1]) + if m.ToShadow? && m.e.Syscall? then 1 else 0
  }

  /** Final replies: results and orders to run natively. */
  function FinalReplies(trace: seq<Msg>): nat {
    if trace == [] then 0
    else
      var m := trace[|trace| - 1];
      FinalReplies(trace[..|trace| - 1]) + if m.ToPlugin? && (m.e.Complete? || m.e.DoNative?) then 1 else 0
  }

  /** In every dialogue that parses, each syscall has exactly one final reply, save the open one. */
  lemma {:induction false} OneFinalReplyEach(trace: seq<Msg>)
    requires Parse(trace).Some?
    ensures var p := Parse(trace).value;
            Invocations(trace) == FinalReplies(trace) + if p.Open? || p.Nested? || p.Halted? then 1 else 0
  {
    if trace != [] { OneFinalReplyEach(trace[..|trace| - 1]); }
  }

  // ----- what every step keeps --------------------------------------------------------------------

  predicate Holds(io: Io) { io.Holding? || io.Wrote? || io.Woken? }

  function Tokens(s: State): nat {
    s.semPlugin + s.semShadow + (if Holds(s.sio) then 1 else 0) + if Holds(s.pio) then 1 else 0
  }

  datatype Place = AtShadow | ToThePlugin | AtPlugin | ToTheShadow

  function Where(s: State): Place {
    if s.sio.Holding? then AtShadow
    else if s.sio.Wrote? || s.semPlugin > 0 || s.pio.Woken? then ToThePlugin
    else if s.pio.Holding? then AtPlugin
    else ToTheShadow
  }

  /** Control goes round a ring: at each place only the token's holder is not waiting. */
  predicate Ring(s: State) {
    && Tokens(s) == 1
    && (s.sio.Ended? <==> s.sat.Over? && !s.sio.Wrote?)
    && (s.sat.Over? ==> s.sio.Ended? || s.sio.Wrote?)
    && !s.pio.Ended?
  }

  predicate Final(e: Event, call: Call) { e.Complete? || (e.DoNative? && call.number != SYS_exit) }

  predicate AtShadowOk(s: State, p: Phase) {
    || (p.Fresh? && (s.sat.Resting? || s.sat.Looping?) && s.current.Start? && s.pat.AwaitStart?)
    || (&& p.Open? && s.pat == Pending(p.call) && s.current == Syscall(p.call)
        && (s.sat.Resting? || s.sat.Looping? || (s.sat.Serving? && p.call.number != SYS_exit)))
  }

  predicate ToPluginOk(s: State, p: Phase) {
    match p
    case Running =>
      && s.sat.AwaitEvent?
      && ((s.pat.AwaitStart? && s.slotPlugin.Start?) || (s.pat.Pending? && Final(s.slotPlugin, s.pat.call)))
    case Nested(c, r) =>
      s.sat == Asked(r) && s.pat == Pending(c) && s.slotPlugin == Asking(r) && s.current == Syscall(c) && c.number != SYS_exit
    case Halted(c) => s.sat.AwaitAck? && s.pat == Pending(c) && s.slotPlugin.Block? && s.current == Syscall(c)
    case Closed => s.sat.Over? && s.pat.Pending? && s.pat.call.number == SYS_exit && s.slotPlugin.DoNative?
    case _ => false
  }

  predicate AtPluginOk(s: State, p: Phase) {
    match p
    case Running => s.sat.AwaitEvent? && (s.pat.App? || (s.pat.Handling? && Final(s.pat.got, s.pat.call)))
    case Nested(c, r) => s.sat == Asked(r) && s.pat == Handling(c, Asking(r)) && s.current == Syscall(c) && c.number != SYS_exit
    case Halted(c) => s.sat.AwaitAck? && s.pat == Handling(c, Block) && s.current == Syscall(c)
    case Closed =>
      s.sat.Over? && (s.pat.Gone? || (s.pat.Handling? && s.pat.call.number == SYS_exit && s.pat.got.DoNative?))
    case _ => false
  }

  predicate ToShadowOk(s: State, p: Phase) {
    && p.Open? && s.pat == Pending(p.call)
    && (|| (s.sat.AwaitEvent? && s.slotShadow == Syscall(p.call))
        || (s.sat.AwaitAck? && s.slotShadow.Block? && s.current == Syscall(p.call))
        || (s.sat.Asked? && Answers(s.sat.request, s.slotShadow) && s.current == Syscall(p.call) && p.call.number != SYS_exit))
  }

  /** Both programs stand where the dialogue says they should. */
  predicate InDialogue(s: State) {
    && s.phase.Some?
    && var p := s.phase.value;
       match Where(s)
       case AtShadow => AtShadowOk(s, p)
       case ToThePlugin => ToPluginOk(s, p)
       case AtPlugin => AtPluginOk(s, p)
       case ToTheShadow => ToShadowOk(s, p)
  }

  /** Every message is read exactly once and as it was sent: no slot is overwritten before it is read. */
  predicate Delivered(s: State) {
    && s.sentP == (if Where(s).ToThePlugin? then s.readP + [s.slotPlugin] else s.readP)
    && s.sentS == (if Where(s).ToTheShadow? then s.readS + [s.slotShadow] else s.readS)
  }

  /** A blocked syscall is the current one until it returns something else. */
  predicate BlockedIsCurrent(s: State) {
    && (s.sat.AwaitAck? ==> s.blockedNR >= 0)
    && (s.blockedNR >= 0 ==>
          && s.current.Syscall? && s.current.call.number == s.blockedNR
          && (s.sat.Resting? || s.sat.Looping? || s.sat.Serving? || s.sat.Asked? || s.sat.AwaitAck?))
  }

  predicate Retried(calls: seq<Served>) {
    forall i :: 0 <= i < |calls| - 1 && calls[i].result.MustBlock? ==> calls[i].call == calls[i + 1].call
  }

  predicate RetriesSame(s: State) {
    && Retried(s.calls)
    && (s.blockedNR >= 0 <==> s.calls != [] && s.calls[|s.calls| - 1].result.MustBlock?)
    && (s.blockedNR >= 0 ==> s.current == Syscall(s.calls[|s.calls| - 1].call) && s.blockedNR != SYS_exit)
  }

  function AnswerOf(call: Call, e: Event): Answer {
    if e.Complete? then Returned(call, e.retval, e.nanos) else RanNatively(call)
  }

  predicate FinalMsg(e: Event) { e.Complete? || e.DoNative? }

  /** What the application saw of each syscall is what the handler decided, in order. */
  predicate AppSees(s: State) {
    var p := s.phase;
    if p.Some? && (p.value.Running? || p.value.Closed?) && Where(s).ToThePlugin? && s.pat.Pending? then
      s.decided == s.seen + [AnswerOf(s.pat.call, s.slotPlugin)]
    else if p.Some? && (p.value.Running? || p.value.Closed?) && s.pat.Handling? then
      s.decided == s.seen + [AnswerOf(s.pat.call, s.pat.got)]
    else s.decided == s.seen
  }

  predicate CarriesTime(e: Event) { e.Start? || e.Complete? }

  /** The time that Shadow told last is on its way to the plugin, or the shim's clock shows it. */
  predicate ClockAgrees(s: State) {
    if Where(s).ToThePlugin? && CarriesTime(s.slotPlugin) then s.slotPlugin.nanos == s.told
    else if s.pat.Handling? && s.pat.got.Complete? then s.pat.got.nanos == s.told
    else s.shimTime == s.told
  }

  predicate Inv(s: State) {
    Ring(s) && InDialogue(s) && Delivered(s) && BlockedIsCurrent(s) && RetriesSame(s) && AppSees(s) && ClockAgrees(s)
  }

  lemma InitInv(explicitBlock: bool)
    ensures Inv(Init(explicitBlock))
  {
  }

  lemma ResumeKeeps(s: State)
    requires Inv(s) && Enabled(s, Resume)
    ensures Inv(Apply(s, Resume))
  {
  }

  /** A write by Shadow turns the token towards the plugin. */
  lemma ShadowWrote(s: State, t: State)
    requires Ring(s) && Delivered(s) && s.sio.Holding?
    requires t.sio.Wrote? && t.pio == s.pio && t.semPlugin == s.semPlugin && t.semShadow == s.semShadow
    requires t.sentP == s.sentP + [t.slotPlugin] && t.readP == s.readP
    requires t.sentS == s.sentS && t.readS == s.readS && t.slotShadow == s.slotShadow
    ensures Ring(t) && Delivered(t) && Where(s).AtShadow? && Where(t).ToThePlugin?
  {
  }

  /** Where the dialogue stands while Shadow holds the token before the start. */
  lemma FreshIs(s: State)
    requires Inv(s) && s.sio.Holding? && s.current.Start?
    ensures s.phase == Some(Fresh) && s.pat.AwaitStart? && s.decided == s.seen && s.blockedNR < 0
  {
    assert Where(s).AtShadow?;
    hide Ring, Delivered, Retried, Where;
  }

  /** Where it stands while Shadow holds the token and the call of the plugin. */
  lemma OpenIs(s: State)
    requires Inv(s) && s.sio.Holding? && s.current.Syscall?
    ensures s.phase == Some(Open(s.current.call)) && s.pat == Pending(s.current.call)
    ensures s.decided == s.seen && s.shimTime == s.told && (s.sat.Serving? ==> s.current.call.number != SYS_exit)
  {
    assert Where(s).AtShadow?;
    hide Ring, Delivered, Retried, Where;
  }

  lemma StartOnItsWay(t: State)
    requires t.phase == Some(Running) && Where(t).ToThePlugin? && t.sat.AwaitEvent?
    requires t.pat.AwaitStart? && t.slotPlugin.Start? && t.slotPlugin.nanos == t.told && t.decided == t.seen
    ensures InDialogue(t) && AppSees(t) && ClockAgrees(t)
  {
    hide Where;
  }

  lemma AnswerOnItsWay(t: State, c: Call)
    requires t.phase == Some(Running) && Where(t).ToThePlugin? && t.sat.AwaitEvent?
    requires t.pat == Pending(c) && Final(t.slotPlugin, c) && t.decided == t.seen + [AnswerOf(c, t.slotPlugin)]
    requires if t.slotPlugin.Complete? then t.slotPlugin.nanos == t.told else t.shimTime == t.told
    ensures InDialogue(t) && AppSees(t) && ClockAgrees(t)
  {
    hide Where;
  }

  lemma ExitOnItsWay(t: State, c: Call)
    requires t.phase == Some(Closed) && Where(t).ToThePlugin? && t.sat.Over? && t.slotPlugin.DoNative?
    requires t.pat == Pending(c) && c.number == SYS_exit && t.decided == t.seen + [RanNatively(c)] && t.shimTime == t.told
    ensures InDialogue(t) && AppSees(t) && ClockAgrees(t)
  {
    hide Where;
  }

  lemma RequestOnItsWay(t: State, c: Call, r: Request)
    requires t.phase == Some(Nested(c, r)) && Where(t).ToThePlugin? && t.sat == Asked(r)
    requires t.pat == Pending(c) && t.slotPlugin == Asking(r) && t.current == Syscall(c) && c.number != SYS_exit
    requires t.decided == t.seen && t.shimTime == t.told
    ensures InDialogue(t) && AppSees(t) && ClockAgrees(t)
  {
    hide Where;
  }

  lemma BlockOnItsWay(t: State, c: Call)
    requires t.phase == Some(Halted(c)) && Where(t).ToThePlugin? && t.sat.AwaitAck?
    requires t.pat == Pending(c) && t.slotPlugin.Block? && t.current == Syscall(c)
    requires t.decided == t.seen && t.shimTime == t.told
    ensures InDialogue(t) && AppSees(t) && ClockAgrees(t)
  {
    hide Where;
  }

  lemma DispatchStartKeeps(s: State, now: nat)
    requires Inv(s) && Enabled(s, Dispatch(now)) && s.current.Start?
    ensures Inv(Apply(s, Dispatch(now)))
  {
    var t := Apply(s, Dispatch(now));
    FreshIs(s);
    ShadowWrote(s, t);
    hide Retried, Ring, Where, Delivered, InDialogue, AppSees, ClockAgrees;
    StartOnItsWay(t);
  }

  lemma DispatchExitKeeps(s: State, now: nat)
    requires Inv(s) && Enabled(s, Dispatch(now)) && s.current.Syscall? && s.current.call.number == SYS_exit
    ensures Inv(Apply(s, Dispatch(now)))
  {
    var t := Apply(s, Dispatch(now));
    OpenIs(s);
    ShadowWrote(s, t);
    hide Retried, Ring, Where, Delivered, InDialogue, AppSees, ClockAgrees;
    ExitOnItsWay(t, s.current.call);
  }

  lemma DispatchServeKeeps(s: State, now: nat)
    requires Inv(s) && Enabled(s, Dispatch(now)) && !s.current.Start?
    requires s.current.Syscall? ==> s.current.call.number != SYS_exit
    ensures Inv(Apply(s, Dispatch(now)))
  {
    hide Retried;
  }

  lemma AskKeeps(s: State, r: Request)
    requires Inv(s) && Enabled(s, Ask(r))
    ensures Inv(Apply(s, Ask(r)))
  {
    var t := Apply(s, Ask(r));
    ServingHasCall(s);
    OpenIs(s);
    AskingIs(r);
    ShadowWrote(s, t);
    hide Retried, Ring, Where, Delivered, InDialogue, AppSees, ClockAgrees, Asking, RequestOf;
    RequestOnItsWay(t, s.current.call, r);
  }

  lemma ServingHasCall(s: State)
    requires Inv(s) && s.sio.Holding? && s.sat.Serving?
    ensures s.current.Syscall?
  {
    hide Retried;
  }

  lemma AskingIs(r: Request)
    ensures RequestOf(Asking(r)) == Some(r)
    ensures !Asking(r).Complete? && !Asking(r).DoNative? && !Asking(r).Block?
  {
  }

  lemma RetriedThen(calls: seq<Served>, c: Served)
    requires Retried(calls) && (calls != [] && calls[|calls| - 1].result.MustBlock? ==> calls[|calls| - 1].call == c.call)
    ensures Retried(calls + [c])
  {
  }

  lemma FinishBlockKeeps(s: State, now: nat)
    requires Inv(s) && Enabled(s, Finish(MustBlock, now))
    ensures Inv(Apply(s, Finish(MustBlock, now)))
  {
    RetriedThen(s.calls, Served(s.current.call, MustBlock));
    if s.explicitBlock {
      var t := Apply(s, Finish(MustBlock, now));
      OpenIs(s);
      ShadowWrote(s, t);
      hide Retried, Ring, Where, Delivered, InDialogue, AppSees, ClockAgrees;
      BlockOnItsWay(t, s.current.call);
    } else {
      hide Retried;
    }
  }

  lemma FinishDoneKeeps(s: State, v: int, now: nat)
    requires Inv(s) && Enabled(s, Finish(Done(v), now))
    ensures Inv(Apply(s, Finish(Done(v), now)))
  {
    var t := Apply(s, Finish(Done(v), now));
    RetriedThen(s.calls, Served(s.current.call, Done(v)));
    OpenIs(s);
    ShadowWrote(s, t);
    hide Retried, Ring, Where, Delivered, InDialogue, AppSees, ClockAgrees;
    AnswerOnItsWay(t, s.current.call);
  }

  lemma FinishNativeKeeps(s: State, now: nat)
    requires Inv(s) && Enabled(s, Finish(Natively, now))
    ensures Inv(Apply(s, Finish(Natively, now)))
  {
    var t := Apply(s, Finish(Natively, now));
    RetriedThen(s.calls, Served(s.current.call, Natively));
    OpenIs(s);
    ShadowWrote(s, t);
    hide Retried, Ring, Where, Delivered, InDialogue, AppSees, ClockAgrees;
    AnswerOnItsWay(t, s.current.call);
  }

  lemma PostsKeep(s: State, a: Action)
    requires Inv(s) && Enabled(s, a) && (a.ShadowPosts? || a.PluginPosts? || a.ShadowTakes? || a.PluginTakes?)
    ensures Inv(Apply(s, a))
  {
  }

  lemma ShadowReadsKeeps(s: State)
    requires Inv(s) && Enabled(s, ShadowReads)
    ensures Inv(Apply(s, ShadowReads))
  {
  }

  lemma PluginReadsKeeps(s: State)
    requires Inv(s) && Enabled(s, PluginReads)
    ensures Inv(Apply(s, PluginReads))
  {
  }

  /** A write by the plugin turns the token towards Shadow and leaves Shadow's own state alone. */
  lemma PluginWrites(s: State, e: Event, call: Call)
    requires Ring(s) && s.pio.Holding? && Delivered(s)
    ensures var t := WriteToShadow(s, e, call);
            && Ring(t) && Where(s).AtPlugin? && Where(t).ToTheShadow? && Delivered(t)
            && BlockedIsCurrent(t) == BlockedIsCurrent(s) && RetriesSame(t) == RetriesSame(s)
  {
    hide Retried;
  }

  lemma InvokeKeeps(s: State, call: Call)
    requires Inv(s) && Enabled(s, Invoke(call))
    ensures Inv(Apply(s, Invoke(call)))
  {
    PluginWrites(s, Syscall(call), call);
    hide Ring, Where, Delivered, BlockedIsCurrent, RetriesSame;
  }

  lemma HandleFinalKeeps(s: State, native: int)
    requires Inv(s) && Enabled(s, Handle(native)) && FinalMsg(s.pat.got)
    ensures Inv(Apply(s, Handle(native)))
  {
    hide Retried;
  }

  lemma HandleBlockKeeps(s: State, native: int)
    requires Inv(s) && Enabled(s, Handle(native)) && s.pat.got.Block?
    ensures Inv(Apply(s, Handle(native)))
  {
    PluginWrites(s, Block, s.pat.call);
    hide Ring, Where, Delivered, BlockedIsCurrent, RetriesSame;
  }

  /** A request at the plugin is the one that Shadow waits for. */
  lemma RequestIs(s: State)
    requires Inv(s) && s.pio.Holding? && s.pat.Handling? && RequestOf(s.pat.got).Some?
    ensures var r := RequestOf(s.pat.got).value;
            && s.phase == Some(Nested(s.pat.call, r)) && s.sat == Asked(r) && s.decided == s.seen && s.shimTime == s.told
            && s.current == Syscall(s.pat.call) && s.pat.call.number != SYS_exit
  {
    assert Where(s).AtPlugin?;
    hide Ring, Where, Delivered, BlockedIsCurrent, RetriesSame;
  }

  function ReplyTo(r: Request, native: int): (e: Event)
    ensures Answers(r, e)
  {
    match r
    case Native(_) => Complete(native, 0)
    case Memory(_) => ShmemComplete
    case AddThread(_) => AddThreadParentRes
  }

  lemma HandleIsReply(s: State, native: int)
    requires Enabled(s, Handle(native)) && RequestOf(s.pat.got).Some?
    ensures Apply(s, Handle(native)) ==
            WriteToShadow(s, ReplyTo(RequestOf(s.pat.got).value, native), s.pat.call)
  {
  }

  lemma ReplyOnItsWay(t: State, c: Call, r: Request)
    requires t.phase == Some(Open(c)) && Where(t).ToTheShadow? && t.pat == Pending(c)
    requires t.sat == Asked(r) && Answers(r, t.slotShadow) && t.current == Syscall(c) && c.number != SYS_exit
    requires t.decided == t.seen
    requires t.shimTime == t.told
    ensures InDialogue(t) && AppSees(t) && ClockAgrees(t)
  {
    hide Where;
  }

  lemma HandleRequestKeeps(s: State, native: int)
    requires Inv(s) && Enabled(s, Handle(native)) && RequestOf(s.pat.got).Some?
    ensures Inv(Apply(s, Handle(native)))
  {
    var r, c := RequestOf(s.pat.got).value, s.pat.call;
    var e := ReplyTo(r, native);
    RequestIs(s);
    PluginWrites(s, e, c);
    HandleIsReply(s, native);
    hide Ring, Where, Delivered, BlockedIsCurrent, RetriesSame, InDialogue, AppSees, ClockAgrees, Enabled, Apply, ReplyTo, RequestOf;
    ReplyOnItsWay(WriteToShadow(s, e, c), c, r);
  }

  lemma StepInv(s: State, a: Action)
    requires Inv(s) && Enabled(s, a)
    ensures Inv(Apply(s, a))
  {
    if a.Handle? { assert FinalMsg(s.pat.got) || s.pat.got.Block? || RequestOf(s.pat.got).Some?; }
    hide Inv, Apply, Enabled, FinalMsg, RequestOf;
    match a {
      case Resume => ResumeKeeps(s);
      case Dispatch(now) =>
        if s.current.Start? { DispatchStartKeeps(s, now); }
        else if s.current.Syscall? && s.current.call.number == SYS_exit { DispatchExitKeeps(s, now); }
        else { DispatchServeKeeps(s, now); }
      case Ask(r) => AskKeeps(s, r);
      case Finish(result, now) =>
        if result.MustBlock? { FinishBlockKeeps(s, now); }
        else if result.Done? { FinishDoneKeeps(s, result.retval, now); }
        else { FinishNativeKeeps(s, now); }
      case ShadowPosts => PostsKeep(s, a);
      case ShadowTakes => PostsKeep(s, a);
      case PluginPosts => PostsKeep(s, a);
      case PluginTakes => PostsKeep(s, a);
      case ShadowReads => ShadowReadsKeeps(s);
      case PluginReads => PluginReadsKeeps(s);
      case Invoke(call) => InvokeKeeps(s, call);
      case Handle(native) =>
        if FinalMsg(s.pat.got) { HandleFinalKeeps(s, native); }
        else if s.pat.got.Block? { HandleBlockKeeps(s, native); }
        else { HandleRequestKeeps(s, native); }
    }
  }

  // ----- whole runs -------------------------------------------------------------------------------

  predicate Runs(s: State, acts: seq<Action>, t: State)
    decreases acts
  { if acts == [] then s == t else Enabled(s, acts[0]) && Runs(Apply(s, acts[0]), acts[1..], t) }

  lemma {:induction false} RunsThen(s: State, acts: seq<Action>, t: State, a: Action)
    requires Runs(s, acts, t) && Enabled(t, a)
    ensures Runs(s, acts + [a], Apply(t, a))
    decreases acts
  {
    hide Enabled, Apply;
    if acts == [] {
      assert (acts + [a])[1..] == [];
      assert Runs(Apply(t, a), [], Apply(t, a));
    } else {
      assert (acts + [a])[1..] == acts[1..] + [a];
      RunsThen(Apply(s, acts[0]), acts[1..], t, a);
    }
  }

  lemma {:induction false} RunInv(s: State, acts: seq<Action>, t: State)
    requires Inv(s) && Runs(s, acts, t)
    ensures Inv(t)
    decreases acts
  {
    hide Inv, Enabled, Apply;
    if acts != [] {
      StepInv(s, acts[0]);
      RunInv(Apply(s, acts[0]), acts[1..], t);
    }
  }

  /** A step sends no message, or one. */
  ghost predicate SendsAtMostOne(s: State, t: State) {
    || (t.trace == s.trace && t.phase == s.phase)
    || (exists m :: t.trace == s.trace + [m] && t.phase == Then(s.phase, m))
  }

  lemma StepSends(s: State, a: Action)
    requires Enabled(s, a)
    ensures SendsAtMostOne(s, Apply(s, a))
  {
    hide Then, Next, RequestOf, Unexpected, Answers;
    var t := Apply(s, a);
    var m := if t.sentP != s.sentP then ToPlugin(t.slotPlugin) else ToShadow(t.slotShadow);
    assert (t.trace == s.trace && t.phase == s.phase) || (t.trace == s.trace + [m] && t.phase == Then(s.phase, m));
  }

  lemma PhaseKept(s: State, t: State)
    requires s.phase == Parse(s.trace) && SendsAtMostOne(s, t)
    ensures t.phase == Parse(t.trace)
  {
    hide Parse, Then;
    if t.trace != s.trace || t.phase != s.phase {
      var m :| t.trace == s.trace + [m] && t.phase == Then(s.phase, m);
      ParseThen(s.trace, m);
    }
  }

  /** The phase is that of the whole dialogue so far. */
  lemma {:induction false} PhaseIsParse(s: State, acts: seq<Action>, t: State)
    requires s.phase == Parse(s.trace) && Runs(s, acts, t)
    ensures t.phase == Parse(t.trace)
    decreases acts
  {
    hide Parse, Enabled, Apply, SendsAtMostOne;
    if acts != [] {
      StepSends(s, acts[0]);
      PhaseKept(s, Apply(s, acts[0]));
      PhaseIsParse(Apply(s, acts[0]), acts[1..], t);
    }
  }

  /** One control token per IPC block, in every run: neither semaphore exceeds one, both sides wait only
      while a message is in flight, and every message is read once, as it was sent. */
  lemma SingleToken(explicitBlock: bool, acts: seq<Action>, s: State)
    requires Runs(Init(explicitBlock), acts, s)
    ensures Tokens(s) == 1 && s.semPlugin <= 1 && s.semShadow <= 1
    ensures !Holds(s.sio) && !Holds(s.pio) ==> s.semPlugin + s.semShadow == 1
    ensures s.readP <= s.sentP && |s.sentP| <= |s.readP| + 1
    ensures s.readS <= s.sentS && |s.sentS| <= |s.readS| + 1
    ensures s.sentP != s.readP ==> s.sentP[|s.readP|] == s.slotPlugin
    ensures s.sentS != s.readS ==> s.sentS[|s.readS|] == s.slotShadow
  {
    InitInv(explicitBlock);
    RunInv(Init(explicitBlock), acts, s);
    hide InDialogue, AppSees, ClockAgrees, RetriesSame, BlockedIsCurrent;
  }

  /** The messages of every run form a dialogue: every syscall gets exactly one final reply after
      complete nested exchanges, and the application sees what the handler decided, in order; whenever it
      runs, its clock shows the time that Shadow told last. */
  lemma Dialogues(explicitBlock: bool, acts: seq<Action>, s: State)
    requires Runs(Init(explicitBlock), acts, s)
    ensures Parse(s.trace).Some?
    ensures FinalReplies(s.trace) <= Invocations(s.trace) <= FinalReplies(s.trace) + 1
    ensures s.seen <= s.decided && |s.decided| <= |s.seen| + 1
    ensures s.pat.App? && s.pio.Holding? ==>
              s.seen == s.decided && Invocations(s.trace) == FinalReplies(s.trace) && s.shimTime == s.told
  {
    InitInv(explicitBlock);
    RunInv(Init(explicitBlock), acts, s);
    PhaseIsParse(Init(explicitBlock), acts, s);
    OneFinalReplyEach(s.trace);
    hide Parse, RetriesSame, BlockedIsCurrent, Delivered, Invocations, FinalReplies;
  }

  /** A blocked syscall is retried with the same number and arguments until it no longer blocks, and
      the panic of syscallhandler_make_syscall cannot happen. */
  lemma BlockedIsRetried(explicitBlock: bool, acts: seq<Action>, s: State, i: nat)
    requires Runs(Init(explicitBlock), acts, s)
    ensures !(s.sio.Holding? && s.sat.Looping? && Unexpected(s))
    ensures i + 1 < |s.calls| && s.calls[i].result.MustBlock? ==> s.calls[i + 1].call == s.calls[i].call
    ensures s.calls != [] && s.calls[|s.calls| - 1].result.MustBlock? ==>
              s.current == Syscall(s.calls[|s.calls| - 1].call)
  {
    InitInv(explicitBlock);
    RunInv(Init(explicitBlock), acts, s);
    hide InDialogue, Delivered, AppSees, ClockAgrees, Ring;
  }

  lemma ShadowCanStep(s: State) returns (a: Action)
    requires Inv(s) && (s.sio.Holding? || s.sio.Wrote? || s.sio.Woken?)
    ensures Enabled(s, a)
  {
    hide Delivered, AppSees, ClockAgrees, Retried;
    a := if s.sio.Wrote? then ShadowPosts
         else if s.sio.Woken? then ShadowReads
         else if s.sat.Resting? then Resume
         else if s.sat.Looping? then Dispatch(0)
         else Finish(Done(0), 0);
  }

  lemma PluginCanStep(s: State) returns (a: Action)
    requires Inv(s) && (s.pio.Holding? || s.pio.Wrote? || s.pio.Woken?) && !(s.pat.Gone? && s.pio.Holding?)
    ensures Enabled(s, a)
  {
    hide Delivered, AppSees, ClockAgrees, Retried, RetriesSame, BlockedIsCurrent;
    a := if s.pio.Wrote? then PluginPosts
         else if s.pio.Woken? then PluginReads
         else if s.pat.App? then Invoke(Call(0, []))
         else Handle(0);
  }

  lemma FlyingCanBeTaken(s: State) returns (a: Action)
    requires Inv(s) && !Holds(s.sio) && !Holds(s.pio)
    ensures Enabled(s, a)
  {
    hide Delivered, AppSees, ClockAgrees, RetriesSame, BlockedIsCurrent;
    a := if s.semPlugin > 0 then PluginTakes else ShadowTakes;
  }

  /** No run gets stuck in an unexpected event, a failed assertion or a mutual wait: until the thread
      has exited, the side that holds the token has a step. */
  lemma NeverStuck(explicitBlock: bool, acts: seq<Action>, s: State) returns (a: Action)
    requires Runs(Init(explicitBlock), acts, s) && !(s.pat.Gone? && s.pio.Holding?)
    ensures Enabled(s, a)
  {
    InitInv(explicitBlock);
    RunInv(Init(explicitBlock), acts, s);
    hide Inv, Enabled;
    if Holds(s.sio) {
      a := ShadowCanStep(s);
    } else if Holds(s.pio) {
      a := PluginCanStep(s);
    } else {
      a := FlyingCanBeTaken(s);
    }
  }
}
