/**
 The worker pool (worker.c) over its logical processors (logical_processor.rs).

 The main thread and the workers interleave freely.  One step is one access to shared state: one
 queue operation, one semaphore operation, one write of a worker's processor index, one read or
 write of a per-processor minimum.  In particular a scan of the ready queues is not atomic.
 Agents 0 .. W-1 are the workers and agent W is the main thread, which scans the queues like a
 worker does while it starts a task.  `stage`, `holder`, `ran`, `task` and `told` are history: no
 step looks at them.
 */
module WorkerPoolModel {

  const SIMTIME_MAX: nat := 0xffff_ffff_ffff_fffe

  datatype Stage =
    | InReady(lp: nat)
    | Popped(agent: nat)
    | Posted
    | Active
    | InDone(lp: nat)

  /** Who may currently act for a logical processor. */
  datatype Holder = Nobody | By(agent: nat)

  datatype Phase = Resting | Launching | Awaiting | Joined

  datatype PC =
    | Waiting
    | Running
    | Reporting(t: nat, seen: nat)  // read `seen` from its processor's minimum, store pending
    | Scan(lp: nat, k: nat)         // looking for a worker to run on `lp`, `k` queues seen
    | Got(lp: nat, w: nat)          // popped `w`, its processor index not yet written
    | Hand(lp: nat, w: nat)         // `w` not yet posted
    | Counting                      // the latch not yet counted down
    | Exited

  datatype Told = Told(t: nat, roundEnd: nat)

  datatype State = State(
    ready: seq<seq<nat>>,
    done: seq<seq<nat>>,
    lpOf: seq<nat>,                 // workerLogicalProcessorIdxs
    begin: seq<nat>,                // workerBeginSems
    latch: nat,
    quitting: bool,                 // the task function is NULL
    roundEnd: nat,
    minTimes: seq<nat>,
    phase: Phase,
    pcs: seq<PC>,
    task: nat,
    ran: seq<nat>,
    told: seq<Told>,
    stage: seq<Stage>,
    holder: seq<Holder>
  ) {
    function L(): nat { |ready| }
    function W(): nat { |lpOf| }
  }

  datatype Action =
    | Start(roundEnd: nat, quit: bool)   // _workerpool_startTaskFn up to its first scan
    | Finish                             // workerpool_awaitTaskFn once the latch is open
    | Collect                            // workerpool_getGlobalNextEventTime
    | Begin(w: nat)
    | Report(w: nat, t: nat)
    | Store(w: nat)
    | DonePush(w: nat)
    | Next(u: nat)

  predicate ValidPC(s: State, pc: PC) {
    match pc
    case Scan(lp, k) => lp < s.L() && k <= s.L()
    case Got(lp, w) => lp < s.L() && w < s.W()
    case Hand(lp, w) => lp < s.L() && w < s.W()
    case _ => true
  }

  ghost predicate Shape(s: State) {
    && s.L() > 0
    && |s.done| == |s.minTimes| == |s.holder| == s.L()
    && |s.begin| == |s.ran| == |s.stage| == s.W()
    && |s.pcs| == s.W() + 1
    && (forall w :: 0 <= w < s.W() ==> s.lpOf[w] < s.L())
    && (forall u :: 0 <= u <= s.W() ==> ValidPC(s, s.pcs[u]))
    && (forall l, i :: 0 <= l < s.L() && 0 <= i < |s.ready[l]| ==> s.ready[l][i] < s.W())
    && (forall l, i :: 0 <= l < s.L() && 0 <= i < |s.done[l]| ==> s.done[l][i] < s.W())
  }

  // ----- steps -----------------------------------------------------------------------------------

  /** The queue a scan for `lp` looks at after `k` others: `(lp + k) % L`. */
  function From(s: State, lp: nat, k: nat): nat
    requires lp < s.L() && k < s.L()
  { if lp + k < s.L() then lp + k else lp + k - s.L() }

  lemma TimesMonotone(a: nat, b: nat, n: nat)
    requires a <= b
    ensures a * n <= b * n
  {
  }

  lemma ModWrap(x: nat, n: nat)
    requires n <= x < n + n
    ensures x % n == x - n
  {
    var q := x / n;
    assert x == q * n + x % n;
    TimesMonotone(if q < 2 then q else 2, q, n);
  }

  lemma FromIsModulo(s: State, lp: nat, k: nat)
    requires lp < s.L() && k < s.L()
    ensures From(s, lp, k) == (lp + k) % s.L()
  {
    if lp + k >= s.L() { ModWrap(lp + k, s.L()); }
  }

  /** After how many others a scan for `lp` looks at queue `l`. */
  function Distance(s: State, lp: nat, l: nat): nat
    requires lp < s.L() && l < s.L()
  { if l >= lp then l - lp else l + s.L() - lp }

  function MoveTo(s: State, u: nat, pc: PC): State
    requires u < |s.pcs|
  {
    s.(pcs := s.pcs[u := pc])
  }

  function Miss(s: State, u: nat, lp: nat, k: nat): State
    requires u < |s.pcs|
  { MoveTo(s, u, Scan(lp, k + 1)) }

  /** Agent `u` pops the head of ready queue `from` to run it on `lp`. */
  function Pop(s: State, u: nat, lp: nat, from: nat): State
    requires Shape(s) && from < s.L() && s.ready[from] != [] && u <= s.W()
  {
    var w := s.ready[from][0];
    MoveTo(s, u, Got(lp, w)).(ready := s.ready[from := s.ready[from][1..]], stage := s.stage[w := Popped(u)])
  }

  /** Agent `u` found every queue empty: `lp` goes idle. */
  function GiveUp(s: State, u: nat, lp: nat): State
    requires Shape(s) && lp < s.L() && u <= s.W()
  {
    MoveTo(s, u, if u == s.W() then Waiting else Counting)
    .(holder := s.holder[lp := Nobody], phase := if u == s.W() then Awaiting else s.phase)
  }

  function Assign(s: State, u: nat, lp: nat, w: nat): State
    requires u < |s.pcs| && w < s.W()
  { MoveTo(s, u, Hand(lp, w)).(lpOf := s.lpOf[w := lp]) }

  /** Agent `u` posts the begin semaphore of `w`, which now acts for `lp`. */
  function Post(s: State, u: nat, lp: nat, w: nat): State
    requires Shape(s) && lp < s.L() && w < s.W() && u <= s.W()
  {
    MoveTo(s, u, if u < s.W() then Counting else if lp + 1 < s.L() then Scan(lp + 1, 0) else Waiting)
    .(begin := s.begin[w := s.begin[w] + 1],
      stage := s.stage[w := Posted],
      holder := if u == s.W() && lp + 1 < s.L() then s.holder[lp := By(w)][lp + 1 := By(u)] else s.holder[lp := By(w)],
      phase := if u == s.W() && lp + 1 == s.L() then Awaiting else s.phase)
  }

  function CountDown(s: State, u: nat): State
    requires u < |s.pcs|
  {
    MoveTo(s, u, if s.quitting then Exited else Waiting).(latch := if s.latch == 0 then 0 else s.latch - 1)
  }

  function StepAgent(s: State, u: nat): State
    requires Shape(s) && u <= s.W()
  {
    match s.pcs[u]
    case Scan(lp, k) =>
      if k == s.L() then GiveUp(s, u, lp)
      else if s.ready[From(s, lp, k)] == [] then Miss(s, u, lp, k)
      else Pop(s, u, lp, From(s, lp, k))
    case Got(lp, w) => Assign(s, u, lp, w)
    case Hand(lp, w) => Post(s, u, lp, w)
    case Counting => CountDown(s, u)
    case _ => s
  }

  predicate Moves(pc: PC) { pc.Scan? || pc.Got? || pc.Hand? || pc.Counting? }

  predicate Enabled(s: State, a: Action) {
    match a
    case Start(_, _) => s.phase == Resting
    case Finish => s.phase == Awaiting && s.latch == 0
    case Collect => s.phase == Resting
    case Begin(w) => w < s.W() && w < |s.begin| && w < |s.pcs| && s.pcs[w] == Waiting && s.begin[w] > 0
    case Report(w, _) => w < s.W() && w < |s.pcs| && s.pcs[w] == Running
    case Store(w) => w < s.W() && w < |s.pcs| && s.pcs[w].Reporting?
    case DonePush(w) => w < s.W() && w < |s.pcs| && s.pcs[w] == Running
    case Next(u) => u < |s.pcs| && Moves(s.pcs[u])
  }

  function StartTask(s: State, roundEnd: nat, quit: bool): State
    requires Shape(s)
  {
    MoveTo(s, s.W(), Scan(0, 0))
    .(roundEnd := roundEnd, quitting := quit, task := s.task + 1, phase := Launching,
      holder := s.holder[0 := By(s.W())])
  }

  function Fill<T>(n: nat, x: T): (r: seq<T>)
    ensures |r| == n && forall i :: 0 <= i < n ==> r[i] == x
  { seq(n, i => x) }

  function Swapped(st: Stage): Stage { if st.InDone? then InReady(st.lp) else st }

  function SwappedAll(stages: seq<Stage>): (r: seq<Stage>)
    ensures |r| == |stages| && forall w :: 0 <= w < |stages| ==> r[w] == Swapped(stages[w])
  { seq(|stages|, w requires 0 <= w < |stages| => Swapped(stages[w])) }

  function FinishTask(s: State): State
    requires Shape(s)
  {
    s.(latch := s.W(), ready := s.done, done := s.ready, phase := if s.quitting then Joined else Resting,
       stage := SwappedAll(s.stage))
  }

  function BeginWork(s: State, w: nat): State
    requires Shape(s) && w < s.W() && s.begin[w] > 0
  {
    MoveTo(s, w, Running)
    .(begin := s.begin[w := s.begin[w] - 1], ran := s.ran[w := s.ran[w] + 1], stage := s.stage[w := Active])
  }

  function ReportTime(s: State, w: nat, t: nat): State
    requires Shape(s) && w < s.W()
  {
    if t < s.roundEnd then s.(told := s.told + [Told(t, s.roundEnd)])
    else MoveTo(s, w, Reporting(t, s.minTimes[s.lpOf[w]]))
  }

  function StoreTime(s: State, w: nat, t: nat, seen: nat): State
    requires Shape(s) && w < s.W()
  {
    MoveTo(s, w, Running)
    .(minTimes := if t < seen then s.minTimes[s.lpOf[w] := t] else s.minTimes, told := s.told + [Told(t, s.roundEnd)])
  }

  function PushDone(s: State, w: nat): State
    requires Shape(s) && w < s.W()
  {
    var lp := s.lpOf[w];
    MoveTo(s, w, Scan(lp, 0)).(done := s.done[lp := s.done[lp] + [w]], stage := s.stage[w := InDone(lp)])
  }

  function Apply(s: State, a: Action): State
    requires Shape(s) && Enabled(s, a)
  {
    match a
    case Start(roundEnd, quit) => StartTask(s, roundEnd, quit)
    case Finish => FinishTask(s)
    case Collect => s.(minTimes := Fill(s.L(), SIMTIME_MAX), told := [])
    case Begin(w) => BeginWork(s, w)
    case Report(w, t) => ReportTime(s, w, t)
    case Store(w) => StoreTime(s, w, s.pcs[w].t, s.pcs[w].seen)
    case DonePush(w) => PushDone(s, w)
    case Next(u) => StepAgent(s, u)
  }

  // ----- invariants ------------------------------------------------------------------------------

  ghost predicate NoDup(q: seq<nat>) { forall i, j :: 0 <= i < j < |q| ==> q[i] != q[j] }

  ghost predicate ReadyIs(s: State, l: nat)
    requires Shape(s) && l < s.L()
  {
    NoDup(s.ready[l]) && forall w :: 0 <= w < s.W() ==> (w in s.ready[l] <==> s.stage[w] == InReady(l))
  }

  ghost predicate DoneIs(s: State, l: nat)
    requires Shape(s) && l < s.L()
  {
    NoDup(s.done[l]) && forall w :: 0 <= w < s.W() ==> (w in s.done[l] <==> s.stage[w] == InDone(l))
  }

  /** The queues hold exactly the workers whose stage says so, each once. */
  ghost predicate Queues(s: State)
    requires Shape(s)
  {
    && (forall l :: 0 <= l < s.L() ==> ReadyIs(s, l) && DoneIs(s, l))
    && (forall w :: 0 <= w < s.W() ==>
          (s.stage[w].InReady? ==> s.stage[w].lp < s.L()) && (s.stage[w].InDone? ==> s.stage[w].lp < s.L()))
  }

  predicate Hands(pc: PC) { pc.Got? || pc.Hand? }

  predicate Acts(pc: PC) { pc.Scan? || pc.Got? || pc.Hand? }

  predicate Works(pc: PC) { pc.Running? || pc.Reporting? }

  predicate NotYet(st: Stage) { st.InReady? || st.Popped? || st.Posted? }

  /** What the stage of worker `w` says of its program counter and its begin semaphore. */
  ghost predicate StageOk(s: State, w: nat)
    requires Shape(s) && w < s.W()
  {
    && (Works(s.pcs[w]) <==> s.stage[w] == Active)
    && s.begin[w] == (if s.stage[w] == Posted then 1 else 0)
    && (NotYet(s.stage[w]) ==> s.pcs[w] == if s.phase == Joined then Exited else Waiting)
    && (s.stage[w].InDone? ==> s.pcs[w] != if s.quitting then Waiting else Exited)
    && (s.stage[w].Popped? ==>
          var u := s.stage[w].agent; u <= s.W() && Hands(s.pcs[u]) && s.pcs[u].w == w)
  }

  ghost predicate HandOk(s: State, u: nat)
    requires Shape(s) && u <= s.W()
  {
    && (Hands(s.pcs[u]) ==> s.stage[s.pcs[u].w] == Popped(u))
    && (s.pcs[u].Hand? ==> s.lpOf[s.pcs[u].w] == s.pcs[u].lp)
  }

  /** The main thread scans exactly while it launches a task. */
  predicate MainOk(s: State) {
    && |s.pcs| > s.W()
    && if s.phase == Launching then Acts(s.pcs[s.W()]) else s.pcs[s.W()] == Waiting
  }

  ghost predicate Agents(s: State)
    requires Shape(s)
  {
    && MainOk(s)
    && (forall w :: 0 <= w < s.W() ==> StageOk(s, w))
    && (forall u :: 0 <= u <= s.W() ==> HandOk(s, u))
  }

  /** The holder of processor `l` is an agent at work for it. */
  ghost predicate HolderOk(s: State, l: nat)
    requires Shape(s) && l < s.L()
  {
    s.holder[l].By? ==>
      var u := s.holder[l].agent;
      || (u <= s.W() && Acts(s.pcs[u]) && s.pcs[u].lp == l)
      || (u < s.W() && (s.stage[u] == Posted || s.stage[u] == Active) && s.lpOf[u] == l)
  }

  /** Every agent that may act for a processor is its holder, so there is at most one. */
  ghost predicate Exclusion(s: State)
    requires Shape(s)
  {
    && (forall w :: 0 <= w < s.W() && (s.stage[w] == Posted || s.stage[w] == Active) ==> s.holder[s.lpOf[w]] == By(w))
    && (forall u :: 0 <= u <= s.W() && Acts(s.pcs[u]) ==> s.holder[s.pcs[u].lp] == By(u))
    && (forall l :: 0 <= l < s.L() ==> HolderOk(s, l))
  }

  /** The first `k` queues of the scan for `lp` are empty, and stay so: queues only shrink. */
  ghost predicate Seen(s: State, lp: nat, k: nat)
    requires lp < s.L()
  {
    forall l :: 0 <= l < s.L() && Distance(s, lp, l) < k ==> s.ready[l] == []
  }

  ghost predicate AllEmpty(s: State) { forall l :: 0 <= l < s.L() ==> s.ready[l] == [] }

  /** Processors below this one have been given their first worker, or there was none. */
  function Launched(s: State): nat
    requires |s.pcs| > s.W()
  {
    if Acts(s.pcs[s.W()]) then s.pcs[s.W()].lp else if s.phase == Awaiting then s.L() else 0
  }

  /** A processor is idle only when no ready worker is left anywhere. */
  ghost predicate Work(s: State)
    requires Shape(s)
  {
    && (forall u :: 0 <= u <= s.W() && s.pcs[u].Scan? ==> Seen(s, s.pcs[u].lp, s.pcs[u].k))
    && (forall l :: 0 <= l < s.L() && l < Launched(s) && s.holder[l] == Nobody ==> AllEmpty(s))
    && (forall l :: 0 <= l < s.L() && Acts(s.pcs[s.W()]) && s.pcs[s.W()].lp < l ==> s.holder[l] == Nobody)
  }

  predicate Between(s: State) { s.phase == Resting || s.phase == Joined }

  ghost predicate Quiet(s: State)
    requires Shape(s)
  {
    Between(s) ==>
      && (forall l :: 0 <= l < s.L() ==> s.holder[l] == Nobody)
      && (forall w :: 0 <= w < s.W() ==> s.stage[w].InReady?)
  }

  predicate Counted(s: State, w: nat)
    requires w < |s.pcs| && w < |s.stage|
  {
    s.stage[w].InDone? && (s.pcs[w] == Waiting || s.pcs[w] == Exited)
  }

  ghost function Uncounted(s: State): set<nat>
    requires Shape(s)
  { set w: nat | w < s.W() && !Counted(s, w) }

  ghost predicate Latch(s: State)
    requires Shape(s)
  { s.latch == |Uncounted(s)| }

  /** Every worker has run every finished task once, and the current one once or not yet. */
  ghost predicate RanOnce(s: State)
    requires Shape(s)
  {
    forall w :: 0 <= w < s.W() ==>
      s.ran[w] + (if !Between(s) && NotYet(s.stage[w]) then 1 else 0) == s.task
  }

  function Min(a: nat, b: nat): nat { if a < b then a else b }

  function MinOf(ts: seq<nat>): nat { if ts == [] then SIMTIME_MAX else Min(ts[0], MinOf(ts[1..])) }

  /** The least reported time that is not before the end of its round, or SIMTIME_MAX. */
  function LeastTold(told: seq<Told>): nat {
    if told == [] then SIMTIME_MAX
    else
      var last := told[|told| - 1];
      var rest := LeastTold(told[..|told| - 1]);
      if last.t >= last.roundEnd then Min(last.t, rest) else rest
  }

  ghost predicate Minima(s: State)
    requires Shape(s)
  {
    && MinOf(s.minTimes) == LeastTold(s.told)
    && (forall w :: 0 <= w < s.W() && s.pcs[w].Reporting? ==>
          s.pcs[w].t >= s.roundEnd && s.pcs[w].seen == s.minTimes[s.lpOf[w]])
  }

  ghost predicate Inv(s: State) {
    Shape(s) && Queues(s) && Agents(s) && Exclusion(s) && Work(s) && Quiet(s) && Latch(s) && RanOnce(s) && Minima(s)
  }
}
