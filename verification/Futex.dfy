/**
 Futex wakeups and the conditions of blocked system calls (futex.c, status_listener.c,
 syscall_condition.c): the listeners of one futex, the conditions that own them, and the signal tasks
 that are queued to continue their threads.
 */
module FutexWaits {

  datatype Option<T> = None | Some(value: T)

  // ----- when a listener is notified --------------------------------------------------------------

  type Status = bv8

  const STATUS_NONE: Status := 0
  const STATUS_DESCRIPTOR_READABLE: Status := 2
  const STATUS_FUTEX_WAKEUP: Status := 16

  datatype Filter = Never | OffToOn | OnToOff | Always

  /** _statuslistener_shouldNotify */
  predicate ShouldNotify(monitoring: Status, filter: Filter, current: Status, transitions: Status) {
    var flipped := monitoring & transitions != 0;
    var on := monitoring & current != 0;
    match filter
    case OffToOn => flipped && on
    case OnToOff => flipped && !on
    case Always => flipped
    case Never => false
  }

  /** What status_listener.h says of the filters: some monitored bit went from off to on, or on to off. */
  predicate Documented(monitoring: Status, filter: Filter, current: Status, transitions: Status) {
    match filter
    case OffToOn => monitoring & transitions & current != 0
    case OnToOff => monitoring & transitions & !current != 0
    case Always => monitoring & transitions != 0
    case Never => false
  }

  predicate AtMostOneBit(m: Status) { m & (m - 1) == 0 }

  lemma OneBitAgrees(m: Status, filter: Filter, current: Status, transitions: Status)
    requires AtMostOneBit(m)
    ensures ShouldNotify(m, filter, current, transitions) == Documented(m, filter, current, transitions)
  {
  }

  lemma ManyBitsDiffer(m: Status, filter: Filter) returns (current: Status, transitions: Status)
    requires !AtMostOneBit(m) && (filter.OffToOn? || filter.OnToOff?)
    ensures ShouldNotify(m, filter, current, transitions) != Documented(m, filter, current, transitions)
  {
    current := m & (m - 1);
    transitions := m & !(m - 1);
  }

  /** An edge filter means what its documentation says exactly for listeners of at most one status bit;
      with two bits, one that is on lets the fall of the other pass as a rise. */
  lemma FilterMeansExactly(m: Status, filter: Filter)
    requires filter.OffToOn? || filter.OnToOff?
    ensures AtMostOneBit(m) <==>
            forall current: Status, transitions: Status ::
              ShouldNotify(m, filter, current, transitions) == Documented(m, filter, current, transitions)
  {
    if AtMostOneBit(m) {
      forall current: Status, transitions: Status
        ensures ShouldNotify(m, filter, current, transitions) == Documented(m, filter, current, transitions)
      {
        OneBitAgrees(m, filter, current, transitions);
      }
    } else {
      var current, transitions := ManyBitsDiffer(m, filter);
    }
  }

  // ----- conditions, listeners and signal tasks ---------------------------------------------------

  /** The condition of a system call that blocked on the futex.  `held` is the reference of its thread. */
  datatype Cond = Cond(hasTimeout: bool, trigger: Option<nat>, timer: bool, signalPending: bool, refs: int, held: bool)

  datatype Task = Task(cond: nat, wasTimeout: bool)

  /** `table` is the futex's hash table: which listeners it has, and which it has woken.  `owner` maps
      every listener ever made to its condition.  `notified`, `continued` and `answered` are histories:
      the listeners woken, the conditions whose threads were continued, and the listeners that were
      already woken when the thread that waited with them was continued. */
  datatype State = State(
    table: map<nat, bool>,
    conds: seq<Cond>,
    owner: seq<nat>,
    tasks: seq<Task>,
    notified: seq<nat>,
    continued: seq<nat>,
    answered: set<nat>
  )

  datatype Action =
    | NewCond(hasTimeout: bool)
    | Wait(c: nat)
    | Cancel(c: nat)
    | Drop(c: nat)
    | Notify(l: nat)
    | Expire(c: nat)
    | Signal

  function Start(): State { State(map[], [], [], [], [], [], {}) }

  /** The listener monitors the wakeup bit with the filter Always, as waitNonblock set it. */
  lemma WakeupNotifies()
    ensures ShouldNotify(STATUS_FUTEX_WAKEUP, Always, STATUS_FUTEX_WAKEUP, STATUS_FUTEX_WAKEUP)
  {
  }

  predicate Enabled(s: State, a: Action) {
    match a
    case NewCond(_) => true
    case Wait(c) => c < |s.conds| && s.conds[c].held
    case Cancel(c) => c < |s.conds| && s.conds[c].held
    case Drop(c) => c < |s.conds| && s.conds[c].held
    case Notify(l) => l in s.table && !s.table[l] && l < |s.owner| && s.owner[l] < |s.conds|
    case Expire(c) => c < |s.conds| && s.conds[c].timer
    case Signal => s.tasks != [] && s.tasks[0].cond < |s.conds|
  }

  function One(b: bool): int { if b then 1 else 0 }

  /** _syscallcondition_cleanupListeners: each listener that goes gives its reference back. */
  function Detach(s: State, c: nat): State
    requires c < |s.conds|
  {
    var d := s.conds[c];
    s.(table := if d.trigger.Some? then s.table - {d.trigger.value} else s.table,
       conds := s.conds[c := d.(trigger := None, timer := false, refs := d.refs - One(d.trigger.Some?) - One(d.timer))])
  }

  /** The second half of syscallcondition_waitNonblock. */
  function Attach(s: State, c: nat): State
    requires c < |s.conds|
  {
    var d := s.conds[c];
    var l := |s.owner|;
    s.(table := s.table[l := false], owner := s.owner + [c],
       conds := s.conds[c := d.(trigger := Some(l), timer := d.hasTimeout, refs := d.refs + 1 + One(d.hasTimeout))])
  }

  /** _syscallcondition_scheduleSignalTask, unless a signal is pending. */
  function Schedule(s: State, c: nat, wasTimeout: bool): State
    requires c < |s.conds|
  {
    var d := s.conds[c];
    if d.signalPending then s
    else s.(tasks := s.tasks + [Task(c, wasTimeout)], conds := s.conds[c := d.(signalPending := true, refs := d.refs + 1)])
  }

  /** _syscallcondition_signal, after which the task gives its reference back. */
  function RunTask(s: State): State
    requires Enabled(s, Signal)
  {
    var c := s.tasks[0].cond;
    var d := s.conds[c];
    s.(tasks := s.tasks[1..], continued := s.continued + [c],
       conds := s.conds[c := d.(signalPending := false, refs := d.refs - 1)],
       answered := if d.trigger.Some? && d.trigger.value in s.table && s.table[d.trigger.value]
                   then s.answered + {d.trigger.value} else s.answered)
  }

  function Apply(s: State, a: Action): State
    requires Enabled(s, a)
  {
    match a
    case NewCond(hasTimeout) => s.(conds := s.conds + [Cond(hasTimeout, None, false, false, 1, true)])
    case Wait(c) => Attach(Detach(s, c), c)
    case Cancel(c) => Detach(s, c)
    case Drop(c) => s.(conds := s.conds[c := s.conds[c].(held := false, refs := s.conds[c].refs - 1)])
    case Notify(l) =>
      var t := Schedule(s, s.owner[l], false);
      t.(table := t.table[l := true], notified := t.notified + [l])
    case Expire(c) => Schedule(s, c, true)
    case Signal => RunTask(s)
  }

  // ----- what every step keeps --------------------------------------------------------------------

  function Count(tasks: seq<Task>, c: nat): nat {
    if tasks == [] then 0 else One(tasks[0].cond == c) + Count(tasks[1..], c)
  }

  /** One task at most is queued for a condition, exactly when its flag says so; its reference count is
      the number of those who still refer to it. */
  predicate CondOk(s: State, c: nat)
    requires c < |s.conds|
  {
    var d := s.conds[c];
    && Count(s.tasks, c) == One(d.signalPending)
    && d.refs == One(d.held) + One(d.trigger.Some?) + One(d.timer) + Count(s.tasks, c)
    && (d.trigger.Some? ==> d.trigger.value in s.table && d.trigger.value < |s.owner| && s.owner[d.trigger.value] == c)
  }

  /** A listener belongs to the condition that waits with it; it was notified exactly if it is marked,
      and then its thread has a signal pending or was continued since. */
  predicate ListenerOk(s: State, l: nat)
    requires l in s.table
  {
    && l < |s.owner| && s.owner[l] < |s.conds|
    && s.conds[s.owner[l]].trigger == Some(l)
    && (s.table[l] <==> l in s.notified)
    && (s.table[l] ==> s.conds[s.owner[l]].signalPending || l in s.answered)
  }

  predicate NoDups(q: seq<nat>) { forall i, j :: 0 <= i < j < |q| ==> q[i] != q[j] }

  /** Every answer came after the notification, and continued the thread of the condition that owns the
      listener. */
  predicate Known(s: State) {
    && (forall l :: l in s.notified ==> l < |s.owner|)
    && (forall l :: l in s.answered ==> l in s.notified && l < |s.owner| && s.owner[l] in s.continued)
    && (forall k :: 0 <= k < |s.tasks| ==> s.tasks[k].cond < |s.conds|)
  }

  predicate Inv(s: State) {
    && NoDups(s.notified) && Known(s)
    && (forall c :: 0 <= c < |s.conds| ==> CondOk(s, c))
    && (forall l :: l in s.table ==> ListenerOk(s, l))
  }

  lemma {:induction false} CountThen(tasks: seq<Task>, t: Task, c: nat)
    ensures Count(tasks + [t], c) == Count(tasks, c) + One(t.cond == c)
  {
    if tasks == [] {
      assert (tasks + [t])[1..] == [];
    } else {
      assert (tasks + [t])[1..] == tasks[1..] + [t];
      CountThen(tasks[1..], t, c);
    }
  }

  lemma {:induction false} CountNone(tasks: seq<Task>, c: nat)
    requires forall k :: 0 <= k < |tasks| ==> tasks[k].cond < c
    ensures Count(tasks, c) == 0
  {
    if tasks != [] { CountNone(tasks[1..], c); }
  }

  /** Waiting and cancelling touch the listeners of one condition and no task. */
  lemma ListenersCondStep(s: State, a: Action, c: nat)
    requires Enabled(s, a) && (a.Wait? || a.Cancel?) && c < |s.conds| && CondOk(s, c)
    requires c != a.c && s.conds[c].trigger.Some? ==> s.conds[a.c].trigger != s.conds[c].trigger
    ensures CondOk(Apply(s, a), c)
  {
    hide Count;
  }

  lemma ScheduleCondStep(s: State, d: nat, wasTimeout: bool, c: nat)
    requires c < |s.conds| && d < |s.conds| && CondOk(s, c)
    ensures CondOk(Schedule(s, d, wasTimeout), c)
  {
    CountThen(s.tasks, Task(d, wasTimeout), c);
    hide Count;
  }

  lemma NotifyCondStep(s: State, l: nat, c: nat)
    requires Enabled(s, Notify(l)) && c < |s.conds| && CondOk(s, c)
    ensures CondOk(Apply(s, Notify(l)), c)
  {
    ScheduleCondStep(s, s.owner[l], false, c);
    hide Count;
  }

  lemma SignalCondStep(s: State, c: nat)
    requires Enabled(s, Signal) && c < |s.conds| && CondOk(s, c)
    ensures CondOk(Apply(s, Signal), c)
  {
    assert Count(s.tasks, c) == One(s.tasks[0].cond == c) + Count(s.tasks[1..], c);
    hide Count;
  }

  lemma DropCondStep(s: State, d: nat, c: nat)
    requires Enabled(s, Drop(d)) && c < |s.conds| && CondOk(s, c)
    ensures CondOk(Apply(s, Drop(d)), c)
  {
    hide Count;
  }

  lemma CondStep(s: State, a: Action, c: nat)
    requires Enabled(s, a) && c < |s.conds| && CondOk(s, c)
    requires (a.Wait? || a.Cancel?) && c != a.c && s.conds[c].trigger.Some? ==> s.conds[a.c].trigger != s.conds[c].trigger
    ensures CondOk(Apply(s, a), c)
  {
    if a.Wait? || a.Cancel? {
      ListenersCondStep(s, a, c);
    } else if a.Drop? {
      DropCondStep(s, a.c, c);
    } else if a.Notify? {
      NotifyCondStep(s, a.l, c);
    } else if a.Expire? {
      ScheduleCondStep(s, a.c, true, c);
    } else if a.Signal? {
      SignalCondStep(s, c);
    } else {
      hide Count;
    }
  }

  lemma TriggersDiffer(s: State, c: nat, k: nat)
    requires c < |s.conds| && k < |s.conds| && c != k && CondOk(s, c) && CondOk(s, k)
    requires s.conds[c].trigger.Some?
    ensures s.conds[k].trigger != s.conds[c].trigger
  {
  }

  lemma DifferAtCond(s: State, a: Action, c: nat)
    requires Enabled(s, a) && (a.Wait? || a.Cancel?) && c < |s.conds| && a.c != c && s.conds[c].trigger.Some?
    requires forall k :: 0 <= k < |s.conds| ==> CondOk(s, k)
    ensures s.conds[a.c].trigger != s.conds[c].trigger
  {
    hide CondOk;
    TriggersDiffer(s, c, a.c);
  }

  lemma ListenerStep(s: State, a: Action, l: nat)
    requires Enabled(s, a) && l in s.table && ListenerOk(s, l) && l in Apply(s, a).table
    requires forall k :: 0 <= k < |s.conds| ==> CondOk(s, k)
    ensures ListenerOk(Apply(s, a), l)
  {
    hide Count;
  }

  lemma NewCondOk(s: State, hasTimeout: bool)
    requires Known(s)
    ensures CondOk(Apply(s, NewCond(hasTimeout)), |s.conds|)
  {
    CountNone(s.tasks, |s.conds|);
  }

  lemma NewListenerOk(s: State, c: nat)
    requires Enabled(s, Wait(c)) && Known(s)
    ensures ListenerOk(Apply(s, Wait(c)), |s.owner|)
  {
    hide Count;
  }

  lemma KnownStep(s: State, a: Action)
    requires Enabled(s, a) && Known(s) && NoDups(s.notified)
    requires a.Notify? ==> ListenerOk(s, a.l)
    requires a.Signal? ==> CondOk(s, s.tasks[0].cond) && forall l :: l in s.table ==> ListenerOk(s, l)
    ensures Known(Apply(s, a)) && NoDups(Apply(s, a).notified)
  {
    hide Count;
  }

  lemma TablesListeners(s: State, a: Action, l: nat)
    requires Enabled(s, a) && l in Apply(s, a).table
    ensures l in s.table || (a.Wait? && l == |s.owner|)
  {
  }

  lemma CondCount(s: State, a: Action)
    requires Enabled(s, a)
    ensures |Apply(s, a).conds| == |s.conds| + One(a.NewCond?)
  {
  }

  lemma StepInv(s: State, a: Action)
    requires Inv(s) && Enabled(s, a)
    ensures Inv(Apply(s, a))
  {
    var n := Apply(s, a);
    if a.Notify? { assert ListenerOk(s, a.l); }
    KnownStep(s, a);
    CondCount(s, a);
    hide CondOk, ListenerOk, Known, NoDups, Apply, Enabled, Count;
    forall c | 0 <= c < |n.conds| ensures CondOk(n, c) {
      if c < |s.conds| {
        if (a.Wait? || a.Cancel?) && a.c != c && s.conds[c].trigger.Some? { DifferAtCond(s, a, c); }
        CondStep(s, a, c);
      } else {
        NewCondOk(s, a.hasTimeout);
      }
    }
    forall l | l in n.table ensures ListenerOk(n, l) {
      TablesListeners(s, a, l);
      if l in s.table { ListenerStep(s, a, l); } else { NewListenerOk(s, a.c); }
    }
  }

  // ----- whole runs -------------------------------------------------------------------------------

  predicate Runs(s: State, acts: seq<Action>, t: State)
    decreases acts
  { if acts == [] then s == t else Enabled(s, acts[0]) && Runs(Apply(s, acts[0]), acts[1..], t) }

  lemma {:induction false} RunInv(s: State, acts: seq<Action>, t: State)
    requires Inv(s) && Runs(s, acts, t)
    ensures Inv(t)
    decreases acts
  {
    hide Inv, Enabled, Apply;
    if acts != [] {
      StepInv(s, acts[0]);
      RunInv(Apply(s, acts[0]), acts[1..], t);
    }
  }

  /** In every run: no listener is notified twice between its add and its remove; a condition never has
      two signal tasks queued, and has one exactly when its flag says so; whoever refers to a condition
      keeps it alive; and the thread of a notified listener that still waits has a signal queued or was
      continued since. */
  lemma WakesAreNotLost(acts: seq<Action>, s: State, c: nat, l: nat)
    requires Runs(Start(), acts, s)
    ensures NoDups(s.notified) && (l in s.table ==> (s.table[l] <==> l in s.notified))
    ensures c < |s.conds| ==> Count(s.tasks, c) <= 1 && (s.conds[c].signalPending <==> Count(s.tasks, c) == 1)
    ensures c < |s.conds| && (s.conds[c].held || s.conds[c].trigger.Some? || s.conds[c].timer || s.conds[c].signalPending) ==>
              s.conds[c].refs > 0
    ensures l in s.table ==> l < |s.owner| && s.owner[l] < |s.conds|
    ensures l in s.table && s.table[l] ==> s.conds[s.owner[l]].signalPending || l in s.answered
    ensures l in s.answered ==> l in s.notified && l < |s.owner| && s.owner[l] in s.continued
  {
    RunInv(Start(), acts, s);
    if l in s.table { assert ListenerOk(s, l); }
    if c < |s.conds| { assert CondOk(s, c); }
  }

  // ----- futex_wake -------------------------------------------------------------------------------

  function Unwoken(table: map<nat, bool>): set<nat> { set l | l in table && !table[l] }

  function Notifies(woken: seq<nat>): seq<Action> {
    if woken == [] then [] else [Notify(woken[0])] + Notifies(woken[1..])
  }

  /** The table after the given listeners were woken. */
  function Marked(table: map<nat, bool>, woken: seq<nat>): map<nat, bool> {
    map l | l in table :: table[l] || l in woken
  }

  /** What a call of futex_wake(n) may do to the table: it wakes exactly min(n, not yet woken) listeners,
      each once. */
  predicate WakesExactly(table: map<nat, bool>, n: nat, woken: seq<nat>) {
    && NoDups(woken) && (forall l :: l in woken ==> l in Unwoken(table))
    && |woken| == (if n <= |Unwoken(table)| then n else |Unwoken(table)|)
  }

  lemma SetOf(q: seq<nat>) returns (elems: set<nat>)
    requires NoDups(q)
    ensures |elems| == |q| && forall l :: l in elems <==> l in q
  {
    if q == [] {
      elems := {};
    } else {
      var last := q[|q| - 1];
      var before := SetOf(q[..|q| - 1]);
      elems := before + {last};
      assert q == q[..|q| - 1] + [last];
      assert last !in before;
    }
  }

  lemma UnwokenAfter(table: map<nat, bool>, n: nat, woken: seq<nat>)
    requires WakesExactly(table, n, woken)
    ensures |Unwoken(Marked(table, woken))| == |Unwoken(table)| - |woken|
    ensures forall l :: l in Unwoken(Marked(table, woken)) <==> l in Unwoken(table) && l !in woken
  {
    var elems := SetOf(woken);
    assert elems <= Unwoken(table);
    assert Unwoken(Marked(table, woken)) == Unwoken(table) - elems;
  }

  /** Several calls in a row, with nobody added or removed between them. */
  predicate WakeCalls(table: map<nat, bool>, ns: seq<nat>, calls: seq<seq<nat>>)
    decreases |calls|
  {
    && |ns| == |calls|
    && (calls != [] ==> WakesExactly(table, ns[0], calls[0]) && WakeCalls(Marked(table, calls[0]), ns[1..], calls[1..]))
  }

  function Sum(ns: seq<nat>): nat { if ns == [] then 0 else ns[0] + Sum(ns[1..]) }

  function Flat(calls: seq<seq<nat>>): seq<nat> { if calls == [] then [] else calls[0] + Flat(calls[1..]) }

  /** Any calls of futex_wake in a row reach together exactly as many distinct waiters as one call with
      the sum of their counts; so k calls of wake(1) reach k waiters, if there are as many. */
  lemma {:induction false} CallsReachDistinct(table: map<nat, bool>, ns: seq<nat>, calls: seq<seq<nat>>)
    requires WakeCalls(table, ns, calls)
    ensures WakesExactly(table, Sum(ns), Flat(calls))
    decreases |calls|
  {
    if calls != [] {
      var first, rest := calls[0], Flat(calls[1..]);
      CallsReachDistinct(Marked(table, first), ns[1..], calls[1..]);
      UnwokenAfter(table, ns[0], first);
      hide Unwoken, Marked;
      assert forall l :: l in first + rest ==> l in Unwoken(table);
      forall i, j | 0 <= i < j < |first + rest| ensures (first + rest)[i] != (first + rest)[j] {
        if i < |first| <= j { assert rest[j - |first|] in rest; assert first[i] in first; }
      }
    }
  }

  lemma {:induction false} RunsThen(s: State, acts: seq<Action>, t: State, a: Action)
    requires Runs(s, acts, t) && Enabled(t, a)
    ensures Runs(s, acts + [a], Apply(t, a))
    decreases acts
  {
    hide Enabled, Apply;
    if acts == [] {
      assert (acts + [a])[1..] == [];
      assert Runs(Apply(t, a), [], Apply(t, a));
    } else {
      assert (acts + [a])[1..] == acts[1..] + [a];
      RunsThen(Apply(s, acts[0]), acts[1..], t, a);
    }
  }

  lemma {:induction false} NotifiesThen(woken: seq<nat>, l: nat)
    ensures Notifies(woken + [l]) == Notifies(woken) + [Notify(l)]
  {
    if woken == [] {
      assert (woken + [l])[1..] == [];
    } else {
      assert (woken + [l])[1..] == woken[1..] + [l];
      NotifiesThen(woken[1..], l);
    }
  }

  /** The listeners in `done` that were not woken before are those in `woken`. */
  ghost predicate Covers(table: map<nat, bool>, done: seq<nat>, woken: seq<nat>) {
    && NoDups(woken)
    && (forall l :: l in woken ==> l in table && !table[l] && l in done)
    && (forall l :: l in done && l in table && !table[l] ==> l in woken)
  }

  /** The wake loop of `was` has gone through the listeners `done` and woken `woken`. */
  ghost predicate WakeLoop(was: State, s: State, done: seq<nat>, woken: seq<nat>) {
    && Inv(s) && Runs(was, Notifies(woken), s)
    && Covers(was.table, done, woken)
    && s.table == Marked(was.table, woken) && s.notified == was.notified + woken
  }

  /** The keys of the table, each once, in any order. */
  ghost predicate KeysOf(q: seq<nat>, table: map<nat, bool>) {
    NoDups(q) && forall l :: l in q <==> l in table
  }

  lemma Prefix(q: seq<nat>, i: nat)
    requires i < |q|
    ensures q[..i + 1] == q[..i] + [q[i]]
  {
  }

  lemma LoopStarts(was: State, q: seq<nat>)
    requires Inv(was)
    ensures WakeLoop(was, was, q[..0], [])
  {
    assert Marked(was.table, []) == was.table;
  }

  lemma CoversMore(table: map<nat, bool>, done: seq<nat>, woken: seq<nat>, l: nat)
    requires Covers(table, done, woken)
    ensures var m := Marked(table, woken);
            if l in m && !m[l] then Covers(table, done + [l], woken + [l]) && Marked(table, woken + [l]) == m[l := true]
            else Covers(table, done + [l], woken)
  {
    var m := Marked(table, woken);
    if l in m && !m[l] {
      assert Marked(table, woken + [l]) == m[l := true];
    }
  }

  lemma LoopSkips(was: State, s: State, done: seq<nat>, woken: seq<nat>, l: nat)
    requires WakeLoop(was, s, done, woken) && !(l in s.table && !s.table[l])
    ensures WakeLoop(was, s, done + [l], woken)
  {
    hide Inv, Runs, Covers, Notifies;
    CoversMore(was.table, done, woken, l);
  }

  lemma LoopWakes(was: State, s: State, done: seq<nat>, woken: seq<nat>, l: nat)
    requires WakeLoop(was, s, done, woken) && l in s.table && !s.table[l]
    ensures Enabled(s, Notify(l)) && WakeLoop(was, Apply(s, Notify(l)), done + [l], woken + [l])
  {
    hide Inv, Runs, Notifies, Covers, Enabled, Apply, NoDups, Marked;
    CanNotify(s, l);
    LoopRuns(was, s, woken, l);
    CoversMore(was.table, done, woken, l);
  }

  lemma LoopRuns(was: State, s: State, woken: seq<nat>, l: nat)
    requires Inv(s) && Runs(was, Notifies(woken), s) && Enabled(s, Notify(l))
    requires s.notified == was.notified + woken
    ensures var n := Apply(s, Notify(l));
            && Inv(n) && Runs(was, Notifies(woken + [l]), n)
            && n.table == s.table[l := true] && n.notified == was.notified + (woken + [l])
  {
    hide *;
    NotifyMarks(s, l);
    StepInv(s, Notify(l));
    RunsThen(was, Notifies(woken), s, Notify(l));
    NotifiesThen(woken, l);
  }

  lemma CanNotify(s: State, l: nat)
    requires Inv(s) && l in s.table && !s.table[l]
    ensures Enabled(s, Notify(l))
  {
    assert ListenerOk(s, l);
  }

  lemma NotifyMarks(s: State, l: nat)
    requires Enabled(s, Notify(l))
    ensures Apply(s, Notify(l)).table == s.table[l := true]
    ensures Apply(s, Notify(l)).notified == s.notified + [l]
  {
  }

  /** A wake loop that stopped has woken exactly as many as it should. */
  lemma LoopEnds(was: State, s: State, q: seq<nat>, i: nat, woken: seq<nat>, n: nat)
    requires i <= |q| && WakeLoop(was, s, q[..i], woken) && |woken| <= n && (i == |q| || |woken| == n)
    requires KeysOf(q, was.table)
    ensures Inv(s) && Runs(was, Notifies(woken), s) && WakesExactly(was.table, n, woken)
    ensures s.table == Marked(was.table, woken) && s.notified == was.notified + woken
  {
    hide Inv, Runs, Notifies;
    var elems := SetOf(woken);
    assert elems <= Unwoken(was.table);
    assert Unwoken(was.table) == elems + (Unwoken(was.table) - elems);
    if |woken| != n {
      assert q[..i] == q;
      assert Unwoken(was.table) == elems;
    }
  }

  // ----- the objects, updated in place --------------------------------------------------------------

  /** One futex with the conditions that may wait on it and the queue of their signal tasks. */
  class Futex {
    var listeners: map<nat, bool>
    var conds: seq<Cond>
    var owner: seq<nat>
    var tasks: seq<Task>
    ghost var notified: seq<nat>
    ghost var continued: seq<nat>
    ghost var answered: set<nat>

    ghost function View(): State
      reads this
    { State(listeners, conds, owner, tasks, notified, continued, answered) }

    constructor ()
      ensures View() == Start() && Inv(View())
    {
      listeners, conds, owner, tasks := map[], [], [], [];
      notified, continued, answered := [], [], {};
    }

    /** _syscallcondition_scheduleSignalTask behind the test of the two notify functions */
    method ScheduleSignalTask(c: nat, wasTimeout: bool)
      requires c < |conds|
      modifies this`tasks, this`conds
      ensures View() == Schedule(old(View()), c, wasTimeout)
    {
      var cond := conds[c];
      if !cond.signalPending {
        tasks := tasks + [Task(c, wasTimeout)];
        conds := conds[c := cond.(refs := cond.refs + 1, signalPending := true)];
      }
    }

    /** statuslistener_onStatusChanged for one listener of the futex, and its mark in the table */
    method WakeListener(l: nat)
      requires Enabled(View(), Notify(l))
      modifies this`listeners, this`conds, this`tasks, this`notified
      ensures View() == Apply(old(View()), Notify(l))
    {
      WakeupNotifies();
      if ShouldNotify(STATUS_FUTEX_WAKEUP, Always, STATUS_FUTEX_WAKEUP, STATUS_FUTEX_WAKEUP) {
        ScheduleSignalTask(owner[l], false);
      }
      listeners := listeners[l := true];
      notified := notified + [l];
    }

    /** The body of the wake loop for one listener. */
    method WakeIfUnwoken(listener: nat, ghost was: State, ghost done: seq<nat>, ghost woken: seq<nat>)
      returns (did: bool)
      requires WakeLoop(was, View(), done, woken)
      modifies this`listeners, this`conds, this`tasks, this`notified
      ensures did <==> old(listener in listeners && !listeners[listener])
      ensures WakeLoop(was, View(), done + [listener], if did then woken + [listener] else woken)
    {
      hide WakeLoop, Inv, Apply, Enabled;
      did := listener in listeners && !listeners[listener];
      if did {
        LoopWakes(was, View(), done, woken, listener);
        WakeListener(listener);
      } else {
        LoopSkips(was, View(), done, woken, listener);
      }
    }

    /** futex_wake; the keys of the hash table come in any order */
    method Wake(listenerList: seq<nat>, numWakeups: nat) returns (numWoken: nat, ghost woken: seq<nat>)
      requires Inv(View())
      requires KeysOf(listenerList, listeners)
      modifies this`listeners, this`conds, this`tasks, this`notified
      ensures Inv(View()) && Runs(old(View()), Notifies(woken), View())
      ensures numWoken == |woken| && WakesExactly(old(listeners), numWakeups, woken)
      ensures listeners == Marked(old(listeners), woken) && notified == old(notified) + woken
    {
      hide WakeLoop, Inv, Runs, KeysOf, WakesExactly, Marked, Notifies;
      ghost var was, done := View(), listenerList[..0];
      numWoken, woken := 0, [];
      var item := 0;
      LoopStarts(was, listenerList);
      while item < |listenerList| && numWoken < numWakeups
        modifies this`listeners, this`conds, this`tasks, this`notified
        invariant item <= |listenerList| && numWoken == |woken| <= numWakeups && done == listenerList[..item]
        invariant WakeLoop(was, View(), done, woken)
      {
        Prefix(listenerList, item);
        var did := WakeIfUnwoken(listenerList[item], was, done, woken);
        done := listenerList[..item + 1];
        if did {
          woken := woken + [listenerList[item]];
          numWoken := numWoken + 1;
        }
        item := item + 1;
      }
      LoopEnds(was, View(), listenerList, item, woken, numWakeups);
    }

    /** syscallcondition_cancel */
    method CancelCondition(c: nat)
      requires c < |conds|
      modifies this`listeners, this`conds
      ensures View() == Detach(old(View()), c)
    {
      var cond := conds[c];
      if cond.timer {
        cond := cond.(timer := false, refs := cond.refs - 1);
      }
      if cond.trigger.Some? {
        listeners := listeners - {cond.trigger.value};
        cond := cond.(trigger := None, refs := cond.refs - 1);
      }
      conds := conds[c := cond];
    }

    /** syscallcondition_waitNonblock */
    method WaitNonblock(c: nat)
      requires c < |conds| && conds[c].held
      modifies this`listeners, this`conds, this`owner
      ensures View() == Apply(old(View()), Wait(c))
    {
      CancelCondition(c);
      var cond := conds[c];
      if cond.hasTimeout && !cond.timer {
        cond := cond.(timer := true, refs := cond.refs + 1);
      }
      if cond.trigger.None? {
        var listener := |owner|;
        owner := owner + [c];
        cond := cond.(trigger := Some(listener), refs := cond.refs + 1);
        listeners := listeners[listener := false];
      }
      conds := conds[c := cond];
    }

    /** _syscallcondition_signal; the status of a futex trigger is always valid */
    method SignalTask()
      requires Enabled(View(), Signal)
      modifies this`tasks, this`conds, this`continued, this`answered
      ensures View() == Apply(old(View()), Signal)
    {
      var c := tasks[0].cond;
      tasks := tasks[1..];
      continued := continued + [c];
      if conds[c].trigger.Some? && conds[c].trigger.value in listeners && listeners[conds[c].trigger.value] {
        answered := answered + {conds[c].trigger.value};
      }
      conds := conds[c := conds[c].(signalPending := false, refs := conds[c].refs - 1)];
    }

    method Perform(a: Action)
      requires Enabled(View(), a)
      modifies this
      ensures View() == Apply(old(View()), a)
    {
      if a.NewCond? {
        conds := conds + [Cond(a.hasTimeout, None, false, false, 1, true)];
      } else if a.Wait? {
        WaitNonblock(a.c);
      } else if a.Cancel? {
        CancelCondition(a.c);
      } else if a.Drop? {
        conds := conds[a.c := conds[a.c].(held := false, refs := conds[a.c].refs - 1)];
      } else if a.Notify? {
        WakeListener(a.l);
      } else if a.Expire? {
        ScheduleSignalTask(a.c, true);
      } else {
        SignalTask();
      }
    }
  }
}
