/**
 What the schedule alone determines of conditions and signal tasks: who waits with which listener and
 whether its timer is armed, the order in which threads are continued, and that a timeout or a wake-up
 continues the thread it is meant for.
 */
module FutexSchedule {
  import opened FutexWaits

  /** Whether the conditions were made with a timeout, in the order in which they were made. */
  function Timeouts(acts: seq<Action>): seq<bool> {
    if acts == [] then []
    else Timeouts(acts[..|acts| - 1]) + if acts[|acts| - 1].NewCond? then [acts[|acts| - 1].hasTimeout] else []
  }

  /** The conditions that waited, one for each listener ever made. */
  function Waiters(acts: seq<Action>): seq<nat> {
    if acts == [] then []
    else Waiters(acts[..|acts| - 1]) + if acts[|acts| - 1].Wait? then [acts[|acts| - 1].c] else []
  }

  /** The listener with which `c` waits, if its last wait was not cancelled. */
  function WaitsWith(acts: seq<Action>, c: nat): Option<nat> {
    if acts == [] then None
    else
      var before, a := acts[..|acts| - 1], acts[|acts| - 1];
      if a == Wait(c) then Some(|Waiters(before)|) else if a == Cancel(c) then None else WaitsWith(before, c)
  }

  function Woken(acts: seq<Action>): seq<nat> {
    if acts == [] then []
    else Woken(acts[..|acts| - 1]) + if acts[|acts| - 1].Notify? then [acts[|acts| - 1].l] else []
  }

  predicate InLine(line: seq<Task>, c: nat) { exists k :: 0 <= k < |line| && line[k].cond == c }

  function Join(line: seq<Task>, c: nat, wasTimeout: bool): seq<Task> {
    if InLine(line, c) then line else line + [Task(c, wasTimeout)]
  }

  /** The conditions that are signalled and not yet served, each once, in the order of their first cause. */
  function Line(acts: seq<Action>): seq<Task> {
    if acts == [] then []
    else NextLine(Line(acts[..|acts| - 1]), Waiters(acts[..|acts| - 1]), acts[|acts| - 1])
  }

  function NextLine(line: seq<Task>, waiters: seq<nat>, a: Action): seq<Task> {
    match a
    case Notify(l) => if l < |waiters| then Join(line, waiters[l], false) else line
    case Expire(c) => Join(line, c, true)
    case Signal => if line == [] then [] else line[1..]
    case _ => line
  }

  function Served(acts: seq<Action>): seq<nat> {
    if acts == [] then []
    else
      var before := acts[..|acts| - 1];
      Served(before) + if acts[|acts| - 1].Signal? && Line(before) != [] then [Line(before)[0].cond] else []
  }

  predicate Dropped(acts: seq<Action>, c: nat) { Drop(c) in acts }

  // ----- what every step keeps --------------------------------------------------------------------

  predicate CondFollows(s: State, acts: seq<Action>, c: nat)
    requires c < |s.conds|
  {
    var d := s.conds[c];
    && c < |Timeouts(acts)| && d.hasTimeout == Timeouts(acts)[c]
    && d.trigger == WaitsWith(acts, c)
    && (d.timer <==> WaitsWith(acts, c).Some? && Timeouts(acts)[c])
    && (d.signalPending <==> InLine(Line(acts), c))
    && (d.held <==> !Dropped(acts, c))
  }

  predicate ListsFollow(s: State, acts: seq<Action>) {
    && |s.conds| == |Timeouts(acts)| && s.owner == Waiters(acts) && s.tasks == Line(acts)
    && s.notified == Woken(acts) && s.continued == Served(acts)
  }

  predicate Follows(s: State, acts: seq<Action>) {
    ListsFollow(s, acts) && forall c :: 0 <= c < |s.conds| ==> CondFollows(s, acts, c)
  }

  /** Actions mention only conditions that exist. */
  predicate Named(acts: seq<Action>, n: nat) {
    forall a :: a in acts && (a.Wait? || a.Cancel? || a.Drop? || a.Expire?) ==> a.c < n
  }

  lemma Extended(acts: seq<Action>, a: Action)
    ensures Timeouts(acts + [a]) == Timeouts(acts) + if a.NewCond? then [a.hasTimeout] else []
    ensures Waiters(acts + [a]) == Waiters(acts) + if a.Wait? then [a.c] else []
    ensures Woken(acts + [a]) == Woken(acts) + if a.Notify? then [a.l] else []
    ensures Line(acts + [a]) == NextLine(Line(acts), Waiters(acts), a)
    ensures Served(acts + [a]) == Served(acts) + if a.Signal? && Line(acts) != [] then [Line(acts)[0].cond] else []
  {
    assert (acts + [a])[..|acts|] == acts;
    hide NextLine;
  }

  lemma ExtendedAt(acts: seq<Action>, a: Action, c: nat)
    ensures WaitsWith(acts + [a], c) ==
            if a == Wait(c) then Some(|Waiters(acts)|) else if a == Cancel(c) then None else WaitsWith(acts, c)
    ensures Dropped(acts + [a], c) <==> Dropped(acts, c) || a == Drop(c)
  {
    assert (acts + [a])[..|acts|] == acts;
  }

  lemma JoinHas(line: seq<Task>, c: nat, wasTimeout: bool, k: nat)
    ensures InLine(Join(line, c, wasTimeout), k) <==> InLine(line, k) || k == c
  {
    if !InLine(line, c) {
      var n := line + [Task(c, wasTimeout)];
      assert n[|line|].cond == c;
      if InLine(line, k) {
        var i :| 0 <= i < |line| && line[i].cond == k;
        assert n[i].cond == k;
      }
    }
  }

  lemma {:induction false} CountInLine(line: seq<Task>, c: nat)
    ensures Count(line, c) > 0 <==> InLine(line, c)
  {
    if line != [] {
      CountInLine(line[1..], c);
      assert InLine(line, c) <==> line[0].cond == c || InLine(line[1..], c) by { HeadOrRest(line, c); }
    }
  }

  lemma HeadOrRest(line: seq<Task>, c: nat)
    requires line != []
    ensures InLine(line, c) <==> line[0].cond == c || InLine(line[1..], c)
  {
    if InLine(line, c) {
      var k :| 0 <= k < |line| && line[k].cond == c;
      if k > 0 { assert line[1..][k - 1].cond == c; }
    }
    if InLine(line[1..], c) {
      var k :| 0 <= k < |line[1..]| && line[1..][k].cond == c;
      assert line[k + 1].cond == c;
    }
  }

  lemma ListsStep(s: State, acts: seq<Action>, a: Action)
    requires Inv(s) && Follows(s, acts) && Enabled(s, a)
    ensures ListsFollow(Apply(s, a), acts + [a])
  {
    hide Inv, Timeouts, Waiters, Woken, Line, Served, InLine, WaitsWith, Dropped;
    Extended(acts, a);
    if a.Notify? { assert CondFollows(s, acts, s.owner[a.l]); }
    if a.Expire? { assert CondFollows(s, acts, a.c); }
  }

  lemma FlagStep(s: State, acts: seq<Action>, a: Action, c: nat)
    requires Inv(s) && Follows(s, acts) && Enabled(s, a) && c < |s.conds|
    ensures Apply(s, a).conds[c].signalPending <==> InLine(Line(acts + [a]), c)
  {
    hide Follows, ListsFollow;
    StepInv(s, a);
    ListsStep(s, acts, a);
    ShowsFlag(s, acts, a, c);
  }

  lemma ShowsFlag(s: State, acts: seq<Action>, a: Action, c: nat)
    requires Inv(s) && Enabled(s, a) && c < |s.conds| && Inv(Apply(s, a)) && ListsFollow(Apply(s, a), acts + [a])
    ensures c < |Apply(s, a).conds| && (Apply(s, a).conds[c].signalPending <==> InLine(Line(acts + [a]), c))
  {
    hide ListenerOk, Known, Timeouts, Waiters, Woken, Line, Served, InLine, Count;
    var n := Apply(s, a);
    CondCount(s, a);
    assert CondOk(n, c);
    CountInLine(n.tasks, c);
  }

  lemma CondStepFollows(s: State, acts: seq<Action>, a: Action, c: nat)
    requires Inv(s) && Follows(s, acts) && Enabled(s, a) && c < |s.conds|
    ensures c < |Apply(s, a).conds| && CondFollows(Apply(s, a), acts + [a], c)
  {
    hide Inv, Timeouts, Waiters, Woken, Line, Served, InLine, WaitsWith, Dropped;
    Extended(acts, a);
    ExtendedAt(acts, a, c);
    FlagStep(s, acts, a, c);
    assert CondFollows(s, acts, c);
    hide Join;
  }

  lemma NewCondFollows(s: State, acts: seq<Action>, hasTimeout: bool)
    requires Inv(s) && Follows(s, acts) && Named(acts, |s.conds|)
    ensures CondFollows(Apply(s, NewCond(hasTimeout)), acts + [NewCond(hasTimeout)], |s.conds|)
  {
    hide Timeouts, Waiters, Woken, Line, Served, InLine, WaitsWith, Dropped, ListenerOk, CondOk, Count;
    var a, c := NewCond(hasTimeout), |s.conds|;
    Extended(acts, a);
    ExtendedAt(acts, a, c);
    Unnamed(acts, c);
    NotInLine(s, c);
  }

  lemma {:induction false} Unnamed(acts: seq<Action>, c: nat)
    requires Named(acts, c)
    ensures WaitsWith(acts, c).None? && !Dropped(acts, c)
  {
    if acts != [] {
      assert acts[|acts| - 1] in acts;
      Unnamed(acts[..|acts| - 1], c);
    }
  }

  lemma NotInLine(s: State, c: nat)
    requires Known(s) && c >= |s.conds|
    ensures !InLine(s.tasks, c)
  {
  }

  lemma StepFollows(s: State, acts: seq<Action>, a: Action)
    requires Inv(s) && Follows(s, acts) && Named(acts, |s.conds|) && Enabled(s, a)
    ensures Follows(Apply(s, a), acts + [a]) && Named(acts + [a], |Apply(s, a).conds|)
  {
    hide Inv, CondFollows, ListsFollow, Apply;
    ListsStep(s, acts, a);
    CondCount(s, a);
    forall c | 0 <= c < |Apply(s, a).conds| ensures CondFollows(Apply(s, a), acts + [a], c) {
      if c < |s.conds| { CondStepFollows(s, acts, a, c); } else { NewCondFollows(s, acts, a.hasTimeout); }
    }
  }

  // ----- whole runs -------------------------------------------------------------------------------

  lemma {:induction false} RunsFront(s0: State, acts: seq<Action>, s: State) returns (m: State)
    requires acts != [] && Runs(s0, acts, s)
    ensures Runs(s0, acts[..|acts| - 1], m) && Enabled(m, acts[|acts| - 1]) && s == Apply(m, acts[|acts| - 1])
    decreases |acts|
  {
    hide Enabled, Apply;
    if |acts| == 1 {
      m := s0;
      assert Runs(s0, [], s0) && Runs(Apply(s0, acts[0]), [], s);
    } else {
      m := RunsFront(Apply(s0, acts[0]), acts[1..], s);
      assert acts[1..][..|acts| - 2] == acts[..|acts| - 1][1..];
      assert Runs(s0, acts[..|acts| - 1], m);
    }
  }

  lemma NothingFollows()
    ensures Inv(Start()) && Follows(Start(), []) && Named([], 0)
  {
  }

  lemma {:induction false} RunFollows(acts: seq<Action>, s: State)
    requires Runs(Start(), acts, s)
    ensures Inv(s) && Follows(s, acts) && Named(acts, |s.conds|)
    decreases |acts|
  {
    hide Inv, Enabled, Apply, Follows, Named;
    if acts == [] {
      NothingFollows();
    } else {
      var front, last := acts[..|acts| - 1], acts[|acts| - 1];
      var m := RunsFront(Start(), acts, s);
      RunFollows(front, m);
      StepInv(m, last);
      StepFollows(m, front, last);
      assert front + [last] == acts;
    }
  }

  /** The schedule alone determines every run: the tasks that are queued and the order in which threads are
      continued, who is notified, and for each condition its timeout, its listener, its timer, and whether
      its signal is pending.  A listener is in the futex's table exactly while its condition waits with it,
      and marked exactly if it was notified. */
  lemma ScheduleDecides(acts: seq<Action>, s: State, c: nat, l: nat)
    requires Runs(Start(), acts, s)
    ensures s.tasks == Line(acts) && s.continued == Served(acts) && s.notified == Woken(acts)
    ensures |s.conds| == |Timeouts(acts)| && s.owner == Waiters(acts)
    ensures c < |s.conds| ==>
              && s.conds[c].hasTimeout == Timeouts(acts)[c] && s.conds[c].trigger == WaitsWith(acts, c)
              && (s.conds[c].signalPending <==> InLine(Line(acts), c)) && (s.conds[c].held <==> !Dropped(acts, c))
    ensures l in s.table <==> l < |Waiters(acts)| && WaitsWith(acts, Waiters(acts)[l]) == Some(l)
    ensures l in s.table ==> (s.table[l] <==> l in Woken(acts))
  {
    RunFollows(acts, s);
    hide Timeouts, Waiters, Woken, Line, Served, InLine, WaitsWith, Dropped, Count;
    if c < |s.conds| { assert CondFollows(s, acts, c); }
    if l in s.table {
      assert ListenerOk(s, l) && CondFollows(s, acts, s.owner[l]);
    } else if l < |s.owner| && WaitsWith(acts, s.owner[l]) == Some(l) {
      InTable(acts, s, l);
    }
  }

  lemma InTable(acts: seq<Action>, s: State, l: nat)
    requires Inv(s) && Follows(s, acts) && Named(acts, |s.conds|)
    requires l < |s.owner| && WaitsWith(acts, s.owner[l]) == Some(l)
    ensures l in s.table
  {
    hide Timeouts, Waiters, Woken, Line, Served, InLine, Dropped, Count;
    if s.owner[l] < |s.conds| {
      assert CondFollows(s, acts, s.owner[l]) && CondOk(s, s.owner[l]);
    } else {
      hide WaitsWith;
      NamedMore(acts, |s.conds|, s.owner[l]);
      Unnamed(acts, s.owner[l]);
    }
  }

  lemma NamedMore(acts: seq<Action>, m: nat, n: nat)
    requires Named(acts, m) && m <= n
    ensures Named(acts, n)
  {
  }

  /** A timeout can fire exactly for a condition that was made with one and waits. */
  lemma TimerArmedExactly(acts: seq<Action>, s: State, c: nat)
    requires Runs(Start(), acts, s)
    ensures Enabled(s, Expire(c)) <==> WaitsWith(acts, c).Some? && c < |Timeouts(acts)| && Timeouts(acts)[c]
  {
    RunFollows(acts, s);
    hide Inv, Timeouts, Waiters, Woken, Line, Served, InLine, WaitsWith, Dropped;
    if c < |s.conds| { assert CondFollows(s, acts, c); }
  }

  // ----- signals continue their threads -------------------------------------------------------------

  function Signals(k: nat): seq<Action> { if k == 0 then [] else [Signal] + Signals(k - 1) }

  function Conds(tasks: seq<Task>): seq<nat> { if tasks == [] then [] else [tasks[0].cond] + Conds(tasks[1..]) }

  lemma SignalTakes(s: State)
    requires Inv(s) && s.tasks != []
    ensures Enabled(s, Signal)
    ensures Apply(s, Signal).tasks == s.tasks[1..] && Apply(s, Signal).continued == s.continued + [s.tasks[0].cond]
  {
    hide CondOk, ListenerOk;
  }

  lemma {:induction false} SignalsDrain(s: State) returns (t: State)
    requires Inv(s)
    ensures Runs(s, Signals(|s.tasks|), t) && Inv(t) && t.tasks == []
    ensures t.continued == s.continued + Conds(s.tasks)
    decreases |s.tasks|
  {
    t := s;
    if s.tasks != [] {
      SignalTakes(s);
      StepInv(s, Signal);
      hide Inv, Enabled, Apply;
      t := SignalsDrain(Apply(s, Signal));
      assert Signals(|s.tasks|)[1..] == Signals(|s.tasks| - 1);
      assert s.continued + [s.tasks[0].cond] + Conds(s.tasks[1..]) == s.continued + Conds(s.tasks);
    }
  }

  lemma {:induction false} CondsThen(tasks: seq<Task>, x: Task)
    ensures Conds(tasks + [x]) == Conds(tasks) + [x.cond]
  {
    if tasks != [] {
      assert (tasks + [x])[1..] == tasks[1..] + [x];
      CondsThen(tasks[1..], x);
    } else {
      assert (tasks + [x])[1..] == [];
    }
  }

  lemma Schedules(s: State, a: Action, c: nat)
    requires Inv(s) && Enabled(s, a) && c < |s.conds| && !s.conds[c].signalPending
    requires a == Expire(c) || (a.Notify? && s.owner[a.l] == c)
    ensures Apply(s, a).tasks == s.tasks + [Task(c, a.Expire?)] && Apply(s, a).continued == s.continued
  {
  }

  /** From any state in which a condition with a timeout waits with no signal pending, the expiry of its
      timer and the signal tasks then queued continue the threads before it in line, and then its own.  The
      same holds of a wake-up of its listener. */
  lemma CauseContinues(acts: seq<Action>, s: State, a: Action, c: nat) returns (t: State)
    requires Runs(Start(), acts, s) && c < |s.conds| && !s.conds[c].signalPending && WaitsWith(acts, c).Some?
    requires (a == Expire(c) && c < |Timeouts(acts)| && Timeouts(acts)[c]) || (a == Notify(WaitsWith(acts, c).value) && a.l !in Woken(acts))
    ensures Runs(s, [a] + Signals(|s.tasks| + 1), t)
    ensures t.continued == s.continued + Conds(Line(acts)) + [c]
  {
    hide *;
    RunFollows(acts, s);
    CauseEnabled(acts, s, a, c);
    Schedules(s, a, c);
    StepInv(s, a);
    t := SignalsDrain(Apply(s, a));
    CondsThen(s.tasks, Task(c, a.Expire?));
    OneFirst(s, a, Signals(|s.tasks| + 1), t);
  }

  lemma CauseEnabled(acts: seq<Action>, s: State, a: Action, c: nat)
    requires Inv(s) && Follows(s, acts) && c < |s.conds| && WaitsWith(acts, c).Some?
    requires (a == Expire(c) && c < |Timeouts(acts)| && Timeouts(acts)[c]) ||
             (a == Notify(WaitsWith(acts, c).value) && a.l !in Woken(acts))
    ensures Enabled(s, a) && s.tasks == Line(acts) && (a.Notify? ==> s.owner[a.l] == c)
  {
    hide Timeouts, Waiters, Woken, Line, Served, InLine, WaitsWith, Dropped, Count, Known;
    assert CondFollows(s, acts, c) && CondOk(s, c);
    if a.Notify? { assert ListenerOk(s, a.l); }
  }

  lemma OneFirst(s: State, a: Action, more: seq<Action>, t: State)
    requires Enabled(s, a) && Runs(Apply(s, a), more, t)
    ensures Runs(s, [a] + more, t)
  {
    hide Enabled, Apply;
    assert ([a] + more)[1..] == more;
  }
}
