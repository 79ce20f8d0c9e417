/**
 The controller's choice of execution windows (controller.c) and the manager's round loop
 (manager.c), in 64-bit arithmetic.
 */
module ControllerModel {
  import opened Rounds

  const SIMTIME_ONE_MILLISECOND: nat := 1_000_000

  datatype Span = Span(start: nat, end: nat)

  /** The jump for the least latency known: that latency, 10 milliseconds while none is known, and never less
      than the configured runahead. */
  function JumpFor(config: nat, known: nat): (jump: nat)
    ensures jump >= config && jump >= (if known > 0 then known else 10 * SIMTIME_ONE_MILLISECOND) > 0
    ensures jump == config || jump == known || (known == 0 && jump == 10 * SIMTIME_ONE_MILLISECOND)
  { Max(config, if known > 0 then known else 10 * SIMTIME_ONE_MILLISECOND) }

  function Max(a: nat, b: nat): nat { if a < b then b else a }

  class Controller {
    const minJumpTimeConfig: nat
    const endTime: nat
    var minJumpTime: nat
    var nextMinJumpTime: nat
    var executeWindowStart: nat
    var executeWindowEnd: nat

    constructor (minJumpTimeConfig: nat, endTime: nat, minJump: nat)
      ensures this.minJumpTimeConfig == minJumpTimeConfig && this.endTime == endTime && nextMinJumpTime == minJump
    {
      this.minJumpTimeConfig, this.endTime := minJumpTimeConfig, endTime;
      minJumpTime, nextMinJumpTime, executeWindowStart, executeWindowEnd := 0, minJump, 0, 0;
    }

    /** The jump is the detected least latency, 10 milliseconds while none is known, and never less
        than the configured runahead.  It is always positive. */
    method GetMinTimeJump() returns (jump: nat)
      ensures jump > 0 && jump >= minJumpTimeConfig
      ensures jump == minJumpTimeConfig || jump == minJumpTime || (minJumpTime == 0 && jump == 10 * SIMTIME_ONE_MILLISECOND)
      ensures minJumpTime > 0 ==> jump >= minJumpTime && (minJumpTimeConfig <= minJumpTime ==> jump == minJumpTime)
      ensures minJumpTime == 0 ==> jump >= 10 * SIMTIME_ONE_MILLISECOND
      ensures jump == JumpFor(minJumpTimeConfig, minJumpTime)
    {
      jump := if minJumpTime > 0 then minJumpTime else 10 * SIMTIME_ONE_MILLISECOND;
      if minJumpTimeConfig > 0 && jump < minJumpTimeConfig {
        jump := minJumpTimeConfig;
      }
    }

    /** The next window starts at the least report and is one jump long, cut at the end time; the
        round loop goes on exactly if that start lies before the end time and the sum of start and
        jump does not wrap around. */
    method ManagerFinishedCurrentRound(minNextEventTime: nat)
      returns (keepRunning: bool, windowStart: nat, windowEnd: nat, ghost jump: nat)
      requires minNextEventTime < TIME_BOUND && nextMinJumpTime < TIME_BOUND && minJumpTimeConfig < TIME_BOUND
      modifies this
      ensures minJumpTime == nextMinJumpTime == old(nextMinJumpTime)
      ensures executeWindowStart == windowStart && executeWindowEnd == windowEnd
      ensures windowStart == minNextEventTime && windowEnd == Min(Wrap(minNextEventTime + jump), endTime)
      ensures 0 < jump < TIME_BOUND && jump == JumpFor(minJumpTimeConfig, minJumpTime)
      ensures keepRunning <==> minNextEventTime < endTime && minNextEventTime + jump < TIME_BOUND
      ensures keepRunning ==> windowStart < windowEnd <= endTime && windowEnd <= windowStart + jump
    {
      minJumpTime := nextMinJumpTime;
      var newStart := minNextEventTime;
      var j := GetMinTimeJump();
      jump := j;
      var newEnd := Wrap(minNextEventTime + j);
      if newEnd > endTime {
        newEnd := endTime;
      }
      executeWindowStart, executeWindowEnd := newStart, newEnd;
      return newStart < newEnd, executeWindowStart, executeWindowEnd, j;
    }
  }

  /** The windows after the first are disjoint, increasing, nonempty and within the simulation. */
  predicate Ordered(ws: seq<Span>, endTime: nat) {
    && (forall i :: 0 <= i < |ws| ==> ws[i].start < ws[i].end)
    && (forall i :: 1 <= i < |ws| ==> ws[i - 1].end <= ws[i].start && ws[i].end <= endTime)
  }

  /** The window that starts at `start` when `known` is the least latency known. */
  function WindowAt(start: nat, config: nat, known: nat, endTime: nat): Span {
    Span(start, Min(start + JumpFor(config, known), endTime))
  }

  /** `ws` are the windows of successive rounds: each starts at what the round before it reported and is one
      jump long, cut at the end of the simulation. */
  ghost predicate FollowsReports(
    ws: seq<Span>, report: (nat, nat) -> nat, config: nat, detected: nat -> nat, endTime: nat)
  {
    && |ws| > 0 && ws[0] == Span(0, 1) && Ordered(ws, endTime)
    && |ws| <= ws[|ws| - 1].start + 1 <= endTime && ws[|ws| - 1].end <= endTime
    && forall i :: 1 <= i < |ws| ==> ws[i] == WindowAt(report(i - 1, ws[i - 1].end), config, detected(i - 1), endTime)
  }

  lemma NextWindow(
      ws: seq<Span>, report: (nat, nat) -> nat, config: nat, detected: nat -> nat, endTime: nat, w: Span)
    requires FollowsReports(ws, report, config, detected, endTime)
    requires ws[|ws| - 1].end <= w.start < w.end <= endTime
    requires w == WindowAt(report(|ws| - 1, ws[|ws| - 1].end), config, detected(|ws| - 1), endTime)
    ensures FollowsReports(ws + [w], report, config, detected, endTime)
  {
  }

  /** manager_run.  `report(i, end)` is the least time the workers report in round `i`, which ends at
      `end` (never before that end: ReportExact); `detected(i)` is the least latency known after it.
      Every round starts at what the round before reported and is one jump long, and the loop ends after
      finitely many rounds, when that start is not before the end time any more or its sum with the jump
      wraps around. */
  method ManagerRun(controller: Controller, report: (nat, nat) -> nat, detected: nat -> nat)
    returns (windows: seq<Span>, ghost jump: nat)
    requires 0 < controller.endTime <= SIMTIME_MAX && controller.minJumpTimeConfig < TIME_BOUND
    requires forall i: nat, end: nat :: end <= SIMTIME_MAX ==> end <= report(i, end) <= SIMTIME_MAX
    requires forall i: nat :: detected(i) < TIME_BOUND
    modifies controller
    ensures 0 < |windows| <= controller.endTime + 1 && windows[0] == Span(0, 1)
    ensures Ordered(windows, controller.endTime)
    ensures forall i :: 1 <= i < |windows| ==>
              windows[i] == WindowAt(report(i - 1, windows[i - 1].end), controller.minJumpTimeConfig, detected(i - 1),
                                     controller.endTime)
    ensures var next := report(|windows| - 1, windows[|windows| - 1].end);
            && jump == JumpFor(controller.minJumpTimeConfig, detected(|windows| - 1)) && jump < TIME_BOUND
            && (next >= controller.endTime || next + jump >= TIME_BOUND)
  {
    var windowStart: nat, windowEnd: nat, keepRunning := 0, 1, true;
    windows, jump := [], 0;
    ghost var config := controller.minJumpTimeConfig;
    assert FollowsReports([Span(0, 1)], report, config, detected, controller.endTime);
    while keepRunning
      invariant keepRunning ==> FollowsReports(windows + [Span(windowStart, windowEnd)], report, config, detected, controller.endTime)
      invariant !keepRunning ==>
                  && |windows| > 0 && FollowsReports(windows, report, config, detected, controller.endTime)
                  && jump == JumpFor(config, detected(|windows| - 1)) && jump < TIME_BOUND
                  && var next := report(|windows| - 1, windows[|windows| - 1].end);
                     next >= controller.endTime || next + jump >= TIME_BOUND
      decreases if keepRunning then controller.endTime - windowStart + 1 else 0
    {
      ghost var was := windowStart;
      windows := windows + [Span(windowStart, windowEnd)];
      var round := |windows| - 1;
      assert windows[round] == Span(windowStart, windowEnd) && was < windowEnd <= controller.endTime;
      var minNextEventTime := report(round, windowEnd);
      controller.nextMinJumpTime := detected(round);
      keepRunning, windowStart, windowEnd, jump := controller.ManagerFinishedCurrentRound(minNextEventTime);
      if keepRunning { NextWindow(windows, report, config, detected, controller.endTime, Span(windowStart, windowEnd)); }
    }
  }
}
