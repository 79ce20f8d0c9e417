/**
 The IPC block and the two programs on it as objects updated in place, one half of a send or of a
 receive at a time.  Every method of Conversation is proved to be the step of IpcProtocol of that name.
 */
module IpcObject {
  import opened IpcProtocol

  datatype Received = Stop | Got(e: Event)

  /** struct IPCData and its interface, plugin death included. */
  class IpcData {
    var pluginToShadow: Event
    var shadowToPlugin: Event
    var xferCtrlToPlugin: nat
    var xferCtrlToShadow: nat
    var pluginDied: bool

    constructor ()
      ensures !pluginDied && xferCtrlToPlugin == 0 && xferCtrlToShadow == 0
    {
      pluginToShadow, shadowToPlugin := Block, Block;
      xferCtrlToPlugin, xferCtrlToShadow, pluginDied := 0, 0, false;
    }

    /** From here on Shadow's next receive does not block, and returns Stop (ipc.h). */
    method MarkPluginExited()
      modifies this`pluginDied, this`xferCtrlToShadow
      ensures pluginDied && xferCtrlToShadow == old(xferCtrlToShadow) + 1
    {
      pluginDied := true;
      xferCtrlToShadow := xferCtrlToShadow + 1;
    }

    method SendEventToShadow(e: Event)
      modifies this`pluginToShadow, this`xferCtrlToShadow
      ensures pluginToShadow == e && xferCtrlToShadow == old(xferCtrlToShadow) + 1
    {
      pluginToShadow := e;
      xferCtrlToShadow := xferCtrlToShadow + 1;
    }

    method SendEventToPlugin(e: Event)
      modifies this`shadowToPlugin, this`xferCtrlToPlugin
      ensures shadowToPlugin == e && xferCtrlToPlugin == old(xferCtrlToPlugin) + 1
    {
      shadowToPlugin := e;
      xferCtrlToPlugin := xferCtrlToPlugin + 1;
    }

    /** shimevent_recvEventFromPlugin once its wait is over */
    method RecvEventFromPlugin() returns (r: Received)
      requires xferCtrlToShadow > 0
      modifies this`xferCtrlToShadow
      ensures xferCtrlToShadow == old(xferCtrlToShadow) - 1
      ensures r == if pluginDied then Stop else Got(pluginToShadow)
    {
      xferCtrlToShadow := xferCtrlToShadow - 1;
      if pluginDied { r := Stop; } else { r := Got(pluginToShadow); }
    }

    /** shimevent_recvEventFromShadow once its wait is over */
    method RecvEventFromShadow() returns (e: Event)
      requires xferCtrlToPlugin > 0
      modifies this`xferCtrlToPlugin
      ensures xferCtrlToPlugin == old(xferCtrlToPlugin) - 1 && e == shadowToPlugin
    {
      xferCtrlToPlugin := xferCtrlToPlugin - 1;
      e := shadowToPlugin;
    }

    /** None stands for EAGAIN. */
    method TryRecvEventFromPlugin() returns (r: Option<Received>)
      modifies this`xferCtrlToShadow
      ensures r.None? <==> old(xferCtrlToShadow) == 0
      ensures r.None? ==> xferCtrlToShadow == 0
      ensures r.Some? ==> xferCtrlToShadow == old(xferCtrlToShadow) - 1
      ensures r.Some? ==> r.value == if pluginDied then Stop else Got(pluginToShadow)
    {
      if xferCtrlToShadow == 0 { return None; }
      var got := RecvEventFromPlugin();
      r := Some(got);
    }
  }

  class Conversation {
    const explicitBlock: bool
    const ipc: IpcData
    var shadowIo: Io
    var shadowAt: ShadowAt
    var currentEvent: Event
    var blockedSyscallNR: int
    var pluginIo: Io
    var pluginAt: PluginAt
    ghost var trace: seq<Msg>
    ghost var phase: Option<Phase>
    ghost var sentP: seq<Event>
    ghost var readP: seq<Event>
    ghost var sentS: seq<Event>
    ghost var readS: seq<Event>
    ghost var calls: seq<Served>
    ghost var decided: seq<Answer>
    ghost var seen: seq<Answer>
    ghost var told: nat
    var shimTime: nat

    ghost function View(): State
      reads this, ipc
    {
      State(explicitBlock, ipc.xferCtrlToPlugin, ipc.xferCtrlToShadow, ipc.shadowToPlugin, ipc.pluginToShadow,
            shadowIo, shadowAt, currentEvent, blockedSyscallNR, pluginIo, pluginAt,
            trace, sentP, readP, sentS, readS, calls, decided, seen, told, shimTime, phase)
    }

    constructor (explicitBlock: bool)
      ensures View() == Init(explicitBlock) && fresh(ipc)
    {
      this.explicitBlock := explicitBlock;
      ipc := new IpcData();
      shadowIo, shadowAt, currentEvent, blockedSyscallNR := Holding, Resting, Start(0), -1;
      pluginIo, pluginAt := Waiting, AwaitStart;
      trace, sentP, readP, sentS, readS, calls, decided, seen := [], [], [], [], [], [], [], [];
      phase := Some(Fresh);
      told, shimTime := 0, 0;
      new;
      ipc.shadowToPlugin, ipc.pluginToShadow := Block, Block;
    }

    method WriteShadowToPlugin(e: Event, next: ShadowAt)
      modifies this`shadowIo, this`shadowAt, this`trace, this`phase, this`sentP, ipc`shadowToPlugin
      ensures View() == WriteToPlugin(old(View()), e, next)
    {
      ipc.shadowToPlugin := e;
      shadowIo, shadowAt := Wrote, next;
      trace, phase, sentP := trace + [ToPlugin(e)], Then(phase, ToPlugin(e)), sentP + [e];
    }

    method WritePluginToShadow(e: Event, call: Call)
      modifies this`pluginIo, this`pluginAt, this`trace, this`phase, this`sentS, ipc`pluginToShadow
      ensures View() == WriteToShadow(old(View()), e, call)
    {
      ipc.pluginToShadow := e;
      pluginIo, pluginAt := Wrote, Pending(call);
      trace, phase, sentS := trace + [ToShadow(e)], Then(phase, ToShadow(e)), sentS + [e];
    }

    /** The switch of threadpreload_resume. */
    method DispatchEvent(now: nat)
      requires Enabled(View(), Dispatch(now))
      modifies this, ipc
      ensures View() == Apply(old(View()), Dispatch(now))
    {
      if currentEvent.Start? {
        told := now;
        WriteShadowToPlugin(Start(now), AwaitEvent);
      } else if currentEvent.Complete? {
        WriteShadowToPlugin(currentEvent, AwaitEvent);
      } else if currentEvent.call.number == SYS_exit {
        decided := decided + [RanNatively(currentEvent.call)];
        WriteShadowToPlugin(DoNative, Over);
      } else {
        shadowAt := Serving;
      }
    }

    /** The end of syscallhandler_make_syscall. */
    method RecordResult(result: Result)
      requires currentEvent.Syscall?
      modifies this`calls, this`blockedSyscallNR
      ensures calls == old(calls) + [Served(currentEvent.call, result)]
      ensures blockedSyscallNR == if result.MustBlock? then currentEvent.call.number
                                  else if old(blockedSyscallNR) >= 0 then -1 else old(blockedSyscallNR)
    {
      calls := calls + [Served(currentEvent.call, result)];
      if result.MustBlock? {
        blockedSyscallNR := currentEvent.call.number;
      } else if blockedSyscallNR >= 0 {
        blockedSyscallNR := -1;
      }
    }

    /** What threadpreload_resume makes of a call that blocks: a message to the plugin, if so configured. */
    method FinishBlocked(now: nat)
      requires Enabled(View(), Finish(MustBlock, now))
      modifies this, ipc
      ensures View() == Apply(old(View()), Finish(MustBlock, now))
    {
      RecordResult(MustBlock);
      if explicitBlock {
        WriteShadowToPlugin(Block, AwaitAck);
      } else {
        shadowAt := Resting;
      }
    }

    method FinishDone(retval: int, now: nat)
      requires Enabled(View(), Finish(Done(retval), now))
      modifies this, ipc
      ensures View() == Apply(old(View()), Finish(Done(retval), now))
    {
      hide Then;
      RecordResult(Done(retval));
      decided, told := decided + [Returned(currentEvent.call, retval, now)], now;
      WriteShadowToPlugin(Complete(retval, now), AwaitEvent);
    }

    method FinishNative(now: nat)
      requires Enabled(View(), Finish(Natively, now))
      modifies this, ipc
      ensures View() == Apply(old(View()), Finish(Natively, now))
    {
      RecordResult(Natively);
      decided := decided + [RanNatively(currentEvent.call)];
      WriteShadowToPlugin(DoNative, AwaitEvent);
    }

    /** What threadpreload_resume makes of the result of the handler. */
    method FinishSyscall(result: Result, now: nat)
      requires Enabled(View(), Finish(result, now))
      modifies this, ipc
      ensures View() == Apply(old(View()), Finish(result, now))
    {
      if result.MustBlock? {
        FinishBlocked(now);
      } else if result.Done? {
        FinishDone(result.retval, now);
      } else {
        FinishNative(now);
      }
    }

    method ReadAtShadow()
      requires Enabled(View(), ShadowReads)
      modifies this
      ensures View() == Apply(old(View()), ShadowReads)
    {
      shadowIo, readS := Holding, readS + [ipc.pluginToShadow];
      if shadowAt.Asked? {
        shadowAt := Serving;
      } else if shadowAt.AwaitAck? {
        shadowAt := Resting;
      } else {
        currentEvent, shadowAt := ipc.pluginToShadow, Looping;
      }
    }

    /** The switch of _shadow_raw_syscall_event. */
    method HandleEvent(native: int)
      requires Enabled(View(), Handle(native))
      modifies this, ipc
      ensures View() == Apply(old(View()), Handle(native))
    {
      var call, got := pluginAt.call, pluginAt.got;
      if got.Block? {
        WritePluginToShadow(Block, call);
      } else if got.Complete? {
        pluginAt, seen := App, seen + [Returned(call, got.retval, got.nanos)];
        shimTime := got.nanos;
      } else if got.DoNative? {
        pluginAt, seen := if call.number == SYS_exit then Gone else App, seen + [RanNatively(call)];
      } else if got.Syscall? {
        WritePluginToShadow(Complete(native, 0), call);
      } else if got.MemoryReq? {
        WritePluginToShadow(ShmemComplete, call);
      } else {
        WritePluginToShadow(AddThreadParentRes, call);
      }
    }

    method ReadAtPlugin()
      requires Enabled(View(), PluginReads)
      modifies this
      ensures View() == Apply(old(View()), PluginReads)
    {
      pluginIo, readP := Holding, readP + [ipc.shadowToPlugin];
      if pluginAt.AwaitStart? {
        pluginAt, shimTime := App, ipc.shadowToPlugin.nanos;
      } else {
        pluginAt := Handling(pluginAt.call, ipc.shadowToPlugin);
      }
    }

    /** The posts and takes of both sides. */
    method UseSemaphore(a: Action)
      requires (a.ShadowPosts? || a.ShadowTakes? || a.PluginPosts? || a.PluginTakes?) && Enabled(View(), a)
      modifies this, ipc
      ensures View() == Apply(old(View()), a)
    {
      if a.ShadowPosts? {
        ipc.xferCtrlToPlugin := ipc.xferCtrlToPlugin + 1;
        shadowIo := if shadowAt.Over? then Ended else Waiting;
      } else if a.ShadowTakes? {
        ipc.xferCtrlToShadow := ipc.xferCtrlToShadow - 1;
        shadowIo := Woken;
      } else if a.PluginPosts? {
        ipc.xferCtrlToShadow := ipc.xferCtrlToShadow + 1;
        pluginIo := Waiting;
      } else {
        ipc.xferCtrlToPlugin := ipc.xferCtrlToPlugin - 1;
        pluginIo := Woken;
      }
    }

    method Perform(a: Action)
      requires Enabled(View(), a)
      modifies this, ipc
      ensures View() == Apply(old(View()), a)
    {
      if a.Resume? {
        shadowAt := Looping;
      } else if a.Dispatch? {
        DispatchEvent(a.now);
      } else if a.Ask? {
        WriteShadowToPlugin(Asking(a.request), Asked(a.request));
      } else if a.Finish? {
        FinishSyscall(a.result, a.now);
      } else if a.ShadowReads? {
        ReadAtShadow();
      } else if a.Invoke? {
        WritePluginToShadow(Syscall(a.call), a.call);
      } else if a.Handle? {
        HandleEvent(a.native);
      } else if a.PluginReads? {
        ReadAtPlugin();
      } else {
        UseSemaphore(a);
      }
    }

    /** Runs both sides along any schedule of possible steps; what every run keeps holds at the end. */
    method Run(ghost sofar: seq<Action>, schedule: seq<Action>)
      requires Runs(Init(explicitBlock), sofar, View())
      requires exists s :: Runs(View(), schedule, s)
      modifies this, ipc
      ensures Runs(Init(explicitBlock), sofar + schedule, View())
      ensures Inv(View())
    {
      hide Enabled, Apply, Inv;
      ghost var last :| Runs(View(), schedule, last);
      assert schedule[0..] == schedule && sofar + schedule[..0] == sofar;
      for i := 0 to |schedule|
        invariant Runs(Init(explicitBlock), sofar + schedule[..i], View())
        invariant Runs(View(), schedule[i..], last)
      {
        RunsThen(Init(explicitBlock), sofar + schedule[..i], View(), schedule[i]);
        assert (sofar + schedule[..i]) + [schedule[i]] == sofar + schedule[..i + 1];
        assert schedule[i..][1..] == schedule[i + 1..];
        Perform(schedule[i]);
      }
      assert sofar + schedule[..|schedule|] == sofar + schedule;
      InitInv(explicitBlock);
      RunInv(Init(explicitBlock), sofar + schedule, View());
    }
  }
}
