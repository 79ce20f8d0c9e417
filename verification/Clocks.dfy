/**
 The clocks that a plugin reads: the emulated timestamp counter (tsc.c) and the time calls that the shim
 answers itself (shim_syscall.c).  Registers and times are 64-bit words; wrap-around is written out.
 */
module Clocks {

  const TWO_32: nat := 0x1_0000_0000
  const TWO_64: nat := 0x1_0000_0000_0000_0000
  const TWO_128: nat := 0x1_0000_0000_0000_0000_0000_0000_0000_0000
  const SIMTIME_ONE_SECOND: nat := 1_000_000_000
  const SIMTIME_ONE_MICROSECOND: nat := 1_000
  const EFAULT: int := 14
  const SYS_gettimeofday: int := 96
  const SYS_time: int := 201
  const SYS_clock_gettime: int := 228
  const IA32_TSC_AUX: nat := 0x806eb479

  type Word = w: nat | w < TWO_64

  datatype Option<T> = None | Some(value: T)

  // ----- the timestamp counter --------------------------------------------------------------------

  /** The cycles that have passed after `nanos`, rounded down. */
  function Exact(frequency: Word, nanos: Word): nat { frequency * nanos / SIMTIME_ONE_SECOND }

  /** What fits in the counter. */
  function Counter(frequency: Word, nanos: Word): Word { Exact(frequency, nanos) % TWO_64 }

  predicate Fits(frequency: Word, nanos: Word) { frequency * nanos < TWO_64 * SIMTIME_ONE_SECOND }

  lemma ProductMonotone(f: nat, a: nat, b: nat)
    requires a <= b
    ensures f * a <= f * b
  {
  }

  /** The multiplication in 128 bits cannot overflow. */
  lemma ProductFits128(a: Word, b: Word)
    ensures a * b < TWO_128
  {
    ProductMonotone(a, b, 0xFFFF_FFFF_FFFF_FFFF);
    assert a * 0xFFFF_FFFF_FFFF_FFFF <= 0xFFFF_FFFF_FFFF_FFFF * 0xFFFF_FFFF_FFFF_FFFF;
  }

  /** The counter holds the exact number of cycles, which is within one cycle of the true rate, exactly
      if that number fits in 64 bits. */
  lemma CounterIsExact(f: Word, nanos: Word)
    ensures Counter(f, nanos) == Exact(f, nanos) <==> Fits(f, nanos)
    ensures Exact(f, nanos) * SIMTIME_ONE_SECOND <= f * nanos < (Exact(f, nanos) + 1) * SIMTIME_ONE_SECOND
  {
  }

  lemma ExactMonotone(f: Word, a: Word, b: Word)
    requires a <= b
    ensures Exact(f, a) <= Exact(f, b)
    ensures Fits(f, b) ==> Fits(f, a)
  {
    ProductMonotone(f, a, b);
  }

  /** One nanosecond adds less than the counter can hold. */
  lemma ExactGrowsSlowly(f: Word, t: Word)
    requires t > 0
    ensures Exact(f, t) < Exact(f, t - 1) + TWO_64
  {
    assert f * t == f * (t - 1) + f;
  }

  predicate Decreases(f: Word, t: Word) { t > 0 && Counter(f, t) < Counter(f, t - 1) }

  /** Where the counter first overflows, it falls. */
  lemma {:induction false} FirstOverflowFalls(f: Word, t: Word) returns (at: Word)
    requires !Fits(f, t)
    ensures at <= t && Decreases(f, at)
    decreases t
  {
    ZeroFits(f);
    if !Fits(f, t - 1) {
      at := FirstOverflowFalls(f, t - 1);
    } else {
      at := t;
      ExactGrowsSlowly(f, t);
      ExactMonotone(f, t - 1, t);
      CounterIsExact(f, t - 1);
      CounterIsExact(f, t);
      WrapsOnce(Exact(f, t - 1), Exact(f, t));
    }
  }

  lemma ZeroFits(f: Word)
    ensures Fits(f, 0)
  {
  }

  lemma WrapsOnce(a: nat, b: nat)
    requires a < TWO_64 <= b < a + TWO_64
    ensures b % TWO_64 < a
  {
    assert b % TWO_64 == b - TWO_64;
  }

  predicate MonotoneUpTo(f: Word, end: Word) {
    forall a: Word, b: Word :: a <= b <= end ==> Counter(f, a) <= Counter(f, b)
  }

  /** The counter never goes back up to some time exactly if it has not overflowed by then. */
  lemma MonotoneExactly(f: Word, end: Word)
    ensures MonotoneUpTo(f, end) <==> Fits(f, end)
  {
    if Fits(f, end) {
      forall a: Word, b: Word | a <= b <= end ensures Counter(f, a) <= Counter(f, b) {
        ExactMonotone(f, a, b);
        ExactMonotone(f, b, end);
        CounterIsExact(f, a);
        CounterIsExact(f, b);
      }
    } else {
      var t := FirstOverflowFalls(f, end);
      assert Counter(f, t) < Counter(f, t - 1);
    }
  }

  class Registers {
    var rax: Word
    var rdx: Word
    var rcx: Word
    var rip: Word
  }

  function Reassembled(rdx: Word, rax: Word): nat { rdx * TWO_32 + rax }

  lemma HalvesReassemble(cycles: Word)
    ensures Reassembled(cycles / TWO_32 % TWO_32, cycles % TWO_32) == cycles
  {
  }

  class Tsc {
    var cyclesPerSecond: Word

    /** _Tsc_setRdtscCycles */
    method SetRdtscCycles(regs: Registers, nanos: Word)
      modifies regs`rax, regs`rdx
      ensures regs.rax < TWO_32 && regs.rdx < TWO_32
      ensures Reassembled(regs.rdx, regs.rax) == Counter(cyclesPerSecond, nanos)
    {
      ProductFits128(cyclesPerSecond, nanos);
      var gigaCycles := cyclesPerSecond * nanos;
      assert gigaCycles < TWO_128;
      var cycles := gigaCycles / SIMTIME_ONE_SECOND % TWO_64;
      regs.rdx := cycles / TWO_32 % TWO_32;
      regs.rax := cycles % TWO_32;
      HalvesReassemble(cycles);
    }

    method EmulateRdtsc(regs: Registers, nanos: Word)
      modifies regs`rax, regs`rdx, regs`rip
      ensures Reassembled(regs.rdx, regs.rax) == Counter(cyclesPerSecond, nanos)
      ensures regs.rip == (old(regs.rip) + 2) % TWO_64
    {
      SetRdtscCycles(regs, nanos);
      regs.rip := (regs.rip + 2) % TWO_64;
    }

    method EmulateRdtscp(regs: Registers, nanos: Word)
      modifies regs
      ensures Reassembled(regs.rdx, regs.rax) == Counter(cyclesPerSecond, nanos)
      ensures regs.rcx == IA32_TSC_AUX && regs.rip == (old(regs.rip) + 3) % TWO_64
    {
      SetRdtscCycles(regs, nanos);
      regs.rcx := IA32_TSC_AUX;
      regs.rip := (regs.rip + 3) % TWO_64;
    }
  }

  // ----- the time calls of the shim ---------------------------------------------------------------

  datatype Timespec = Timespec(sec: Word, nsec: Word)

  predicate Normal(t: Timespec) { t.nsec < SIMTIME_ONE_SECOND && t.sec <= (TWO_64 - 1 - t.nsec) / SIMTIME_ONE_SECOND }

  function Nanos(t: Timespec): nat { t.sec * SIMTIME_ONE_SECOND + t.nsec }

  function Split(nanos: Word): Timespec { Timespec(nanos / SIMTIME_ONE_SECOND, nanos % SIMTIME_ONE_SECOND) }

  /** Seconds and nanoseconds are a faithful form of every 64-bit time. */
  lemma SplitAndBack(nanos: Word)
    ensures Normal(Split(nanos)) && Nanos(Split(nanos)) == nanos
  {
    var t := Split(nanos);
    assert nanos == t.sec * SIMTIME_ONE_SECOND + t.nsec;
    assert t.sec * SIMTIME_ONE_SECOND <= TWO_64 - 1 - t.nsec;
  }

  lemma BackAndSplit(t: Timespec)
    requires Normal(t)
    ensures Nanos(t) < TWO_64 && Split(Nanos(t)) == t
  {
    assert t.sec * SIMTIME_ONE_SECOND <= TWO_64 - 1 - t.nsec;
  }

  lemma SumWraps(a: nat, b: nat)
    ensures (a % TWO_64 + b) % TWO_64 == (a + b) % TWO_64
  {
  }

  /** What the shim answers: not handled, or a return value and what it wrote through the pointer. */
  datatype Reply = NotHandled | Handled(rv: int, out: Option<Timespec>)

  /** A timeval with less than a second of microseconds, for the given microseconds in all. */
  predicate IsTimeval(out: Option<Timespec>, micros: nat) {
    out.Some? && out.value.nsec < 1_000_000 && out.value.sec * 1_000_000 + out.value.nsec == micros
  }

  class ShimClock {
    var sharedTime: Option<Timespec>
    var cachedSimulationTime: Timespec

    /** The time that the shim would use: shared memory first, then what it cached. */
    function Source(): Timespec
      reads this
    { if sharedTime.Some? then sharedTime.value else cachedSimulationTime }

    method SetSimtimeNanos(simulationNanos: Word)
      modifies this`cachedSimulationTime
      ensures Normal(cachedSimulationTime) && Nanos(cachedSimulationTime) == simulationNanos
    {
      cachedSimulationTime :=
        Timespec(simulationNanos / SIMTIME_ONE_SECOND, simulationNanos % SIMTIME_ONE_SECOND);
      SplitAndBack(simulationNanos);
    }

    method GetSimtimeNanos() returns (nanos: Word)
      ensures nanos == Nanos(cachedSimulationTime) % TWO_64
      ensures Normal(cachedSimulationTime) ==> nanos == Nanos(cachedSimulationTime)
    {
      nanos := (cachedSimulationTime.sec * SIMTIME_ONE_SECOND % TWO_64 + cachedSimulationTime.nsec) % TWO_64;
      SumWraps(cachedSimulationTime.sec * SIMTIME_ONE_SECOND, cachedSimulationTime.nsec);
      if Normal(cachedSimulationTime) { BackAndSplit(cachedSimulationTime); }
    }

    /** _shim_syscall_get_time; None if the time is not set */
    method GetTime() returns (t: Option<Timespec>)
      ensures t.None? <==> Nanos(Source()) == 0
      ensures t.Some? ==> t.value == Source()
    {
      var simtime := if sharedTime.Some? then sharedTime.value else cachedSimulationTime;
      if simtime.sec == 0 && simtime.nsec == 0 {
        return None;
      }
      t := Some(simtime);
    }

    /** shim_syscall.  The three calls agree on the time: the nanoseconds, their seconds, and their
        microseconds; they are left to Shadow while no time is known, as is every other call. */
    method ShimSyscall(number: int, nullPointer: bool) returns (r: Reply)
      requires Normal(Source())
      ensures r.NotHandled? <==>
              Nanos(Source()) == 0 || (number != SYS_clock_gettime && number != SYS_time && number != SYS_gettimeofday)
      ensures r.Handled? && nullPointer ==> r.out.None?
      ensures r.Handled? && number == SYS_clock_gettime ==>
                if nullPointer then r.rv == -EFAULT
                else r.rv == 0 && r.out.Some? && Nanos(r.out.value) == Nanos(Source()) && r.out.value.nsec < SIMTIME_ONE_SECOND
      ensures r.Handled? && number == SYS_time ==>
                r.rv == Nanos(Source()) / SIMTIME_ONE_SECOND && (!nullPointer ==> r.out.Some? && r.out.value.sec == r.rv)
      ensures r.Handled? && number == SYS_gettimeofday ==>
                r.rv == 0 && (nullPointer || IsTimeval(r.out, Nanos(Source()) / SIMTIME_ONE_MICROSECOND))
    {
      if number != SYS_clock_gettime && number != SYS_time && number != SYS_gettimeofday {
        return NotHandled;
      }
      var t := GetTime();
      if t.None? {
        return NotHandled;
      }
      var sec, nsec := t.value.sec, t.value.nsec;
      if number == SYS_clock_gettime {
        r := if nullPointer then Handled(-EFAULT, None) else Handled(0, Some(t.value));
      } else if number == SYS_time {
        SecondsOf(t.value);
        r := Handled(sec, if nullPointer then None else Some(Timespec(sec, 0)));
      } else {
        MicrosecondsOf(t.value);
        r := Handled(0, if nullPointer then None else Some(Timespec(sec, nsec / SIMTIME_ONE_MICROSECOND)));
      }
    }
  }

  lemma SecondsOf(t: Timespec)
    requires Normal(t)
    ensures Nanos(t) / SIMTIME_ONE_SECOND == t.sec
  {
  }

  lemma MicrosecondsOf(t: Timespec)
    requires Normal(t)
    ensures Nanos(t) / SIMTIME_ONE_MICROSECOND == t.sec * 1_000_000 + t.nsec / SIMTIME_ONE_MICROSECOND
  {
    assert Nanos(t) == t.sec * 1_000_000 * SIMTIME_ONE_MICROSECOND + t.nsec;
  }

  /** After the time was set, the shim's own counter and its time calls speak of the same instant. */
  method ReadClocks(clock: ShimClock, tsc: Tsc, regs: Registers, nanos: Word) returns (shown: Word)
    requires clock.sharedTime.None?
    modifies clock, regs
    ensures shown == nanos == Nanos(clock.Source())
    ensures Fits(tsc.cyclesPerSecond, nanos) ==>
              var cycles := Reassembled(regs.rdx, regs.rax);
              cycles * SIMTIME_ONE_SECOND <= tsc.cyclesPerSecond * nanos < (cycles + 1) * SIMTIME_ONE_SECOND
  {
    clock.SetSimtimeNanos(nanos);
    shown := clock.GetSimtimeNanos();
    tsc.EmulateRdtsc(regs, shown);
    CounterIsExact(tsc.cyclesPerSecond, nanos);
  }
}
