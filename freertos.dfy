/** The RTOS hooks around sleep: the CPU duty-cycle counters kept by the pre- and
    post-sleep hooks, the duty-cycle query and reset, and the idle hook's reset guard. */
module FreeRtos {
  import opened CTypes
  import Lpm

  /** The duty cycle is reported in units of 0.01 %. */
  const DC_FULL_SCALE: int := 10000

  /** active_time, wakeup_timestamp and last_reset, in lptimer ticks. */
  datatype DcState = DcState(active: uint64, wakeup: uint64, lastReset: uint64)

  const DC_INITIAL: DcState := DcState(0, 0, 0)

  /** PreSleepProcessing's accounting: the awake interval since the last wakeup is added. */
  function PreSleep(d: DcState, now: uint64): (r: DcState)
    ensures r.wakeup == d.wakeup && r.lastReset == d.lastReset
    ensures d.wakeup <= now && d.active + (now - d.wakeup) < UINT64_LIMIT ==>
      r.active == d.active + (now - d.wakeup)
  {
    d.(active := ToU64(d.active + ToU64(now - d.wakeup)))
  }

  /** PostSleepProcessing's accounting: the awake interval restarts. */
  function PostSleep(d: DcState, now: uint64): (r: DcState)
    ensures r.active == d.active && r.lastReset == d.lastReset && r.wakeup == now
  {
    d.(wakeup := now)
  }

  /** The elapsed time since the last reset, truncated to 32 bits. */
  function Elapsed(d: DcState, now: uint64): (e: uint32)
    ensures d.lastReset <= now < d.lastReset + UINT32_LIMIT ==> e == now - d.lastReset
  {
    ToU32(ToU64(now - d.lastReset))
  }

  /** rtos_get_cpu_dc at lptimer value now. */
  function CpuDc(d: DcState, now: uint64): (r: uint32)
    ensures Elapsed(d, now) == 0 ==> r == DC_FULL_SCALE
    ensures d.active <= Elapsed(d, now) ==> r <= DC_FULL_SCALE
  {
    var elapsed := Elapsed(d, now);
    if elapsed > 0 then
      var q := ToU64(d.active * DC_FULL_SCALE) / elapsed;
      RatioAtMostFull(d.active, elapsed, q);
      ToU32(q)
    else
      DC_FULL_SCALE
  }

  /** a * 10000 / e is at most 10000 when a <= e. */
  lemma RatioAtMostFull(a: nat, e: nat, q: int)
    requires 0 < e < UINT32_LIMIT && q == ToU64(a * DC_FULL_SCALE) / e
    ensures a <= e ==> q <= DC_FULL_SCALE
  {
    if a <= e {
      MulOrder(a, e, DC_FULL_SCALE);
      assert a * DC_FULL_SCALE < UINT64_LIMIT;
      assert q * e <= a * DC_FULL_SCALE <= DC_FULL_SCALE * e;
      MulOrder(q, DC_FULL_SCALE + 1, e);
    }
  }

  /** rtos_reset_cpu_dc as written: the awake interval in progress is not restarted. */
  function ResetAsWritten(d: DcState, now: uint64): (r: DcState)
    ensures r.active == 0 && r.lastReset == now && r.wakeup == d.wakeup
  {
    d.(active := 0, lastReset := now)
  }

  /** rtos_reset_cpu_dc as intended: the count restarts now, awake interval included. */
  function Reset(d: DcState, now: uint64): (r: DcState)
    ensures r.active == 0 && r.lastReset == now && r.wakeup == now
  {
    DcState(0, now, now)
  }

  // ---------------------------------------------------------------------------------
  // The accounting invariant: active time never exceeds the elapsed time

  /** While awake at now: the counted active time plus the awake interval in progress fit
      into the time since the reset. */
  predicate AwakeBound(d: DcState, now: int)
  {
    d.lastReset <= d.wakeup <= now && d.active + (now - d.wakeup) <= now - d.lastReset
  }

  /** While asleep at now: the counted active time fits into the time since the reset. */
  predicate AsleepBound(d: DcState, now: int)
  {
    d.lastReset <= now && d.active <= now - d.lastReset
  }

  lemma ResetStartsBound(d: DcState, now: uint64)
    ensures AwakeBound(Reset(d, now), now)
  {
  }

  lemma AwakeTimePasses(d: DcState, t: int, t2: int)
    requires AwakeBound(d, t) && t <= t2
    ensures AwakeBound(d, t2)
  {
  }

  lemma AsleepTimePasses(d: DcState, t: int, t2: int)
    requires AsleepBound(d, t) && t <= t2
    ensures AsleepBound(d, t2)
  {
  }

  /** Going to sleep turns the awake bound into the asleep bound. */
  lemma PreSleepKeepsBound(d: DcState, now: uint64)
    requires AwakeBound(d, now)
    ensures AsleepBound(PreSleep(d, now), now)
    ensures PreSleep(d, now).active == d.active + (now - d.wakeup)
  {
  }

  /** Waking up turns the asleep bound into the awake bound. */
  lemma PostSleepKeepsBound(d: DcState, now: uint64)
    requires AsleepBound(d, now)
    ensures AwakeBound(PostSleep(d, now), now)
  {
  }

  /** A wake/sleep pair adds exactly the awake interval. */
  lemma AwakeIntervalOnly(d: DcState, t1: uint64, t2: uint64)
    requires t1 <= t2 && d.active + (t2 - t1) < UINT64_LIMIT
    ensures PreSleep(PostSleep(d, t1), t2).active == d.active + (t2 - t1)
  {
  }

  /** Under the bound, and while the time since the reset fits the 32-bit elapsed value,
      the duty cycle is at most 100 %. */
  lemma DutyCycleAtMostFull(d: DcState, now: uint64)
    requires AwakeBound(d, now) || AsleepBound(d, now)
    requires now - d.lastReset < UINT32_LIMIT
    ensures CpuDc(d, now) <= DC_FULL_SCALE
  {
  }

  /** The reset as written, called while awake, keeps the part of the awake interval that
      lies before the reset: awake since 100, reset at 150, asleep at 200 reports 200 %. */
  lemma ResetAsWrittenOvercounts()
    ensures var d := PreSleep(ResetAsWritten(PostSleep(DC_INITIAL, 100), 150), 200);
      d.active == 100 && Elapsed(d, 200) == 50 && CpuDc(d, 200) == 2 * DC_FULL_SCALE
    ensures var d := PreSleep(Reset(PostSleep(DC_INITIAL, 100), 150), 200);
      d.active == 50 && CpuDc(d, 200) == DC_FULL_SCALE
  {
  }

  // ---------------------------------------------------------------------------------
  // The hooks

  class DutyCycleMonitor {
    var activeTime: uint64
    var wakeupTimestamp: uint64
    var lastReset: uint64

    function Counters(): DcState
      reads this
    {
      DcState(activeTime, wakeupTimestamp, lastReset)
    }

    constructor ()
      ensures Counters() == DC_INITIAL
    {
      activeTime, wakeupTimestamp, lastReset := 0, 0, 0;
    }

    /** PreSleepProcessing: prepare the low-power mode, then count the awake interval
        ending at now (the lptimer value read after lpm_prepare). */
    method PreSleepProcessing(now: uint64, pm: Lpm.PowerManager)
      modifies this, pm
      ensures Counters() == PreSleep(old(Counters()), now)
      ensures pm.opMode == Lpm.Prepare(old(pm.opMode), pm.lpMode, pm.ticklessIdle).mode
      ensures pm.trace == old(pm.trace) + Lpm.Prepare(old(pm.opMode), pm.lpMode, pm.ticklessIdle).trace
    {
      pm.LpmPrepare();
      activeTime := ToU64(activeTime + ToU64(now - wakeupTimestamp));
    }

    /** PostSleepProcessing: restart the awake interval at now, then resume. */
    method PostSleepProcessing(now: uint64, pm: Lpm.PowerManager)
      modifies this, pm
      ensures Counters() == PostSleep(old(Counters()), now)
      ensures pm.opMode == Lpm.Resume(old(pm.opMode)).mode
      ensures pm.trace == old(pm.trace) + Lpm.Resume(old(pm.opMode)).trace
    {
      wakeupTimestamp := now;
      pm.LpmResume();
    }

    /** rtos_get_cpu_dc */
    function RtosGetCpuDc(now: uint64): (r: uint32)
      reads this
      ensures activeTime <= Elapsed(Counters(), now) ==> r <= DC_FULL_SCALE
    {
      CpuDc(Counters(), now)
    }

    /** rtos_reset_cpu_dc, with the awake interval restarted as well (see Reset). */
    method RtosResetCpuDc(now: uint64)
      modifies this
      ensures Counters() == Reset(old(Counters()), now)
    {
      lastReset := now;
      activeTime := 0;
      wakeupTimestamp := now;
    }
  }

  /** The reset check of vApplicationIdleHook: a system reset is due exactly when the
      operating mode is Reset. */
  method IdleHookResets(pm: Lpm.PowerManager) returns (reset: bool)
    ensures reset <==> pm.opMode == Lpm.Reset
  {
    reset := pm.GetOpmode() == Lpm.Reset;
  }
}
