/** The node's operating-mode state machine and the mode-gated entry into and exit from
    deep sleep. The register-level hardware steps are kept as an ordered trace of abstract
    actions; every call of the state machine's update also leaves a Signal in that trace,
    so the trace shows hardware steps and mode events in the order they happen. */
module Lpm {

  /** op_mode_t */
  datatype OpMode = Reset | Active | Idle | LowPower | Woken

  /** op_mode_event_t */
  datatype OpModeEvent = Init | Wakeup | Done | Stopped | Restored

  /** lp_mode_t, in increasing order of depth; every mode but Sleep is at least STOP2. */
  datatype LpMode = Sleep | Stop2 | Standby | Shutdown

  /** lp_mode >= LP_MODE_STOP2 */
  predicate IsDeepSleep(lp: LpMode) { lp != Sleep }

  /** The abstract hardware steps of entering and leaving a low-power mode. */
  datatype Action =
    | SuspendTick            // HAL tick stopped
    | RadioSleep             // radio forced into its own sleep state
    | SuspendSysTick         // RTOS SysTick stopped
    | DisablePeriph          // timers, UART and SPI disabled
    | DisableLptim           // LPTIM1 disabled (STANDBY and SHUTDOWN only)
    | SwitchToHsi            // system clock moved to HSI, MSI off
    | DisableIrqs            // peripheral interrupts masked in the NVIC
    | ArmDeepSleep(lp: LpMode) // low-power mode bits and SLEEPDEEP set
    | DisarmDeepSleep        // SLEEPDEEP cleared
    | RestoreClocks          // GPIO, PWR and SYSCFG clocks on, SystemClock_Config
    | RestorePeriph          // timers, UART and SPI enabled
    | EnableIrqs             // peripheral interrupts unmasked in the NVIC
    | DisableRadioWakeupIrq  // radio DIO1 wake-up line masked and cleared
    | ResumeSysTick          // RTOS SysTick running again
    | ResumeTick             // HAL tick running again
    | Signal(evt: OpModeEvent) // update_opmode(evt) applied

  /** The transition table op_mode_state_machine, row by row. */
  function Transition(m: OpMode, e: OpModeEvent): OpMode
  {
    match m
    case Reset =>
      (match e
       case Init => Active case Wakeup => Reset case Done => Reset
       case Stopped => Reset case Restored => Reset)
    case Active =>
      (match e
       case Init => Reset case Wakeup => Active case Done => Idle
       case Stopped => Reset case Restored => Reset)
    case Idle =>
      (match e
       case Init => Reset case Wakeup => Active case Done => Idle
       case Stopped => LowPower case Restored => Reset)
    case LowPower =>
      (match e
       case Init => Reset case Wakeup => Woken case Done => Reset
       case Stopped => Reset case Restored => Reset)
    case Woken =>
      (match e
       case Init => Reset case Wakeup => Woken case Done => Reset
       case Stopped => Reset case Restored => Active)
  }

  /** Mode afterwards and hardware steps issued, in order. */
  datatype Outcome = Outcome(mode: OpMode, trace: seq<Action>)

  /** The restore sequence lpm_resume runs when the MCU comes back from deep sleep, up to
      (not including) its Restored event. */
  const RESTORE_STEPS: seq<Action> :=
    [DisarmDeepSleep, RestoreClocks, RestorePeriph, EnableIrqs, DisableRadioWakeupIrq, ResumeSysTick]

  /** What lpm_resume does from mode m. */
  function Resume(m: OpMode): (r: Outcome)
    ensures r.trace != [] && r.trace[|r.trace| - 1] == ResumeTick
    ensures m != Woken ==> r.mode == m
  {
    if m == Woken then
      Outcome(Transition(m, Restored), RESTORE_STEPS + [Signal(Restored), ResumeTick])
    else
      Outcome(m, [ResumeTick])
  }

  /** What update_opmode(e) does from mode m: the table lookup, and for Wakeup the resume. */
  function Update(m: OpMode, e: OpModeEvent): (r: Outcome)
    ensures r.trace != [] && r.trace[0] == Signal(e)
    ensures e == Wakeup ==> r.trace[|r.trace| - 1] == ResumeTick
    ensures e != Wakeup ==> |r.trace| == 1
  {
    var next := Transition(m, e);
    if e == Wakeup then
      var r := Resume(next);
      Outcome(r.mode, [Signal(e)] + r.trace)
    else
      Outcome(next, [Signal(e)])
  }

  /** The steps lpm_prepare takes before raising Stopped when it enters a deep mode lp. */
  function EntrySteps(lp: LpMode): (t: seq<Action>)
    ensures |t| >= 7 && t[0] == RadioSleep && t[|t| - 1] == ArmDeepSleep(lp)
    ensures DisableLptim in t <==> lp == Standby || lp == Shutdown
  {
    [RadioSleep, SuspendSysTick, SuspendTick, DisablePeriph]
    + (if lp == Standby || lp == Shutdown then [DisableLptim] else [])
    + [SwitchToHsi, DisableIrqs, ArmDeepSleep(lp)]
  }

  /** What lpm_prepare does from mode m in low-power mode lp; tickless says whether the
      RTOS runs tickless idle (configUSE_TICKLESS_IDLE). */
  function Prepare(m: OpMode, lp: LpMode, tickless: bool): (r: Outcome)
    ensures r.mode == m || (m == Idle && r.mode == LowPower)
    ensures r.mode != m ==> Signal(Stopped) in r.trace
  {
    var pre := if tickless then [SuspendTick] else [];
    if m != Idle then
      Outcome(m, pre)
    else if lp == Sleep then
      Outcome(m, pre + [SuspendTick])
    else
      var u := Update(m, Stopped);
      Outcome(u.mode, pre + EntrySteps(lp) + u.trace)
  }

  /** Step a precedes step b somewhere in trace t. */
  predicate Precedes(t: seq<Action>, a: Action, b: Action)
  {
    exists i, j :: 0 <= i < j < |t| && t[i] == a && t[j] == b
  }

  /** The modes after each event of es, applied in order from m (update_opmode repeatedly). */
  function Run(m: OpMode, es: seq<OpModeEvent>): OpMode
    decreases |es|
  {
    if es == [] then m else Run(Update(m, es[0]).mode, es[1..])
  }

  /** The static op_mode of lpm.c with the selected low-power mode, plus the trace of
      hardware steps and mode events issued so far. */
  class PowerManager {
    var opMode: OpMode
    const lpMode: LpMode
    const ticklessIdle: bool
    var trace: seq<Action>

    constructor (lp: LpMode, tickless: bool)
      ensures opMode == Reset && trace == []
      ensures lpMode == lp && ticklessIdle == tickless
    {
      opMode := Reset;
      lpMode := lp;
      ticklessIdle := tickless;
      trace := [];
    }

    /** get_opmode */
    function GetOpmode(): (m: OpMode)
      reads this
      ensures m == opMode
    {
      opMode
    }

    /** update_opmode: the mode becomes the table entry; a Wakeup event then resumes. */
    method UpdateOpmode(evt: OpModeEvent)
      modifies this
      decreases if evt == Wakeup then 2 else 0
      ensures opMode == Update(old(opMode), evt).mode
      ensures trace == old(trace) + Update(old(opMode), evt).trace
    {
      opMode := Transition(opMode, evt);
      trace := trace + [Signal(evt)];
      if evt == Wakeup {
        LpmResume();
      }
    }

    /** lpm_prepare */
    method LpmPrepare()
      modifies this
      ensures opMode == Prepare(old(opMode), lpMode, ticklessIdle).mode
      ensures trace == old(trace) + Prepare(old(opMode), lpMode, ticklessIdle).trace
    {
      if ticklessIdle {
        trace := trace + [SuspendTick];
      }
      if opMode == Idle {
        if lpMode == Sleep {
          trace := trace + [SuspendTick];
        } else if IsDeepSleep(lpMode) {
          ConfigureDeepSleep();
          UpdateOpmode(Stopped);
        }
      }
    }

    /** The deep-sleep branch of lpm_prepare up to its Stopped event. */
    method ConfigureDeepSleep()
      requires IsDeepSleep(lpMode)
      modifies this
      ensures opMode == old(opMode)
      ensures trace == old(trace) + EntrySteps(lpMode)
    {
      trace := trace + [RadioSleep];
      trace := trace + [SuspendSysTick, SuspendTick];
      trace := trace + [DisablePeriph];
      if lpMode == Standby || lpMode == Shutdown {
        trace := trace + [DisableLptim];
      }
      trace := trace + [SwitchToHsi];
      trace := trace + [DisableIrqs];
      trace := trace + [ArmDeepSleep(lpMode)];
    }

    /** lpm_resume */
    method LpmResume()
      modifies this
      decreases 1
      ensures opMode == Resume(old(opMode)).mode
      ensures trace == old(trace) + Resume(old(opMode)).trace
    {
      if opMode == Woken {
        trace := trace + [DisarmDeepSleep];
        trace := trace + [RestoreClocks];
        trace := trace + [RestorePeriph];
        trace := trace + [EnableIrqs];
        trace := trace + [DisableRadioWakeupIrq];
        trace := trace + [ResumeSysTick];
        UpdateOpmode(Restored);
      }
      trace := trace + [ResumeTick];
    }
  }

  // ---------------------------------------------------------------------------------
  // Properties of the table

  /** The nine table entries that do not fall back to Reset. */
  predicate Listed(m: OpMode, e: OpModeEvent)
  {
    || (m == Reset && e == Init)
    || (m == Active && (e == Wakeup || e == Done))
    || (m == Idle && (e == Wakeup || e == Done || e == Stopped))
    || (m == LowPower && e == Wakeup)
    || (m == Woken && (e == Wakeup || e == Restored))
  }

  /** Every pair outside the nine listed ones resets, and the listed ones do not. */
  lemma FailSafeDefault(m: OpMode, e: OpModeEvent)
    ensures Transition(m, e) != Reset <==> Listed(m, e)
  {
  }

  /** Reset is left only by Init, which leads to Active. */
  lemma ResetLeftOnlyByInit(e: OpModeEvent)
    ensures Transition(Reset, e) == (if e == Init then Active else Reset)
    ensures Update(Reset, e).mode == (if e == Init then Active else Reset)
  {
  }

  /** A sequence of events without Init keeps the machine in Reset. */
  lemma {:induction false} ResetSticksWithoutInit(es: seq<OpModeEvent>)
    requires forall i :: 0 <= i < |es| ==> es[i] != Init
    ensures Run(Reset, es) == Reset
    decreases |es|
  {
    if es != [] {
      ResetLeftOnlyByInit(es[0]);
      ResetSticksWithoutInit(es[1..]);
    }
  }

  /** A Wakeup event ends in Active from every mode but Reset: from LowPower it passes
      through Woken and the resume's Restored event. */
  lemma WakeupEndsActive(m: OpMode)
    ensures Update(m, Wakeup).mode == (if m == Reset then Reset else Active)
    ensures m == LowPower || m == Woken ==>
      Update(m, Wakeup).trace == [Signal(Wakeup)] + RESTORE_STEPS + [Signal(Restored), ResumeTick]
    ensures m != LowPower && m != Woken ==> Update(m, Wakeup).trace == [Signal(Wakeup), ResumeTick]
  {
  }

  /** Deep sleep is entered only from Idle and only through the Stopped event. */
  lemma LowPowerOnlyFromIdle(m: OpMode, e: OpModeEvent)
    ensures Update(m, e).mode == LowPower <==> m == Idle && e == Stopped
  {
  }

  /** lpm_resume restores and changes the mode only when the mode is Woken; otherwise it
      only resumes the HAL tick. */
  lemma ResumeGatedOnWoken(m: OpMode)
    ensures Resume(m).mode == (if m == Woken then Active else m)
    ensures m != Woken ==> Resume(m).trace == [ResumeTick]
    ensures m == Woken ==> RestoreClocks in Resume(m).trace
  {
  }

  /** lpm_prepare leaves any mode but Idle alone, stays in Idle with LP_MODE_SLEEP, and
      moves Idle to LowPower in a deep mode. */
  lemma PrepareGatedOnIdle(m: OpMode, lp: LpMode, tickless: bool)
    ensures Prepare(m, lp, tickless).mode == (if m == Idle && IsDeepSleep(lp) then LowPower else m)
    ensures !(m == Idle && IsDeepSleep(lp)) ==> RadioSleep !in Prepare(m, lp, tickless).trace
  {
    if !(m == Idle && IsDeepSleep(lp)) {
      var t := Prepare(m, lp, tickless).trace;
      assert forall i :: 0 <= i < |t| ==> t[i] == SuspendTick;
    }
  }

  /** Entering deep sleep puts the radio to sleep before the peripherals are disabled and
      before the Stopped event, and the Stopped event is the last thing it does. */
  lemma PrepareOrder(lp: LpMode, tickless: bool)
    requires IsDeepSleep(lp)
    ensures var t := Prepare(Idle, lp, tickless).trace;
      && Precedes(t, RadioSleep, DisablePeriph)
      && Precedes(t, DisablePeriph, Signal(Stopped))
      && Precedes(t, RadioSleep, Signal(Stopped))
      && t[|t| - 1] == Signal(Stopped)
  {
    var t := Prepare(Idle, lp, tickless).trace;
    var p := if tickless then 1 else 0;
    assert t == (if tickless then [SuspendTick] else []) + EntrySteps(lp) + [Signal(Stopped)];
    assert t[p] == RadioSleep;
    assert t[p + 3] == DisablePeriph;
    assert t[|t| - 1] == Signal(Stopped);
  }

  /** Leaving deep sleep restores clocks, then peripherals, then interrupts, and only then
      raises Restored. */
  lemma ResumeOrder()
    ensures var t := Resume(Woken).trace;
      && Precedes(t, RestoreClocks, RestorePeriph)
      && Precedes(t, RestorePeriph, EnableIrqs)
      && Precedes(t, EnableIrqs, Signal(Restored))
  {
    var t := Resume(Woken).trace;
    assert t[1] == RestoreClocks && t[2] == RestorePeriph && t[3] == EnableIrqs;
    assert t[6] == Signal(Restored);
  }

  /** One round of the periodic duty task in a deep mode: woken from LowPower, the task
      signals Done, and the idle task's lpm_prepare returns the node to LowPower. With
      LP_MODE_SLEEP the node stays in Idle. */
  lemma DutyCycleReturnsToLowPower(lp: LpMode, tickless: bool)
    ensures Prepare(Run(LowPower, [Wakeup, Done]), lp, tickless).mode ==
      (if IsDeepSleep(lp) then LowPower else Idle)
  {
    assert [Wakeup, Done][1..] == [Done];
    assert Run(LowPower, [Wakeup, Done]) == Run(Active, [Done]) == Idle;
  }
}
