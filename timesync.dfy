/** The time-synchronisation engine: a time-request edge latches the local lptimer value,
    a UNIX timestamp from the time master closes the sync point, the reconcile step
    estimates, smooths and clamps the local clock's drift, and the clock query maps any
    lptimer value to UNIX microseconds. */
module TimeSync {
  import opened CTypes
  import Lpm

  /** TIMESTAMP_MAX_DRIFT_PPM: samples at or beyond it are rejected, the average is capped. */
  const TIMESTAMP_MAX_DRIFT: int := 100
  /** TIMESTAMP_TYPICAL_DRIFT_PPM: samples beyond it only raise a warning. */
  const TIMESTAMP_TYPICAL_DRIFT: int := 40
  const US_PER_S: int := 1000000

  /** LPTIMER_SECOND, the lptimer frequency in ticks per second; its value is left open. */
  type TickRate = hz: int | 0 < hz < 0x8000_0000 witness 1

  /** The statics of task_timesync.c, with update_time's function statics prevLocal and
      prevUnix. */
  datatype SyncState = SyncState(
    unixTimestamp: uint64,     // UNIX time of the last sync point, us
    localTimestamp: uint64,    // lptimer value of the last sync point
    capturedTimestamp: uint64, // lptimer value latched at the last time request
    averageDrift: int32,       // ppm, negative when the local clock runs slow
    updated: bool,             // a new sync point awaits reconciliation
    requested: bool,           // a time request is outstanding
    prevLocal: uint64,         // previous sync point, lptimer value (0 = none)
    prevUnix: uint64)          // previous sync point, UNIX us (0 = none)

  const INITIAL: SyncState := SyncState(0, 0, 0, 0, false, false, 0, 0)

  predicate DriftBounded(s: SyncState)
  {
    -TIMESTAMP_MAX_DRIFT <= s.averageDrift <= TIMESTAMP_MAX_DRIFT
  }

  // ---------------------------------------------------------------------------------
  // The operations on the sync state

  /** GPIO_PIN_3_Callback at lptimer value now: latch now - 1 unless a request is already
      outstanding, and mark a request outstanding. */
  function OnCapture(s: SyncState, now: uint64): (r: SyncState)
    ensures r.requested
    ensures r.capturedTimestamp == if s.requested then s.capturedTimestamp else ToU64(now - 1)
    ensures r.(capturedTimestamp := s.capturedTimestamp, requested := s.requested) == s
  {
    if !s.requested then s.(capturedTimestamp := ToU64(now - 1), requested := true) else s
  }

  /** set_time(u): accepted only while a request is outstanding; it pairs u with the
      latched lptimer value. */
  function OnSetTime(s: SyncState, u: uint64): (r: SyncState)
    ensures !s.requested ==> r == s
    ensures s.requested ==>
      && r.unixTimestamp == u && r.localTimestamp == s.capturedTimestamp
      && !r.requested && r.updated
      && r.(unixTimestamp := s.unixTimestamp, localTimestamp := s.localTimestamp,
            requested := true, updated := s.updated) == s
  {
    if s.requested then
      s.(unixTimestamp := u, localTimestamp := s.capturedTimestamp, requested := false, updated := true)
    else
      s
  }

  /** master_ts_diff_us: the UNIX interval since the previous sync point, as int64. */
  function MasterInterval(s: SyncState): int
  {
    ToI64(ToU64(s.unixTimestamp - s.prevUnix))
  }

  /** local_ts_diff_us: the lptimer interval since the previous sync point, in us. */
  function LocalInterval(s: SyncState, hz: TickRate): int
  {
    ToI64(ToU64(ToU64(s.localTimestamp - s.prevLocal) * US_PER_S) / hz)
  }

  /** The drift in ppm of a local interval against a master interval, computed exactly
      and truncated toward zero. */
  function Drift(localUs: int, masterUs: int): int
    requires masterUs != 0
  {
    Div((localUs - masterUs) * US_PER_S, masterUs)
  }

  /** The drift as line 69 computes it: int64 arithmetic, then narrowed to int32. */
  function DriftAsWritten(localUs: int, masterUs: int): int32
    requires masterUs != 0
  {
    ToI32(Div(ToI64(ToI64(localUs - masterUs) * US_PER_S), masterUs))
  }

  /** What reconciling a new sync point makes of its drift sample. */
  datatype Sample = NoAnchor | ZeroInterval | OutOfRange(drift: int) | Accepted(drift: int)

  /** The sample of the sync point in s: none without a previous anchor, rejected for a
      zero master interval or a drift of MAX or more, accepted otherwise. */
  function Classify(s: SyncState, hz: TickRate): (c: Sample)
    ensures c == NoAnchor <==> s.prevUnix == 0
    ensures c == ZeroInterval <==> s.prevUnix != 0 && MasterInterval(s) == 0
    ensures c.Accepted? || c.OutOfRange? ==>
      && MasterInterval(s) != 0 && c.drift == Drift(LocalInterval(s, hz), MasterInterval(s))
      && (c.Accepted? <==> -TIMESTAMP_MAX_DRIFT < c.drift < TIMESTAMP_MAX_DRIFT)
  {
    if s.prevUnix == 0 then NoAnchor
    else
      var m := MasterInterval(s);
      if m == 0 then ZeroInterval
      else
        var d := Drift(LocalInterval(s, hz), m);
        if d < TIMESTAMP_MAX_DRIFT && d > -TIMESTAMP_MAX_DRIFT then Accepted(d) else OutOfRange(d)
  }

  /** The sample classification lines 66-71 perform: defined only where line 69 does not
      divide by zero. */
  function ClassifyAsWritten(s: SyncState, hz: TickRate): (c: Sample)
    requires s.prevUnix != 0 ==> MasterInterval(s) != 0
    ensures c == NoAnchor <==> s.prevUnix == 0
    ensures c != ZeroInterval
    ensures c.Accepted? || c.OutOfRange? ==>
      && c.drift == DriftAsWritten(LocalInterval(s, hz), MasterInterval(s))
      && (c.Accepted? <==> -TIMESTAMP_MAX_DRIFT < c.drift < TIMESTAMP_MAX_DRIFT)
  {
    if s.prevUnix == 0 then NoAnchor
    else
      var d := DriftAsWritten(LocalInterval(s, hz), MasterInterval(s));
      if d < TIMESTAMP_MAX_DRIFT && d > -TIMESTAMP_MAX_DRIFT then Accepted(d) else OutOfRange(d)
  }

  /** The cap on the average drift. */
  function Clamp(a: int): (r: int)
    ensures -TIMESTAMP_MAX_DRIFT <= r <= TIMESTAMP_MAX_DRIFT
    ensures -TIMESTAMP_MAX_DRIFT <= a <= TIMESTAMP_MAX_DRIFT ==> r == a
    ensures a > TIMESTAMP_MAX_DRIFT ==> r == TIMESTAMP_MAX_DRIFT
    ensures a < -TIMESTAMP_MAX_DRIFT ==> r == -TIMESTAMP_MAX_DRIFT
  {
    if a > TIMESTAMP_MAX_DRIFT then TIMESTAMP_MAX_DRIFT
    else if a < -TIMESTAMP_MAX_DRIFT then -TIMESTAMP_MAX_DRIFT
    else a
  }

  /** Folding an accepted sample d into the average avg (0 meaning "no average yet"). */
  function Fold(avg: int, d: int): (r: int32)
    ensures -TIMESTAMP_MAX_DRIFT <= r <= TIMESTAMP_MAX_DRIFT
    ensures avg == 0 && -TIMESTAMP_MAX_DRIFT <= d <= TIMESTAMP_MAX_DRIFT ==> r == d
  {
    Clamp(if avg == 0 then d else Div(avg + d, 2))
  }

  /** update_time */
  function Reconcile(s: SyncState, hz: TickRate): (r: SyncState)
    ensures !r.updated && !r.requested
    ensures DriftBounded(s) ==> DriftBounded(r)
    ensures s.updated ==> r.prevLocal == s.localTimestamp && r.prevUnix == s.unixTimestamp
    ensures !s.updated ==> r.prevLocal == s.prevLocal && r.prevUnix == s.prevUnix
    ensures !(s.updated && Classify(s, hz).Accepted?) ==> r.averageDrift == s.averageDrift
    ensures s.updated && Classify(s, hz).Accepted? ==>
      r.averageDrift == Fold(s.averageDrift, Classify(s, hz).drift)
    ensures r.unixTimestamp == s.unixTimestamp && r.localTimestamp == s.localTimestamp
    ensures r.capturedTimestamp == s.capturedTimestamp
  {
    if s.updated then
      var avg := match Classify(s, hz)
        case Accepted(d) => Fold(s.averageDrift, d)
        case _ => s.averageDrift;
      s.(averageDrift := avg, prevLocal := s.localTimestamp, prevUnix := s.unixTimestamp,
         updated := false, requested := false)
    else
      s.(updated := false, requested := false)
  }

  /** get_time(atTime) when the lptimer reads now: 0 stands for "now". */
  function TimeAt(s: SyncState, atTime: uint64, now: uint64, hz: TickRate): uint64
  {
    var at := if atTime == 0 then now else atTime;
    ToU64(s.unixTimestamp
          + Div(ToI64(ToI64(ToI64(at) - ToI64(s.localTimestamp)) * (US_PER_S - s.averageDrift)), hz))
  }

  // ---------------------------------------------------------------------------------
  // The engine as the firmware holds it: statics updated in place

  class TimeSyncEngine {
    var unixTimestamp: uint64
    var localTimestamp: uint64
    var capturedTimestamp: uint64
    var averageDrift: int32
    var timestampUpdated: bool
    var timestampRequested: bool
    var prevLocalTimestamp: uint64
    var prevUnixTimestamp: uint64
    const lptimerSecond: TickRate

    function State(): SyncState
      reads this
    {
      SyncState(unixTimestamp, localTimestamp, capturedTimestamp, averageDrift,
                timestampUpdated, timestampRequested, prevLocalTimestamp, prevUnixTimestamp)
    }

    ghost predicate Valid()
      reads this
    {
      DriftBounded(State())
    }

    constructor (hz: TickRate)
      ensures State() == INITIAL && lptimerSecond == hz && Valid()
    {
      unixTimestamp, localTimestamp, capturedTimestamp := 0, 0, 0;
      averageDrift := 0;
      timestampUpdated, timestampRequested := false, false;
      prevLocalTimestamp, prevUnixTimestamp := 0, 0;
      lptimerSecond := hz;
    }

    /** GPIO_PIN_3_Callback: the time-request interrupt at lptimer value now; it also
        raises the Wakeup event in the operating-mode state machine pm. */
    method GpioPin3Callback(now: uint64, pm: Lpm.PowerManager)
      modifies this, pm
      ensures State() == OnCapture(old(State()), now)
      ensures pm.opMode == Lpm.Update(old(pm.opMode), Lpm.Wakeup).mode
      ensures pm.trace == old(pm.trace) + Lpm.Update(old(pm.opMode), Lpm.Wakeup).trace
    {
      if !timestampRequested {
        capturedTimestamp := ToU64(now - 1);
        timestampRequested := true;
      }
      pm.UpdateOpmode(Lpm.Wakeup);
    }

    /** set_time */
    method SetTime(unixTimeUs: uint64)
      modifies this
      ensures State() == OnSetTime(old(State()), unixTimeUs)
    {
      if timestampRequested {
        unixTimestamp := unixTimeUs;
        localTimestamp := capturedTimestamp;
        timestampRequested := false;
        timestampUpdated := true;
      }
    }

    /** update_time */
    method UpdateTime()
      requires Valid()
      modifies this
      ensures Valid()
      ensures State() == Reconcile(old(State()), lptimerSecond)
    {
      ghost var s0 := State();
      if timestampUpdated {
        if prevUnixTimestamp != 0 {
          var masterDiff := ToI64(ToU64(unixTimestamp - prevUnixTimestamp));
          var localDiff := ToI64(ToU64(ToU64(localTimestamp - prevLocalTimestamp) * US_PER_S) / lptimerSecond);
          assert masterDiff == MasterInterval(s0) && localDiff == LocalInterval(s0, lptimerSecond);
          if masterDiff != 0 {
            var drift := Div((localDiff - masterDiff) * US_PER_S, masterDiff);
            assert drift == Drift(localDiff, masterDiff);
            if drift < TIMESTAMP_MAX_DRIFT && drift > -TIMESTAMP_MAX_DRIFT {
              FoldSample(drift);
            }
          }
        }
        prevLocalTimestamp := localTimestamp;
        prevUnixTimestamp := unixTimestamp;
      }
      timestampUpdated := false;
      timestampRequested := false;
    }

    /** Lines 75-85 of update_time: fold an accepted sample into the average and cap it. */
    method FoldSample(drift: int)
      modifies this
      ensures State() == old(State()).(averageDrift := Fold(old(averageDrift), drift))
    {
      var avg: int := averageDrift;
      if avg == 0 {
        avg := drift;
      } else {
        avg := Div(avg + drift, 2);
      }
      if avg > TIMESTAMP_MAX_DRIFT {
        avg := TIMESTAMP_MAX_DRIFT;
      } else if avg < -TIMESTAMP_MAX_DRIFT {
        avg := -TIMESTAMP_MAX_DRIFT;
      }
      averageDrift := avg;
    }

    /** get_time */
    function GetTime(atTime: uint64, now: uint64): (r: uint64)
      reads this
      ensures atTime != 0 && atTime == localTimestamp ==> r == unixTimestamp
    {
      var s := State();
      assert atTime != 0 && atTime == s.localTimestamp ==> TimeAt(s, atTime, now, lptimerSecond) == s.unixTimestamp by {
        if atTime != 0 && atTime == s.localTimestamp {
          SyncPointMapsToUnixTime(s, now, lptimerSecond);
        }
      }
      TimeAt(s, atTime, now, lptimerSecond)
    }
  }

  // ---------------------------------------------------------------------------------
  // Properties

  /** After reconciling, no request is outstanding, so a time request the master never
      answered is dropped: a late set_time changes nothing. */
  lemma UnansweredCaptureDiscarded(s: SyncState, now: uint64, u: uint64, hz: TickRate)
    ensures var r := Reconcile(OnCapture(s, now), hz);
      !r.requested && OnSetTime(r, u) == r
  {
  }

  /** The fold rule: an accepted sample replaces an average of 0 and is otherwise averaged
      with it (truncating); no other reconcile touches the average. */
  lemma FoldRule(s: SyncState, hz: TickRate)
    requires DriftBounded(s)
    ensures var r := Reconcile(s, hz);
      match Classify(s, hz)
      case Accepted(d) =>
        s.updated ==> r.averageDrift == (if s.averageDrift == 0 then d else Div(s.averageDrift + d, 2))
      case _ => r.averageDrift == s.averageDrift
  {
    match Classify(s, hz)
    case Accepted(d) =>
      if s.updated && s.averageDrift != 0 {
        HalfOfBoundedSum(s.averageDrift, d);
      }
    case _ =>
  }

  /** Averaging two values within the drift bound stays within it, so the clamp in
      update_time never changes an average. */
  lemma HalfOfBoundedSum(a: int, d: int)
    requires -TIMESTAMP_MAX_DRIFT <= a <= TIMESTAMP_MAX_DRIFT
    requires -TIMESTAMP_MAX_DRIFT < d < TIMESTAMP_MAX_DRIFT
    ensures -TIMESTAMP_MAX_DRIFT <= Div(a + d, 2) <= TIMESTAMP_MAX_DRIFT
  {
    DivMonotone(a + d, 2 * TIMESTAMP_MAX_DRIFT, 2);
    DivMonotone(-2 * TIMESTAMP_MAX_DRIFT, a + d, 2);
  }

  /** Each fold of an accepted sample into a non-zero average within the bound at least
      halves the distance between the average and the sample (up to the truncation's one
      ppm). */
  lemma SmoothingHalvesDistance(a: int, d: int)
    requires a != 0 && -TIMESTAMP_MAX_DRIFT <= a <= TIMESTAMP_MAX_DRIFT
    requires -TIMESTAMP_MAX_DRIFT < d < TIMESTAMP_MAX_DRIFT
    ensures Abs(Fold(a, d) - d) <= Abs(a - d) / 2 + 1
  {
    HalfOfBoundedSum(a, d);
  }

  /** The drift bound holds after any sequence of captures, sync points and reconciles. */
  datatype SyncOp = CaptureOp(now: uint64) | SetTimeOp(unixUs: uint64) | UpdateOp

  function Apply(s: SyncState, op: SyncOp, hz: TickRate): SyncState
  {
    match op
    case CaptureOp(now) => OnCapture(s, now)
    case SetTimeOp(u) => OnSetTime(s, u)
    case UpdateOp => Reconcile(s, hz)
  }

  function RunOps(s: SyncState, ops: seq<SyncOp>, hz: TickRate): SyncState
    decreases |ops|
  {
    if ops == [] then s else RunOps(Apply(s, ops[0], hz), ops[1..], hz)
  }

  lemma {:induction false} DriftStaysBounded(s: SyncState, ops: seq<SyncOp>, hz: TickRate)
    requires DriftBounded(s)
    ensures DriftBounded(RunOps(s, ops, hz))
    decreases |ops|
  {
    if ops != [] {
      var s1 := Apply(s, ops[0], hz);
      assert DriftBounded(s1);
      DriftStaysBounded(s1, ops[1..], hz);
    }
  }

  /** A local interval no longer than the master interval gives a drift of at most 0
      (negative: the local clock runs slow), and a longer one a drift of at least 0. */
  lemma DriftSign(localUs: int, masterUs: int)
    requires masterUs > 0
    ensures localUs <= masterUs ==> Drift(localUs, masterUs) <= 0
    ensures localUs >= masterUs ==> Drift(localUs, masterUs) >= 0
  {
    DivSign((localUs - masterUs) * US_PER_S, masterUs);
  }

  /** A local interval of 1 000 000 us against a master interval of 1 000 050 us is a
      drift of -49 ppm: -49.9975 truncated toward zero. */
  lemma DriftExample()
    ensures Drift(1000000, 1000050) == -49
  {
  }

  /** Where nothing wraps, the exact drift and line 69's drift agree. */
  lemma DriftAsWrittenAgrees(localUs: int, masterUs: int)
    requires masterUs != 0 && InInt64(localUs - masterUs) && InInt64((localUs - masterUs) * US_PER_S)
    requires InInt32(Drift(localUs, masterUs))
    ensures DriftAsWritten(localUs, masterUs) == Drift(localUs, masterUs)
  {
  }

  /** A rejected sample keeps the old average but its sync point still becomes the anchor,
      so the next sync point's master interval is measured from it. */
  lemma RejectedSampleStillAdvancesAnchor(s: SyncState, now: uint64, u: uint64, hz: TickRate,
                                          now2: uint64, u2: uint64)
    requires !s.requested
    requires Classify(OnSetTime(OnCapture(s, now), u), hz).OutOfRange?
    ensures var r := Reconcile(OnSetTime(OnCapture(s, now), u), hz);
      && r.averageDrift == s.averageDrift
      && r.prevLocal == ToU64(now - 1) && r.prevUnix == u
      && MasterInterval(OnSetTime(OnCapture(r, now2), u2)) == ToI64(ToU64(u2 - u))
  {
  }

  /** The sync point itself maps to its UNIX time. */
  lemma SyncPointMapsToUnixTime(s: SyncState, now: uint64, hz: TickRate)
    requires s.localTimestamp != 0
    ensures TimeAt(s, s.localTimestamp, now, hz) == s.unixTimestamp
  {
  }

  /** The clock's extrapolation from the sync point, computed exactly. */
  function Elapsed(s: SyncState, at: int, hz: TickRate): int
  {
    Div((at - s.localTimestamp) * (US_PER_S - s.averageDrift), hz)
  }

  /** No intermediate of get_time at lptimer value at wraps. */
  predicate NoWrap(s: SyncState, at: int, hz: TickRate)
  {
    && 0 <= at < -INT64_MIN && s.localTimestamp < -INT64_MIN
    && InInt64((at - s.localTimestamp) * (US_PER_S - s.averageDrift))
    && 0 <= s.unixTimestamp + Elapsed(s, at, hz) < UINT64_LIMIT
  }

  lemma TimeAtExact(s: SyncState, at: uint64, now: uint64, hz: TickRate)
    requires at != 0 && NoWrap(s, at, hz)
    ensures TimeAt(s, at, now, hz) == s.unixTimestamp + Elapsed(s, at, hz)
  {
  }

  /** Within the drift bound, the clock never runs backwards. */
  lemma TimeAtMonotone(s: SyncState, a1: uint64, a2: uint64, now: uint64, hz: TickRate)
    requires DriftBounded(s)
    requires 0 < a1 <= a2 && NoWrap(s, a1, hz) && NoWrap(s, a2, hz)
    ensures TimeAt(s, a1, now, hz) <= TimeAt(s, a2, now, hz)
  {
    TimeAtExact(s, a1, now, hz);
    TimeAtExact(s, a2, now, hz);
    var k := US_PER_S - s.averageDrift;
    MulOrder(a1 - s.localTimestamp, a2 - s.localTimestamp, k);
    DivMonotone((a1 - s.localTimestamp) * k, (a2 - s.localTimestamp) * k, hz);
  }

  // ---------------------------------------------------------------------------------
  // Two ways lines 66-71 go wrong

  /** The same UNIX timestamp answering two time requests in a row passes the guard at
      line 66 with a master interval of 0, the divisor of line 69. */
  lemma RepeatedTimestampReachesZeroDivisor(hz: TickRate)
    ensures var u := 1600000000000000;
      var s1 := Reconcile(OnSetTime(OnCapture(INITIAL, 1000), u), hz);
      var s2 := OnSetTime(OnCapture(s1, 40000), u);
      && s2.updated && s2.prevUnix != 0 && MasterInterval(s2) == 0
      && Classify(s2, hz) == ZeroInterval
      && Reconcile(s2, hz).averageDrift == s1.averageDrift
  {
  }

  /** Narrowing the drift to int32 before the range check: 4 296 s of local time against
      1 s of master time (a jump of the master's clock) makes line 69 yield 50 ppm, which
      is accepted, while the drift is about 4.3 * 10^9 ppm. */
  lemma NarrowedDriftWrapsIntoRange()
    ensures var s := SyncState(1600000001000000, 140771258, 0, 0, true, false, 1000, 1600000000000000);
      && LocalInterval(s, 32768) == 4295967346 && MasterInterval(s) == 1000000
      && ClassifyAsWritten(s, 32768) == Accepted(50)
      && Classify(s, 32768) == OutOfRange(4294967346)
  {
  }
}
