/** DPP message handling on the node: validating and routing received messages, decoding
    commands, and the queue of scheduled baseboard commands with its periodic enable slot.
    The model is that of the baseboard build (BASEBOARD set to 1). */
module Message {
  import opened CTypes
  import TimeSync

  /** COMMAND_QUEUE_SIZE: the capacity of the list of pending commands. */
  const COMMAND_QUEUE_SIZE: nat := 10
  const NODE_ID: uint16 := 2
  /** Scheduled times below one day are offsets relative to now. */
  const SECONDS_PER_DAY: int := 86400
  /** The CRC closing every DPP message is 16 bits wide. */
  const CRC_LEN: int := 2

  datatype Option<T> = None | Some(value: T)

  /** dpp_command_type_t, restricted to the opcodes the node handles; OtherCommand stands
      for every other opcode, and a decoder maps a handled opcode to its own constructor. */
  datatype CommandType =
    | DppReset | Sx1262Reset
    | BaseboardEnable | BaseboardDisable | BaseboardEnablePeriodic | BaseboardPowerExt3
    | OtherCommand(code: uint16)

  /** scheduled_cmd_t */
  datatype ScheduledCmd = ScheduledCmd(cmdType: CommandType, arg: uint16, scheduledTime: uint32)

  /** periodic_t: starttime 0 means "no periodic enable". */
  datatype Periodic = Periodic(starttime: uint32, period: uint32)

  /** nv_config_t */
  datatype NvConfig = NvConfig(nodeId: uint16, rstCnt: uint16, bbEn: Periodic, reserved: uint32)

  /** The argument bytes of a command, read through the union as bytes, as little-endian
      16-bit words (arg16) and as little-endian 32-bit words (arg32). */
  type ArgBytes = s: seq<uint8> | |s| >= 7 witness [0, 0, 0, 0, 0, 0, 0]

  function Arg16(a: ArgBytes, i: nat): uint16
    requires 2 * i + 1 < |a|
  {
    a[2 * i] as int + 0x100 * (a[2 * i + 1] as int)
  }

  function Arg32(a: ArgBytes): uint32
  {
    a[0] as int + 0x100 * (a[1] as int) + 0x1_0000 * (a[2] as int) + 0x100_0000 * (a[3] as int)
  }

  /** dpp_command_t */
  datatype Command = Command(cmdType: CommandType, arg: ArgBytes)

  /** The message type byte: the minimal-header flag and the type proper. */
  datatype MsgKind = CmdMsg | TimesyncMsg | OtherMsg(code: uint8)

  /** dpp_header_t */
  datatype Header = Header(deviceId: uint16, minFormat: bool, kind: MsgKind, payloadLen: uint8,
                           targetId: uint16, generationTime: uint64)

  /** dpp_message_t: the payload seen as a command and as a timestamp, and the CRC word
      that follows the payload. */
  datatype Message = Message(header: Header, cmd: Command, timestamp: uint64, crc: uint16)

  /** The DPP library's constants and its CRC routine, which are not part of this model. */
  datatype Dpp = Dpp(hdrLen: uint8, pktLen: uint16, broadcastId: uint16,
                     crc16: (Message, int) -> uint16)

  /** What the node does to the board, in order. */
  datatype BoardAction =
    | BaseboardOn | BaseboardWake | BaseboardOff
    | WakeupModeSent(arg: uint16)   // generate_command(CMD_BASEBOARD_WAKEUP_MODE, arg)
    | Ext3On | Ext3Off
    | ConfigSaved(cfg: NvConfig)    // nvcfg_save
    | SystemReset                   // NVIC_SystemReset

  // ---------------------------------------------------------------------------------
  // The list of pending commands (list_insert, list_get_head, list_remove_head)

  predicate Sorted(q: seq<ScheduledCmd>)
  {
    forall i, j :: 0 <= i < j < |q| ==> q[i].scheduledTime <= q[j].scheduledTime
  }

  /** Where an entry with key t goes: before the first entry with a later key. */
  function InsertPos(q: seq<ScheduledCmd>, t: int): (p: nat)
    ensures p <= |q|
    ensures forall i :: 0 <= i < p ==> q[i].scheduledTime <= t
    ensures p < |q| ==> q[p].scheduledTime > t
  {
    if q == [] || q[0].scheduledTime > t then 0 else 1 + InsertPos(q[1..], t)
  }

  function InsertSorted(q: seq<ScheduledCmd>, c: ScheduledCmd): (r: seq<ScheduledCmd>)
    ensures |r| == |q| + 1 && c in r
  {
    var p := InsertPos(q, c.scheduledTime);
    q[..p] + [c] + q[p..]
  }

  /** Inserting keeps the list sorted and adds exactly the new entry. */
  lemma InsertKeepsOrder(q: seq<ScheduledCmd>, c: ScheduledCmd)
    requires Sorted(q)
    ensures Sorted(InsertSorted(q, c))
    ensures multiset(InsertSorted(q, c)) == multiset(q) + multiset{c}
    ensures |InsertSorted(q, c)| == |q| + 1
  {
    var p := InsertPos(q, c.scheduledTime);
    var r := InsertSorted(q, c);
    assert r == q[..p] + [c] + q[p..];
    InsertedSorted(q, c, p, r);
    InsertedMultiset(q, c, p, r);
  }

  /** Splicing c in at any position adds exactly c to the multiset of entries. */
  lemma InsertedMultiset(q: seq<ScheduledCmd>, c: ScheduledCmd, p: nat, r: seq<ScheduledCmd>)
    requires p <= |q| && r == q[..p] + [c] + q[p..]
    ensures multiset(r) == multiset(q) + multiset{c}
  {
    calc {
      multiset(r);
      multiset(q[..p] + [c]) + multiset(q[p..]);
      multiset(q[..p]) + multiset{c} + multiset(q[p..]);
      { assert q == q[..p] + q[p..]; }
      multiset(q) + multiset{c};
    }
  }

  lemma InsertedSorted(q: seq<ScheduledCmd>, c: ScheduledCmd, p: nat, r: seq<ScheduledCmd>)
    requires Sorted(q) && p == InsertPos(q, c.scheduledTime) && r == q[..p] + [c] + q[p..]
    ensures Sorted(r)
  {
    assert forall i :: 0 <= i < p ==> r[i] == q[i];
    assert forall i :: p < i < |r| ==> r[i] == q[i - 1];
    forall i, j | 0 <= i < j < |r|
      ensures r[i].scheduledTime <= r[j].scheduledTime
    {
      if j < p || i > p {
      } else if i == p {
        assert q[p].scheduledTime <= q[j - 1].scheduledTime;
      } else {
      }
    }
  }

  /** Insertion is stable: the new entry lands after every entry whose key is at most its
      own, and before every entry with a later key, and no other entry moves. */
  lemma InsertIsStable(q: seq<ScheduledCmd>, c: ScheduledCmd)
    requires Sorted(q)
    ensures var p := InsertPos(q, c.scheduledTime);
      var r := InsertSorted(q, c);
      && r[p] == c && r[..p] == q[..p] && r[p + 1..] == q[p..]
      && forall i :: 0 <= i < |q| ==> (q[i].scheduledTime <= c.scheduledTime <==> i < p)
  {
    var p := InsertPos(q, c.scheduledTime);
    var r := InsertSorted(q, c);
    assert r[..p] == q[..p];
    assert r[p + 1..] == q[p..];
    forall i | 0 <= i < |q|
      ensures q[i].scheduledTime <= c.scheduledTime <==> i < p
    {
      if i >= p {
        assert q[p].scheduledTime <= q[i].scheduledTime;
      }
    }
  }

  datatype InsertResult = InsertResult(ok: bool, entries: seq<ScheduledCmd>)

  /** list_insert on a bounded list: a full list refuses the entry and stays as it was. */
  function ListInsert(q: seq<ScheduledCmd>, c: ScheduledCmd): (r: InsertResult)
    requires Sorted(q)
    ensures r.ok <==> |q| < COMMAND_QUEUE_SIZE
    ensures !r.ok ==> r.entries == q
    ensures r.ok ==> Sorted(r.entries) && multiset(r.entries) == multiset(q) + multiset{c}
  {
    if |q| >= COMMAND_QUEUE_SIZE then InsertResult(false, q)
    else
      InsertKeepsOrder(q, c);
      InsertResult(true, InsertSorted(q, c))
  }

  class PendingList {
    var entries: seq<ScheduledCmd>

    ghost predicate Valid()
      reads this
    {
      |entries| <= COMMAND_QUEUE_SIZE && Sorted(entries)
    }

    constructor ()
      ensures entries == [] && Valid()
    {
      entries := [];
    }

    /** list_insert */
    method Insert(c: ScheduledCmd) returns (ok: bool)
      requires Valid()
      modifies this
      ensures Valid()
      ensures ok == ListInsert(old(entries), c).ok
      ensures entries == ListInsert(old(entries), c).entries
    {
      var r := ListInsert(entries, c);
      entries := r.entries;
      return r.ok;
    }

    /** list_get_head */
    function Head(): (h: Option<ScheduledCmd>)
      reads this
      ensures h.None? <==> entries == []
      ensures h.Some? ==> h.value == entries[0]
    {
      if entries == [] then None else Some(entries[0])
    }

    /** The head of the sorted list is an earliest entry. */
    lemma HeadIsEarliest()
      requires Valid() && entries != []
      ensures forall c :: c in entries ==> Head().value.scheduledTime <= c.scheduledTime
    {
      forall c | c in entries
        ensures entries[0].scheduledTime <= c.scheduledTime
      {
        var i :| 0 <= i < |entries| && entries[i] == c;
        if i > 0 {
          assert entries[0].scheduledTime <= entries[i].scheduledTime;
        }
      }
    }

    /** list_remove_head */
    method RemoveHead()
      requires Valid()
      modifies this
      ensures Valid()
      ensures entries == if old(entries) == [] then [] else old(entries)[1..]
    {
      if entries != [] {
        entries := entries[1..];
      }
    }
  }

  // ---------------------------------------------------------------------------------
  // Executing due commands and the periodic enable (process_scheduled_commands)

  /** curr_time: the UNIX time in seconds, truncated to 32 bits. */
  function CurrentSeconds(nowUs: uint64): (t: uint32)
    ensures nowUs < TimeSync.US_PER_S * UINT32_LIMIT ==> t == nowUs / TimeSync.US_PER_S
  {
    ToU32(nowUs / TimeSync.US_PER_S)
  }

  /** The length of the run of due entries at the head of the list. */
  function DuePrefix(q: seq<ScheduledCmd>, curr: int): (k: nat)
    ensures k <= |q|
  {
    if q == [] || q[0].scheduledTime > curr then 0 else 1 + DuePrefix(q[1..], curr)
  }

  /** The head run is due and the entry right behind it is not. */
  lemma {:induction false} DuePrefixBounds(q: seq<ScheduledCmd>, curr: int)
    ensures forall i :: 0 <= i < DuePrefix(q, curr) ==> q[i].scheduledTime <= curr
    ensures DuePrefix(q, curr) < |q| ==> q[DuePrefix(q, curr)].scheduledTime > curr
  {
    if q != [] && q[0].scheduledTime <= curr {
      DuePrefixBounds(q[1..], curr);
    }
  }

  /** In a sorted list the due entries are exactly the head run: everything behind it is
      due later. */
  lemma DueSplitIsExact(q: seq<ScheduledCmd>, curr: int)
    requires Sorted(q)
    ensures forall i :: 0 <= i < |q| ==> (q[i].scheduledTime <= curr <==> i < DuePrefix(q, curr))
  {
    DuePrefixBounds(q, curr);
    var k := DuePrefix(q, curr);
    forall i | k <= i < |q|
      ensures q[i].scheduledTime > curr
    {
      assert q[k].scheduledTime <= q[i].scheduledTime;
    }
  }

  /** The effect of executing one scheduled command; unknown types do nothing. */
  function Effects(c: ScheduledCmd): (a: seq<BoardAction>)
    ensures a != [] <==> c.cmdType == BaseboardEnable || c.cmdType == BaseboardDisable
    ensures BaseboardOn in a <==> c.cmdType == BaseboardEnable
    ensures c.cmdType == BaseboardEnable ==> WakeupModeSent(c.arg) in a
  {
    match c.cmdType
    case BaseboardEnable => [BaseboardOn, BaseboardWake, WakeupModeSent(c.arg)]
    case BaseboardDisable => [BaseboardOff]
    case _ => []
  }

  /** Executing a run of commands, one after the other. */
  function ExecuteAll(cs: seq<ScheduledCmd>): seq<BoardAction>
  {
    if cs == [] then [] else ExecuteAll(cs[..|cs| - 1]) + Effects(cs[|cs| - 1])
  }

  /** The periodic catch-up: start advanced by whole periods until it reaches t. */
  function Advance(start: int, period: int, t: int): (r: int)
    requires period >= 0
    ensures r >= start
    ensures period == 0 || start >= t ==> r == start
    ensures period > 0 ==> r >= t
    ensures period > 0 && start < t ==> r < t + period
    decreases if period > 0 && start < t then t - start else 0
  {
    if period > 0 && start < t then Advance(start + period, period, t) else start
  }

  /** The number of periods Advance adds. */
  function Periods(start: int, period: int, t: int): (j: nat)
    requires period > 0
    ensures Advance(start, period, t) == start + j * period
    decreases if start < t then t - start else 0
  {
    if start < t then
      var j := Periods(start + period, period, t);
      assert (j + 1) * period == j * period + period;
      j + 1
    else 0
  }

  /** The new start time is the smallest start + j * period (j >= 0) not before t. */
  lemma AdvanceIsSmallest(start: int, period: int, t: int, k: nat)
    requires period > 0 && start <= t
    requires start + k * period >= t
    ensures Advance(start, period, t) <= start + k * period
    ensures Periods(start, period, t) <= k
  {
    var j := Periods(start, period, t);
    if j > 0 {
      assert (j - 1) * period == j * period - period;
      MulOrder(j - 1, k, period);
    }
    MulOrder(j, k, period);
  }

  lemma AdvanceExample()
    ensures Advance(100, 60, 250) == 280
  {
  }

  /** The periodic enable fires when its start time is set and has come. */
  predicate PeriodicDue(p: Periodic, curr: int)
  {
    0 < p.starttime <= curr
  }

  /** The catch-up loop does not wrap: curr + period fits in 32 bits. */
  predicate NoPeriodWrap(p: Periodic, curr: int)
  {
    PeriodicDue(p, curr) ==> curr + p.period < UINT32_LIMIT
  }

  function PeriodicStep(p: Periodic, curr: uint32): (r: Periodic)
    requires NoPeriodWrap(p, curr)
    ensures r.period == p.period
    ensures !PeriodicDue(p, curr) ==> r == p
    ensures p.period == 0 ==> r == p
    ensures PeriodicDue(p, curr) && p.period > 0 ==> curr <= r.starttime < curr + p.period
  {
    if PeriodicDue(p, curr) then p.(starttime := Advance(p.starttime, p.period, curr)) else p
  }

  /** The periodic enable fires at most once per call: the baseboard is switched on and
      woken, once each, exactly when the slot is due. */
  function PeriodicActions(p: Periodic, curr: int): (a: seq<BoardAction>)
    ensures BaseboardOn in a <==> PeriodicDue(p, curr)
    ensures BaseboardWake in a <==> PeriodicDue(p, curr)
    ensures multiset(a)[BaseboardOn] <= 1 && multiset(a)[BaseboardWake] <= 1
    ensures a != [] ==> a[0] == BaseboardOn && a[|a| - 1] == BaseboardWake
    ensures forall x :: x in a ==> x == BaseboardOn || x == BaseboardWake
  {
    if PeriodicDue(p, curr) then [BaseboardOn, BaseboardWake] else []
  }

  /** When the catch-up lands exactly on curr (the loop stops at start == curr), a second
      call within the same second fires once more. */
  lemma PeriodicRefiresInSameSecond()
    ensures var p1 := PeriodicStep(Periodic(40, 60), 100);
      p1 == Periodic(100, 60) && PeriodicDue(p1, 100) && PeriodicStep(p1, 100) == p1
  {
  }

  /** The catch-up loop of lines 222-224 as written, after n rounds: the start time is a
      uint32, so each addition of the period wraps modulo 2^32. */
  function CatchUpAsWritten(start: uint32, period: uint32, n: nat): uint32
  {
    if n == 0 then start else ToU32(CatchUpAsWritten(start, period, n - 1) + period)
  }

  /** Since the start and the period are multiples of 4 and 2^32 is as well, every round
      keeps the start a multiple of 4. */
  lemma {:induction false} CatchUpKeepsResidue(start: uint32, period: uint32, n: nat)
    requires start % 4 == 0 && period % 4 == 0
    ensures CatchUpAsWritten(start, period, n) % 4 == 0
  {
    if n > 0 {
      CatchUpKeepsResidue(start, period, n - 1);
      var x := CatchUpAsWritten(start, period, n - 1);
      WrappedSumKeepsResidue(x, period);
    }
  }

  /** One wrapped round: x + p modulo 2^32 stays a multiple of 4. */
  lemma WrappedSumKeepsResidue(x: uint32, p: uint32)
    requires x % 4 == 0 && p % 4 == 0
    ensures ToU32(x + p) % 4 == 0
  {
    var a, b := x / 4, p / 4;
    assert x + p == 4 * (a + b);
    if x + p < UINT32_LIMIT {
      assert ToU32(x + p) == 4 * (a + b);
    } else {
      assert ToU32(x + p) == x + p - UINT32_LIMIT == 4 * (a + b - UINT32_LIMIT / 4);
    }
  }

  /** At curr_time = 2^32 - 1 (the year 2106) with a 60 s period, a start of 100 never
      reaches curr_time: the loop guard holds after every round, so the loop as written
      does not terminate once start + period wraps. */
  lemma WrappedCatchUpNeverEnds(n: nat)
    ensures CatchUpAsWritten(100, 60, n) < UINT32_LIMIT - 1
  {
    CatchUpKeepsResidue(100, 60, n);
  }

  // ---------------------------------------------------------------------------------
  // Scheduling (schedule_command)

  /** The scheduled time schedule_command stores: offsets below one day are taken relative
      to now in seconds. */
  function ResolveTime(schedTime: uint32, nowUs: uint64): (t: uint32)
    ensures schedTime >= SECONDS_PER_DAY ==> t == schedTime
    ensures schedTime < SECONDS_PER_DAY && CurrentSeconds(nowUs) + schedTime < UINT32_LIMIT ==>
      t == CurrentSeconds(nowUs) + schedTime
  {
    if schedTime < SECONDS_PER_DAY then ToU32(schedTime + CurrentSeconds(nowUs)) else schedTime
  }

  /** The scheduled time as line 298-301 compute it: t_now is get_time(0), microseconds,
      narrowed to 32 bits, and the offset is added to that. */
  function ResolveTimeAsWritten(schedTime: uint32, nowUs: uint64): (t: uint32)
    ensures schedTime >= SECONDS_PER_DAY ==> t == schedTime
    ensures schedTime < SECONDS_PER_DAY ==> (t - schedTime - nowUs) % UINT32_LIMIT == 0
  {
    var tNow := ToU32(nowUs);
    if schedTime < SECONDS_PER_DAY then ToU32(schedTime + tNow) else schedTime
  }

  /** An offset of 30 s at 1000 s after the epoch: the corrected resolution gives 1030 s,
      the code as written gives 1 000 000 030, a command due in 31 years. */
  lemma RelativeOffsetInMicroseconds()
    ensures ResolveTime(30, 1000 * TimeSync.US_PER_S) == 1030
    ensures ResolveTimeAsWritten(30, 1000 * TimeSync.US_PER_S) == 1000000030
  {
  }

  /** A relative command falls due exactly schedTime seconds after it was scheduled. */
  lemma RelativeCommandDueAfterOffset(schedTime: uint32, nowUs: uint64, later: uint64)
    requires schedTime < SECONDS_PER_DAY && CurrentSeconds(nowUs) + schedTime < UINT32_LIMIT
    ensures ResolveTime(schedTime, nowUs) <= CurrentSeconds(later) <==>
      CurrentSeconds(later) - CurrentSeconds(nowUs) >= schedTime
  {
  }

  // ---------------------------------------------------------------------------------
  // Decoding commands (process_command) and routing messages (process_message)

  /** What process_command decides to do with a command. */
  datatype Decision =
    | Reject
    | ResetNode
    | Schedule(entry: ScheduledCmd)
    | SetPeriodic(period: uint32, hour: uint8, minute: uint8)
    | Ext3(on: bool)

  /** Bit 0 of arg[4] marks the time as relative to the message's generation time. */
  predicate RelativeTime(c: Command)
  {
    c.arg[4] % 2 == 1
  }

  function Decide(cmd: Option<Command>, hdr: Option<Header>): (d: Decision)
    ensures d == Reject <==> cmd.None? || cmd.value.cmdType.OtherCommand?
    ensures d.Schedule? ==> d.entry.cmdType == cmd.value.cmdType
  {
    match cmd
    case None => Reject
    case Some(c) =>
      match c.cmdType
      case DppReset => ResetNode
      case Sx1262Reset => ResetNode
      case BaseboardEnable => Schedule(ScheduledCmd(c.cmdType, 0x100 * (c.arg[6] as int) + c.arg[5] as int, ScheduleTimeOf(c, hdr)))
      case BaseboardDisable => Schedule(ScheduledCmd(c.cmdType, 0, ScheduleTimeOf(c, hdr)))
      case BaseboardEnablePeriodic => SetPeriodic(Arg16(c.arg, 1) * 60, c.arg[0], c.arg[1])
      case BaseboardPowerExt3 => Ext3(c.arg[0] != 0)
      case OtherCommand(_) => Reject
  }

  /** The time of an enable or disable command: arg32[0], plus the generation time in
      seconds when marked relative and a header is present. */
  function ScheduleTimeOf(c: Command, hdr: Option<Header>): uint32
  {
    if RelativeTime(c) && hdr.Some? then ToU32(Arg32(c.arg) + hdr.value.generationTime / TimeSync.US_PER_S)
    else Arg32(c.arg)
  }

  /** An absolute enable or disable is scheduled at arg32[0]; a relative one at that many
      seconds after the message was generated. */
  lemma ScheduleTimeMeaning(c: Command, hdr: Option<Header>)
    requires c.cmdType == BaseboardEnable || c.cmdType == BaseboardDisable
    ensures Decide(Some(c), hdr).Schedule?
    ensures var t := Decide(Some(c), hdr).entry.scheduledTime;
      && (!RelativeTime(c) || hdr.None? ==> t == Arg32(c.arg))
      && (RelativeTime(c) && hdr.Some? && Arg32(c.arg) + hdr.value.generationTime / TimeSync.US_PER_S < UINT32_LIMIT ==>
            t - Arg32(c.arg) == hdr.value.generationTime / TimeSync.US_PER_S)
  {
  }

  /** A disable carries no argument, an enable carries the little-endian arg[5..6]; a
      periodic period is the little-endian arg[2..3] in minutes, at the daytime arg[0]:arg[1]. */
  lemma CommandArguments(c: Command, hdr: Option<Header>)
    ensures c.cmdType == BaseboardDisable ==> Decide(Some(c), hdr).entry.arg == 0
    ensures c.cmdType == BaseboardEnable ==>
      var a := Decide(Some(c), hdr).entry.arg;
      a % 0x100 == c.arg[5] && a / 0x100 == c.arg[6]
    ensures c.cmdType == BaseboardEnablePeriodic ==>
      var d := Decide(Some(c), hdr);
      && d.period % 60 == 0 && d.period / 60 == c.arg[2] as int + 0x100 * (c.arg[3] as int)
      && d.hour == c.arg[0] && d.minute == c.arg[1]
  {
  }

  /** What process_command does to the configuration, the board and the pending list for
      decision d: nothing for a rejected command, one reset or EXT3 action, one list insert,
      or a new periodic slot followed by saving the configuration. */
  predicate CommandEffect(d: Decision, nextAtDaytime: (uint8, uint8) -> uint32,
                          c0: NvConfig, a0: seq<BoardAction>, q0: seq<ScheduledCmd>,
                          c1: NvConfig, a1: seq<BoardAction>, q1: seq<ScheduledCmd>)
  {
    match d
    case Reject => c1 == c0 && a1 == a0 && q1 == q0
    case ResetNode => c1 == c0 && a1 == a0 + [SystemReset] && q1 == q0
    case Schedule(e) => c1 == c0 && a1 == a0 && Sorted(q0) && q1 == ListInsert(q0, e).entries
    case SetPeriodic(period, h, m) =>
      && c1 == c0.(bbEn := Periodic(if period > 0 then nextAtDaytime(h, m) else 0, period))
      && a1 == a0 + [ConfigSaved(c1)] && q1 == q0
    case Ext3(on) => c1 == c0 && a1 == a0 + [if on then Ext3On else Ext3Off] && q1 == q0
  }

  /** DPP_MSG_LEN */
  function MsgLen(dpp: Dpp, h: Header): int
  {
    dpp.hdrLen + h.payloadLen + CRC_LEN
  }

  /** The checks of line 141-145. */
  predicate WellFormed(msg: Message, dpp: Dpp)
  {
    && !msg.header.minFormat
    && MsgLen(dpp, msg.header) <= dpp.pktLen
    && msg.header.payloadLen != 0
    && msg.crc == dpp.crc16(msg, MsgLen(dpp, msg.header) - CRC_LEN)
  }

  predicate AddressedToNode(h: Header, dpp: Dpp)
  {
    h.targetId == NODE_ID || h.targetId == dpp.broadcastId
  }

  datatype Route = Invalid | NotForUs | ToCommand | ToTimesync | UnknownType

  function RouteOf(msg: Option<Message>, dpp: Dpp): (r: Route)
    ensures r == Invalid <==> msg.None? || !WellFormed(msg.value, dpp)
    ensures r == NotForUs <==> msg.Some? && WellFormed(msg.value, dpp) && !AddressedToNode(msg.value.header, dpp)
    ensures r == ToCommand ==> msg.value.header.kind == CmdMsg
    ensures r == ToTimesync ==> msg.value.header.kind == TimesyncMsg
  {
    match msg
    case None => Invalid
    case Some(m) =>
      if !WellFormed(m, dpp) then Invalid
      else if !AddressedToNode(m.header, dpp) then NotForUs
      else if m.header.kind == CmdMsg then ToCommand
      else if m.header.kind == TimesyncMsg then ToTimesync
      else UnknownType
  }

  /** process_message reports success exactly for a well-formed command or timesync
      message addressed to the node or broadcast. */
  predicate Accepted(msg: Option<Message>, dpp: Dpp)
  {
    RouteOf(msg, dpp) == ToCommand || RouteOf(msg, dpp) == ToTimesync
  }

  lemma AcceptedMeaning(msg: Option<Message>, dpp: Dpp)
    ensures Accepted(msg, dpp) <==>
      && msg.Some? && WellFormed(msg.value, dpp) && AddressedToNode(msg.value.header, dpp)
      && (msg.value.header.kind == CmdMsg || msg.value.header.kind == TimesyncMsg)
  {
  }

  // ---------------------------------------------------------------------------------
  // The node's command state: the non-volatile config, the pending list and the board

  class CommandProcessor {
    var config: NvConfig
    var actions: seq<BoardAction>
    const pending: PendingList

    ghost predicate Valid()
      reads this, pending
    {
      pending.Valid()
    }

    constructor (cfg: NvConfig)
      ensures Valid() && fresh(pending)
      ensures config == cfg && actions == [] && pending.entries == []
    {
      config := cfg;
      actions := [];
      pending := new PendingList();
    }

    /** process_command; nextAtDaytime stands for rtc_get_next_timestamp_at_daytime(0, h, m, 0). */
    method ProcessCommand(cmd: Option<Command>, hdr: Option<Header>, nextAtDaytime: (uint8, uint8) -> uint32)
      returns (ok: bool)
      requires Valid()
      modifies this, pending
      ensures Valid()
      ensures ok <==> Decide(cmd, hdr) != Reject
      ensures CommandEffect(Decide(cmd, hdr), nextAtDaytime, old(config), old(actions), old(pending.entries),
                            config, actions, pending.entries)
    {
      if cmd.None? {
        return false;
      }
      var c := cmd.value;
      var cfgChanged := false;
      match c.cmdType {
        case DppReset =>
          actions := actions + [SystemReset];
        case Sx1262Reset =>
          actions := actions + [SystemReset];
        case BaseboardEnable =>
          var inserted := pending.Insert(ScheduledCmd(c.cmdType, 0x100 * (c.arg[6] as int) + c.arg[5] as int, ScheduleTimeOf(c, hdr)));
        case BaseboardDisable =>
          var inserted := pending.Insert(ScheduledCmd(c.cmdType, 0, ScheduleTimeOf(c, hdr)));
        case BaseboardEnablePeriodic =>
          var period := Arg16(c.arg, 1) * 60;
          if period > 0 {
            config := config.(bbEn := Periodic(nextAtDaytime(c.arg[0], c.arg[1]), period));
          } else {
            config := config.(bbEn := Periodic(0, period));
          }
          cfgChanged := true;
        case BaseboardPowerExt3 =>
          if c.arg[0] != 0 {
            actions := actions + [Ext3On];
          } else {
            actions := actions + [Ext3Off];
          }
        case OtherCommand(_) =>
          return false;
      }
      if cfgChanged {
        actions := actions + [ConfigSaved(config)];
      }
      return true;
    }

    /** process_message; the timestamp of a timesync message goes to set_time of ts. */
    method ProcessMessage(msg: Option<Message>, dpp: Dpp, nextAtDaytime: (uint8, uint8) -> uint32,
                          ts: TimeSync.TimeSyncEngine)
      returns (ok: bool)
      requires Valid()
      modifies this, pending, ts
      ensures Valid()
      ensures ok <==> Accepted(msg, dpp)
      ensures RouteOf(msg, dpp) == ToCommand ==>
        CommandEffect(Decide(Some(msg.value.cmd), Some(msg.value.header)), nextAtDaytime,
                      old(config), old(actions), old(pending.entries), config, actions, pending.entries)
      ensures RouteOf(msg, dpp) != ToCommand ==>
        config == old(config) && actions == old(actions) && pending.entries == old(pending.entries)
      ensures RouteOf(msg, dpp) == ToTimesync ==>
        ts.State() == TimeSync.OnSetTime(old(ts.State()), msg.value.timestamp)
      ensures RouteOf(msg, dpp) != ToTimesync ==> ts.State() == old(ts.State())
    {
      if msg.None? || !WellFormed(msg.value, dpp) {
        return false;
      }
      var m := msg.value;
      if m.header.targetId == NODE_ID || m.header.targetId == dpp.broadcastId {
        if m.header.kind == CmdMsg {
          var done := ProcessCommand(Some(m.cmd), Some(m.header), nextAtDaytime);
          return true;
        } else if m.header.kind == TimesyncMsg {
          ts.SetTime(m.timestamp);
          return true;
        }
      }
      return false;
    }

    /** schedule_command, resolving the time in seconds (see ResolveTime); nowUs is the
        value of get_time(0). */
    method ScheduleCommand(schedTime: uint32, cmdType: CommandType, arg: uint16, nowUs: uint64)
      returns (ok: bool)
      requires Valid()
      modifies pending
      ensures Valid()
      ensures var r := ListInsert(old(pending.entries), ScheduledCmd(cmdType, arg, ResolveTime(schedTime, nowUs)));
        ok == r.ok && pending.entries == r.entries
    {
      var tNow := CurrentSeconds(nowUs);
      var t := schedTime;
      if t < SECONDS_PER_DAY {
        t := ToU32(t + tNow);
      }
      ok := pending.Insert(ScheduledCmd(cmdType, arg, t));
    }

    /** process_scheduled_commands; nowUs is the value of get_time(0). */
    method ProcessScheduledCommands(nowUs: uint64)
      requires Valid()
      requires NoPeriodWrap(config.bbEn, CurrentSeconds(nowUs))
      modifies this, pending
      ensures Valid()
      ensures var curr := CurrentSeconds(nowUs);
        var k := DuePrefix(old(pending.entries), curr);
        && pending.entries == old(pending.entries)[k..]
        && config == old(config).(bbEn := PeriodicStep(old(config).bbEn, curr))
        && actions == old(actions) + ExecuteAll(old(pending.entries)[..k])
                                   + PeriodicActions(old(config).bbEn, curr)
    {
      var curr := CurrentSeconds(nowUs);
      RunDueCommands(curr);
      RunPeriodicEnable(curr);
    }

    /** The first half of process_scheduled_commands: execute and remove the due head run. */
    method RunDueCommands(curr: uint32)
      requires Valid()
      modifies this, pending
      ensures Valid()
      ensures var k := DuePrefix(old(pending.entries), curr);
        && pending.entries == old(pending.entries)[k..]
        && config == old(config)
        && actions == old(actions) + ExecuteAll(old(pending.entries)[..k])
    {
      ghost var q0 := pending.entries;
      ghost var done: seq<ScheduledCmd> := [];
      var next := pending.Head();
      while next.Some? && next.value.scheduledTime <= curr
        invariant pending.Valid()
        invariant next.None? <==> pending.entries == []
        invariant next.Some? ==> next.value == pending.entries[0]
        invariant q0 == done + pending.entries
        invariant |done| + DuePrefix(pending.entries, curr) == DuePrefix(q0, curr)
        invariant actions == old(actions) + ExecuteAll(done)
        invariant config == old(config)
        decreases |pending.entries|
      {
        var c := next.value;
        DrainStep(q0, done, pending.entries);
        DuePrefixStep(pending.entries, curr);
        ExecuteAppend(done, c);
        RunHead(c);
        done := done + [c];
        next := pending.Head();
      }
      DrainEnd(q0, done, pending.entries, curr);
    }

    /** One round of the drain loop: execute the head c, then remove it. */
    method RunHead(c: ScheduledCmd)
      requires Valid() && pending.entries != [] && c == pending.entries[0]
      modifies this, pending
      ensures Valid()
      ensures pending.entries == old(pending.entries)[1..]
      ensures config == old(config) && actions == old(actions) + Effects(c)
    {
      Execute(c);
      pending.RemoveHead();
    }

    /** The switch of process_scheduled_commands: one command's effect on the board. */
    method Execute(c: ScheduledCmd)
      modifies this
      ensures config == old(config) && actions == old(actions) + Effects(c)
    {
      match c.cmdType {
        case BaseboardEnable =>
          actions := actions + [BaseboardOn, BaseboardWake, WakeupModeSent(c.arg)];
        case BaseboardDisable =>
          actions := actions + [BaseboardOff];
        case _ =>
      }
    }

    /** The second half of process_scheduled_commands: the periodic enable and its catch-up. */
    method RunPeriodicEnable(curr: uint32)
      requires NoPeriodWrap(config.bbEn, curr)
      modifies this
      ensures config == old(config).(bbEn := PeriodicStep(old(config).bbEn, curr))
      ensures actions == old(actions) + PeriodicActions(old(config).bbEn, curr)
    {
      if 0 < config.bbEn.starttime <= curr {
        actions := actions + [BaseboardOn, BaseboardWake];
        while config.bbEn.period > 0 && config.bbEn.starttime < curr
          invariant config.bbEn.period == old(config).bbEn.period
          invariant old(config).bbEn.starttime <= config.bbEn.starttime
          invariant Advance(config.bbEn.starttime, config.bbEn.period, curr)
                 == Advance(old(config).bbEn.starttime, old(config).bbEn.period, curr)
          invariant config == old(config).(bbEn := config.bbEn)
          invariant actions == old(actions) + [BaseboardOn, BaseboardWake]
          decreases curr - config.bbEn.starttime
        {
          config := config.(bbEn := config.bbEn.(starttime := ToU32(config.bbEn.starttime + config.bbEn.period)));
        }
      }
    }
  }

  /** One turn of the drain loop moves the head from the pending run to the done run. */
  lemma DrainStep(q0: seq<ScheduledCmd>, done: seq<ScheduledCmd>, q: seq<ScheduledCmd>)
    requires q0 == done + q && q != []
    ensures q0 == (done + [q[0]]) + q[1..]
  {
    assert q == [q[0]] + q[1..];
  }

  lemma DuePrefixStep(q: seq<ScheduledCmd>, curr: int)
    requires q != [] && q[0].scheduledTime <= curr
    ensures DuePrefix(q, curr) == 1 + DuePrefix(q[1..], curr)
  {
  }

  lemma ExecuteAppend(done: seq<ScheduledCmd>, c: ScheduledCmd)
    ensures ExecuteAll(done + [c]) == ExecuteAll(done) + Effects(c)
  {
    ExecuteAllSplits(done, [c]);
    assert ExecuteAll([c]) == ExecuteAll([]) + Effects(c);
  }

  /** When the drain loop stops, the done run is exactly the due head run. */
  lemma DrainEnd(q0: seq<ScheduledCmd>, done: seq<ScheduledCmd>, q: seq<ScheduledCmd>, curr: int)
    requires q0 == done + q && (q == [] || q[0].scheduledTime > curr)
    requires |done| + DuePrefix(q, curr) == DuePrefix(q0, curr)
    ensures DuePrefix(q0, curr) == |done|
    ensures q0[..|done|] == done && q0[|done|..] == q
  {
  }

  /** After a call, no due command is left: the list is empty or its head lies in the
      future, and the commands still pending are the ones not yet due, in their order. */
  lemma NoDueCommandLeft(q: seq<ScheduledCmd>, curr: int)
    requires Sorted(q)
    ensures var rest := q[DuePrefix(q, curr)..];
      && (rest == [] || rest[0].scheduledTime > curr)
      && (forall c :: c in rest ==> c.scheduledTime > curr)
      && (forall c :: c in q && c.scheduledTime > curr ==> c in rest)
  {
    DueSplitIsExact(q, curr);
    var k := DuePrefix(q, curr);
    forall c | c in q && c.scheduledTime > curr
      ensures c in q[k..]
    {
      var i :| 0 <= i < |q| && q[i] == c;
      assert q[k..][i - k] == c;
    }
  }

  /** Every due command is executed once, in list order: executing a run split in two is
      executing the halves one after the other. */
  lemma {:induction false} ExecuteAllSplits(a: seq<ScheduledCmd>, b: seq<ScheduledCmd>)
    ensures ExecuteAll(a + b) == ExecuteAll(a) + ExecuteAll(b)
    decreases |b|
  {
    if b != [] {
      var b0 := b[..|b| - 1];
      assert (a + b)[..|a + b| - 1] == a + b0;
      ExecuteAllSplits(a, b0);
    } else {
      assert a + b == a;
    }
  }
}
