/** Value-level model of the RTSS timer driver: the channel table, the private timer (PT) and the
    driver entry points as functions from a driver state to the next one.  The class in
    RtssTimerDriver.dfy performs the same operations in place and is proved equal to this model. */
module TimerModel {
  import opened Machine

  const CHANNELS: int := 8                        // RTSS_TIMER_MAX_CHANNELS
  const PERIPHCLK: int := 100_000_000             // PT_PERIPHCLK
  const NS_PER_SEC: int := 1_000_000_000
  const MIN_PERIOD_NS: int := 1000                // RTSS_TIMER_MIN_PERIOD_NS
  const MAX_PERIOD_NS: int := 4294967295 * 10     // RTSS_TIMER_MAX_PERIOD_NS

  type TaskId = nat
  const NONE: TaskId := 0                         // RTEMS_ID_NONE

  datatype Channel = Channel(active: bool, period: int, nextFire: int, target: TaskId)

  /** The countdown: `since` is the uptime at which it was last (re)started. */
  datatype Pt = Pt(enabled: bool, load: int, since: int)

  /** One rtems_event_send of the interrupt handler: at time `at`, for the grid point `due`. */
  datatype Event = Event(channel: int, task: TaskId, due: int, at: int)

  datatype Driver = Driver(
    isOpen: bool,
    isrInstalled: bool,
    channels: seq<Channel>,
    fireNs: seq<int>,
    pt: Pt,
    sent: seq<Event>)

  datatype Status = Successful | TooMany | InvalidAddress | InvalidNumber | NotDefined | InstallFailed

  datatype Command =
    | SetMode
    | SetPeriod(channel: int, ticks: uint32)
    | SetPeriodNs(channel: int, ns: int64)
    | Start(channel: int)
    | Stop(channel: int)
    | SetTask(channel: int, task: TaskId)
    | NullBuffer      // one of the five commands above, without its configuration structure
    | Unknown

  // ---- Countdown arithmetic ----

  function NsToPtLoad(ns: int): (load: uint32)
  {
    var raw := CDiv(ns * PERIPHCLK, NS_PER_SEC);
    if raw < 1 then 1 else if raw > UINT32_MAX then UINT32_MAX else raw
  }

  function ArmAbsolute(target: int, armNow: int): Pt
  {
    var delta := target - armNow;
    Pt(true, NsToPtLoad(if delta < 1 then 1 else delta), armNow)
  }

  /** The least next expiry of an active channel, or INT64_MAX. */
  function Nearest(chs: seq<Channel>): int
  {
    if chs == [] then INT64_MAX
    else
      var rest := Nearest(chs[..|chs| - 1]);
      var c := chs[|chs| - 1];
      if c.active && c.nextFire < rest then c.nextFire else rest
  }

  function Rearm(chs: seq<Channel>, pt: Pt, armNow: int): Pt
  {
    if Nearest(chs) == INT64_MAX then pt.(enabled := false) else ArmAbsolute(Nearest(chs), armNow)
  }

  // ---- The interrupt handler ----

  /** The inner loop of the handler.  With a period of 0 or less a due channel keeps the source in
      that loop for ever; the value given here for that case is never used by a method. */
  function Advance(next: int, period: int, now: int): (r: int)
    ensures next > now ==> r == next
    ensures next <= now && period > 0 ==> now < r <= now + period
    decreases if next <= now then now - next + 1 else 0
  {
    if next <= now && period > 0 then Advance(next + period, period, now) else next
  }

  predicate Due(c: Channel, now: int)
  {
    c.active && c.target != NONE && c.nextFire <= now
  }

  function IsrChannel(c: Channel, now: int): Channel
  {
    if Due(c, now) then c.(nextFire := Advance(c.nextFire, c.period, now)) else c
  }

  function IsrChannels(chs: seq<Channel>, now: int): (r: seq<Channel>)
    ensures |r| == |chs|
  {
    seq(|chs|, i requires 0 <= i < |chs| => IsrChannel(chs[i], now))
  }

  function IsrFireNs(chs: seq<Channel>, fire: seq<int>, now: int): (r: seq<int>)
    requires |fire| == |chs|
    ensures |r| == |fire|
  {
    seq(|fire|, i requires 0 <= i < |fire| => if Due(chs[i], now) then now else fire[i])
  }

  /** The events sent by the handler, in channel order. */
  function IsrEvents(chs: seq<Channel>, now: int): seq<Event>
  {
    if chs == [] then []
    else
      var n := |chs| - 1;
      var c := chs[n];
      IsrEvents(chs[..n], now) + if Due(c, now) then [Event(n, c.target, c.nextFire, now)] else []
  }

  ghost predicate WellSized(d: Driver)
  {
    |d.channels| == CHANNELS && |d.fireNs| == CHANNELS
  }

  function Isr(d: Driver, now: int, armNow: int): (r: Driver)
    requires WellSized(d)
    ensures WellSized(r)
  {
    var chs := IsrChannels(d.channels, now);
    d.(channels := chs,
       fireNs := IsrFireNs(d.channels, d.fireNs, now),
       sent := d.sent + IsrEvents(d.channels, now),
       pt := Rearm(chs, d.pt, armNow))
  }

  // ---- Driver entry points ----

  const CLEARED: Channel := Channel(false, 0, INT64_MAX, NONE)

  /** rtss_init; the PT is off at boot. */
  function Init(): (r: Driver)
    ensures WellSized(r)
  {
    Driver(false, false, seq(CHANNELS, _ => CLEARED), seq(CHANNELS, _ => 0), Pt(false, 0, 0), [])
  }

  function Open(d: Driver, installOk: bool): (Driver, Status)
  {
    if d.isOpen then (d, TooMany)
    else if !d.isrInstalled && !installOk then (d, InstallFailed)
    else (d.(isrInstalled := true, isOpen := true), Successful)
  }

  function Release(c: Channel): Channel
  {
    c.(active := false, target := NONE, nextFire := INT64_MAX)
  }

  function Close(d: Driver): (r: Driver)
    requires WellSized(d)
    ensures WellSized(r)
  {
    d.(channels := seq(CHANNELS, i requires 0 <= i < CHANNELS => Release(d.channels[i])),
       pt := d.pt.(enabled := false),
       isOpen := false)
  }

  // rtss_close runs with interrupts enabled, so its stores matter one by one.
  datatype Store = ClearActive(i: int) | ClearTarget(i: int) | ClearNext(i: int) | DisablePt | ClearOpen

  const STORES: int := 3 * CHANNELS + 2

  /** The k-th store of rtss_close in program order. */
  function StoreAt(k: int): Store
    requires 0 <= k < STORES
  {
    if k == STORES - 1 then ClearOpen
    else if k == STORES - 2 then DisablePt
    else if k % 3 == 0 then ClearActive(k / 3)
    else if k % 3 == 1 then ClearTarget(k / 3)
    else ClearNext(k / 3)
  }

  function StoreOn(c: Channel, s: Store, i: int): Channel
  {
    match s
    case ClearActive(j) => if i == j then c.(active := false) else c
    case ClearTarget(j) => if i == j then c.(target := NONE) else c
    case ClearNext(j) => if i == j then c.(nextFire := INT64_MAX) else c
    case _ => c
  }

  function DoStore(d: Driver, s: Store): (r: Driver)
    requires WellSized(d)
    ensures WellSized(r)
  {
    d.(channels := seq(CHANNELS, i requires 0 <= i < CHANNELS => StoreOn(d.channels[i], s, i)),
       pt := if s.DisablePt? then d.pt.(enabled := false) else d.pt,
       isOpen := !s.ClearOpen? && d.isOpen)
  }

  function TicksToNs(ticks: uint32, tps: uint32): int
    requires tps > 0
  {
    CDiv(ticks * NS_PER_SEC, tps)
  }

  predicate ValidChannel(ch: int) { 0 <= ch < CHANNELS }

  function UpdateChannel(d: Driver, ch: int, c: Channel): (r: Driver)
    requires WellSized(d) && ValidChannel(ch)
    ensures WellSized(r)
  {
    d.(channels := d.channels[ch := c])
  }

  function StartChannel(d: Driver, ch: int, now: int, armNow: int): (r: Driver)
    requires WellSized(d) && ValidChannel(ch)
    ensures WellSized(r)
  {
    var c := d.channels[ch];
    var d1 := UpdateChannel(d, ch, c.(active := true, nextFire := now + c.period));
    d1.(pt := Rearm(d1.channels, d1.pt, armNow))
  }

  function StopChannel(d: Driver, ch: int, armNow: int): (r: Driver)
    requires WellSized(d) && ValidChannel(ch)
    ensures WellSized(r)
  {
    var d1 := UpdateChannel(d, ch, d.channels[ch].(active := false, nextFire := INT64_MAX));
    d1.(pt := Rearm(d1.channels, d1.pt, armNow))
  }

  /** rtss_control.  `now` and `armNow` are the two clock readings of START; STOP takes only the second. */
  function Control(d: Driver, cmd: Command, tps: uint32, now: int, armNow: int): (r: (Driver, Status))
    requires WellSized(d)
    ensures WellSized(r.0)
  {
    match cmd
    case SetMode => (d, Successful)
    case NullBuffer => (d, InvalidAddress)
    case Unknown => (d, NotDefined)
    case SetPeriod(ch, ticks) =>
      if !ValidChannel(ch) then (d, InvalidNumber)
      else if tps == 0 then (d, NotDefined)
      else (UpdateChannel(d, ch, d.channels[ch].(period := TicksToNs(ticks, tps))), Successful)
    case SetPeriodNs(ch, ns) =>
      if !ValidChannel(ch) || ns < MIN_PERIOD_NS || ns > MAX_PERIOD_NS then (d, InvalidNumber)
      else (UpdateChannel(d, ch, d.channels[ch].(period := ns)), Successful)
    case Start(ch) =>
      if !ValidChannel(ch) then (d, InvalidNumber)
      else if d.channels[ch].period == 0 then (d, NotDefined)
      else (StartChannel(d, ch, now, armNow), Successful)
    case Stop(ch) =>
      if !ValidChannel(ch) then (d, InvalidNumber)
      else (StopChannel(d, ch, armNow), Successful)
    case SetTask(ch, task) =>
      if !ValidChannel(ch) then (d, InvalidNumber)
      else (UpdateChannel(d, ch, d.channels[ch].(target := task)), Successful)
  }

  // ---- What C asks of the callers: loops that end, int64 arithmetic that does not overflow ----

  ghost predicate ArmSafe(chs: seq<Channel>, armNow: int)
  {
    Nearest(chs) != INT64_MAX ==>
        -INT64_MAX <= Nearest(chs) - armNow && (Nearest(chs) - armNow) * PERIPHCLK <= INT64_MAX
  }

  ghost predicate IsrSafe(d: Driver, now: int, armNow: int)
  {
    && (forall i :: 0 <= i < |d.channels| && Due(d.channels[i], now) ==>
          d.channels[i].period > 0 && now + d.channels[i].period <= INT64_MAX)
    && ArmSafe(IsrChannels(d.channels, now), armNow)
  }

  ghost predicate ControlSafe(d: Driver, cmd: Command, now: int, armNow: int)
    requires WellSized(d)
  {
    match cmd
    case Start(ch) =>
      ValidChannel(ch) && d.channels[ch].period != 0 ==>
        && -INT64_MAX <= now + d.channels[ch].period <= INT64_MAX
        && ArmSafe(StartChannel(d, ch, now, armNow).channels, armNow)
    case Stop(ch) =>
      ValidChannel(ch) ==> ArmSafe(StopChannel(d, ch, armNow).channels, armNow)
    case _ => true
  }

  // ---- Facts about the definitions above ----

  /** The driver at boot: closed, without handler, all channels inactive and without a period, so that
      START is refused on each until it is given one. */
  lemma BootState(ch: int, tps: uint32, now: int, armNow: int)
    ensures var d := Init();
            && !d.isOpen && !d.isrInstalled && !d.pt.enabled && d.sent == []
            && (forall i :: 0 <= i < 8 ==> d.channels[i] == Channel(false, 0, 0x7FFF_FFFF_FFFF_FFFF, 0))
            && (forall i :: 0 <= i < 8 ==> d.fireNs[i] == 0)
            && Control(d, Start(ch), tps, now, armNow) == (d, if 0 <= ch < 8 then NotDefined else InvalidNumber)
  {}

  /** What an interrupt does to each channel: an active one with a target task whose expiry is reached
      moves its expiry into (now, now + period] and is stamped; nothing else about any channel, and
      nothing about the device, changes. */
  lemma IsrEffect(d: Driver, now: int, armNow: int, i: int)
    requires WellSized(d) && 0 <= i < 8
    ensures var d' := Isr(d, now, armNow);
            var c, c' := d.channels[i], d'.channels[i];
            && d'.isOpen == d.isOpen && d'.isrInstalled == d.isrInstalled
            && c'.active == c.active && c'.period == c.period && c'.target == c.target
            && (if c.active && c.target != 0 && c.nextFire <= now
                then d'.fireNs[i] == now && (c.period > 0 ==> now < c'.nextFire <= now + c.period)
                else d'.fireNs[i] == d.fireNs[i] && c'.nextFire == c.nextFire)
  {}

  /** What a close leaves as it was, besides releasing every channel. */
  lemma CloseEffect(d: Driver, i: int)
    requires WellSized(d) && 0 <= i < 8
    ensures var d' := Close(d);
            && !d'.isOpen && !d'.pt.enabled && d'.isrInstalled == d.isrInstalled
            && d'.fireNs == d.fireNs && d'.sent == d.sent
            && d'.channels[i] == Channel(false, d.channels[i].period, 0x7FFF_FFFF_FFFF_FFFF, 0)
  {}

  /** rtss_open succeeds exactly when the device is closed and the handler is or can be installed; then the
      device is open and the handler installed, and nothing else has changed.  Otherwise nothing has;
      TOO_MANY means that it was open. */
  lemma OpenResult(d: Driver, installOk: bool)
    ensures var (d', status) := Open(d, installOk);
            && (status == Successful <==> !d.isOpen && (d.isrInstalled || installOk))
            && (status == TooMany <==> d.isOpen)
            && (if status == Successful
                then d'.isOpen && d'.isrInstalled && d'.channels == d.channels && d'.fireNs == d.fireNs
                     && d'.pt == d.pt && d'.sent == d.sent
                else d' == d)
  {}

  /** What each status of rtss_control means, whatever the command: SUCCESSFUL is the only one that may
      change the driver, and SET_MODE never does. */
  lemma ControlStatus(d: Driver, cmd: Command, tps: uint32, now: int, armNow: int)
    requires WellSized(d)
    ensures var (d', status) := Control(d, cmd, tps, now, armNow);
            var channelOk := cmd.SetMode? || cmd.NullBuffer? || cmd.Unknown? || 0 <= cmd.channel <= 7;
            var periodOk := cmd.SetPeriodNs? ==> 1000 <= cmd.ns <= 42_949_672_950;
            && (status == InvalidAddress <==> cmd.NullBuffer?)
            && (status == InvalidNumber <==> !channelOk || !periodOk)
            && (status == NotDefined <==>
                  || cmd.Unknown?
                  || (cmd.SetPeriod? && channelOk && tps == 0)
                  || (cmd.Start? && channelOk && d.channels[cmd.channel].period == 0))
            && status != TooMany && status != InstallFailed
            && (status != Successful || cmd.SetMode? ==> d' == d)
            && (cmd.SetMode? ==> status == Successful)
  {}

  /** What a successful command changes: one field of one channel, or the schedule of one channel and
      the countdown. */
  lemma ControlEffect(d: Driver, cmd: Command, tps: uint32, now: int, armNow: int)
    requires WellSized(d) && !cmd.SetMode? && Control(d, cmd, tps, now, armNow).1 == Successful
    ensures var d' := Control(d, cmd, tps, now, armNow).0;
            var c, c' := d.channels[cmd.channel], d'.channels[cmd.channel];
            && d'.isOpen == d.isOpen && d'.isrInstalled == d.isrInstalled && d'.fireNs == d.fireNs && d'.sent == d.sent
            && (forall i :: 0 <= i < CHANNELS && i != cmd.channel ==> d'.channels[i] == d.channels[i])
            && (!cmd.Start? && !cmd.Stop? ==> d'.pt == d.pt && c'.active == c.active && c'.nextFire == c.nextFire)
            && (cmd.SetTask? ==> c'.target == cmd.task && c'.period == c.period)
            && (cmd.SetPeriodNs? ==> c'.period == cmd.ns && c'.target == c.target)
            && (cmd.SetPeriod? ==>
                 c'.target == c.target && c'.period * tps <= cmd.ticks * NS_PER_SEC < (c'.period + 1) * tps)
            && (cmd.Start? || cmd.Stop? ==> c'.period == c.period && c'.target == c.target)
            && (cmd.Start? ==> c'.active && c'.nextFire == now + c.period)
            && (cmd.Stop? ==> !c'.active && c'.nextFire == INT64_MAX)
  {
    if cmd.SetPeriod? { DivBounds(cmd.ticks * NS_PER_SEC, tps); }
  }

  /** `Nearest` really is the minimum over the active channels. */
  lemma {:induction false} NearestIsMinimum(chs: seq<Channel>)
    ensures Nearest(chs) <= INT64_MAX
    ensures forall i :: 0 <= i < |chs| && chs[i].active ==> Nearest(chs) <= chs[i].nextFire
    ensures Nearest(chs) < INT64_MAX ==>
              exists i :: 0 <= i < |chs| && chs[i].active && chs[i].nextFire == Nearest(chs)
  {
    if chs != [] {
      var n := |chs| - 1;
      NearestIsMinimum(chs[..n]);
      assert chs == chs[..n] + [chs[n]];
      if Nearest(chs[..n]) < INT64_MAX {
        var i :| 0 <= i < n && chs[..n][i].active && chs[..n][i].nextFire == Nearest(chs[..n]);
        assert chs[i].active;
      }
    }
  }

  /** The inner loop lands on the first point of the channel's grid after `now`: repeated addition
      equals the closed form, so lateness never accumulates. */
  lemma {:induction false} AdvanceClosedForm(next: int, period: int, now: int)
    requires period > 0 && next <= now
    ensures Advance(next, period, now) == next + ((now - next) / period + 1) * period
    decreases now - next
  {
    var q := (now - next) / period;
    DivShift(now - next, period, -1);
    if next + period <= now {
      AdvanceClosedForm(next + period, period, now);
      assert (q - 1 + 1) * period + period == (q + 1) * period;
    } else {
      DivUnique(now - next, period, 0);
    }
  }

  /** The inner loop of the handler ends exactly when the period is positive: whatever the number
      n of additions, a due channel whose period is 0 or negative is still due. */
  lemma InnerLoopEndsIff(next: int, period: int, now: int)
    requires next <= now
    ensures (exists n: nat :: next + n * period > now) <==> period > 0
  {
    if period > 0 {
      var n := now - next + 1;
      assert n * period >= n by { MulMonotone(1, period, n); assert n * period == period * n; }
      assert next + n * period > now;
    } else {
      forall n: nat
        ensures !(next + n * period > now)
      {
        MulMonotone(period, 0, n);
        assert n * period == period * n;
      }
    }
  }
}
