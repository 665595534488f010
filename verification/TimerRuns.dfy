/** Runs of the driver: any sequence of interrupts, ioctls and stores of open and close on a monotone
    clock, and what every reachable state keeps. */
module TimerRuns {
  import opened Machine
  import opened TimerModel
  import opened LoadArithmetic
  import opened EventGrid

  datatype Op =
    | IsrAt(now: int, armNow: int)
    | Ioctl(cmd: Command, tps: uint32, now: int, armNow: int)
    | MarkInstalled           // the two stores of rtss_open
    | MarkOpen
    | CloseStore(k: int)      // the k-th store of rtss_close

  /** `closing` stores of rtss_close have been done; 0 when no close is under way. */
  datatype World = World(drv: Driver, clock: int, closing: int)

  // Uptime plus the longest period stays below INT64_MAX.
  const HORIZON: int := INT64_MAX - MAX_DELTA - 1

  ghost predicate Timely(clock: int, op: Op)
  {
    op.IsrAt? || op.Ioctl? ==> clock <= op.now <= op.armNow <= HORIZON
  }

  /** The tick-based SET_PERIOD checks nothing: its value must not exceed what the countdown
      arithmetic can hold, and must not be 0 ns on a channel that is already active. */
  ghost predicate SoundPeriod(d: Driver, op: Op)
    requires WellSized(d)
  {
    op.Ioctl? && op.cmd.SetPeriod? && ValidChannel(op.cmd.channel) && op.tps > 0 ==>
      var ns := TicksToNs(op.cmd.ticks, op.tps);
      ns <= MAX_DELTA && (d.channels[op.cmd.channel].active ==> ns > 0)
  }

  /** A close does its stores in program order, and its caller makes no ioctl meanwhile. */
  ghost predicate InOrder(w: World, op: Op)
  {
    && (op.Ioctl? ==> w.closing == 0)
    && (op.CloseStore? ==> 0 <= op.k < STORES && op.k == w.closing)
  }

  ghost predicate Allowed(w: World, op: Op)
  {
    WellSized(w.drv) && Timely(w.clock, op) && SoundPeriod(w.drv, op) && InOrder(w, op)
  }

  function Step(w: World, op: Op): (r: World)
    requires WellSized(w.drv)
    ensures WellSized(r.drv)
  {
    match op
    case IsrAt(now, armNow) => w.(drv := Isr(w.drv, now, armNow), clock := armNow)
    case Ioctl(cmd, tps, now, armNow) => w.(drv := Control(w.drv, cmd, tps, now, armNow).0, clock := armNow)
    case MarkInstalled => w.(drv := w.drv.(isrInstalled := true))
    case MarkOpen => w.(drv := w.drv.(isOpen := true))
    case CloseStore(k) =>
      if 0 <= k < STORES then w.(drv := DoStore(w.drv, StoreAt(k)), closing := if k + 1 < STORES then k + 1 else 0)
        else w
  }

  function Run(w: World, ops: seq<Op>): (r: World)
    requires WellSized(w.drv)
    ensures WellSized(r.drv)
    decreases ops
  {
    if ops == [] then w else Run(Step(w, ops[0]), ops[1..])
  }

  ghost predicate AllowedRun(w: World, ops: seq<Op>)
    decreases ops
  {
    WellSized(w.drv) && (ops != [] ==> Allowed(w, ops[0]) && AllowedRun(Step(w, ops[0]), ops[1..]))
  }

  // ---- What every reachable state keeps ----

  /** `done` is how many of the stores of a close have been made so far that concern this channel or
      an earlier one, counted from the channel's own first; 0 or less: none of its own. */
  ghost predicate ChannelOk(c: Channel, clock: int, done: int)
  {
    && 0 <= c.period <= MAX_DELTA
    && (c.active ==> done <= 0 && c.period > 0 && 0 <= c.nextFire <= clock + MAX_DELTA)
    && (!c.active && (done <= 0 || done >= 3) ==> c.nextFire == INT64_MAX)
    && (done >= 2 ==> c.target == NONE)
  }

  ghost predicate ChannelsOk(chs: seq<Channel>, clock: int, closing: int)
  {
    |chs| == CHANNELS && forall i :: 0 <= i < CHANNELS ==> ChannelOk(chs[i], clock, closing - 3 * i)
  }

  ghost predicate SomeActive(chs: seq<Channel>)
  {
    exists i :: 0 <= i < |chs| && chs[i].active
  }

  /** The timer counts if some channel is active, and then never past the nearest expiry (or 10 ns);
      without an active channel it counts only while a close has yet to disable it. */
  ghost predicate Armed(chs: seq<Channel>, pt: Pt, clock: int, closing: int)
  {
    && (SomeActive(chs) ==> pt.enabled)
    && (pt.enabled ==> SomeActive(chs) || 0 < closing < STORES - 1)
    && (pt.enabled ==> pt.since <= clock && 1 <= pt.load <= UINT32_MAX)
    && (SomeActive(chs) ==> pt.since + 10 * pt.load <= Max(Nearest(chs), pt.since + 10))
  }

  ghost predicate Inv(w: World)
  {
    && WellSized(w.drv)
    && 0 <= w.clock <= HORIZON && 0 <= w.closing < STORES
    && ChannelsOk(w.drv.channels, w.clock, w.closing)
    && Armed(w.drv.channels, w.drv.pt, w.clock, w.closing)
    && SentInPast(w.drv.sent, w.clock)
  }

  ghost predicate Safe(w: World, op: Op)
    requires WellSized(w.drv)
  {
    match op
    case IsrAt(now, armNow) => IsrSafe(w.drv, now, armNow)
    case Ioctl(cmd, tps, now, armNow) => ControlSafe(w.drv, cmd, now, armNow)
    case _ => true
  }

  lemma RearmArms(chs: seq<Channel>, pt: Pt, armNow: int, closing: int)
    requires 0 <= armNow <= HORIZON && ChannelsOk(chs, armNow, closing)
    ensures ArmSafe(chs, armNow)
    ensures Armed(chs, Rearm(chs, pt, armNow), armNow, closing)
  {
    NearestIsMinimum(chs);
    var n := Nearest(chs);
    if n != INT64_MAX {
      LoadExactly(Max(1, n - armNow));
    }
  }

  lemma SameScheduleSameArming(a: seq<Channel>, b: seq<Channel>, pt: Pt, clock: int, closing: int)
    requires |a| == |b| && Armed(a, pt, clock, closing)
    requires forall i :: 0 <= i < |a| ==> a[i].active == b[i].active && a[i].nextFire == b[i].nextFire
    ensures Armed(b, pt, clock, closing)
  {
    NearestIsMinimum(a);
    NearestIsMinimum(b);
    if SomeActive(a) {
      var i :| 0 <= i < |a| && a[i].active;
      assert b[i].active;
    }
  }

  lemma IsrKeepsInv(w: World, now: int, armNow: int)
    requires Inv(w) && Allowed(w, IsrAt(now, armNow))
    ensures Inv(Step(w, IsrAt(now, armNow))) && IsrSafe(w.drv, now, armNow)
  {
    IsrEventsAt(w.drv.channels, now);
    RearmArms(IsrChannels(w.drv.channels, now), w.drv.pt, armNow, w.closing);
  }

  lemma StartKeepsInv(w: World, ch: int, tps: uint32, now: int, armNow: int)
    requires Inv(w) && Allowed(w, Ioctl(Start(ch), tps, now, armNow))
    ensures Inv(Step(w, Ioctl(Start(ch), tps, now, armNow))) && ControlSafe(w.drv, Start(ch), now, armNow)
  {
    if ValidChannel(ch) && w.drv.channels[ch].period != 0 {
      RearmArms(StartChannel(w.drv, ch, now, armNow).channels, w.drv.pt, armNow, 0);
    } else {
      SameScheduleSameArming(w.drv.channels, w.drv.channels, w.drv.pt, w.clock, 0);
    }
  }

  lemma StopKeepsInv(w: World, ch: int, tps: uint32, now: int, armNow: int)
    requires Inv(w) && Allowed(w, Ioctl(Stop(ch), tps, now, armNow))
    ensures Inv(Step(w, Ioctl(Stop(ch), tps, now, armNow))) && ControlSafe(w.drv, Stop(ch), now, armNow)
  {
    if ValidChannel(ch) {
      RearmArms(StopChannel(w.drv, ch, armNow).channels, w.drv.pt, armNow, 0);
    } else {
      SameScheduleSameArming(w.drv.channels, w.drv.channels, w.drv.pt, w.clock, 0);
    }
  }

  lemma ConfigKeepsInv(w: World, cmd: Command, tps: uint32, now: int, armNow: int)
    requires Inv(w) && Allowed(w, Ioctl(cmd, tps, now, armNow)) && !cmd.Start? && !cmd.Stop?
    ensures Inv(Step(w, Ioctl(cmd, tps, now, armNow))) && ControlSafe(w.drv, cmd, now, armNow)
  {
    if cmd.SetPeriod? && tps > 0 { TicksToNsFits(cmd.ticks, tps); }
    SameScheduleSameArming(w.drv.channels, Control(w.drv, cmd, tps, now, armNow).0.channels, w.drv.pt, w.clock, 0);
  }

  lemma ControlKeepsInv(w: World, cmd: Command, tps: uint32, now: int, armNow: int)
    requires Inv(w) && Allowed(w, Ioctl(cmd, tps, now, armNow))
    ensures Inv(Step(w, Ioctl(cmd, tps, now, armNow))) && ControlSafe(w.drv, cmd, now, armNow)
  {
    match cmd
    case Start(ch) => StartKeepsInv(w, ch, tps, now, armNow);
    case Stop(ch) => StopKeepsInv(w, ch, tps, now, armNow);
    case _ => ConfigKeepsInv(w, cmd, tps, now, armNow);
  }

  lemma StoreKeepsChannel(c: Channel, i: int, k: int, clock: int)
    requires ValidChannel(i) && 0 <= k < STORES - 2 && ChannelOk(c, clock, k - 3 * i)
    ensures ChannelOk(StoreOn(c, StoreAt(k), i), clock, k + 1 - 3 * i)
  {}

  lemma FewerActiveStillArmed(a: seq<Channel>, b: seq<Channel>, pt: Pt, clock: int, closing: int)
    requires |a| == |b| && Armed(a, pt, clock, closing) && 0 <= closing < STORES - 2
    requires forall i :: 0 <= i < |a| ==> b[i].active ==> a[i].active && a[i].nextFire == b[i].nextFire
    ensures Armed(b, pt, clock, closing + 1)
  {
    NearestIsMinimum(a);
    NearestIsMinimum(b);
    if SomeActive(b) {
      var i :| 0 <= i < |b| && b[i].active;
      assert a[i].active;
    }
  }

  /** One store of rtss_close, whatever interrupts came before it. */
  lemma StoreKeepsInv(w: World)
    requires Inv(w)
    ensures Inv(Step(w, CloseStore(w.closing)))
  {
    var k := w.closing;
    var d' := Step(w, CloseStore(k)).drv;
    if k < STORES - 2 {
      forall i | 0 <= i < CHANNELS
        ensures ChannelOk(d'.channels[i], w.clock, k + 1 - 3 * i)
        ensures d'.channels[i].active ==>
                  w.drv.channels[i].active && w.drv.channels[i].nextFire == d'.channels[i].nextFire
      {
        StoreKeepsChannel(w.drv.channels[i], i, k, w.clock);
      }
      FewerActiveStillArmed(w.drv.channels, d'.channels, w.drv.pt, w.clock, k);
    } else {
      assert d'.channels == w.drv.channels;
      forall i | 0 <= i < CHANNELS
        ensures ChannelOk(w.drv.channels[i], w.clock, k + 1 - 3 * i) && ChannelOk(w.drv.channels[i], w.clock, 0)
        ensures !w.drv.channels[i].active
      {
        assert ChannelOk(w.drv.channels[i], w.clock, k - 3 * i);
      }
    }
  }

  /** Every allowed operation keeps the invariant, ends, and overflows no 64-bit addition or
      multiplication (that is what `Safe` asks of the driver's methods). */
  lemma StepKeepsInv(w: World, op: Op)
    requires Inv(w) && Allowed(w, op)
    ensures Inv(Step(w, op)) && Safe(w, op)
  {
    match op
    case IsrAt(now, armNow) => IsrKeepsInv(w, now, armNow);
    case Ioctl(cmd, tps, now, armNow) => ControlKeepsInv(w, cmd, tps, now, armNow);
    case CloseStore(k) => StoreKeepsInv(w);
    case _ =>
  }

  lemma {:induction false} RunKeepsInv(w: World, ops: seq<Op>)
    requires Inv(w) && AllowedRun(w, ops)
    ensures Inv(Run(w, ops))
    decreases ops
  {
    if ops != [] {
      StepKeepsInv(w, ops[0]);
      RunKeepsInv(Step(w, ops[0]), ops[1..]);
    }
  }

  function Boot(): World { World(Init(), 0, 0) }

  lemma BootInv()
    ensures Inv(Boot())
  {
    NearestIsMinimum(Init().channels);
  }

  /** In every reachable state, also in the middle of a close, no active channel is left behind an idle
      or too-late timer: active implies enabled, and when a countdown lasts load + e ticks (e is 0 or
      1) it expires no later than 10 e ns after any active channel's expiry or after 10 ns.  Outside a
      close the timer is enabled iff a channel is active, and inactive channels have no expiry. */
  lemma ReachableStatesAreArmed(ops: seq<Op>, e: int)
    requires AllowedRun(Boot(), ops) && (e == 0 || e == 1)
    ensures var w := Run(Boot(), ops);
            var d := w.drv;
            && (w.closing == 0 ==> (d.pt.enabled <==> exists i :: 0 <= i < CHANNELS && d.channels[i].active))
            && forall i :: 0 <= i < CHANNELS ==>
                 if d.channels[i].active
                 then d.pt.enabled && d.channels[i].period > 0
                      && d.pt.since + 10 * (d.pt.load + e) <= Max(d.channels[i].nextFire, d.pt.since + 10) + 10 * e
                 else w.closing == 0 ==> d.channels[i].nextFire == INT64_MAX
  {
    BootInv();
    RunKeepsInv(Boot(), ops);
    var w := Run(Boot(), ops);
    NearestIsMinimum(w.drv.channels);
    forall i | 0 <= i < CHANNELS
      ensures ChannelOk(w.drv.channels[i], w.clock, w.closing - 3 * i)
    {
    }
  }
}
