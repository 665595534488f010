/** A delay longer than the 32-bit load register is counted down in several legs.  Each leg re-arms
    the timer for the rest; this module bounds their number. */
module Countdown {
  import opened Machine
  import opened TimerModel
  import opened LoadArithmetic
  import opened TimerRuns
  import opened EventGrid
  import opened ChannelRuns

  const FULL_LEG: int := 10 * UINT32_MAX      // ns counted by the largest load value

  /** A countdown of `load` lasts load + e ticks of 10 ns (e is 0 or 1, a property of the timer). */
  function Expiry(pt: Pt, e: int): int
  {
    pt.since + 10 * (pt.load + e)
  }

  /** One leg: the handler entered at `now`, its re-arming clock reading at `armNow`. */
  datatype Leg = Leg(now: int, armNow: int)

  function AfterLegs(d: Driver, legs: seq<Leg>): (r: Driver)
    requires WellSized(d)
    ensures WellSized(r)
    decreases legs
  {
    if legs == [] then d else AfterLegs(Isr(d, legs[0].now, legs[0].armNow), legs[1..])
  }

  /** Each interrupt comes at or after the armed expiry. */
  ghost predicate Follow(d: Driver, legs: seq<Leg>, e: int)
    requires WellSized(d)
    decreases legs
  {
    legs != [] ==>
      && Expiry(d.pt, e) <= legs[0].now <= legs[0].armNow
      && Follow(Isr(d, legs[0].now, legs[0].armNow), legs[1..], e)
  }

  /** The timer was armed for channel c, which has the nearest expiry of the active channels. */
  ghost predicate CountingFor(d: Driver, c: int, target: int)
  {
    && WellSized(d) && ValidChannel(c)
    && d.channels[c].active && d.channels[c].target != NONE && d.channels[c].period > 0
    && d.channels[c].nextFire == target == Nearest(d.channels) < INT64_MAX
    && d.pt == ArmAbsolute(target, d.pt.since)
    && target - d.pt.since <= MAX_DELTA
  }

  /** Legs still needed when r nanoseconds are left. */
  function LegsNeeded(r: int): (n: nat)
    ensures n >= 1
    decreases if r < 0 then 0 else r
  {
    if r <= 10 then 1 else if r < FULL_LEG + 10 then 2 else 1 + LegsNeeded(r - FULL_LEG)
  }

  lemma {:induction false} LegsNeededBound(r: int)
    requires r >= 0
    ensures LegsNeeded(r) <= r / FULL_LEG + 2
    decreases r
  {
    if r >= FULL_LEG + 10 { LegsNeededBound(r - FULL_LEG); }
  }

  lemma {:induction false} LegsNeededMonotone(a: int, b: int)
    requires a <= b
    ensures LegsNeeded(a) <= LegsNeeded(b)
    decreases if b < 0 then 0 else b
  {
    if b >= FULL_LEG + 10 { LegsNeededMonotone(a - FULL_LEG, b - FULL_LEG); }
  }

  /** One leg that ends before the target changes no channel, sends nothing, takes at least 10 ns
      and leaves fewer legs to go. */
  lemma EarlyLeg(d: Driver, leg: Leg, e: int, c: int, target: int)
    requires CountingFor(d, c, target) && (e == 0 || e == 1)
    requires Expiry(d.pt, e) <= leg.now <= leg.armNow && leg.now < target
    ensures var d' := Isr(d, leg.now, leg.armNow);
            && CountingFor(d', c, target)
            && d'.channels == d.channels && d'.sent == d.sent
            && leg.now >= d.pt.since + 10
            && LegsNeeded(target - d'.pt.since) < LegsNeeded(target - d.pt.since)
  {
    var d' := Isr(d, leg.now, leg.armNow);
    NearestIsMinimum(d.channels);
    assert IsrChannels(d.channels, leg.now) == d.channels;
    NoEventsWhenNoneDue(d.channels, leg.now);
    LoadExactly(Max(1, target - d.pt.since));
    var r := target - d.pt.since;
    if r >= FULL_LEG + 10 {
      LegsNeededMonotone(target - leg.armNow, r - FULL_LEG);
    } else {
      LegsNeededMonotone(target - leg.armNow, 10);
    }
  }

  lemma {:induction false} NoEventsWhenNoneDue(chs: seq<Channel>, now: int)
    requires forall i :: 0 <= i < |chs| ==> !Due(chs[i], now)
    ensures IsrEvents(chs, now) == []
  {
    if chs != [] { NoEventsWhenNoneDue(chs[..|chs| - 1], now); }
  }

  /** The leg that serves the target is `legs[i]`: every earlier leg ended before the target and
      sent nothing, and this one sends channel c exactly the event due.  Other channels may be due at
      the same interrupt. */
  ghost predicate ServedAt(d: Driver, legs: seq<Leg>, c: int, target: int, i: int)
    requires WellSized(d) && ValidChannel(c)
  {
    && 0 <= i < |legs|
    && target <= legs[i].now
    && AfterLegs(d, legs[..i + 1]).sent == d.sent + IsrEvents(d.channels, legs[i].now)
    && EventsOf(IsrEvents(d.channels, legs[i].now), c) == [Event(c, d.channels[c].target, target, legs[i].now)]
    && forall j :: 0 <= j < i ==>
         && legs[j].now < target
         && AfterLegs(d, legs[..j + 1]).sent == d.sent
         && AfterLegs(d, legs[..j + 1]).channels == d.channels
  }

  lemma LegsShift(d: Driver, legs: seq<Leg>, j: int)
    requires WellSized(d) && 1 <= j < |legs|
    ensures AfterLegs(d, legs[..j + 1]) == AfterLegs(Isr(d, legs[0].now, legs[0].armNow), legs[1..][..j])
  {
    assert legs[..j + 1][1..] == legs[1..][..j];
  }

  lemma OneLeg(d: Driver, legs: seq<Leg>)
    requires WellSized(d) && legs != []
    ensures AfterLegs(d, legs[..1]) == Isr(d, legs[0].now, legs[0].armNow)
  {
    assert legs[..1] == [legs[0]] && legs[..1][1..] == [];
  }

  lemma ServedShift(d: Driver, legs: seq<Leg>, c: int, target: int, i: int)
    requires WellSized(d) && ValidChannel(c) && legs != [] && legs[0].now < target
    requires var d' := Isr(d, legs[0].now, legs[0].armNow);
             d'.sent == d.sent && d'.channels == d.channels && ServedAt(d', legs[1..], c, target, i)
    ensures ServedAt(d, legs, c, target, i + 1)
  {
    var d' := Isr(d, legs[0].now, legs[0].armNow);
    OneLeg(d, legs);
    forall j | 1 <= j < |legs|
      ensures AfterLegs(d, legs[..j + 1]) == AfterLegs(d', legs[1..][..j]) && legs[j] == legs[1..][j - 1]
    {
      LegsShift(d, legs, j);
    }
    assert legs[i + 1] == legs[1..][i];
    forall j | 0 <= j < i + 1
      ensures legs[j].now < target
      ensures AfterLegs(d, legs[..j + 1]).sent == d.sent
      ensures AfterLegs(d, legs[..j + 1]).channels == d.channels
    {
      if j > 0 {
        var k := j - 1;
        assert legs[1..][k].now < target && AfterLegs(d', legs[1..][..k + 1]).sent == d'.sent;
        assert AfterLegs(d', legs[1..][..k + 1]).channels == d'.channels;
        LegsShift(d, legs, j);
      }
    }
  }

  lemma {:induction false} TargetServed(d: Driver, legs: seq<Leg>, e: int, c: int, target: int)
    requires CountingFor(d, c, target) && (e == 0 || e == 1) && Follow(d, legs, e)
    requires |legs| >= LegsNeeded(target - d.pt.since)
    ensures exists i :: i < LegsNeeded(target - d.pt.since) && ServedAt(d, legs, c, target, i)
    decreases legs
  {
    var leg := legs[0];
    if target <= leg.now {
      EventsOfOneIsr(d.channels, leg.now, c);
      OneLeg(d, legs);
      assert ServedAt(d, legs, c, target, 0);
    } else {
      var d' := Isr(d, leg.now, leg.armNow);
      EarlyLeg(d, leg, e, c, target);
      TargetServed(d', legs[1..], e, c, target);
      var i :| i < LegsNeeded(target - d'.pt.since) && ServedAt(d', legs[1..], c, target, i);
      ServedShift(d, legs, c, target, i);
    }
  }

  /** A target at distance r is served within floor(r / (10 (2^32 - 1))) + 2 legs. */
  lemma MultiLegProgress(d: Driver, legs: seq<Leg>, e: int, c: int, target: int)
    requires CountingFor(d, c, target) && (e == 0 || e == 1) && Follow(d, legs, e)
    requires d.pt.since <= target && |legs| >= (target - d.pt.since) / FULL_LEG + 2
    ensures exists i :: i < (target - d.pt.since) / FULL_LEG + 2 && ServedAt(d, legs, c, target, i)
  {
    LegsNeededBound(target - d.pt.since);
    TargetServed(d, legs, e, c, target);
  }

  /** The operations that end in rearm_pt: an interrupt, a STOP, a START of a channel with a period. */
  ghost predicate Rearms(w: World, op: Op)
  {
    || op.IsrAt?
    || (op.Ioctl? && op.cmd.Stop? && ValidChannel(op.cmd.channel))
    || (op.Ioctl? && op.cmd.Start? && Starts(w, op, op.cmd.channel))
  }

  lemma RearmedCounts(w: World, op: Op, c: int)
    requires Inv(w) && Allowed(w, op) && Rearms(w, op)
    requires var d := Step(w, op).drv;
             && ValidChannel(c) && d.channels[c].active && d.channels[c].target != NONE
             && d.channels[c].nextFire == Nearest(d.channels)
    ensures var d := Step(w, op).drv;
            CountingFor(d, c, d.channels[c].nextFire) && d.pt.since == op.armNow
  {
    StepKeepsInv(w, op);
    var w' := Step(w, op);
    assert ChannelOk(w'.drv.channels[c], op.armNow, w'.closing - 3 * c);
  }

  /** The same from any reachable state: once an operation has re-armed the timer, the channel with the
      nearest expiry is served within that many legs. */
  lemma NearestIsServed(w: World, op: Op, legs: seq<Leg>, e: int, c: int)
    requires Inv(w) && Allowed(w, op) && Rearms(w, op)
    requires var d := Step(w, op).drv;
             && ValidChannel(c) && d.channels[c].active && d.channels[c].target != NONE
             && d.channels[c].nextFire == Nearest(d.channels)
             && (e == 0 || e == 1) && Follow(d, legs, e)
             && |legs| >= Max(0, d.channels[c].nextFire - op.armNow) / FULL_LEG + 2
    ensures var d := Step(w, op).drv;
            var target := d.channels[c].nextFire;
            exists i :: i < Max(0, target - op.armNow) / FULL_LEG + 2 && ServedAt(d, legs, c, target, i)
  {
    RearmedCounts(w, op, c);
    var d := Step(w, op).drv;
    var r := d.channels[c].nextFire - op.armNow;
    LegsNeededMonotone(r, Max(0, r));
    LegsNeededBound(Max(0, r));
    TargetServed(d, legs, e, c, d.channels[c].nextFire);
  }

  // ---- Every channel, over any run ----

  function Interrupts(ops: seq<Op>): nat
  {
    if ops == [] then 0 else (if ops[0].IsrAt? then 1 else 0) + Interrupts(ops[1..])
  }

  /** Each interrupt of the run comes at or after the expiry armed at the time. */
  ghost predicate AfterExpiry(w: World, ops: seq<Op>, e: int)
    requires WellSized(w.drv)
    decreases ops
  {
    ops != [] ==>
      && (ops[0].IsrAt? ==> Expiry(w.drv.pt, e) <= ops[0].now)
      && AfterExpiry(Step(w, ops[0]), ops[1..], e)
  }

  /** A reachable state in which channel c waits for `target`. */
  ghost predicate Waiting(w: World, c: int, target: int)
  {
    && Inv(w) && ValidChannel(c)
    && w.drv.channels[c].active && w.drv.channels[c].target != NONE && w.drv.channels[c].nextFire == target
  }

  /** The i-th operation is the first interrupt to reach the target, and sends channel c its one event. */
  ghost predicate ServedBy(w: World, ops: seq<Op>, c: int, target: int, i: int)
    requires WellSized(w.drv) && ValidChannel(c)
  {
    && 0 <= i < |ops| && ops[i].IsrAt? && target <= ops[i].now
    && (forall j :: 0 <= j < i && ops[j].IsrAt? ==> ops[j].now < target)
    && EventsOf(Run(w, ops[..i + 1]).drv.sent, c) ==
       EventsOf(w.drv.sent, c) + [Event(c, w.drv.channels[c].target, target, ops[i].now)]
  }

  /** The expiry armed for a waiting channel. */
  lemma WaitingIsArmed(w: World, c: int, target: int)
    requires Waiting(w, c, target)
    ensures target < INT64_MAX && w.drv.pt.enabled && w.drv.pt.since <= w.clock && w.drv.pt.load >= 1
    ensures w.drv.pt.since + 10 * w.drv.pt.load <= Max(target, w.drv.pt.since + 10)
  {
    assert ChannelOk(w.drv.channels[c], w.clock, w.closing - 3 * c);
    NearestIsMinimum(w.drv.channels);
  }

  /** START and STOP restart the countdown, at their second clock reading. */
  predicate Restarts(op: Op) { op.Ioctl? && (op.cmd.Start? || op.cmd.Stop?) }

  lemma EarlyIsr(w: World, op: Op, c: int, target: int)
    requires Waiting(w, c, target) && Allowed(w, op) && op.IsrAt? && op.now < target
    ensures var w' := Step(w, op);
            && Waiting(w', c, target) && w'.drv.channels[c] == w.drv.channels[c]
            && EventsOf(w'.drv.sent, c) == EventsOf(w.drv.sent, c)
            && w'.drv.pt.since == op.armNow
  {
    StepKeepsInv(w, op);
    EventsOfConcat(w.drv.sent, IsrEvents(w.drv.channels, op.now), c);
    EventsOfOneIsr(w.drv.channels, op.now, c);
    var d' := Step(w, op).drv;
    assert d'.channels[c] == w.drv.channels[c];
    WaitingIsArmed(Step(w, op), c, target);
    NearestIsMinimum(d'.channels);
  }

  lemma OtherStep(w: World, op: Op, c: int, target: int)
    requires Waiting(w, c, target) && Allowed(w, op) && HandsOff(op, c) && !op.IsrAt?
    ensures var w' := Step(w, op);
            && Waiting(w', c, target) && w'.drv.channels[c] == w.drv.channels[c]
            && w'.drv.sent == w.drv.sent
            && (w'.drv.pt.since == w.drv.pt.since || (Restarts(op) && w'.drv.pt.since == op.armNow >= w.drv.pt.since))
  {
    StepKeepsInv(w, op);
    WaitingIsArmed(w, c, target);
    assert Step(w, op).drv.channels[c] == w.drv.channels[c];
    NearestIsMinimum(Step(w, op).drv.channels);
    WaitingIsArmed(Step(w, op), c, target);
  }

  lemma ServedAtOnce(w: World, ops: seq<Op>, c: int, target: int)
    requires Waiting(w, c, target) && ops != [] && ops[0].IsrAt? && target <= ops[0].now
    ensures ServedBy(w, ops, c, target, 0)
  {
    assert ops[..1][0] == ops[0] && ops[..1][1..] == [];
    assert Run(w, ops[..1]) == Step(w, ops[0]);
    EventsOfConcat(w.drv.sent, IsrEvents(w.drv.channels, ops[0].now), c);
    EventsOfOneIsr(w.drv.channels, ops[0].now, c);
  }

  lemma PrefixShift(w: World, ops: seq<Op>, i: nat)
    requires WellSized(w.drv) && i < |ops|
    ensures Run(w, ops[..i + 1]) == Run(Step(w, ops[0]), ops[1..][..i])
    ensures Interrupts(ops[..i + 1]) == (if ops[0].IsrAt? then 1 else 0) + Interrupts(ops[1..][..i])
  {
    assert ops[..i + 1][0] == ops[0] && ops[..i + 1][1..] == ops[1..][..i];
  }

  lemma ServedLater(w: World, ops: seq<Op>, c: int, target: int, i: int)
    requires WellSized(w.drv) && ValidChannel(c) && ops != [] && (ops[0].IsrAt? ==> ops[0].now < target)
    requires var w' := Step(w, ops[0]);
             && EventsOf(w'.drv.sent, c) == EventsOf(w.drv.sent, c) && w'.drv.channels[c] == w.drv.channels[c]
             && ServedBy(w', ops[1..], c, target, i)
    ensures ServedBy(w, ops, c, target, i + 1)
  {
    assert ops[i + 1] == ops[1..][i];
    PrefixShift(w, ops, i + 1);
    forall j | 0 <= j < i + 1 && ops[j].IsrAt?
      ensures ops[j].now < target
    {
      if j > 0 { assert ops[j] == ops[1..][j - 1]; }
    }
  }

  /** Interrupts that may still pass before channel c is served: each takes at least 10 ns. */
  function Left(w: World, target: int): nat
  {
    Max(0, target - w.drv.pt.since) / 10
  }

  lemma {:induction false} ServedInRun(w: World, ops: seq<Op>, e: int, c: int, target: int)
    requires Waiting(w, c, target) && (e == 0 || e == 1)
    requires AllowedRun(w, ops) && AllHandsOff(ops, c) && AfterExpiry(w, ops, e)
    requires Interrupts(ops) > Left(w, target)
    ensures exists i :: ServedBy(w, ops, c, target, i) && Interrupts(ops[..i]) <= Left(w, target)
    decreases ops
  {
    var w' := Step(w, ops[0]);
    if ops[0].IsrAt? && target <= ops[0].now {
      ServedAtOnce(w, ops, c, target);
      assert Interrupts(ops[..0]) == 0;
    } else {
      if ops[0].IsrAt? {
        EarlyIsr(w, ops[0], c, target);
        WaitingIsArmed(w, c, target);
      } else {
        OtherStep(w, ops[0], c, target);
      }
      ServedInRun(w', ops[1..], e, c, target);
      var i :| ServedBy(w', ops[1..], c, target, i) && Interrupts(ops[1..][..i]) <= Left(w', target);
      ServedLater(w, ops, c, target, i);
      PrefixShift(w, ops, i);
    }
  }

  /** In every reachable state an active channel with a target is served within floor(r / 10) + 1
      interrupts, r being the time left when the timer was armed: over any run that leaves the channel
      alone, with any START, STOP, SET_PERIOD and SET_TASK on the other channels in between. */
  lemma EveryChannelIsServed(w: World, ops: seq<Op>, e: int, c: int)
    requires Inv(w) && ValidChannel(c) && w.drv.channels[c].active && w.drv.channels[c].target != NONE
    requires (e == 0 || e == 1) && AllowedRun(w, ops) && AllHandsOff(ops, c) && AfterExpiry(w, ops, e)
    requires Interrupts(ops) >= Max(0, w.drv.channels[c].nextFire - w.drv.pt.since) / 10 + 1
    ensures var target := w.drv.channels[c].nextFire;
            exists i :: ServedBy(w, ops, c, target, i)
                        && Interrupts(ops[..i]) <= Max(0, target - w.drv.pt.since) / 10
  {
    ServedInRun(w, ops, e, c, w.drv.channels[c].nextFire);
  }

  // ---- How late an event can be ----

  /** Every interrupt is taken within `delay` of the armed expiry, and its handler re-arms the timer
      within `handling` of its entry. */
  ghost predicate Prompt(w: World, ops: seq<Op>, e: int, delay: int, handling: int)
    requires WellSized(w.drv)
    decreases ops
  {
    ops != [] ==>
      && (ops[0].IsrAt? ==> ops[0].now <= Expiry(w.drv.pt, e) + delay && ops[0].armNow <= ops[0].now + handling)
      && Prompt(Step(w, ops[0]), ops[1..], e, delay, handling)
  }

  /** No START or STOP among the first i operations restarts the countdown after `last`. */
  ghost predicate RestartedBy(ops: seq<Op>, i: nat, last: int)
  {
    forall j :: 0 <= j < i && j < |ops| && Restarts(ops[j]) ==> ops[j].armNow <= last
  }

  lemma LateNow(w: World, op: Op, e: int, delay: int, c: int, target: int, u: int)
    requires Waiting(w, c, target) && e >= 0 && op.IsrAt? && op.now <= Expiry(w.drv.pt, e) + delay
    requires w.drv.pt.since + 10 <= u && target <= u
    ensures op.now <= u + 10 * e + delay
  {
    WaitingIsArmed(w, c, target);
  }

  lemma {:induction false} LateBy(w: World, ops: seq<Op>, e: int, delay: int, handling: int, c: int, target: int,
                                  i: nat, last: int)
    requires Waiting(w, c, target) && e >= 0 && handling >= 0
    requires AllowedRun(w, ops) && AllHandsOff(ops, c) && Prompt(w, ops, e, delay, handling)
    requires i < |ops| && ops[i].IsrAt? && forall j :: 0 <= j < i && ops[j].IsrAt? ==> ops[j].now < target
    requires w.drv.pt.since <= Max(target + handling, last) && RestartedBy(ops, i, last)
    ensures ops[i].now <= Max(target + handling, last) + 10 + 10 * e + delay
    decreases ops
  {
    if i == 0 {
      LateNow(w, ops[0], e, delay, c, target, Max(target + handling, last) + 10);
    } else {
      if ops[0].IsrAt? { EarlyIsr(w, ops[0], c, target); } else { OtherStep(w, ops[0], c, target); }
      assert ops[i] == ops[1..][i - 1];
      forall j | 0 <= j < |ops| - 1
        ensures ops[1..][j] == ops[j + 1]
      {
      }
      LateBy(Step(w, ops[0]), ops[1..], e, delay, handling, c, target, i - 1, last);
    }
  }

  /** The real-time promise, for every channel and over any run that leaves it alone: its event leaves at
      the latest 10 + 10 e ns and one interrupt delay after it is due and one handling time has passed,
      or after the last time the countdown was started by then, by a START or STOP of another channel
      or before the run.  Without an end to those restarts there is no bound, see `StopsPostpone`. */
  lemma EveryChannelIsServedOnTime(w: World, ops: seq<Op>, e: int, delay: int, handling: int, c: int, i: nat, last: int)
    requires Inv(w) && ValidChannel(c) && w.drv.channels[c].active && w.drv.channels[c].target != NONE
    requires (e == 0 || e == 1) && AllowedRun(w, ops) && AllHandsOff(ops, c)
    requires Prompt(w, ops, e, delay, handling) && handling >= 0
    requires ServedBy(w, ops, c, w.drv.channels[c].nextFire, i)
    requires w.drv.pt.since <= last && RestartedBy(ops, i, last)
    ensures var target := w.drv.channels[c].nextFire;
            target <= ops[i].now <= Max(target + handling, last) + 10 + 10 * e + delay
  {
    LateBy(w, ops, e, delay, handling, c, w.drv.channels[c].nextFire, i, last);
  }

  /** n calls of STOP on channel k, one every 10 ns. */
  function Stops(k: int, t: int, n: nat): (r: seq<Op>)
    ensures |r| == n
  {
    seq(n, i => Ioctl(Stop(k), 0, t + 10 * i, t + 10 * i))
  }

  lemma StopsFirst(k: int, t: int, n: nat)
    requires n > 0
    ensures Stops(k, t, n) == [Ioctl(Stop(k), 0, t, t)] + Stops(k, t + 10, n - 1)
  {}

  /** No operation of the run comes after the expiry armed at the time: no interrupt has had to come. */
  ghost predicate NeverExpires(w: World, ops: seq<Op>, e: int)
    requires WellSized(w.drv)
    decreases ops
  {
    ops != [] ==> ops[0].Ioctl? && ops[0].now <= Expiry(w.drv.pt, e) && NeverExpires(Step(w, ops[0]), ops[1..], e)
  }

  /** The driver waits as before, and its timer does not expire before t. */
  ghost predicate WaitsUntil(w: World, c: int, target: int, t: int, e: int)
  {
    Waiting(w, c, target) && w.closing == 0 && w.clock <= t <= Expiry(w.drv.pt, e)
  }

  /** One such STOP restarts the countdown, and sends nothing. */
  lemma StopRestarts(w: World, c: int, target: int, k: int, t: int, e: int)
    requires WaitsUntil(w, c, target, t, e) && ValidChannel(k) && k != c && e >= 0 && t <= HORIZON
    ensures var op := Ioctl(Stop(k), 0, t, t);
            var w' := Step(w, op);
            && Allowed(w, op) && WaitsUntil(w', c, target, t + 10, e)
            && w'.drv.sent == w.drv.sent && w'.clock == t
  {
    var op := Ioctl(Stop(k), 0, t, t);
    OtherStep(w, op, c, target);
    WaitingIsArmed(Step(w, op), c, target);
    NearestIsMinimum(Step(w, op).drv.channels);
  }

  lemma PrependStop(w: World, op: Op, rest: seq<Op>, e: int)
    requires Allowed(w, op) && op.Ioctl? && op.now <= Expiry(w.drv.pt, e)
    requires AllowedRun(Step(w, op), rest) && NeverExpires(Step(w, op), rest, e)
    ensures AllowedRun(w, [op] + rest) && NeverExpires(w, [op] + rest, e)
    ensures Run(w, [op] + rest) == Run(Step(w, op), rest)
  {
    assert ([op] + rest)[0] == op && ([op] + rest)[1..] == rest;
  }

  /** After such a run: nothing was sent, the channel waits as before, the time is that of the last call. */
  ghost predicate Postponed(w: World, c: int, target: int, ops: seq<Op>, e: int, w': World, last: int)
    requires WellSized(w.drv)
  {
    && AllowedRun(w, ops) && NeverExpires(w, ops, e) && w' == Run(w, ops)
    && Waiting(w', c, target) && w'.drv.sent == w.drv.sent && w'.clock == last
  }

  lemma PostponedMore(w: World, c: int, target: int, op: Op, rest: seq<Op>, e: int, w': World, last: int)
    requires Allowed(w, op) && op.Ioctl? && op.now <= Expiry(w.drv.pt, e) && Step(w, op).drv.sent == w.drv.sent
    requires Postponed(Step(w, op), c, target, rest, e, w', last)
    ensures Postponed(w, c, target, [op] + rest, e, w', last)
  {
    PrependStop(w, op, rest, e);
  }

  lemma OneStopMore(w: World, c: int, target: int, k: int, t: int, n: nat, e: int, w': World, last: int)
    requires n > 0 && WaitsUntil(w, c, target, t, e)
    requires Allowed(w, Ioctl(Stop(k), 0, t, t)) && Step(w, Ioctl(Stop(k), 0, t, t)).drv.sent == w.drv.sent
    requires Postponed(Step(w, Ioctl(Stop(k), 0, t, t)), c, target, Stops(k, t + 10, n - 1), e, w', last)
    ensures Postponed(w, c, target, Stops(k, t, n), e, w', last)
  {
    StopsFirst(k, t, n);
    PostponedMore(w, c, target, Ioctl(Stop(k), 0, t, t), Stops(k, t + 10, n - 1), e, w', last);
  }

  /** Each START or STOP puts the expiry at least 10 ns ahead, also for a channel that is due already:
      calls on another channel can keep it waiting for any length of time. */
  lemma {:induction false} StopsPostpone(w: World, c: int, target: int, k: int, t: int, n: nat, e: int)
    returns (w': World)
    requires WaitsUntil(w, c, target, t, e) && ValidChannel(k) && k != c && e >= 0 && t + 10 * n <= HORIZON
    ensures Postponed(w, c, target, Stops(k, t, n), e, w', if n == 0 then w.clock else t + 10 * (n - 1))
    decreases n
  {
    w' := w;
    if n > 0 {
      StopRestarts(w, c, target, k, t, e);
      w' := StopsPostpone(Step(w, Ioctl(Stop(k), 0, t, t)), c, target, k, t + 10, n - 1, e);
      OneStopMore(w, c, target, k, t, n, e, w', t + 10 * (n - 1));
    }
  }
}
