/** What a run of the driver guarantees to one channel, from its START on. */
module ChannelRuns {
  import opened TimerModel
  import opened TimerRuns
  import opened EventGrid

  /** Channel c was started at time s, when `mark` events had been sent, with period p. */
  ghost predicate Tracked(w: World, c: int, s: int, p: int, mark: int)
  {
    && WellSized(w.drv) && ValidChannel(c) && p > 0
    && s <= w.clock
    && 0 <= mark <= |w.drv.sent|
    && w.drv.channels[c].active && w.drv.channels[c].period == p
    && OnGrid(EventsOf(w.drv.sent[mark..], c), s, p, w.drv.channels[c].nextFire)
  }

  /** Operations that may come between a START of channel c and its next STOP, START or new period.
      Anything may happen to the other channels, and c may change its target task. */
  predicate LeavesAlone(op: Op, c: int)
  {
    match op
    case Ioctl(SetPeriod(ch, _), _, _, _) => ch != c
    case Ioctl(SetPeriodNs(ch, _), _, _, _) => ch != c
    case Ioctl(Start(ch), _, _, _) => ch != c
    case Ioctl(Stop(ch), _, _, _) => ch != c
    case CloseStore(_) => false
    case _ => true
  }

  ghost predicate AllLeaveAlone(ops: seq<Op>, c: int)
  {
    forall i :: 0 <= i < |ops| ==> LeavesAlone(ops[i], c)
  }

  /** Nor does it change the target. */
  predicate HandsOff(op: Op, c: int)
  {
    LeavesAlone(op, c) && !(op.Ioctl? && op.cmd.SetTask? && op.cmd.channel == c)
  }

  ghost predicate AllHandsOff(ops: seq<Op>, c: int)
  {
    forall i :: 0 <= i < |ops| ==> HandsOff(ops[i], c)
  }

  ghost predicate Starts(w: World, op: Op, c: int)
  {
    Inv(w) && Allowed(w, op) && ValidChannel(c) && op.Ioctl? && op.cmd == Start(c) && w.drv.channels[c].period != 0
  }

  lemma StartIsTracked(w: World, op: Op, c: int)
    requires Starts(w, op, c)
    ensures Tracked(Step(w, op), c, op.now, w.drv.channels[c].period, |w.drv.sent|)
  {
  }

  lemma IsrKeepsTracked(w: World, now: int, armNow: int, c: int, s: int, p: int, mark: int)
    requires Inv(w) && Allowed(w, IsrAt(now, armNow)) && Tracked(w, c, s, p, mark)
    ensures Tracked(Step(w, IsrAt(now, armNow)), c, s, p, mark)
  {
    var ch := w.drv.channels[c];
    var log := EventsOf(w.drv.sent[mark..], c);
    EventsAfterIsr(w.drv.sent, mark, w.drv.channels, now, c);
    assert Isr(w.drv, now, armNow).channels[c] == IsrChannel(ch, now);
    if Due(ch, now) {
      GridExtends(log, s, p, Event(c, ch.target, ch.nextFire, now));
    } else {
      assert log + [] == log;
    }
  }

  lemma StepKeepsTracked(w: World, op: Op, c: int, s: int, p: int, mark: int)
    requires Inv(w) && Allowed(w, op) && LeavesAlone(op, c) && Tracked(w, c, s, p, mark)
    ensures Tracked(Step(w, op), c, s, p, mark)
  {
    if op.IsrAt? {
      IsrKeepsTracked(w, op.now, op.armNow, c, s, p, mark);
    } else {
      var d' := Step(w, op).drv;
      assert d'.sent == w.drv.sent;
      assert d'.channels[c] == w.drv.channels[c].(target := d'.channels[c].target);
    }
  }

  lemma {:induction false} RunKeepsTracked(w: World, ops: seq<Op>, c: int, s: int, p: int, mark: int)
    requires Inv(w) && AllowedRun(w, ops) && AllLeaveAlone(ops, c) && Tracked(w, c, s, p, mark)
    ensures Inv(Run(w, ops)) && Tracked(Run(w, ops), c, s, p, mark)
    decreases ops
  {
    if ops != [] {
      StepKeepsInv(w, ops[0]);
      StepKeepsTracked(w, ops[0], c, s, p, mark);
      RunKeepsTracked(Step(w, ops[0]), ops[1..], c, s, p, mark);
    }
  }

  // ---- Inactive channels ----

  predicate Activates(op: Op, c: int) { op.Ioctl? && op.cmd == Start(c) }

  lemma SilentStep(w: World, op: Op, c: int)
    requires WellSized(w.drv) && ValidChannel(c) && !w.drv.channels[c].active && !Activates(op, c)
    ensures var w' := Step(w, op);
            !w'.drv.channels[c].active && EventsOf(w'.drv.sent, c) == EventsOf(w.drv.sent, c)
  {
    if op.IsrAt? {
      EventsOfConcat(w.drv.sent, IsrEvents(w.drv.channels, op.now), c);
      EventsOfOneIsr(w.drv.channels, op.now, c);
    } else {
      assert Step(w, op).drv.sent == w.drv.sent;
    }
  }

  /** No event goes to an inactive channel, over any run without a START of it. */
  lemma {:induction false} InactiveStaysSilent(w: World, ops: seq<Op>, c: int)
    requires WellSized(w.drv) && ValidChannel(c) && !w.drv.channels[c].active
    requires forall i :: 0 <= i < |ops| ==> !Activates(ops[i], c)
    ensures var w' := Run(w, ops);
            !w'.drv.channels[c].active && EventsOf(w'.drv.sent, c) == EventsOf(w.drv.sent, c)
    decreases ops
  {
    if ops != [] {
      SilentStep(w, ops[0], c);
      InactiveStaysSilent(Step(w, ops[0]), ops[1..], c);
    }
  }

  // ---- The interrupt time stamps ----

  /** The time of the latest event of a channel, 0 before the first. */
  function LatestAt(log: seq<Event>, c: int): int
  {
    var evs := EventsOf(log, c);
    if evs == [] then 0 else evs[|evs| - 1].at
  }

  ghost predicate Stamped(d: Driver, c: int)
    requires WellSized(d) && ValidChannel(c)
  {
    d.fireNs[c] == LatestAt(d.sent, c)
  }

  lemma IsrKeepsStamp(d: Driver, now: int, armNow: int, c: int)
    requires WellSized(d) && ValidChannel(c) && Stamped(d, c)
    ensures Stamped(Isr(d, now, armNow), c)
  {
    EventsOfConcat(d.sent, IsrEvents(d.channels, now), c);
    EventsOfOneIsr(d.channels, now, c);
  }

  lemma QuietStepKeepsStamp(w: World, op: Op, c: int)
    requires WellSized(w.drv) && ValidChannel(c) && Stamped(w.drv, c) && !op.IsrAt?
    ensures Stamped(Step(w, op).drv, c)
  {
    var d' := Step(w, op).drv;
    assert d'.sent == w.drv.sent && d'.fireNs == w.drv.fireNs;
  }

  lemma {:induction false} RunKeepsStamp(w: World, ops: seq<Op>, c: int)
    requires WellSized(w.drv) && ValidChannel(c) && Stamped(w.drv, c)
    ensures Stamped(Run(w, ops).drv, c)
    decreases ops
  {
    if ops != [] {
      if ops[0].IsrAt? {
        IsrKeepsStamp(w.drv, ops[0].now, ops[0].armNow, c);
      } else {
        QuietStepKeepsStamp(w, ops[0], c);
      }
      RunKeepsStamp(Step(w, ops[0]), ops[1..], c);
    }
  }

  /** In every run from boot, rtss_isr_fire_ns of a channel is the time of its latest event. */
  lemma StampIsLatestEvent(ops: seq<Op>, c: int)
    requires ValidChannel(c)
    ensures var d := Run(Boot(), ops).drv; d.fireNs[c] == LatestAt(d.sent, c)
  {
    RunKeepsStamp(Boot(), ops, c);
  }

  lemma IsrOnTracked(w: World, now: int, armNow: int, c: int, s: int, p: int, mark: int)
    requires Inv(w) && Allowed(w, IsrAt(now, armNow)) && Tracked(w, c, s, p, mark)
    requires w.drv.channels[c].target != NONE
    ensures Isr(w.drv, now, armNow).channels[c].nextFire == FirstPointAfter(s, p, now)
  {
    IsrKeepsTracked(w, now, armNow, c, s, p, mark);
    var d := Isr(w.drv, now, armNow);
    IsrEventsAt(w.drv.channels, now);
    EventsOfWithin(d.sent[mark..], c, now);
    IdealClosedForm(EventsOf(d.sent[mark..], c), s, p, d.channels[c].nextFire, now);
  }

  /** No cumulative drift.  After any interrupt of the run, whatever earlier lateness and other
      channels' operations were, the next expiry is the first point of the ideal grid s + k p
      after `now`. */
  lemma RefinesIdealTimer(w: World, start: Op, ops: seq<Op>, isr: Op, c: int)
    requires Starts(w, start, c)
    requires AllowedRun(Step(w, start), ops) && AllLeaveAlone(ops, c)
    requires isr.IsrAt? && Allowed(Run(Step(w, start), ops), isr)
    requires Run(Step(w, start), ops).drv.channels[c].target != NONE
    ensures var p := w.drv.channels[c].period;
            var s := start.now;
            Step(Run(Step(w, start), ops), isr).drv.channels[c].nextFire == FirstPointAfter(s, p, isr.now)
  {
    var p := w.drv.channels[c].period;
    StepKeepsInv(w, start);
    StartIsTracked(w, start, c);
    RunKeepsTracked(Step(w, start), ops, c, start.now, p, |w.drv.sent|);
    IsrOnTracked(Run(Step(w, start), ops), isr.now, isr.armNow, c, start.now, p, |w.drv.sent|);
  }

  lemma TrackedAccount(w: World, c: int, s: int, p: int, mark: int)
    requires Inv(w) && Tracked(w, c, s, p, mark)
    ensures Account(EventsOf(w.drv.sent[mark..], c), s, p, w.drv.channels[c].nextFire, w.clock)
  {
    EventsOfWithin(w.drv.sent[mark..], c, w.clock);
    GridAccount(EventsOf(w.drv.sent[mark..], c), s, p, w.drv.channels[c].nextFire, w.clock);
  }

  /** Rate bound and grid conservation for a channel over any run that leaves it alone. */
  lemma RunAccount(w: World, start: Op, ops: seq<Op>, c: int)
    requires Starts(w, start, c)
    requires AllowedRun(Step(w, start), ops) && AllLeaveAlone(ops, c)
    ensures var p := w.drv.channels[c].period;
            var end := Run(Step(w, start), ops);
            && |w.drv.sent| <= |end.drv.sent|
            && Account(EventsOf(end.drv.sent[|w.drv.sent|..], c), start.now, p, end.drv.channels[c].nextFire, end.clock)
  {
    StepKeepsInv(w, start);
    StartIsTracked(w, start, c);
    RunKeepsTracked(Step(w, start), ops, c, start.now, w.drv.channels[c].period, |w.drv.sent|);
    TrackedAccount(Run(Step(w, start), ops), c, start.now, w.drv.channels[c].period, |w.drv.sent|);
  }
}
