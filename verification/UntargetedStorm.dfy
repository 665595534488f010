/** An active channel whose target task is NONE is skipped by the handler but not by the search for the
    nearest expiry: once overdue it keeps the processor in the interrupt handler. */
module UntargetedStorm {
  import opened TimerModel
  import opened LoadArithmetic
  import opened TimerRuns
  import opened ChannelRuns

  /** Such a channel is skipped by the handler but not by the search for the nearest expiry. */
  ghost predicate Stuck(c: Channel, now: int)
  {
    c.active && c.target == NONE && c.nextFire <= now
  }

  /** After an interrupt some active channel is still overdue exactly when, before it, some active
      channel without a target task was. */
  lemma StormIff(w: World, now: int, armNow: int)
    requires Inv(w) && Allowed(w, IsrAt(now, armNow))
    ensures var chs := Isr(w.drv, now, armNow).channels;
            (exists i :: 0 <= i < CHANNELS && chs[i].active && chs[i].nextFire <= now) <==>
            (exists i :: 0 <= i < CHANNELS && Stuck(w.drv.channels[i], now))
  {
    var was, chs := w.drv.channels, IsrChannels(w.drv.channels, now);
    forall i | 0 <= i < CHANNELS
      ensures chs[i].active && chs[i].nextFire <= now <==> Stuck(was[i], now)
    {
      assert ChannelOk(was[i], w.clock, w.closing - 3 * i);
    }
  }

  /** The timer as an interrupt leaves it while channel c is stuck: the shortest countdown. */
  lemma StuckRearmsAtOnce(w: World, c: int, now: int, armNow: int)
    requires Inv(w) && Allowed(w, IsrAt(now, armNow)) && ValidChannel(c) && Stuck(w.drv.channels[c], now)
    ensures var d := Isr(w.drv, now, armNow);
            d.channels[c] == w.drv.channels[c] && d.pt == Pt(true, 1, armNow)
  {
    var chs := IsrChannels(w.drv.channels, now);
    assert chs[c] == w.drv.channels[c];
    NearestIsMinimum(chs);
    LoadExactly(1);
  }

  lemma StuckStep(w: World, op: Op, c: int, t: int)
    requires Inv(w) && Allowed(w, op) && ValidChannel(c) && Stuck(w.drv.channels[c], t)
    requires HandsOff(op, c)
    ensures Step(w, op).drv.channels[c] == w.drv.channels[c]
  {
  }

  lemma {:induction false} StuckRun(w: World, ops: seq<Op>, c: int, t: int)
    requires Inv(w) && AllowedRun(w, ops) && ValidChannel(c) && Stuck(w.drv.channels[c], t) && AllHandsOff(ops, c)
    ensures Inv(Run(w, ops)) && Run(w, ops).drv.channels[c] == w.drv.channels[c]
    decreases ops
  {
    if ops != [] {
      StepKeepsInv(w, ops[0]);
      StuckStep(w, ops[0], c, t);
      StuckRun(Step(w, ops[0]), ops[1..], c, t);
    }
  }

  /** The storm does not end by itself: through any run that leaves the stuck channel alone, every
      interrupt re-arms the shortest countdown, 10 ns. */
  lemma UntargetedChannelStorms(w: World, ops: seq<Op>, isr: Op, c: int)
    requires Inv(w) && AllowedRun(w, ops) && ValidChannel(c) && Stuck(w.drv.channels[c], w.clock) && AllHandsOff(ops, c)
    requires isr.IsrAt? && Allowed(Run(w, ops), isr)
    ensures var d := Step(Run(w, ops), isr).drv;
            d.pt == Pt(true, 1, isr.armNow) && d.channels[c] == w.drv.channels[c]
  {
    StuckRun(w, ops, c, w.clock);
    ClockAdvances(w, ops);
    StuckRearmsAtOnce(Run(w, ops), c, isr.now, isr.armNow);
  }

  lemma {:induction false} ClockAdvances(w: World, ops: seq<Op>)
    requires AllowedRun(w, ops)
    ensures w.clock <= Run(w, ops).clock
    decreases ops
  {
    if ops != [] { ClockAdvances(Step(w, ops[0]), ops[1..]); }
  }

  /** And it can be reached from boot: a period and a START, but no SET_TASK. */
  lemma StormIsReachable()
    ensures exists ops :: AllowedRun(Boot(), ops) && Stuck(Run(Boot(), ops).drv.channels[0], Run(Boot(), ops).clock)
  {
    var ops := [Ioctl(SetPeriodNs(0, MIN_PERIOD_NS), 100, 0, 0), Ioctl(Start(0), 100, 0, 0),
      IsrAt(MIN_PERIOD_NS, MIN_PERIOD_NS)];
    var w1 := Step(Boot(), ops[0]);
    var w2 := Step(w1, ops[1]);
    var w3 := Step(w2, ops[2]);
    assert w2.drv.channels[0] == Channel(true, MIN_PERIOD_NS, MIN_PERIOD_NS, NONE);
    assert Stuck(w3.drv.channels[0], w3.clock);
    assert ops[1..][0] == ops[1] && ops[1..][1..] == [ops[2]] && [ops[2]][1..] == [];
    assert Run(w2, [ops[2]]) == w3;
    assert AllowedRun(w2, [ops[2]]);
    assert Run(Boot(), ops) == w3 && AllowedRun(Boot(), ops);
  }
}
