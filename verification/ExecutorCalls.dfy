/** What registration, spin() and the destructor's call keep of an executor, and the step relation of a
    whole executor as one lemma. */
module ExecutorCalls {
  import opened Machine
  import opened TimerModel
  import opened LoadArithmetic
  import opened ExecutorModel
  import opened ExecutorInvariant
  import opened ExecutorSteps

  // ---- Tasks started while the device is held ----

  ghost predicate SameOrOneMore(p: Platform, p': Platform, slot: Slot)
  {
    p'.tps == p.tps && p'.sys.world == p.sys.world
    && ((p'.sys == p.sys && p'.owner == p.owner)
        || (OneMoreTask(p, p', slot) && p.nextId !in p.sys.tasks && p.nextId !in p.owner))
  }

  lemma StartCellAdds(p: Platform, t: Cell, slot: Slot, inp: Input)
    requires PlatformOk(p)
    ensures SameOrOneMore(p, StartCell(p, t, slot, inp).0, slot)
  {
    CreateTaskAdds(p, slot);
  }

  lemma MoreTasksKeepChannels(p: Platform, p': Platform, slot: Slot, x: Exec)
    requires PlatformOk(p) && ChannelsHeld(p, x) && SameOrOneMore(p, p', slot)
    ensures ChannelsHeld(p', x)
  {
    forall c | 0 <= c < CHANNELS
      ensures ChannelState(p', x, c) && TargetOk(p', x, c)
    {
      assert ChannelState(p, x, c) && TargetOk(p, x, c);
      assert Ns(p', x, c) == Ns(p, x, c);
    }
  }

  /** Timers with the same ticks, the same channels started. */
  ghost predicate SameDuties(x: Exec, x': Exec)
  {
    && x'.me == x.me && x'.started == x.started && Stopped(x') == Stopped(x)
    && |x.timers| <= |x'.timers|
    && (forall i :: 0 <= i < |x.timers| ==> x'.timers[i].ticks == x.timers[i].ticks)
    && (forall j :: j in x.started ==> 0 <= j < |x.timers|)
  }

  lemma DutiesKeepChannels(p: Platform, x: Exec, x': Exec)
    requires Sized(p) && ChannelsHeld(p, x) && SameDuties(x, x')
    ensures ChannelsHeld(p, x')
  {
    forall c | 0 <= c < CHANNELS
      ensures ChannelState(p, x', c) && TargetOk(p, x', c)
    {
      assert ChannelState(p, x, c) && TargetOk(p, x, c);
      if c in x.started { assert Ns(p, x', c) == Ns(p, x, c); }
    }
  }

  lemma EnsureTurnHolds(p: Platform, x: Exec, i: nat, inp: Input)
    requires PlatformOk(p) && ShapeOk(p, x) && HolderInv(p, x) && x.phase == EnsureTask(i) && i < |x.timers|
    ensures var (p', x') := EnsureTaskStep(p, x, i, inp); HolderInv(p', x') && SameFlags(p, p')
  {
    var (p', x') := EnsureTaskStep(p, x, i, inp);
    StartCellAdds(p, x.timers[i].task, Slot(x.me, false, i), inp);
    MoreTasksKeepChannels(p, p', Slot(x.me, false, i), x);
    DutiesKeepChannels(p', x, x');
  }

  lemma SetupLoopEndHolds(p: Platform, x: Exec, i: nat, inp: Input)
    requires PlatformOk(p) && ExecInv(p, x) && HolderInv(p, x) && x.phase == EnsureTask(i) && i >= |x.timers|
    ensures var (p', x') := EnsureTaskStep(p, x, i, inp); HolderStep(p, x, p', x')
  {
    SetupLoopEnds(p, x, i, inp);
    assert ShapeOk(p, x);
    DutiesKeepChannels(p, x, x.(phase := Spinning));
  }

  lemma EnsureTaskHolds(p: Platform, x: Exec, i: nat, inp: Input)
    requires PlatformOk(p) && ExecInv(p, x) && HolderInv(p, x) && x.phase == EnsureTask(i)
    ensures var (p', x') := EnsureTaskStep(p, x, i, inp); HolderStep(p, x, p', x')
  {
    if i >= |x.timers| {
      SetupLoopEndHolds(p, x, i, inp);
    } else {
      EnsureTaskKeeps(p, x, i, inp);
      EnsureTurnHolds(p, x, i, inp);
    }
  }

  // ---- Calls ----

  lemma CoreAtRest(p: Platform, x: Exec)
    requires ExecInv(p, x) && AtRest(x)
    ensures Core(p, x)
  {
    NobodyStops(x);
  }

  lemma CellsOfCore(p: Platform, x: Exec)
    requires Core(p, x)
    ensures forall i :: 0 <= i < |x.timers| ==> x.timers[i].task.running || x.timers[i].task.id == NONE
    ensures forall i :: 0 <= i < |x.subs| ==> x.subs[i].running || x.subs[i].id == NONE
  {
    forall i | 0 <= i < |x.timers|
      ensures x.timers[i].task.running || x.timers[i].task.id == NONE
    {
      assert CellAt(x, i) == x.timers[i].task;
    }
    forall i | 0 <= i < |x.subs|
      ensures x.subs[i].running || x.subs[i].id == NONE
    {
      assert CellAt(x, i + |x.timers|) == x.subs[i];
    }
  }

  lemma AddTimerCore(p: Platform, x: Exec, ms: uint32)
    requires PlatformOk(p) && Core(p, x) && x.nextChannel < CHANNELS
    requires p.tps > 0 ==> TicksToNs(MsToTicks(ms, p.tps), p.tps) <= MAX_DELTA
    ensures Core(p, AddTimer(x, ms, p.tps).0)
  {
    var x' := AddTimer(x, ms, p.tps).0;
    CellsOfCore(p, x);
    NoTaskIsNone(p);
    assert forall i :: 0 <= i < |x.timers| ==> x'.timers[i] == x.timers[i] && Ns(p, x', i) == Ns(p, x, i);
    forall s, id | id in p.owner && HasCell(x, s, id)
      ensures HasCell(x', s, id)
    {
    }
  }

  lemma AddTimerStarted(p: Platform, x: Exec, ms: uint32)
    requires ShapeOk(p, x) && StartedOk(p, x)
    ensures StartedOk(p, AddTimer(x, ms, p.tps).0)
  {
    var x' := AddTimer(x, ms, p.tps).0;
    assert forall i :: 0 <= i < |x.timers| ==> x'.timers[i] == x.timers[i] && Ns(p, x', i) == Ns(p, x, i);
  }

  ghost predicate CallDone(p: Platform, x: Exec, p': Platform, x': Exec)
    requires Sized(p) && Sized(p')
  {
    && StepOk(p, x, p', x') && SameFlags(p, p') && x'.fd == x.fd && p'.sys.world == p.sys.world
    && (HolderInv(p, x) ==> HolderInv(p', x'))
    && (x'.phase == x.phase || (x.phase.Built? && x'.phase == StartTask(0)) || x'.phase == ClearFlag(0))
  }

  lemma AddTimerKeeps(p: Platform, x: Exec, ms: uint32)
    requires PlatformOk(p) && ExecInv(p, x) && AtRest(x)
    requires p.tps > 0 ==> TicksToNs(MsToTicks(ms, p.tps), p.tps) <= MAX_DELTA
    ensures CallDone(p, x, p, AddTimer(x, ms, p.tps).0)
  {
    var x' := AddTimer(x, ms, p.tps).0;
    CoreAtRest(p, x);
    if x.nextChannel < CHANNELS {
      AddTimerCore(p, x, ms);
      AddTimerStarted(p, x, ms);
      CoreAtPhase(p, x');
      if HolderInv(p, x) { DutiesKeepChannels(p, x, x'); }
    }
  }

  lemma NewSubCells(p: Platform, x: Exec, p': Platform)
    requires PlatformOk(p) && Core(p, x) && OneMoreTask(p, p', Slot(x.me, true, |x.subs|)) && p.nextId !in p.owner
    ensures CellsOk(p', x.(subs := x.subs + [Cell(p.nextId, true)]))
  {
    var slot := Slot(x.me, true, |x.subs|);
    var x' := x.(subs := x.subs + [Cell(p.nextId, true)]);
    forall j | 0 <= j < |x.timers|
      ensures CellOk(p', x.timers[j].task, Slot(x.me, false, j))
    {
      OldCellsStay(p, p', slot, x.timers[j].task, Slot(x.me, false, j));
    }
    forall j | 0 <= j < |x'.subs|
      ensures CellOk(p', x'.subs[j], Slot(x.me, true, j))
    {
      if j == |x.subs| { NewCellOk(p, p', slot); } else { OldCellsStay(p, p', slot, x.subs[j], Slot(x.me, true, j)); }
    }
  }

  lemma NewSubCore(p: Platform, x: Exec, p': Platform)
    requires PlatformOk(p) && Core(p, x) && OneMoreTask(p, p', Slot(x.me, true, |x.subs|)) && p.nextId !in p.owner
    ensures Core(p', x.(subs := x.subs + [Cell(p.nextId, true)]))
  {
    var x' := x.(subs := x.subs + [Cell(p.nextId, true)]);
    NewSubCells(p, x, p');
    CellsOfCore(p, x);
    assert forall i :: 0 <= i < |x.timers| ==> Ns(p', x', i) == Ns(p, x, i);
    forall id | id in p'.owner && p'.owner[id].exec == x.me
      ensures id in p'.sys.tasks && (p'.sys.tasks[id].alive ==> HasCell(x', p'.owner[id], id))
    {
      if id != p.nextId {
        assert id in p.sys.tasks && (p.sys.tasks[id].alive ==> HasCell(x, p.owner[id], id));
        assert TaskOk(p, id);
      }
    }
    NewSubQuiet(p, x, p');
  }

  lemma NewSubQuiet(p: Platform, x: Exec, p': Platform)
    requires PlatformOk(p) && Core(p, x) && OneMoreTask(p, p', Slot(x.me, true, |x.subs|)) && p.nextId !in p.owner
    ensures QuietOk(p', x.(subs := x.subs + [Cell(p.nextId, true)]))
  {
    forall i | 0 <= i < |x.timers| && i !in x.started && x.timers[i].task.id in p'.sys.tasks
      ensures p'.sys.tasks[x.timers[i].task.id].sent == p'.sys.tasks[x.timers[i].task.id].stopSent
    {
      assert CellOk(p, x.timers[i].task, Slot(x.me, false, i));
    }
  }

  lemma NewSubExec(p: Platform, x: Exec, p': Platform)
    requires PlatformOk(p) && ExecInv(p, x) && AtRest(x)
    requires OneMoreTask(p, p', Slot(x.me, true, |x.subs|)) && p.nextId !in p.owner
    ensures ExecInv(p', x.(subs := x.subs + [Cell(p.nextId, true)]))
  {
    var x' := x.(subs := x.subs + [Cell(p.nextId, true)]);
    CoreAtRest(p, x);
    NewSubCore(p, x, p');
    assert forall i :: 0 <= i < |x.timers| ==> Ns(p', x', i) == Ns(p, x, i);
    CoreAtPhase(p', x');
  }

  lemma NewSubHolds(p: Platform, x: Exec, p': Platform)
    requires PlatformOk(p) && ShapeOk(p, x) && HolderInv(p, x) && AtRest(x)
    requires OneMoreTask(p, p', Slot(x.me, true, |x.subs|)) && p.nextId !in p.owner && p.nextId !in p.sys.tasks
    ensures HolderInv(p', x.(subs := x.subs + [Cell(p.nextId, true)]))
  {
    MoreTasksKeepChannels(p, p', Slot(x.me, true, |x.subs|), x);
    DutiesKeepChannels(p', x, x.(subs := x.subs + [Cell(p.nextId, true)]));
  }

  /** The new subscription's task is the only change. */
  lemma NewSubKeeps(p: Platform, x: Exec, p': Platform)
    requires PlatformOk(p) && ExecInv(p, x) && AtRest(x)
    requires OneMoreTask(p, p', Slot(x.me, true, |x.subs|)) && p.nextId !in p.owner && p.nextId !in p.sys.tasks
    ensures CallDone(p, x, p', x.(subs := x.subs + [Cell(p.nextId, true)]))
  {
    OneMoreKeepsPlatform(p, p', Slot(x.me, true, |x.subs|));
    NewSubExec(p, x, p');
    if HolderInv(p, x) { NewSubHolds(p, x, p'); }
  }

  lemma AddSubscriptionKeeps(p: Platform, x: Exec, present: bool, createOk: bool, startOk: bool)
    requires PlatformOk(p) && ExecInv(p, x) && AtRest(x)
    ensures var r := AddSubscription(p, x, present, createOk, startOk); CallDone(p, x, r.0, r.1)
  {
    SubscriptionCases(p, x, present, createOk, startOk);
    if present && createOk && startOk {
      CreateTaskAdds(p, Slot(x.me, true, |x.subs|));
      NewSubKeeps(p, x, CreateTask(p, Slot(x.me, true, |x.subs|)));
    } else if present && createOk {
      SkippedId(p, x);
    }
  }

  lemma SubscriptionCases(p: Platform, x: Exec, present: bool, createOk: bool, startOk: bool)
    requires Sized(p)
    ensures AddSubscription(p, x, present, createOk, startOk) ==
            if !present || !createOk then (p, x, -1)
            else if !startOk then (p.(nextId := p.nextId + 1), x, -1)
            else (CreateTask(p, Slot(x.me, true, |x.subs|)), x.(subs := x.subs + [Cell(p.nextId, true)]), |x.subs|)
  {}

  /** A subscription is registered exactly when it exists and its task could be created and started.  Then
      it gets the next index, and a task of its own that has just been started under a new id, recorded
      as this subscription's; otherwise there is no registration and no task. */
  lemma SubscriptionGetsOwnTask(p: Platform, x: Exec, present: bool, createOk: bool, startOk: bool)
    requires PlatformOk(p)
    ensures var (p', x', index) := AddSubscription(p, x, present, createOk, startOk);
            && (index >= 0 <==> present && createOk && startOk)
            && (if index >= 0
                then
                  && index == |x.subs| && x' == x.(subs := x.subs + [Cell(p.nextId, true)])
                  && p.nextId !in p.sys.tasks && FreshTask(p', p.nextId)
                  && p'.owner == p.owner[p.nextId := Slot(x.me, true, index)]
                  && p'.sys.tasks.Keys == p.sys.tasks.Keys + {p.nextId}
                else index == -1 && x' == x && p'.sys == p.sys && p'.owner == p.owner)
            && (AtRest(x) ==> Invoke(p, x, RegisterSubscription(present, createOk, startOk)) == (p', x'))
  {
    CreateTaskAdds(p, Slot(x.me, true, |x.subs|));
  }

  lemma SkippedId(p: Platform, x: Exec)
    requires PlatformOk(p) && ExecInv(p, x)
    ensures CallDone(p, x, p.(nextId := p.nextId + 1), x)
  {
    var p' := p.(nextId := p.nextId + 1);
    NoTaskIsNone(p);
    UntouchedKeepsExec(p, p', x);
    forall id | id in p'.sys.tasks
      ensures TaskOk(p', id)
    {
      assert TaskOk(p, id);
    }
    if HolderInv(p, x) { SkippedIdHolds(p, x); }
  }

  lemma SkippedIdHolds(p: Platform, x: Exec)
    requires PlatformOk(p) && HolderInv(p, x)
    ensures HolderInv(p.(nextId := p.nextId + 1), x)
  {
    MoreTasksKeepChannels(p, p.(nextId := p.nextId + 1), Slot(x.me, true, 0), x);
  }

  lemma SpinKeeps(p: Platform, x: Exec)
    requires PlatformOk(p) && ExecInv(p, x) && x.phase.Built?
    ensures CallDone(p, x, p, x.(phase := StartTask(0)))
  {
    PhaseMoves(p, x, StartTask(0), x.handled);
    if HolderInv(p, x) { DutiesKeepChannels(p, x, x.(phase := StartTask(0))); }
  }

  lemma DestroyExec(p: Platform, x: Exec)
    requires ExecInv(p, x) && AtRest(x)
    ensures ExecInv(p, x.(phase := ClearFlag(0)))
  {
    var x' := x.(phase := ClearFlag(0));
    CoreAtRest(p, x);
    CoreMoves(p, x, ClearFlag(0), x.handled);
    assert forall i :: 0 <= i < |x.timers| ==> Ns(p, x', i) == Ns(p, x, i);
    CoreAtPhase(p, x');
  }

  lemma DestroyKeeps(p: Platform, x: Exec)
    requires PlatformOk(p) && ExecInv(p, x) && AtRest(x)
    ensures CallDone(p, x, p, x.(phase := ClearFlag(0)))
  {
    DestroyExec(p, x);
    assert ShapeOk(p, x);
    if HolderInv(p, x) { DutiesKeepChannels(p, x, x.(phase := ClearFlag(0))); }
  }

  /** The timer's period is within what the driver's arithmetic can hold. */
  ghost predicate SoundCall(p: Platform, c: Call)
  {
    c.RegisterTimer? && p.tps > 0 ==> TicksToNs(MsToTicks(c.ms, p.tps), p.tps) <= MAX_DELTA
  }

  lemma InvokeKeeps(p: Platform, x: Exec, c: Call)
    requires PlatformOk(p) && ExecInv(p, x) && SoundCall(p, c)
    ensures var (p', x') := Invoke(p, x, c); CallDone(p, x, p', x')
  {
    if AtRest(x) {
      match c
      case RegisterTimer(ms) => AddTimerKeeps(p, x, ms);
      case RegisterSubscription(present, createOk, startOk) => AddSubscriptionKeeps(p, x, present, createOk, startOk);
      case Spin => if x.phase.Built? { SpinKeeps(p, x); }
      case Destroy => DestroyKeeps(p, x);
    }
  }
}
