/** Every step of an executor keeps its own invariant and touches no other executor's tasks; and the
    one that holds the device keeps what it has promised its channels. */
module ExecutorSteps {
  import opened TimerModel
  import opened LoadArithmetic
  import opened TimerRuns
  import opened CloseInterleaving
  import opened EndToEnd
  import opened ExecutorModel
  import opened ExecutorInvariant
  import CallbackProtocol

  /** The tasks of all executors but `me` are as they were. */
  ghost predicate OnlyOwn(p: Platform, p': Platform, me: nat)
  {
    && p'.tps == p.tps
    && (forall id :: id in p.owner && p.owner[id].exec != me ==>
          id in p'.owner && p'.owner[id] == p.owner[id]
          && (id in p.sys.tasks ==> id in p'.sys.tasks && p'.sys.tasks[id] == p.sys.tasks[id]))
    && (forall id :: id in p'.owner && p'.owner[id].exec != me ==>
         id in p.owner && p.owner[id].exec == p'.owner[id].exec)
  }

  lemma OwnTouchesNoOther(p: Platform, p': Platform, me: nat, y: Exec)
    requires PlatformOk(p) && OnlyOwn(p, p', me) && ExecInv(p, y) && y.me != me
    ensures Untouched(p, p', y)
  {
    forall i | 0 <= i < |y.timers| && y.timers[i].task.id in p.sys.tasks
      ensures y.timers[i].task.id in p'.sys.tasks &&
              p'.sys.tasks[y.timers[i].task.id] == p.sys.tasks[y.timers[i].task.id]
    {
      assert TaskOk(p, y.timers[i].task.id);
      assert CellOk(p, y.timers[i].task, Slot(y.me, false, i));
    }
  }

  ghost predicate StepOk(p: Platform, x: Exec, p': Platform, x': Exec)
  {
    PlatformOk(p') && ExecInv(p', x') && OnlyOwn(p, p', x.me) && x'.me == x.me
  }

  // ---- Starting tasks ----

  ghost predicate FreshTask(p: Platform, id: TaskId)
  {
    id in p.sys.tasks && CallbackProtocol.JustStarted(p.sys.tasks[id])
  }

  /** `p'` has one task more, created for `slot` under the id that was next. */
  ghost predicate OneMoreTask(p: Platform, p': Platform, slot: Slot)
  {
    && p'.tps == p.tps && p'.sys.world == p.sys.world && p'.handler == p.handler
    && p'.nextId == p.nextId + 1
    && p'.owner == p.owner[p.nextId := slot]
    && p'.sys.tasks.Keys == p.sys.tasks.Keys + {p.nextId}
    && (forall id :: id in p.sys.tasks ==> p'.sys.tasks[id] == p.sys.tasks[id])
    && FreshTask(p', p.nextId)
  }

  lemma CreateTaskAdds(p: Platform, slot: Slot)
    requires PlatformOk(p)
    ensures OneMoreTask(p, CreateTask(p, slot), slot) && p.nextId !in p.sys.tasks && p.nextId !in p.owner
  {
    assert p.nextId in p.sys.tasks ==> TaskOk(p, p.nextId);
  }

  lemma OneMoreKeepsPlatform(p: Platform, p': Platform, slot: Slot)
    requires PlatformOk(p) && OneMoreTask(p, p', slot) && p.nextId !in p.owner
    ensures PlatformOk(p') && OnlyOwn(p, p', slot.exec)
  {
    CallbackProtocol.StartedInv(p'.sys.tasks[p.nextId]);
    forall id | id in p'.sys.tasks
      ensures TaskOk(p', id)
    {
      if id != p.nextId { assert TaskOk(p, id); }
    }
  }

  lemma OldCellsStay(p: Platform, p': Platform, slot: Slot, t: Cell, s: Slot)
    requires PlatformOk(p) && OneMoreTask(p, p', slot) && p.nextId !in p.owner && CellOk(p, t, s)
    ensures CellOk(p', t, s)
  {}

  lemma NewCellOk(p: Platform, p': Platform, slot: Slot)
    requires PlatformOk(p) && OneMoreTask(p, p', slot)
    ensures CellOk(p', Cell(p.nextId, true), slot)
  {}

  /** The executor is about to look at timer i, whose task does not run yet. */
  ghost predicate Awaits(x: Exec, i: nat)
  {
    && i < |x.timers| && (x.phase == StartTask(i) || x.phase == EnsureTask(i))
    && x.timers[i].task == Cell(NONE, false) && i !in x.started
  }

  lemma TimerCells(p: Platform, x: Exec, i: nat, p': Platform)
    requires PlatformOk(p) && ExecInv(p, x) && Awaits(x, i)
    requires OneMoreTask(p, p', Slot(x.me, false, i)) && p.nextId !in p.owner
    ensures CellsOk(p', SetTimerTask(x, i, Cell(p.nextId, true)))
  {
    var slot := Slot(x.me, false, i);
    var x' := SetTimerTask(x, i, Cell(p.nextId, true));
    forall j | 0 <= j < |x'.timers|
      ensures CellOk(p', x'.timers[j].task, Slot(x.me, false, j))
    {
      if j == i { NewCellOk(p, p', slot); } else { OldCellsStay(p, p', slot, x.timers[j].task, Slot(x.me, false, j)); }
    }
    forall j | 0 <= j < |x'.subs|
      ensures CellOk(p', x'.subs[j], Slot(x.me, true, j))
    {
      OldCellsStay(p, p', slot, x.subs[j], Slot(x.me, true, j));
    }
  }

  lemma TimerOwned(p: Platform, x: Exec, i: nat, p': Platform)
    requires PlatformOk(p) && ExecInv(p, x) && Awaits(x, i)
    requires OneMoreTask(p, p', Slot(x.me, false, i)) && p.nextId !in p.owner
    ensures OwnedOk(p', SetTimerTask(x, i, Cell(p.nextId, true)))
    ensures QuietOk(p', SetTimerTask(x, i, Cell(p.nextId, true)))
  {
    var x' := SetTimerTask(x, i, Cell(p.nextId, true));
    forall id | id in p'.owner && p'.owner[id].exec == x.me
      ensures id in p'.sys.tasks && (p'.sys.tasks[id].alive ==> HasCell(x', p'.owner[id], id))
    {
      if id != p.nextId {
        assert id in p.sys.tasks && (p.sys.tasks[id].alive ==> HasCell(x, p.owner[id], id));
        assert TaskOk(p, id);
      }
    }
    forall j | 0 <= j < |x'.timers| && j !in x'.started && x'.timers[j].task.id in p'.sys.tasks
      ensures p'.sys.tasks[x'.timers[j].task.id].sent == p'.sys.tasks[x'.timers[j].task.id].stopSent
    {
      if j == i {
        assert FreshTask(p', p.nextId);
      } else {
        assert CellOk(p, x.timers[j].task, Slot(x.me, false, j));
      }
    }
  }

  lemma TimerStopped(p: Platform, x: Exec, i: nat, t: Cell)
    requires ExecInv(p, x) && Awaits(x, i) && t.running
    ensures StoppedOk(SetTimerTask(x, i, t))
  {
    var x' := SetTimerTask(x, i, t);
    forall k | 0 <= k < Slots(x') && !CellAt(x', k).running && CellAt(x', k).id != NONE
      ensures x'.phase == SendStop(k) || x'.phase == DeleteTask(k)
    {
      assert CellAt(x', k) == CellAt(x, k);
    }
  }

  /** The part of the invariant that does not say where the executor is; no stop() is under way. */
  ghost predicate Core(p: Platform, x: Exec)
  {
    && ShapeOk(p, x) && CellsOk(p, x) && OwnedOk(p, x) && QuietOk(p, x)
    && forall k :: 0 <= k < Slots(x) ==> CellAt(x, k).running || CellAt(x, k).id == NONE
  }

  lemma TimerTaskAdded(p: Platform, x: Exec, i: nat, p': Platform)
    requires PlatformOk(p) && ExecInv(p, x) && Awaits(x, i)
    requires OneMoreTask(p, p', Slot(x.me, false, i)) && p.nextId !in p.owner
    ensures Core(p', SetTimerTask(x, i, Cell(p.nextId, true)))
  {
    TimerCells(p, x, i, p');
    TimerOwned(p, x, i, p');
    TimerStopped(p, x, i, Cell(p.nextId, true));
  }

  lemma SkipId(p: Platform, x: Exec)
    requires PlatformOk(p) && Core(p, x)
    ensures var p' := p.(nextId := p.nextId + 1); PlatformOk(p') && Core(p', x) && OnlyOwn(p, p', x.me)
  {
    var p' := p.(nextId := p.nextId + 1);
    forall id | id in p'.sys.tasks
      ensures TaskOk(p', id)
    {
      assert TaskOk(p, id);
    }
    assert forall k :: 0 <= k < |x.timers| ==> CellOk(p, x.timers[k].task, Slot(x.me, false, k)) ==>
           CellOk(p', x.timers[k].task, Slot(x.me, false, k));
    assert forall k :: 0 <= k < |x.subs| ==> CellOk(p, x.subs[k], Slot(x.me, true, k)) ==>
           CellOk(p', x.subs[k], Slot(x.me, true, k));
  }

  lemma SameTimerTask(x: Exec, i: nat)
    requires i < |x.timers|
    ensures SetTimerTask(x, i, x.timers[i].task) == x
  {
    assert x.timers[i := x.timers[i]] == x.timers;
  }

  /** `if (!task->is_running()) task->start()` on timer i. */
  lemma TaskEnsured(p: Platform, x: Exec, i: nat, inp: Input)
    requires PlatformOk(p) && ExecInv(p, x)
    requires i < |x.timers| && (x.phase == StartTask(i) || x.phase == EnsureTask(i)) && i !in x.started
    ensures var (p', t) := StartCell(p, x.timers[i].task, Slot(x.me, false, i), inp);
            && PlatformOk(p') && Core(p', SetTimerTask(x, i, t)) && OnlyOwn(p, p', x.me)
            && p'.sys.world == p.sys.world && p'.handler == p.handler
            && (p'.sys == p.sys || OneMoreTask(p, p', Slot(x.me, false, i)))
  {
    SameTimerTask(x, i);
    NobodyStops(x);
    assert Core(p, x);
    var t := x.timers[i].task;
    assert CellAt(x, i) == t;
    if !t.running && inp.createOk {
      if inp.startOk {
        CreateTaskAdds(p, Slot(x.me, false, i));
        OneMoreKeepsPlatform(p, CreateTask(p, Slot(x.me, false, i)), Slot(x.me, false, i));
        TimerTaskAdded(p, x, i, CreateTask(p, Slot(x.me, false, i)));
      } else {
        SkipId(p, x);
      }
    }
  }

  /** CallbackTask::start: afterwards the task runs exactly if it did before or could be created and
      started, then under a new id; otherwise it has none. */
  lemma StartOutcome(p: Platform, t: Cell, slot: Slot, inp: Input)
    requires PlatformOk(p) && (!t.running ==> t.id == NONE)
    ensures var (p', t') := StartCell(p, t, slot, inp);
            && (t'.running <==> t.running || (inp.createOk && inp.startOk))
            && (t.running ==> t' == t && p' == p)
            && (!t.running && t'.running ==> t'.id == p.nextId && t'.id !in p.sys.tasks && FreshTask(p', t'.id))
            && (!t'.running ==> t'.id == NONE && p'.sys == p.sys)
  {
    if !t.running && inp.createOk && inp.startOk { CreateTaskAdds(p, slot); }
  }

  /** Both loops over the timers, start_all_tasks and that of set-up, start a task that does not run: after
      its turn timer i's task runs exactly if it did before or could be created and started. */
  lemma TurnStartsTask(p: Platform, x: Exec, i: nat, inp: Input)
    requires PlatformOk(p) && ExecInv(p, x) && i < |x.timers| && (x.phase == StartTask(i) || x.phase == EnsureTask(i))
    ensures var x' := Do(p, x, inp).1;
            && |x'.timers| == |x.timers|
            && (x'.timers[i].task.running <==> x.timers[i].task.running || (inp.createOk && inp.startOk))
  {
    NobodyStops(x);
    assert CellAt(x, i) == x.timers[i].task;
    StartOutcome(p, x.timers[i].task, Slot(x.me, false, i), inp);
  }

  lemma NobodyStops(x: Exec)
    requires StoppedOk(x) && !x.phase.SendStop? && !x.phase.DeleteTask?
    ensures forall k :: 0 <= k < Slots(x) ==> CellAt(x, k).running || CellAt(x, k).id == NONE
  {}

  lemma CoreAtPhase(p: Platform, x: Exec)
    requires Core(p, x) && PhaseOk(x) && StopOk(p, x) && StartedOk(p, x)
    ensures ExecInv(p, x)
  {}

  lemma StartTaskKeeps(p: Platform, x: Exec, i: nat, inp: Input)
    requires PlatformOk(p) && ExecInv(p, x) && x.phase == StartTask(i)
    ensures var (p', x') := StartTaskStep(p, x, i, inp);
            StepOk(p, x, p', x') && p'.sys.world == p.sys.world && p'.handler == p.handler && x'.fd == x.fd
  {
    var (p', x') := StartTaskStep(p, x, i, inp);
    NobodyStops(x);
    if i < |x.timers| {
      TaskEnsured(p, x, i, inp);
      CoreMoves(p', SetTimerTask(x, i, x'.timers[i].task), x'.phase, 0);
    } else {
      CoreMoves(p, x, x'.phase, 0);
    }
    CoreAtPhase(p', x');
  }

  /** The core of the invariant does not depend on where the executor is. */
  lemma CoreMoves(p: Platform, x: Exec, ph: Phase, handled: nat)
    requires Core(p, x) && handled <= |x.timers| && forall j :: j in x.started ==> 0 <= j < handled
    ensures Core(p, x.(phase := ph, handled := handled))
  {
    var x' := x.(phase := ph, handled := handled);
    assert forall i :: 0 <= i < |x.timers| ==> Ns(p, x', i) == Ns(p, x, i);
    assert forall k :: 0 <= k < Slots(x) ==> CellAt(x', k) == CellAt(x, k);
    assert forall s, id :: HasCell(x', s, id) <==> HasCell(x, s, id);
  }

  lemma TurnStarted(p: Platform, x: Exec, p': Platform, i: nat, t: Cell, ph: Phase, handled: nat)
    requires StartedOk(p, x) && p'.tps == p.tps && !TearingDown(x.phase) && !TearingDown(ph)
    requires x.handled == i < |x.timers| && i !in x.started
    requires handled == i || (handled == i + 1 && !t.running)
    ensures StartedOk(p', SetTimerTask(x, i, t).(phase := ph, handled := handled))
  {
    var x' := SetTimerTask(x, i, t).(phase := ph, handled := handled);
    assert forall j :: 0 <= j < |x.timers| ==> Ns(p', x', j) == Ns(p, x, j);
  }

  lemma TurnGoesOn(p: Platform, x: Exec, p': Platform, i: nat, t: Cell)
    requires x.phase == EnsureTask(i) && PhaseOk(x) && i < |x.timers| && i !in x.started
    requires Core(p', SetTimerTask(x, i, t)) && StartedOk(p, x) && p'.tps == p.tps && t.running
    ensures ExecInv(p', SetTimerTask(x, i, t).(phase := PeriodOf(i)))
  {
    CoreMoves(p', SetTimerTask(x, i, t), PeriodOf(i), i);
    TurnStarted(p, x, p', i, t, PeriodOf(i), i);
    CoreAtPhase(p', SetTimerTask(x, i, t).(phase := PeriodOf(i), handled := i));
  }

  lemma TurnIsOver(p: Platform, x: Exec, p': Platform, i: nat, t: Cell)
    requires x.phase == EnsureTask(i) && PhaseOk(x) && i < |x.timers| && i !in x.started
    requires Core(p', SetTimerTask(x, i, t)) && StartedOk(p, x) && p'.tps == p.tps && !t.running
    ensures ExecInv(p', NextTurn(SetTimerTask(x, i, t), i))
  {
    var x1 := SetTimerTask(x, i, t);
    CoreMoves(p', x1, EnsureTask(i + 1), i + 1);
    TurnStarted(p, x, p', i, t, EnsureTask(i + 1), i + 1);
    assert NextTurn(x1, i) == x1.(phase := EnsureTask(i + 1), handled := i + 1);
    CoreAtPhase(p', NextTurn(x1, i));
  }

  lemma EnsureTaskKeeps(p: Platform, x: Exec, i: nat, inp: Input)
    requires PlatformOk(p) && ExecInv(p, x) && x.phase == EnsureTask(i) && i < |x.timers|
    ensures var (p', x') := EnsureTaskStep(p, x, i, inp);
            StepOk(p, x, p', x') && p'.sys.world == p.sys.world && p'.handler == p.handler && x'.fd == x.fd
  {
    var (p', t) := StartCell(p, x.timers[i].task, Slot(x.me, false, i), inp);
    TaskEnsured(p, x, i, inp);
    if t.running { TurnGoesOn(p, x, p', i, t); } else { TurnIsOver(p, x, p', i, t); }
  }

  lemma SetupLoopEnds(p: Platform, x: Exec, i: nat, inp: Input)
    requires PlatformOk(p) && ExecInv(p, x) && x.phase == EnsureTask(i) && i >= |x.timers|
    ensures StepOk(p, x, p, EnsureTaskStep(p, x, i, inp).1)
  {
    NobodyStops(x);
    CoreMoves(p, x, Spinning, x.handled);
    CoreAtPhase(p, x.(phase := Spinning));
  }

  // ---- The three ioctls of one turn, and STOP ----

  /** One ioctl of this executor on its channel i. */
  ghost predicate OnChannel(op: Op, x: Exec, i: nat)
  {
    && i < |x.timers| && op.Ioctl?
    && (op.cmd == Start(i) || op.cmd == Stop(i) || (op.cmd.SetPeriod? && op.cmd.channel == i)
        || op.cmd == SetTask(i, x.timers[i].task.id))
  }

  lemma OtherChannelsKept(p: Platform, x: Exec, op: Op, i: nat, c: int)
    requires Sized(p) && HolderInv(p, x) && Allowed(p.sys.world, op) && OnChannel(op, x, i)
    requires CellOk(p, x.timers[i].task, Slot(x.me, false, i)) && ValidChannel(c) && c != i
    ensures var p' := Moved(p, DriverOp(op));
            ChannelState(p', x, c) && TargetOk(p', x, c)
            && p'.sys.world.drv.channels[c] == p.sys.world.drv.channels[c]
  {
    assert ChannelState(p, x, c) && TargetOk(p, x, c);
    if c in x.started && c >= Stopped(x) {
      var k := x.started[c];
      DriverOpKeepsLinked(p.sys, op, c, k.task, k.at, Ns(p, x, c), k.sent);
      assert Ns(Moved(p, DriverOp(op)), x, c) == Ns(p, x, c);
    }
  }

  lemma NoTaskIsNone(p: Platform)
    requires PlatformOk(p)
    ensures NONE !in p.sys.tasks
  {
    assert NONE in p.sys.tasks ==> TaskOk(p, NONE);
  }

  /** A driver operation other than an interrupt leaves all tasks as they are. */
  lemma TasksAsTheyWere(p: Platform, x: Exec, op: Op)
    requires PlatformOk(p) && ExecInv(p, x) && Allowed(p.sys.world, op) && !op.IsrAt?
    ensures var p' := Moved(p, DriverOp(op));
            PlatformOk(p') && ExecInv(p', x) && OnlyOwn(p, p', x.me) && p'.sys.tasks == p.sys.tasks
  {
    var p' := Moved(p, DriverOp(op));
    assert p'.sys.tasks == p.sys.tasks;
    MoveKeepsPlatform(p, DriverOp(op));
    NoTaskIsNone(p');
    UntouchedKeepsExec(p, p', x);
  }

  /** The executor goes on in the set-up loop; what it knows of the channels does not change. */
  lemma PhaseMoves(p: Platform, x: Exec, ph: Phase, handled: nat)
    requires ExecInv(p, x) && !TearingDown(x.phase) && !TearingDown(ph)
    requires PhaseOk(x.(phase := ph, handled := handled))
    requires handled == x.handled || (handled == x.handled + 1 <= |x.timers|
               && (x.timers[x.handled].task.running && Ns(p, x, x.handled) > 0 ==> x.handled in x.started))
    ensures ExecInv(p, x.(phase := ph, handled := handled))
  {
    var x' := x.(phase := ph, handled := handled);
    NobodyStops(x);
    assert forall i :: 0 <= i < |x.timers| ==> Ns(p, x', i) == Ns(p, x, i);
    CoreMoves(p, x, ph, handled);
    CoreAtPhase(p, x');
  }

  lemma HolderMoves(p: Platform, x: Exec, ph: Phase, handled: nat)
    requires Sized(p) && ChannelsHeld(p, x)
    requires Stopped(x) == Stopped(x.(phase := ph)) == 0 && !ph.Closing? && p.sys.world.closing == 0
    requires TurnOk(p, x.(phase := ph, handled := handled))
    ensures HolderInv(p, x.(phase := ph, handled := handled))
  {
    var x' := x.(phase := ph, handled := handled);
    forall c | 0 <= c < CHANNELS
      ensures ChannelState(p, x', c) && TargetOk(p, x', c)
    {
      assert ChannelState(p, x, c) && TargetOk(p, x, c);
      assert Ns(p, x', c) == Ns(p, x, c);
    }
  }

  function SetPeriodOp(p: Platform, x: Exec, i: nat): Op
    requires i < |x.timers|
  {
    Ioctl(SetPeriod(i, x.timers[i].ticks), p.tps, p.sys.world.clock, p.sys.world.clock)
  }

  function SetTaskOp(p: Platform, x: Exec, i: nat): Op
    requires i < |x.timers|
  {
    Ioctl(SetTask(i, x.timers[i].task.id), p.tps, p.sys.world.clock, p.sys.world.clock)
  }

  /** In its turn channel i is not active yet. */
  ghost predicate InTurn(p: Platform, x: Exec, i: nat)
    requires Sized(p)
  {
    && PlatformOk(p) && ExecInv(p, x) && HolderInv(p, x)
    && (x.phase == PeriodOf(i) || x.phase == TargetOf(i) || x.phase == LaunchOf(i))
  }

  lemma TurnFacts(p: Platform, x: Exec, i: nat)
    requires Sized(p) && InTurn(p, x, i)
    ensures i < |x.timers| <= CHANNELS && x.timers[i].channel == i && i !in x.started && x.handled == i
    ensures !p.sys.world.drv.channels[i].active && TargetOk(p, x, i) && 0 <= Ns(p, x, i) <= MAX_DELTA
    ensures p.sys.world.closing == 0 && CellOk(p, x.timers[i].task, Slot(x.me, false, i)) && x.timers[i].task.running
    ensures 0 <= p.sys.world.clock <= HORIZON
  {
    assert ChannelState(p, x, i);
    if p.tps > 0 { TicksToNsFits(x.timers[i].ticks, p.tps); }
  }

  lemma AllChannelsKept(p: Platform, x: Exec, op: Op, i: nat)
    requires Sized(p) && HolderInv(p, x) && Allowed(p.sys.world, op) && OnChannel(op, x, i) && ValidChannel(i)
    requires CellOk(p, x.timers[i].task, Slot(x.me, false, i))
    requires ChannelState(Moved(p, DriverOp(op)), x, i) && TargetOk(Moved(p, DriverOp(op)), x, i)
    ensures ChannelsHeld(Moved(p, DriverOp(op)), x)
  {
    forall c | 0 <= c < CHANNELS
      ensures ChannelState(Moved(p, DriverOp(op)), x, c) && TargetOk(Moved(p, DriverOp(op)), x, c)
    {
      if c != i { OtherChannelsKept(p, x, op, i, c); }
    }
  }

  lemma ConfigAllowed(p: Platform, x: Exec, i: nat, op: Op)
    requires Sized(p) && InTurn(p, x, i) && i < |x.timers| && (op == SetPeriodOp(p, x, i) || op == SetTaskOp(p, x, i))
    ensures Allowed(p.sys.world, op) && OnChannel(op, x, i)
  {
    TurnFacts(p, x, i);
  }

  lemma ConfiguredChannel(p: Platform, x: Exec, i: nat, op: Op)
    requires Sized(p) && i < |x.timers| && ValidChannel(i) && (op == SetPeriodOp(p, x, i) || op == SetTaskOp(p, x, i))
    requires i !in x.started && !p.sys.world.drv.channels[i].active && TargetOk(p, x, i)
    requires CellOk(p, x.timers[i].task, Slot(x.me, false, i))
    ensures ChannelState(Moved(p, DriverOp(op)), x, i) && TargetOk(Moved(p, DriverOp(op)), x, i)
  {}

  /** The device is neither opened nor closed. */
  ghost predicate SameFlags(p: Platform, p': Platform)
  {
    && p'.handler == p.handler && p'.sys.world.closing == p.sys.world.closing
    && p'.sys.world.drv.isOpen == p.sys.world.drv.isOpen &&
       p'.sys.world.drv.isrInstalled == p.sys.world.drv.isrInstalled
  }

  /** What one ioctl of the executor leaves, whichever it was. */
  ghost predicate IoctlDone(p: Platform, x: Exec, p': Platform)
    requires Sized(p')
  {
    PlatformOk(p') && ExecInv(p', x) && OnlyOwn(p, p', x.me) && ChannelsHeld(p', x) && SameFlags(p, p')
  }

  lemma IoctlKeepsFlags(p: Platform, cmd: Command, now: int, armNow: int)
    requires Sized(p)
    ensures SameFlags(p, Moved(p, DriverOp(Ioctl(cmd, p.tps, now, armNow))))
  {}

  lemma ConfigKeeps(p: Platform, x: Exec, i: nat, op: Op)
    requires Sized(p) && InTurn(p, x, i) && i < |x.timers| && (op == SetPeriodOp(p, x, i) || op == SetTaskOp(p, x, i))
    ensures IoctlDone(p, x, Moved(p, DriverOp(op)))
  {
    TurnFacts(p, x, i);
    ConfigAllowed(p, x, i, op);
    ConfiguredChannel(p, x, i, op);
    TasksAsTheyWere(p, x, op);
    AllChannelsKept(p, x, op, i);
    IoctlKeepsFlags(p, op.cmd, op.now, op.armNow);
  }

  ghost predicate HolderStep(p: Platform, x: Exec, p': Platform, x': Exec)
  {
    StepOk(p, x, p', x') && HolderInv(p', x') && x'.fd == x.fd
    && p'.handler == p.handler
    && p'.sys.world.drv.isOpen == p.sys.world.drv.isOpen &&
       p'.sys.world.drv.isrInstalled == p.sys.world.drv.isrInstalled
  }

  lemma HolderGoesOn(p: Platform, x: Exec, p': Platform, ph: Phase, handled: nat)
    requires Sized(p') && IoctlDone(p, x, p') && p'.sys.world.closing == 0
    requires !TearingDown(x.phase) && !TearingDown(ph) && PhaseOk(x.(phase := ph, handled := handled))
    requires handled == x.handled || (handled == x.handled + 1 <= |x.timers|
               && (x.timers[x.handled].task.running && Ns(p', x, x.handled) > 0 ==> x.handled in x.started))
    requires TurnOk(p', x.(phase := ph, handled := handled))
    ensures HolderStep(p, x, p', x.(phase := ph, handled := handled))
  {
    PhaseMoves(p', x, ph, handled);
    HolderMoves(p', x, ph, handled);
  }

  lemma PeriodIsSet(p: Platform, x: Exec, i: nat)
    requires Sized(p) && i < |x.timers| && ValidChannel(i) && x.timers[i].channel == i
    ensures PeriodStep(p, x, i) ==
            (Moved(p, DriverOp(SetPeriodOp(p, x, i))), if p.tps > 0 then x.(phase := TargetOf(i)) else NextTurn(x, i))
    ensures p.tps > 0 ==> TurnOk(Moved(p, DriverOp(SetPeriodOp(p, x, i))), x.(phase := TargetOf(i)))
  {}

  /** The ioctl succeeded and the turn goes on with phase `ph`. */
  lemma TurnContinues(p: Platform, x: Exec, p': Platform, i: nat, ph: Phase)
    requires Sized(p') && IoctlDone(p, x, p') && p'.sys.world.closing == 0
    requires (x.phase == PeriodOf(i) && ph == TargetOf(i)) || (x.phase == TargetOf(i) && ph == LaunchOf(i))
    requires TurnOk(p', x.(phase := ph))
    ensures HolderStep(p, x, p', x.(phase := ph))
  {
    HolderGoesOn(p, x, p', ph, x.handled);
  }

  /** The turn of timer i is over. */
  lemma TurnEnds(p: Platform, x: Exec, p': Platform, i: nat)
    requires Sized(p') && IoctlDone(p, x, p') && p'.sys.world.closing == 0
    requires x.phase == PeriodOf(i) || x.phase == LaunchOf(i)
    requires i < |x.timers| && i == x.handled && (Ns(p', x, i) > 0 ==> i in x.started)
    ensures HolderStep(p, x, p', NextTurn(x, i))
  {
    assert PhaseOk(x);
    assert PhaseOk(NextTurn(x, i));
    assert TurnOk(p', NextTurn(x, i));
    assert NextTurn(x, i) == x.(phase := EnsureTask(i + 1), handled := i + 1);
    HolderGoesOn(p, x, p', EnsureTask(i + 1), i + 1);
  }

  lemma PeriodKeeps(p: Platform, x: Exec, i: nat)
    requires PlatformOk(p) && ExecInv(p, x) && HolderInv(p, x) && x.phase == PeriodOf(i)
    ensures var (p', x') := PeriodStep(p, x, i); HolderStep(p, x, p', x')
  {
    TurnFacts(p, x, i);
    PeriodIsSet(p, x, i);
    ConfigKeeps(p, x, i, SetPeriodOp(p, x, i));
    var p' := Moved(p, DriverOp(SetPeriodOp(p, x, i)));
    if p.tps > 0 { TurnContinues(p, x, p', i, TargetOf(i)); } else { TurnEnds(p, x, p', i); }
  }

  lemma TargetIsSet(p: Platform, x: Exec, i: nat)
    requires Sized(p) && i < |x.timers| && ValidChannel(i) && x.timers[i].channel == i && TurnOk(p, x)
    requires x.phase == TargetOf(i)
    ensures TargetStep(p, x, i) == (Moved(p, DriverOp(SetTaskOp(p, x, i))), x.(phase := LaunchOf(i)))
    ensures TurnOk(Moved(p, DriverOp(SetTaskOp(p, x, i))), x.(phase := LaunchOf(i)))
  {}

  lemma TargetKeeps(p: Platform, x: Exec, i: nat)
    requires PlatformOk(p) && ExecInv(p, x) && HolderInv(p, x) && x.phase == TargetOf(i)
    ensures var (p', x') := TargetStep(p, x, i); HolderStep(p, x, p', x')
  {
    TurnFacts(p, x, i);
    TargetIsSet(p, x, i);
    ConfigKeeps(p, x, i, SetTaskOp(p, x, i));
    TurnContinues(p, x, Moved(p, DriverOp(SetTaskOp(p, x, i))), i, LaunchOf(i));
  }

  // ---- START ----

  function StartOp(p: Platform, i: nat, inp: Input): Op
  {
    Ioctl(Start(i), p.tps, inp.now, inp.armNow)
  }

  /** Executor x once it has started channel i. */
  function Launched(p: Platform, x: Exec, i: nat, inp: Input): Exec
    requires Sized(p) && i < |x.timers|
  {
    NextTurn(x.(started := x.started[i := Mark(x.timers[i].task.id, inp.now, |p.sys.world.drv.sent|)]), i)
  }

  lemma StartRefused(p: Platform, x: Exec, i: nat, inp: Input)
    requires Sized(p) && i < |x.timers| && ValidChannel(i) && x.timers[i].channel == i
    requires p.sys.world.drv.channels[i].period == 0
    ensures LaunchStep(p, x, i, inp) == (p, NextTurn(x, i))
  {}

  lemma StartAccepted(p: Platform, x: Exec, i: nat, inp: Input)
    requires Sized(p) && i < |x.timers| && ValidChannel(i) && x.timers[i].channel == i
    requires p.sys.world.drv.channels[i].period != 0
    ensures LaunchStep(p, x, i, inp) == (Moved(p, DriverOp(StartOp(p, i, inp))), Launched(p, x, i, inp))
  {}

  lemma OwnChannelOnly(p: Platform, x: Exec, i: nat)
    requires Sized(p) && ChannelsHeld(p, x) && i < |x.timers| && ValidChannel(i)
    requires CellOk(p, x.timers[i].task, Slot(x.me, false, i)) && x.timers[i].task.id != NONE
    requires p.sys.world.drv.channels[i].target == x.timers[i].task.id
    ensures OnlyChannel(p.sys.world.drv.channels, i, x.timers[i].task.id)
  {
    forall c | 0 <= c < CHANNELS
      ensures p.sys.world.drv.channels[c].target == x.timers[i].task.id <==> c == i
    {
      assert TargetOk(p, x, c);
    }
  }

  ghost predicate ClockOk(p: Platform, inp: Input)
  {
    p.sys.world.clock <= inp.now <= inp.armNow <= HORIZON
  }

  lemma LaunchLinks(p: Platform, x: Exec, i: nat, inp: Input)
    requires Sized(p) && InTurn(p, x, i) && x.phase == LaunchOf(i) && i < |x.timers| && ValidChannel(i)
    requires Ns(p, x, i) > 0 && ClockOk(p, inp)
    ensures Allowed(p.sys.world, StartOp(p, i, inp))
    ensures Linked(Moved(p, DriverOp(StartOp(p, i, inp))).sys, i, x.timers[i].task.id, inp.now, Ns(p, x, i),
            |p.sys.world.drv.sent|)
  {
    TurnFacts(p, x, i);
    OwnChannelOnly(p, x, i);
    assert TaskOk(p, x.timers[i].task.id);
    StartIsLinked(p.sys, StartOp(p, i, inp), i, x.timers[i].task.id);
  }

  lemma LaunchedTarget(p: Platform, x: Exec, i: nat, inp: Input, c: int)
    requires Sized(p) && HolderInv(p, x) && ValidChannel(c)
    ensures TargetOk(Moved(p, DriverOp(StartOp(p, i, inp))), x, c)
  {
    assert TargetOk(p, x, c);
  }

  lemma LaunchedChannels(p: Platform, x: Exec, i: nat, inp: Input)
    requires Sized(p) && InTurn(p, x, i) && x.phase == LaunchOf(i) && i < |x.timers| && ValidChannel(i)
    requires Ns(p, x, i) > 0 && ClockOk(p, inp)
    ensures ChannelsHeld(Moved(p, DriverOp(StartOp(p, i, inp))), Launched(p, x, i, inp))
  {
    var op := StartOp(p, i, inp);
    var p', x' := Moved(p, DriverOp(op)), Launched(p, x, i, inp);
    TurnFacts(p, x, i);
    LaunchLinks(p, x, i, inp);
    forall c | 0 <= c < CHANNELS
      ensures ChannelState(p', x', c) && TargetOk(p', x', c)
    {
      LaunchedTarget(p, x, i, inp, c);
      assert Ns(p', x', c) == Ns(p, x, c) == Ns(p', x, c);
      if c != i { OtherChannelsKept(p, x, op, i, c); }
    }
  }

  lemma CoreWhenNobodyStops(p: Platform, x: Exec)
    requires ExecInv(p, x) && !x.phase.SendStop? && !x.phase.DeleteTask?
    ensures Core(p, x)
  {
    NobodyStops(x);
  }

  lemma LaunchedCore(p: Platform, x: Exec, i: nat, mark: Mark)
    requires Core(p, x) && i == x.handled < |x.timers|
    ensures Core(p, NextTurn(x.(started := x.started[i := mark]), i))
  {
    var x1 := x.(started := x.started[i := mark]);
    CoreMoves(p, x, EnsureTask(i + 1), i + 1);
    var x' := NextTurn(x1, i);
    var x2 := x.(phase := EnsureTask(i + 1), handled := i + 1);
    assert x' == x2.(started := x1.started);
    assert forall j :: 0 <= j < |x.timers| ==> Ns(p, x', j) == Ns(p, x2, j);
    assert forall k :: 0 <= k < Slots(x) ==> CellAt(x', k) == CellAt(x2, k);
    assert forall s, id :: HasCell(x', s, id) <==> HasCell(x2, s, id);
  }

  lemma LaunchedStarted(p: Platform, x: Exec, i: nat, mark: Mark)
    requires StartedOk(p, x) && x.phase == LaunchOf(i) && i == x.handled < |x.timers|
    requires Cell(mark.task, true) == x.timers[i].task && Ns(p, x, i) > 0
    ensures StartedOk(p, NextTurn(x.(started := x.started[i := mark]), i))
  {
    var x' := NextTurn(x.(started := x.started[i := mark]), i);
    assert forall j :: 0 <= j < |x.timers| ==> Ns(p, x', j) == Ns(p, x, j);
  }

  lemma LaunchedExec(p: Platform, x: Exec, i: nat, mark: Mark)
    requires ExecInv(p, x) && x.phase == LaunchOf(i) && mark.task == x.timers[i].task.id && Ns(p, x, i) > 0
    ensures ExecInv(p, NextTurn(x.(started := x.started[i := mark]), i))
  {
    CoreWhenNobodyStops(p, x);
    LaunchedCore(p, x, i, mark);
    LaunchedStarted(p, x, i, mark);
    CoreAtPhase(p, NextTurn(x.(started := x.started[i := mark]), i));
  }

  lemma LaunchedStep(p: Platform, x: Exec, i: nat, inp: Input)
    requires Sized(p) && InTurn(p, x, i) && x.phase == LaunchOf(i) && i < |x.timers|
    requires Ns(p, x, i) > 0 && Allowed(p.sys.world, StartOp(p, i, inp))
    ensures StepOk(p, x, Moved(p, DriverOp(StartOp(p, i, inp))), Launched(p, x, i, inp))
  {
    TasksAsTheyWere(p, x, StartOp(p, i, inp));
    var p' := Moved(p, DriverOp(StartOp(p, i, inp)));
    assert Ns(p', x, i) == Ns(p, x, i);
    LaunchedExec(p', x, i, Mark(x.timers[i].task.id, inp.now, |p.sys.world.drv.sent|));
  }

  lemma LaunchSucceeds(p: Platform, x: Exec, i: nat, inp: Input)
    requires Sized(p) && InTurn(p, x, i) && x.phase == LaunchOf(i) && i < |x.timers| && ValidChannel(i)
    requires Ns(p, x, i) > 0 && ClockOk(p, inp)
    ensures HolderStep(p, x, Moved(p, DriverOp(StartOp(p, i, inp))), Launched(p, x, i, inp))
  {
    LaunchLinks(p, x, i, inp);
    LaunchedStep(p, x, i, inp);
    LaunchedChannels(p, x, i, inp);
    IoctlKeepsFlags(p, Start(i), inp.now, inp.armNow);
  }

  lemma LaunchKeeps(p: Platform, x: Exec, i: nat, inp: Input)
    requires PlatformOk(p) && ExecInv(p, x) && HolderInv(p, x) && x.phase == LaunchOf(i) && ClockOk(p, inp)
    ensures var (p', x') := LaunchStep(p, x, i, inp); HolderStep(p, x, p', x')
  {
    TurnFacts(p, x, i);
    if Ns(p, x, i) == 0 {
      StartRefused(p, x, i, inp);
      TurnEnds(p, x, p, i);
    } else {
      StartAccepted(p, x, i, inp);
      LaunchSucceeds(p, x, i, inp);
    }
  }

  // ---- rtss_open ----

  predicate Opening(ph: Phase) { ph.TestOpen? || InOpen(ph) }

  lemma OpenMoves(p: Platform, x: Exec, ph: Phase, fd: int)
    requires ExecInv(p, x) && Opening(x.phase) && !TearingDown(ph) && PhaseOk(x.(phase := ph, fd := fd))
    ensures ExecInv(p, x.(phase := ph, fd := fd))
  {
    var x' := x.(phase := ph, fd := fd);
    NobodyStops(x);
    assert forall i :: 0 <= i < |x.timers| ==> Ns(p, x', i) == Ns(p, x, i);
    assert forall k :: 0 <= k < Slots(x) ==> CellAt(x', k) == CellAt(x, k);
    assert forall s, id :: HasCell(x', s, id) <==> HasCell(x, s, id);
    CoreAtPhase(p, x');
  }

  /** Nothing but rtss_open itself depends on whether the handler is installed. */
  lemma HandlerInstalled(p: Platform, x: Exec)
    requires PlatformOk(p) && ExecInv(p, x)
    ensures var p' := p.(handler := true); PlatformOk(p') && ExecInv(p', x) && OnlyOwn(p, p', x.me)
  {
    var p' := p.(handler := true);
    NoTaskIsNone(p);
    UntouchedKeepsExec(p, p', x);
    forall id | id in p'.sys.tasks
      ensures TaskOk(p', id)
    {
      assert TaskOk(p, id);
    }
  }

  /** The tests and the install call of rtss_open leave the driver alone. */
  lemma OpenTestKeeps(p: Platform, x: Exec, inp: Input)
    requires PlatformOk(p) && ExecInv(p, x) && Opening(x.phase) && !x.phase.StoreInstalled? && !x.phase.StoreOpen?
    ensures var (p', x') := OpenStep(p, x, inp);
            StepOk(p, x, p', x') && p'.sys == p.sys && x'.fd < 0
  {
    var (p', x') := OpenStep(p, x, inp);
    assert PhaseOk(x);
    OpenMoves(p, x, x'.phase, x'.fd);
    assert x' == x.(phase := x'.phase, fd := x'.fd);
    if p' != p { HandlerInstalled(p, x'); }
  }

  lemma StoreInstalledKeeps(p: Platform, x: Exec, inp: Input)
    requires PlatformOk(p) && ExecInv(p, x) && x.phase.StoreInstalled?
    ensures var (p', x') := OpenStep(p, x, inp);
            StepOk(p, x, p', x') && x' == x.(phase := StoreOpen)
            && (Vacant(p) ==> Vacant(p'))
  {
    TasksAsTheyWere(p, x, MarkInstalled);
    OpenMoves(Moved(p, DriverOp(MarkInstalled)), x, StoreOpen, x.fd);
  }

  /** From the moment `opened` is set the executor holds the device. */
  lemma StoreOpenKeeps(p: Platform, x: Exec, inp: Input)
    requires PlatformOk(p) && ExecInv(p, x) && x.phase.StoreOpen? && Vacant(p)
    ensures var (p', x') := OpenStep(p, x, inp);
            StepOk(p, x, p', x') && HolderInv(p', x') && x'.fd >= 0
  {
    var (p', x') := OpenStep(p, x, inp);
    TasksAsTheyWere(p, x, MarkOpen);
    OpenMoves(p', x, x'.phase, x'.fd);
    assert forall j :: j !in x.started;
  }

  /** SET_MODE changes nothing and succeeds, and set-up goes on to its loop. */
  lemma ModeIsNothing(p: Platform, x: Exec)
    requires Sized(p)
    ensures ModeStep(p, x) == (p, x.(phase := EnsureTask(0)))
  {
    ControlStatus(p.sys.world.drv, SetMode, p.tps, p.sys.world.clock, p.sys.world.clock);
    ControlStatus(p.sys.world.drv, SetMode, p.tps, 0, 0);
  }

  lemma ModeKeeps(p: Platform, x: Exec)
    requires PlatformOk(p) && ExecInv(p, x) && HolderInv(p, x) && x.phase.ModeOf?
    ensures var (p', x') := ModeStep(p, x); HolderStep(p, x, p', x')
  {
    ModeIsNothing(p, x);
    PhaseMoves(p, x, EnsureTask(0), x.handled);
    HolderMoves(p, x, EnsureTask(0), x.handled);
  }

  // ---- CallbackTask::stop ----

  /** The step of stop() that the executor is about to make on its k-th task. */
  predicate StopAction(a: CallbackProtocol.Action) { a.StopEnter? || a.StopSend? || a.StopDelete? }

  lemma StopActionEffect(t: Task, a: CallbackProtocol.Action)
    requires CallbackProtocol.TaskInv(t) && StopAction(a)
    ensures var t' := CallbackProtocol.Act(t, a);
            && (t'.alive ==> t.alive)
            && t'.sent - t'.stopSent == t.sent - t.stopSent
            && (t.stop.Idle? && a.StopEnter? ==> t'.stop.FlagCleared?)
            && (t.stop.FlagCleared? && a.StopSend? ==> t'.stop.EventSent?)
            && (t.stop.EventSent? && a.StopDelete? ==> !t'.alive)
  {}

  lemma DistinctCells(p: Platform, x: Exec, j: nat, k: nat)
    requires CellsOk(p, x) && j < Slots(x) && k < Slots(x) && j != k && CellAt(x, k).id != NONE
    ensures CellAt(x, j).id != CellAt(x, k).id
  {
    assert CellOk(p, CellAt(x, j), SlotAt(x, j)) && CellOk(p, CellAt(x, k), SlotAt(x, k));
  }

  /** `p'` differs from `p` in the task of the k-th cell only, by one step of its stop(). */
  ghost predicate StopStepOf(p: Platform, x: Exec, k: nat, p': Platform)
  {
    k < Slots(x) && CellAt(x, k).id in p.sys.tasks &&
    var id := CellAt(x, k).id;
    && p'.sys.tasks.Keys == p.sys.tasks.Keys && p' == p.(sys := p.sys.(tasks := p'.sys.tasks))
    && (forall other :: other in p.sys.tasks && other != id ==> p'.sys.tasks[other] == p.sys.tasks[other])
    && var t, t' := p.sys.tasks[id], p'.sys.tasks[id];
       (t'.alive ==> t.alive) && t'.sent - t'.stopSent == t.sent - t.stopSent
  }

  lemma StopStepIs(p: Platform, x: Exec, k: nat, a: CallbackProtocol.Action)
    requires PlatformOk(p) && CellsOk(p, x) && k < Slots(x) && CellAt(x, k).id != NONE && StopAction(a)
    ensures var p' := Moved(p, TaskStep(CellAt(x, k).id, a));
            StopStepOf(p, x, k, p') && PlatformOk(p') && OnlyOwn(p, p', x.me)
            && p'.sys.tasks[CellAt(x, k).id] == CallbackProtocol.Act(p.sys.tasks[CellAt(x, k).id], a)
  {
    var id := CellAt(x, k).id;
    assert CellOk(p, CellAt(x, k), SlotAt(x, k));
    assert TaskOk(p, id);
    StopActionEffect(p.sys.tasks[id], a);
    MoveKeepsPlatform(p, TaskStep(id, a));
  }

  /** The k-th cell afterwards: the same without running, or empty once its task is deleted. */
  ghost predicate CellAfterStop(p': Platform, t: Cell, t': Cell)
  {
    || t' == Cell(t.id, false)
    || (t' == Cell(NONE, false) && t.id in p'.sys.tasks && !p'.sys.tasks[t.id].alive)
  }

  lemma StopKeepsCells(p: Platform, x: Exec, k: nat, p': Platform, t': Cell)
    requires CellsOk(p, x) && StopStepOf(p, x, k, p') && CellAt(x, k).id != NONE && CellAfterStop(p', CellAt(x, k), t')
    ensures CellsOk(p', SetCellAt(x, k, t'))
  {
    var x' := SetCellAt(x, k, t');
    forall i | 0 <= i < |x.timers|
      ensures CellOk(p', x'.timers[i].task, Slot(x.me, false, i))
    {
      if i != k { DistinctCells(p, x, i, k); assert CellAt(x, i) == x.timers[i].task; }
      assert CellOk(p, x.timers[i].task, Slot(x.me, false, i));
    }
    forall i | 0 <= i < |x.subs|
      ensures CellOk(p', x'.subs[i], Slot(x.me, true, i))
    {
      if i + |x.timers| != k { DistinctCells(p, x, i + |x.timers|, k); assert CellAt(x, i + |x.timers|) == x.subs[i]; }
      assert CellOk(p, x.subs[i], Slot(x.me, true, i));
    }
  }

  lemma StopKeepsOwned(p: Platform, x: Exec, k: nat, p': Platform, t': Cell)
    requires CellsOk(p, x) && OwnedOk(p, x) && QuietOk(p, x)
    requires StopStepOf(p, x, k, p') && CellAt(x, k).id != NONE && CellAfterStop(p', CellAt(x, k), t')
    requires NONE !in p'.sys.tasks
    ensures OwnedOk(p', SetCellAt(x, k, t')) && QuietOk(p', SetCellAt(x, k, t'))
  {
    var x' := SetCellAt(x, k, t');
    var id0 := CellAt(x, k).id;
    forall id | id in p'.owner && p'.owner[id].exec == x.me
      ensures id in p'.sys.tasks && (p'.sys.tasks[id].alive ==> HasCell(x', p'.owner[id], id))
    {
      assert id in p.sys.tasks && (p.sys.tasks[id].alive ==> HasCell(x, p.owner[id], id));
    }
  }

  lemma StopKeepsPlaces(x: Exec, k: nat, t': Cell, ph: Phase)
    requires StoppedOk(x) && StoppedBelow(x, k) && k < Slots(x) && !t'.running
    requires x.phase == ClearFlag(k) || x.phase == SendStop(k) || x.phase == DeleteTask(k)
    requires (t'.id != NONE && (ph == SendStop(k) || ph == DeleteTask(k))) || (t'.id == NONE && ph == ClearFlag(k + 1))
    ensures var x' := SetCellAt(x, k, t').(phase := ph);
            StoppedOk(x') && StoppedBelow(x', k) && (ph.ClearFlag? ==> StoppedBelow(x', k + 1))
  {
    var x' := SetCellAt(x, k, t').(phase := ph);
    assert CellAt(x', k) == t';
    assert forall j :: 0 <= j < Slots(x) && j != k ==> CellAt(x', j) == CellAt(x, j);
  }

  ghost predicate StopTurn(p: Platform, x: Exec, k: nat, p': Platform, t': Cell)
  {
    && PlatformOk(p') && StopStepOf(p, x, k, p') && OnlyOwn(p, p', x.me)
    && CellAt(x, k).id != NONE && CellAfterStop(p', CellAt(x, k), t')
  }

  lemma PhaseIrrelevant(p: Platform, x: Exec, ph: Phase)
    requires CellsOk(p, x) && OwnedOk(p, x) && QuietOk(p, x)
    ensures var x' := x.(phase := ph); CellsOk(p, x') && OwnedOk(p, x') && QuietOk(p, x')
  {
    assert forall s, id :: HasCell(x.(phase := ph), s, id) <==> HasCell(x, s, id);
  }

  lemma StopOkAfter(p: Platform, x: Exec, k: nat)
    requires k < Slots(x) && StoppedBelow(x, k)
    requires
      || (x.phase == SendStop(k) && InStop(p, CellAt(x, k), CallbackProtocol.FlagCleared))
      || (x.phase == DeleteTask(k) && InStop(p, CellAt(x, k), CallbackProtocol.EventSent))
      || (x.phase == ClearFlag(k + 1) && StoppedBelow(x, k + 1))
    ensures StopOk(p, x)
  {}

  lemma SetCellReads(x: Exec, k: nat, t: Cell, ph: Phase)
    requires k < Slots(x)
    ensures var x' := SetCellAt(x, k, t).(phase := ph); CellAt(x', k) == t && Slots(x') == Slots(x)
  {}

  /** One step of stop() on the k-th task. */
  lemma StopKeepsExec(p: Platform, x: Exec, k: nat, p': Platform, t': Cell, ph: Phase)
    requires ExecInv(p, x) && StopTurn(p, x, k, p', t')
    requires x.phase == ClearFlag(k) || x.phase == SendStop(k) || x.phase == DeleteTask(k)
    requires
      || (t'.id != NONE && ph == SendStop(k) && InStop(p', t', CallbackProtocol.FlagCleared))
      || (t'.id != NONE && ph == DeleteTask(k) && InStop(p', t', CallbackProtocol.EventSent))
      || (t'.id == NONE && ph == ClearFlag(k + 1))
    ensures ExecInv(p', SetCellAt(x, k, t').(phase := ph))
  {
    NoTaskIsNone(p');
    StopKeepsCells(p, x, k, p', t');
    StopKeepsOwned(p, x, k, p', t');
    PhaseIrrelevant(p', SetCellAt(x, k, t'), ph);
    StopKeepsPlaces(x, k, t', ph);
    StopKeepsShape(p, x, k, p', t', ph);
    SetCellReads(x, k, t', ph);
    StopOkAfter(p', SetCellAt(x, k, t').(phase := ph), k);
  }

  lemma StopKeepsShape(p: Platform, x: Exec, k: nat, p': Platform, t': Cell, ph: Phase)
    requires ShapeOk(p, x) && PhaseOk(x) && StartedOk(p, x) && k < Slots(x) && !t'.running && p'.tps == p.tps
    requires x.phase == ClearFlag(k) || x.phase == SendStop(k) || x.phase == DeleteTask(k)
    requires ph == SendStop(k) || ph == DeleteTask(k) || ph == ClearFlag(k + 1)
    ensures var x' := SetCellAt(x, k, t').(phase := ph);
            ShapeOk(p', x') && PhaseOk(x') && StartedOk(p', x')
  {
    var x' := SetCellAt(x, k, t').(phase := ph);
    assert forall i :: 0 <= i < |x.timers| ==>
             x'.timers[i].channel == x.timers[i].channel && x'.timers[i].ticks == x.timers[i].ticks;
    assert forall i :: 0 <= i < |x.timers| ==> Ns(p', x', i) == Ns(p, x, i);
    assert forall i :: 0 <= i < |x.timers| && x'.timers[i].task.running ==> x.timers[i].task.running;
  }

  lemma StopKeepsChannel(p: Platform, x: Exec, k: nat, a: CallbackProtocol.Action, t': Cell, ph: Phase, c: int)
    requires Sized(p) && HolderInv(p, x) && k < Slots(x) && StopAction(a) && ValidChannel(c)
    requires x.phase == ClearFlag(k) || x.phase == SendStop(k) || x.phase == DeleteTask(k)
    requires ph == SendStop(k) || ph == DeleteTask(k) || ph == ClearFlag(k + 1)
    ensures var p', x' := Moved(p, TaskStep(CellAt(x, k).id, a)), SetCellAt(x, k, t').(phase := ph);
            ChannelState(p', x', c) && TargetOk(p', x', c)
  {
    var p', x' := Moved(p, TaskStep(CellAt(x, k).id, a)), SetCellAt(x, k, t').(phase := ph);
    assert ChannelState(p, x, c) && TargetOk(p, x, c);
    assert Ns(p', x', c) == Ns(p, x, c);
    if c in x.started {
      var m := x.started[c];
      GoKeepsLinked(p.sys, TaskStep(CellAt(x, k).id, a), c, m.task, m.at, Ns(p, x, c), m.sent);
    }
  }

  lemma StopKeepsHolder(p: Platform, x: Exec, k: nat, a: CallbackProtocol.Action, t': Cell, ph: Phase)
    requires Sized(p) && HolderInv(p, x) && k < Slots(x) && StopAction(a)
    requires x.phase == ClearFlag(k) || x.phase == SendStop(k) || x.phase == DeleteTask(k)
    requires ph == SendStop(k) || ph == DeleteTask(k) || ph == ClearFlag(k + 1)
    ensures HolderInv(Moved(p, TaskStep(CellAt(x, k).id, a)), SetCellAt(x, k, t').(phase := ph))
  {
    forall c | 0 <= c < CHANNELS
      ensures var p', x' := Moved(p, TaskStep(CellAt(x, k).id, a)), SetCellAt(x, k, t').(phase := ph);
              ChannelState(p', x', c) && TargetOk(p', x', c)
    {
      StopKeepsChannel(p, x, k, a, t', ph, c);
    }
  }

  /** A step of the destructor: who holds the device keeps what it owes its channels. */
  ghost predicate TeardownStep(p: Platform, x: Exec, p': Platform, x': Exec)
    requires Sized(p) && Sized(p')
  {
    && StepOk(p, x, p', x') && SameFlags(p, p') && x'.fd == x.fd
    && (x.fd >= 0 && HolderInv(p, x) ==> HolderInv(p', x'))
    && (x.fd < 0 ==> p'.sys.world == p.sys.world)
  }

  lemma StopStepKeeps(p: Platform, x: Exec, k: nat, a: CallbackProtocol.Action, t': Cell, ph: Phase)
    requires PlatformOk(p) && ExecInv(p, x) && k < Slots(x) && CellAt(x, k).id != NONE
    requires
      || (x.phase == ClearFlag(k) && CellAt(x, k).running && a.StopEnter? && ph == SendStop(k) &&
         t' == Cell(CellAt(x, k).id, false))
      || (x.phase == SendStop(k) && a.StopSend? && ph == DeleteTask(k) && t' == CellAt(x, k))
      || (x.phase == DeleteTask(k) && a.StopDelete? && ph == ClearFlag(k + 1) && t' == Cell(NONE, false))
    ensures TeardownStep(p, x, Moved(p, TaskStep(CellAt(x, k).id, a)), SetCellAt(x, k, t').(phase := ph))
    ensures StopStepOf(p, x, k, Moved(p, TaskStep(CellAt(x, k).id, a)))
  {
    StopStepIs(p, x, k, a);
    StopActionOnCell(p, x, k, a);
    StopKeepsExec(p, x, k, Moved(p, TaskStep(CellAt(x, k).id, a)), t', ph);
    if HolderInv(p, x) { StopKeepsHolder(p, x, k, a, t', ph); }
  }

  /** How far the task's stop() is after the step. */
  lemma StopActionOnCell(p: Platform, x: Exec, k: nat, a: CallbackProtocol.Action)
    requires PlatformOk(p) && CellsOk(p, x) && StopOk(p, x) && k < Slots(x) && CellAt(x, k).id != NONE
    requires
      || (x.phase == ClearFlag(k) && CellAt(x, k).running && a.StopEnter?)
      || (x.phase == SendStop(k) && a.StopSend?)
      || (x.phase == DeleteTask(k) && a.StopDelete?)
    ensures CellAt(x, k).id in p.sys.tasks
    ensures var t := CallbackProtocol.Act(p.sys.tasks[CellAt(x, k).id], a);
            && (a.StopEnter? ==> t.stop.FlagCleared?) && (a.StopSend? ==> t.stop.EventSent?) &&
               (a.StopDelete? ==> !t.alive)
    ensures a.StopSend? ==> !CellAt(x, k).running
  {
    assert CellOk(p, CellAt(x, k), SlotAt(x, k));
    assert TaskOk(p, CellAt(x, k).id);
    StopActionEffect(p.sys.tasks[CellAt(x, k).id], a);
  }

  lemma SameCell(x: Exec, k: nat)
    requires k < Slots(x)
    ensures SetCellAt(x, k, CellAt(x, k)) == x
  {
    if k < |x.timers| {
      assert x.timers[k := x.timers[k]] == x.timers;
    } else {
      assert x.subs[k - |x.timers| := x.subs[k - |x.timers|]] == x.subs;
    }
  }

  lemma SkipPlaces(p: Platform, x: Exec, k: nat)
    requires ShapeOk(p, x) && PhaseOk(x) && StartedOk(p, x) && StoppedOk(x) && StoppedBelow(x, k)
    requires x.phase == ClearFlag(k) && k < Slots(x) && !CellAt(x, k).running
    ensures var x' := x.(phase := ClearFlag(k + 1));
            ShapeOk(p, x') && PhaseOk(x') && StartedOk(p, x') && StoppedOk(x') && StoppedBelow(x', k + 1)
  {
    var x' := x.(phase := ClearFlag(k + 1));
    assert CellAt(x, k) == Cell(NONE, false);
    assert forall j :: 0 <= j < Slots(x) ==> CellAt(x', j) == CellAt(x, j);
    assert forall i :: 0 <= i < CHANNELS ==> Ns(p, x', i) == Ns(p, x, i);
  }

  lemma SkipStopped(p: Platform, x: Exec, k: nat)
    requires PlatformOk(p) && ExecInv(p, x) && x.phase == ClearFlag(k) && k < Slots(x) && !CellAt(x, k).running
    ensures TeardownStep(p, x, p, x.(phase := ClearFlag(k + 1)))
  {
    SkipPlaces(p, x, k);
    PhaseIrrelevant(p, x, ClearFlag(k + 1));
    if x.fd >= 0 && HolderInv(p, x) { HolderMovesDown(p, x, ClearFlag(k + 1), p); }
  }

  /** The same channels are owed when the phase moves on without stopping one. */
  lemma HolderMovesDown(p: Platform, x: Exec, ph: Phase, p': Platform)
    requires Sized(p) && HolderInv(p, x) && p' == p && TurnOk(p, x.(phase := ph))
    requires ph.ClearFlag? || ph == StopChannel(0) || (ph == Closing(0) && x.phase == StopChannel(|x.timers|))
    requires x.phase.ClearFlag? || ph == Closing(0)
    requires forall j :: j in x.started ==> j < |x.timers|
    ensures HolderInv(p', x.(phase := ph))
  {
    var x' := x.(phase := ph);
    forall c | 0 <= c < CHANNELS
      ensures ChannelState(p, x', c) && TargetOk(p, x', c)
    {
      assert ChannelState(p, x, c) && TargetOk(p, x, c);
      assert Ns(p, x', c) == Ns(p, x, c);
    }
  }

  /** From here on every cell is empty. */
  lemma TeardownMoves(p: Platform, x: Exec, ph: Phase, fd: int)
    requires ExecInv(p, x) && TearingDown(x.phase) && StoppedBelow(x, Slots(x))
    requires (ph.StopChannel? || ph.Closing? || ph.Gone?) && PhaseOk(x.(phase := ph, fd := fd))
    ensures ExecInv(p, x.(phase := ph, fd := fd))
  {
    var x1 := x.(phase := ph);
    var x' := x1.(fd := fd);
    assert forall j :: 0 <= j < Slots(x) ==> CellAt(x', j) == CellAt(x, j);
    assert forall i :: 0 <= i < |x.timers| ==> Ns(p, x', i) == Ns(p, x, i);
    assert forall s, id :: HasCell(x', s, id) <==> HasCell(x, s, id);
    assert forall i :: 0 <= i < |x.timers| ==> x.timers[i].task == CellAt(x, i);
  }

  lemma AllTasksStopped(p: Platform, x: Exec, k: nat)
    requires PlatformOk(p) && ExecInv(p, x) && x.phase == ClearFlag(k) && k >= Slots(x)
    ensures TeardownStep(p, x, p, ClearFlagStep(p, x, k).1)
  {
    var ph := if x.fd < 0 then Gone else StopChannel(0);
    assert PhaseOk(x.(phase := ph));
    TeardownMoves(p, x, ph, x.fd);
    if x.fd >= 0 && HolderInv(p, x) { HolderMovesDown(p, x, ph, p); }
  }

  lemma ClearFlagKeeps(p: Platform, x: Exec, k: nat)
    requires PlatformOk(p) && ExecInv(p, x) && x.phase == ClearFlag(k)
    ensures var (p', x') := ClearFlagStep(p, x, k); TeardownStep(p, x, p', x')
  {
    if k >= Slots(x) {
      AllTasksStopped(p, x, k);
    } else if !CellAt(x, k).running {
      SkipStopped(p, x, k);
    } else {
      assert CellOk(p, CellAt(x, k), SlotAt(x, k));
      StopStepKeeps(p, x, k, CallbackProtocol.StopEnter, Cell(CellAt(x, k).id, false), SendStop(k));
    }
  }

  lemma StoppingCell(p: Platform, x: Exec, k: nat)
    requires PhaseOk(x) && StopOk(p, x) && (x.phase == SendStop(k) || x.phase == DeleteTask(k))
    ensures k < Slots(x) && CellAt(x, k).id != NONE
  {}

  lemma SendStopIs(p: Platform, x: Exec, k: nat)
    requires Sized(p) && k < Slots(x) && x.phase == SendStop(k)
    ensures SendStopStep(p, x, k) == (Moved(p, TaskStep(CellAt(x, k).id, CallbackProtocol.StopSend)),
                                      SetCellAt(x, k, CellAt(x, k)).(phase := DeleteTask(k)))
  {
    SameCell(x, k);
  }

  lemma SendStopKeeps(p: Platform, x: Exec, k: nat)
    requires PlatformOk(p) && ExecInv(p, x) && x.phase == SendStop(k)
    ensures var (p', x') := SendStopStep(p, x, k); TeardownStep(p, x, p', x')
  {
    StoppingCell(p, x, k);
    SendStopIs(p, x, k);
    StopStepKeeps(p, x, k, CallbackProtocol.StopSend, CellAt(x, k), DeleteTask(k));
  }

  lemma DeleteTaskIs(p: Platform, x: Exec, k: nat)
    requires Sized(p) && k < Slots(x)
    ensures DeleteTaskStep(p, x, k) == (Moved(p, TaskStep(CellAt(x, k).id, CallbackProtocol.StopDelete)),
                                        SetCellAt(x, k, Cell(NONE, false)).(phase := ClearFlag(k + 1)))
  {}

  lemma DeleteTaskKeeps(p: Platform, x: Exec, k: nat)
    requires PlatformOk(p) && ExecInv(p, x) && x.phase == DeleteTask(k)
    ensures var (p', x') := DeleteTaskStep(p, x, k); TeardownStep(p, x, p', x')
  {
    StoppingCell(p, x, k);
    DeleteTaskIs(p, x, k);
    StopStepKeeps(p, x, k, CallbackProtocol.StopDelete, Cell(NONE, false), ClearFlag(k + 1));
  }

  // ---- teardown_timer_driver ----

  lemma StopChannelAllowed(p: Platform, x: Exec, i: nat, inp: Input)
    requires PlatformOk(p) && ExecInv(p, x) && HolderInv(p, x) && x.phase == StopChannel(i) && i < |x.timers|
    requires ClockOk(p, inp)
    ensures ValidChannel(i) && x.timers[i].channel == i
    ensures Allowed(p.sys.world, Ioctl(Stop(i), p.tps, inp.now, inp.armNow))
    ensures CellOk(p, x.timers[i].task, Slot(x.me, false, i))
  {}

  lemma StoppedChannels(p: Platform, x: Exec, i: nat, inp: Input)
    requires PlatformOk(p) && ExecInv(p, x) && HolderInv(p, x) && x.phase == StopChannel(i) && i < |x.timers|
    requires ClockOk(p, inp)
    requires ValidChannel(i)
    ensures HolderInv(Moved(p, DriverOp(Ioctl(Stop(i), p.tps, inp.now, inp.armNow))), x.(phase := StopChannel(i + 1)))
  {
    var op := Ioctl(Stop(i), p.tps, inp.now, inp.armNow);
    var p', x' := Moved(p, DriverOp(op)), x.(phase := StopChannel(i + 1));
    StopChannelAllowed(p, x, i, inp);
    forall c | 0 <= c < CHANNELS
      ensures ChannelState(p', x', c) && TargetOk(p', x', c)
    {
      assert TargetOk(p, x, c) && Ns(p', x', c) == Ns(p', x, c);
      if c != i { OtherChannelsKept(p, x, op, i, c); }
    }
  }

  lemma StopChannelKeeps(p: Platform, x: Exec, i: nat, inp: Input)
    requires PlatformOk(p) && ExecInv(p, x) && HolderInv(p, x) && x.phase == StopChannel(i) && ClockOk(p, inp)
    ensures var (p', x') := StopChannelStep(p, x, i, inp); TeardownStep(p, x, p', x')
  {
    if i >= |x.timers| {
      TeardownMoves(p, x, Closing(0), x.fd);
      HolderMovesDown(p, x, Closing(0), p);
    } else {
      var op := Ioctl(Stop(i), p.tps, inp.now, inp.armNow);
      StopChannelAllowed(p, x, i, inp);
      TasksAsTheyWere(p, x, op);
      StoppedChannels(p, x, i, inp);
      IoctlKeepsFlags(p, Stop(i), inp.now, inp.armNow);
      TeardownMoves(Moved(p, DriverOp(op)), x, StopChannel(i + 1), x.fd);
    }
  }

  lemma StoreKeepsTargets(p: Platform, x: Exec, k: nat)
    requires Sized(p) && HolderInv(p, x) && x.phase == Closing(k) && k < STORES
    requires forall j :: j in x.started ==> j < |x.timers|
    ensures ChannelsHeld(Moved(p, DriverOp(CloseStore(k))), x)
  {
    var p' := Moved(p, DriverOp(CloseStore(k)));
    forall c | 0 <= c < CHANNELS
      ensures ChannelState(p', x, c) && TargetOk(p', x, c)
    {
      assert ChannelState(p, x, c) && TargetOk(p, x, c);
    }
  }

  lemma StoreFlags(p: Platform, k: nat)
    requires Sized(p) && k < STORES
    ensures var d, p' := p.sys.world.drv, Moved(p, DriverOp(CloseStore(k)));
            var d' := p'.sys.world.drv;
            && p'.handler == p.handler && d'.isrInstalled == d.isrInstalled
            && (k + 1 < STORES ==> p'.sys.world.closing == k + 1 && d'.isOpen == d.isOpen)
  {}

  lemma StoreDone(p: Platform, x: Exec, p': Platform, k: nat)
    requires PlatformOk(p') && ExecInv(p', x) && OnlyOwn(p, p', x.me) && ChannelsHeld(p', x)
    requires x.phase == Closing(k) && k + 1 < STORES && p'.sys.world.closing == k + 1
    ensures StepOk(p, x, p', x.(phase := Closing(k + 1))) && HolderInv(p', x.(phase := Closing(k + 1)))
  {
    TeardownMoves(p', x, Closing(k + 1), x.fd);
    ClosingHolds(p', x, k);
  }

  lemma StoreAllowed(p: Platform, x: Exec, k: nat)
    requires PlatformOk(p) && ExecInv(p, x) && HolderInv(p, x) && x.phase == Closing(k)
    ensures Allowed(p.sys.world, CloseStore(k)) && forall j :: j in x.started ==> j < |x.timers|
  {}

  /** A store of rtss_close other than the last. */
  lemma ClosingGoesOn(p: Platform, x: Exec, k: nat)
    requires PlatformOk(p) && ExecInv(p, x) && HolderInv(p, x) && x.phase == Closing(k) && k + 1 < STORES
    ensures var (p', x') := ClosingStep(p, x, k); HolderStep(p, x, p', x')
  {
    StoreAllowed(p, x, k);
    TasksAsTheyWere(p, x, CloseStore(k));
    StoreFlags(p, k);
    StoreKeepsTargets(p, x, k);
    StoreDone(p, x, Moved(p, DriverOp(CloseStore(k))), k);
  }

  /** The last store of rtss_close leaves the device closed and quiet. */
  lemma ClosingEnds(p: Platform, x: Exec, k: nat)
    requires PlatformOk(p) && ExecInv(p, x) && HolderInv(p, x) && x.phase == Closing(k) && k + 1 == STORES
    ensures var (p', x') := ClosingStep(p, x, k);
            && StepOk(p, x, p', x') && x' == x.(fd := -1, phase := Gone)
            && Vacant(p') && Quiet(p'.sys.world.drv)
            && p'.handler == p.handler && p'.sys.world.drv.isrInstalled == p.sys.world.drv.isrInstalled
  {
    var p' := Moved(p, DriverOp(CloseStore(k)));
    TasksAsTheyWere(p, x, CloseStore(k));
    StoreFlags(p, k);
    TeardownMoves(p', x, Gone, -1);
    ClosedIsVacant(p);
  }

  lemma ClosedIsVacant(p: Platform)
    requires PlatformOk(p) && p.sys.world.closing == STORES - 1
    ensures var p' := Moved(p, DriverOp(CloseStore(STORES - 1))); Vacant(p') && Quiet(p'.sys.world.drv)
  {
    LastStoreQuiets(p.sys.world);
  }

  lemma ClosingHolds(p: Platform, x: Exec, k: nat)
    requires Sized(p) && ChannelsHeld(p, x) && x.phase == Closing(k) && k + 1 < STORES && p.sys.world.closing == k + 1
    requires forall j :: j in x.started ==> j < |x.timers|
    ensures HolderInv(p, x.(phase := Closing(k + 1)))
  {
    var x' := x.(phase := Closing(k + 1));
    forall c | 0 <= c < CHANNELS
      ensures ChannelState(p, x', c) && TargetOk(p, x', c)
    {
      assert ChannelState(p, x, c) && TargetOk(p, x, c);
    }
  }
}
