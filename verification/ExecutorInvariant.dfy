/** What holds of an executor between any two of its steps, and that interrupts, callback tasks and
    its own steps keep it. */
module ExecutorInvariant {
  import opened TimerModel
  import opened LoadArithmetic
  import opened TimerRuns
  import opened EndToEnd
  import opened ExecutorModel
  import CallbackProtocol

  // ---- The platform ----

  ghost predicate TaskOk(p: Platform, id: TaskId)
    requires id in p.sys.tasks
  {
    NONE < id < p.nextId && CallbackProtocol.TaskInv(p.sys.tasks[id])
  }

  ghost predicate PlatformOk(p: Platform)
  {
    && Inv(p.sys.world) && p.nextId > NONE
    && (forall id :: id in p.sys.tasks ==> TaskOk(p, id))
    && (forall id :: id in p.owner ==> id in p.sys.tasks)
  }

  // ---- One executor ----

  /** The period timer i asks for, in nanoseconds. */
  function Ns(p: Platform, x: Exec, i: int): int
  {
    if 0 <= i < |x.timers| && p.tps > 0 then TicksToNs(x.timers[i].ticks, p.tps) else 0
  }

  predicate TearingDown(ph: Phase)
  {
    ph.ClearFlag? || ph.SendStop? || ph.DeleteTask? || ph.StopChannel? || ph.Closing? || ph.Gone?
  }

  predicate InOpen(ph: Phase)
  {
    ph.TestInstalled? || ph.CallInstall? || ph.StoreInstalled? || ph.StoreOpen?
  }

  function Slots(x: Exec): nat { |x.timers| + |x.subs| }

  ghost predicate ShapeOk(p: Platform, x: Exec)
  {
    && x.nextChannel == |x.timers| <= CHANNELS
    && (forall i :: 0 <= i < |x.timers| ==> x.timers[i].channel == i && Ns(p, x, i) <= MAX_DELTA)
    && x.handled <= |x.timers|
    && (forall j :: j in x.started ==> 0 <= j < x.handled)
  }

  ghost predicate PhaseOk(x: Exec)
  {
    match x.phase
    case Built => x.fd < 0 && x.handled == 0
    case StartTask(i) => i <= |x.timers| && x.fd < 0 && x.handled == 0
    case ModeOf => x.handled == 0 && x.fd >= 0
    case EnsureTask(i) => i <= |x.timers| && x.handled == i && x.fd >= 0
    case PeriodOf(i) => i < |x.timers| && x.handled == i && x.fd >= 0 && x.timers[i].task.running
    case TargetOf(i) => i < |x.timers| && x.handled == i && x.fd >= 0 && x.timers[i].task.running
    case LaunchOf(i) => i < |x.timers| && x.handled == i && x.fd >= 0 && x.timers[i].task.running
    case Spinning => x.fd < 0 ==> x.handled == 0
    case ClearFlag(k) => k <= Slots(x) && (x.fd < 0 ==> x.handled == 0)
    case SendStop(k) => k < Slots(x) && (x.fd < 0 ==> x.handled == 0)
    case DeleteTask(k) => k < Slots(x) && (x.fd < 0 ==> x.handled == 0)
    case StopChannel(i) => i <= |x.timers| && x.fd >= 0
    case Closing(k) => k < STORES && x.fd >= 0
    case Gone => x.fd < 0
    case _ => x.fd < 0 && x.handled == 0
  }

  /** An id in a cell is that of a task created for it; a running cell's task has not been stopped. */
  ghost predicate CellOk(p: Platform, t: Cell, slot: Slot)
  {
    && (t.id != NONE ==> t.id in p.owner && p.owner[t.id] == slot && t.id in p.sys.tasks)
    && (t.running ==> t.id != NONE && t.id in p.sys.tasks && p.sys.tasks[t.id].stop.Idle?)
  }

  ghost predicate CellsOk(p: Platform, x: Exec)
  {
    && (forall i :: 0 <= i < |x.timers| ==> CellOk(p, x.timers[i].task, Slot(x.me, false, i)))
    && (forall i :: 0 <= i < |x.subs| ==> CellOk(p, x.subs[i], Slot(x.me, true, i)))
  }

  /** A cell keeps its id without running only while its own stop() is under way. */
  ghost predicate StoppedOk(x: Exec)
  {
    forall k :: 0 <= k < Slots(x) ==>
      !CellAt(x, k).running && CellAt(x, k).id != NONE ==> x.phase == SendStop(k) || x.phase == DeleteTask(k)
  }

  ghost predicate StopOk(p: Platform, x: Exec)
  {
    match x.phase
    case ClearFlag(k) => StoppedBelow(x, k)
    case SendStop(k) => StoppedBelow(x, k) && (k < Slots(x) ==> InStop(p, CellAt(x, k), CallbackProtocol.FlagCleared))
    case DeleteTask(k) => StoppedBelow(x, k) && (k < Slots(x) ==> InStop(p, CellAt(x, k), CallbackProtocol.EventSent))
    case StopChannel(_) => StoppedBelow(x, Slots(x))
    case Closing(_) => StoppedBelow(x, Slots(x))
    case Gone => StoppedBelow(x, Slots(x))
    case _ => true
  }

  ghost predicate InStop(p: Platform, t: Cell, at: CallbackProtocol.StopPc)
  {
    !t.running && t.id != NONE && t.id in p.sys.tasks && p.sys.tasks[t.id].stop == at
  }

  ghost predicate StoppedBelow(x: Exec, k: nat)
  {
    forall j :: 0 <= j < k && j < Slots(x) ==> CellAt(x, j) == Cell(NONE, false)
  }

  predicate HasCell(x: Exec, slot: Slot, id: TaskId)
  {
    if slot.sub then slot.index < |x.subs| && x.subs[slot.index].id == id
    else slot.index < |x.timers| && x.timers[slot.index].task.id == id
  }

  /** Every task started for this executor that still lives is in its cell. */
  ghost predicate OwnedOk(p: Platform, x: Exec)
  {
    forall id :: id in p.owner && p.owner[id].exec == x.me ==>
      id in p.sys.tasks && (p.sys.tasks[id].alive ==> HasCell(x, p.owner[id], id))
  }

  /** A timer's task gets no event before its channel is started. */
  ghost predicate QuietOk(p: Platform, x: Exec)
  {
    forall i :: 0 <= i < |x.timers| && i !in x.started && x.timers[i].task.id in p.sys.tasks ==>
      p.sys.tasks[x.timers[i].task.id].sent == p.sys.tasks[x.timers[i].task.id].stopSent
  }

  /** Of the timers that had their turn, those started are the ones with a running task and a positive
      period. */
  ghost predicate StartedOk(p: Platform, x: Exec)
  {
    && (forall j :: 0 <= j < x.handled && j < |x.timers| && x.timers[j].task.running && Ns(p, x, j) > 0 ==>
       j in x.started)
    && (forall j :: j in x.started && 0 <= j < |x.timers| ==>
          && Ns(p, x, j) > 0
          && (!TearingDown(x.phase) ==> x.timers[j].task == Cell(x.started[j].task, true)))
  }

  ghost predicate ExecInv(p: Platform, x: Exec)
  {
    && ShapeOk(p, x) && PhaseOk(x) && CellsOk(p, x) && StoppedOk(x) && StopOk(p, x)
    && OwnedOk(p, x) && QuietOk(p, x) && StartedOk(p, x)
  }

  // ---- The executor that holds the device ----

  /** Channels below this one have been stopped by the teardown. */
  function Stopped(x: Exec): nat
  {
    match x.phase
    case StopChannel(i) => i
    case Closing(_) => |x.timers|
    case _ => 0
  }

  ghost predicate ChannelState(p: Platform, x: Exec, c: int)
    requires Sized(p) && ValidChannel(c)
  {
    if c in x.started && c >= Stopped(x)
    then Linked(p.sys, c, x.started[c].task, x.started[c].at, Ns(p, x, c), x.started[c].sent)
    else !p.sys.world.drv.channels[c].active
  }

  ghost predicate TargetOk(p: Platform, x: Exec, c: int)
    requires Sized(p) && ValidChannel(c)
  {
    var t := p.sys.world.drv.channels[c].target;
    t != NONE ==> t in p.owner && p.owner[t] == Slot(x.me, false, c)
  }

  ghost predicate TurnOk(p: Platform, x: Exec)
    requires Sized(p)
  {
    match x.phase
    case TargetOf(i) => ValidChannel(i) ==> p.sys.world.drv.channels[i].period == Ns(p, x, i) && p.tps > 0
    case LaunchOf(i) =>
      ValidChannel(i) && i < |x.timers| ==>
        p.sys.world.drv.channels[i].period == Ns(p, x, i) && p.tps > 0 &&
          p.sys.world.drv.channels[i].target == x.timers[i].task.id
    case _ => true
  }

  ghost predicate ChannelsHeld(p: Platform, x: Exec)
    requires Sized(p)
  {
    forall c :: 0 <= c < CHANNELS ==> ChannelState(p, x, c) && TargetOk(p, x, c)
  }

  /** Every channel it has started and not stopped is linked to its own task alone, with its own period,
      since its own START; no other channel is active. */
  ghost predicate HolderInv(p: Platform, x: Exec)
    requires Sized(p)
  {
    && ChannelsHeld(p, x) && TurnOk(p, x)
    && p.sys.world.closing == (if x.phase.Closing? then x.phase.k else 0)
  }

  /** Nobody holds the device. */
  ghost predicate Vacant(p: Platform)
    requires Sized(p)
  {
    && p.sys.world.closing == 0
    && forall c :: 0 <= c < CHANNELS ==>
         !p.sys.world.drv.channels[c].active && p.sys.world.drv.channels[c].target == NONE
  }

  // ---- What other parties may do ----

  ghost predicate SameTask(t: Task, t': Task)
  {
    t'.stop == t.stop && (t'.alive ==> t.alive)
  }

  /** The ids of executor x are the same, and their tasks have at most taken steps of their own. */
  ghost predicate Untouched(p: Platform, p': Platform, x: Exec)
  {
    && p'.tps == p.tps
    && (forall id :: id in p.owner && p.owner[id].exec == x.me ==>
          id in p'.owner && p'.owner[id] == p.owner[id]
          && (id in p.sys.tasks ==> id in p'.sys.tasks && SameTask(p.sys.tasks[id], p'.sys.tasks[id])))
    && (forall id :: id in p'.owner && p'.owner[id].exec == x.me ==> id in p.owner && p.owner[id].exec == x.me)
    && (forall i :: 0 <= i < |x.timers| && i !in x.started ==>
          var id := x.timers[i].task.id;
          id in p.sys.tasks && id in p'.sys.tasks ==>
            p'.sys.tasks[id].sent - p'.sys.tasks[id].stopSent == p.sys.tasks[id].sent - p.sys.tasks[id].stopSent)
  }

  lemma UntouchedKeepsCell(p: Platform, p': Platform, x: Exec, t: Cell, slot: Slot)
    requires Untouched(p, p', x) && CellOk(p, t, slot) && slot.exec == x.me
    ensures CellOk(p', t, slot)
  {}

  lemma UntouchedKeepsExec(p: Platform, p': Platform, x: Exec)
    requires ExecInv(p, x) && Untouched(p, p', x) && NONE !in p'.sys.tasks
    ensures ExecInv(p', x)
  {
    forall i | 0 <= i < |x.timers|
      ensures CellOk(p', x.timers[i].task, Slot(x.me, false, i))
    {
      UntouchedKeepsCell(p, p', x, x.timers[i].task, Slot(x.me, false, i));
    }
    forall i | 0 <= i < |x.subs|
      ensures CellOk(p', x.subs[i], Slot(x.me, true, i))
    {
      UntouchedKeepsCell(p, p', x, x.subs[i], Slot(x.me, true, i));
    }
    UntouchedKeepsStop(p, p', x);
  }

  lemma UntouchedKeepsStop(p: Platform, p': Platform, x: Exec)
    requires CellsOk(p, x) && StopOk(p, x) && Untouched(p, p', x)
    ensures StopOk(p', x)
  {
    if (x.phase.SendStop? || x.phase.DeleteTask?) && x.phase.k < Slots(x) {
      var k := x.phase.k;
      assert CellOk(p, CellAt(x, k), SlotAt(x, k));
    }
  }

  lemma MoveKeepsPlatform(p: Platform, m: EndToEnd.Move)
    requires PlatformOk(p) && !m.NewTask? && (m.DriverOp? ==> Allowed(p.sys.world, m.op))
    ensures PlatformOk(Moved(p, m))
  {
    var p' := Moved(p, m);
    match m
    case DriverOp(op) =>
      StepKeepsInv(p.sys.world, op);
      forall id
        ensures (id in p'.sys.tasks <==> id in p.sys.tasks) && (id in p'.sys.tasks ==> TaskOk(p', id))
      {
        DeliverKeepsTasks(p.sys.tasks, SentBy(p.sys.world.drv, op), id);
        if id in p.sys.tasks { assert TaskOk(p, id); }
      }
    case TaskStep(id, a) =>
      if id in p.sys.tasks {
        assert TaskOk(p, id);
        CallbackProtocol.ActKeepsInv(p.sys.tasks[id], a);
      }
      forall other | other in p'.sys.tasks
        ensures TaskOk(p', other)
      {
        assert TaskOk(p, other);
      }
  }

  /** No active channel sends to a task of x whose channel has not been started. */
  ghost predicate NotAimed(p: Platform, x: Exec)
    requires Sized(p)
  {
    forall c, i :: 0 <= c < CHANNELS && 0 <= i < |x.timers| && i !in x.started && x.timers[i].task.id != NONE ==>
      p.sys.world.drv.channels[c].active ==> p.sys.world.drv.channels[c].target != x.timers[i].task.id
  }

  lemma HolderAims(p: Platform, h: Exec, x: Exec)
    requires Sized(p) && HolderInv(p, h) && ExecInv(p, x) && (h.me == x.me ==> h == x)
    ensures NotAimed(p, x)
  {
    forall c, i | 0 <= c < CHANNELS && 0 <= i < |x.timers| && i !in x.started && x.timers[i].task.id != NONE
                  && p.sys.world.drv.channels[c].active
      ensures p.sys.world.drv.channels[c].target != x.timers[i].task.id
    {
      assert ChannelState(p, h, c) && TargetOk(p, h, c);
      assert CellOk(p, x.timers[i].task, Slot(x.me, false, i));
    }
  }

  lemma InterruptTouchesNobody(p: Platform, x: Exec, now: int, armNow: int)
    requires PlatformOk(p) && ExecInv(p, x) && NotAimed(p, x)
    ensures Untouched(p, Moved(p, DriverOp(IsrAt(now, armNow))), x)
  {
    var p' := Moved(p, DriverOp(IsrAt(now, armNow)));
    var d := p.sys.world.drv;
    forall id
      ensures id in p'.sys.tasks <==> id in p.sys.tasks
      ensures id in p.sys.tasks ==> SameTask(p.sys.tasks[id], p'.sys.tasks[id])
    {
      DeliverKeepsTasks(p.sys.tasks, IsrEvents(d.channels, now), id);
    }
    forall i | 0 <= i < |x.timers| && i !in x.started && x.timers[i].task.id in p.sys.tasks
      ensures p'.sys.tasks[x.timers[i].task.id] == p.sys.tasks[x.timers[i].task.id]
    {
      var id := x.timers[i].task.id;
      assert TaskOk(p, id);
      NothingDelivered(p.sys.tasks, d.channels, now, id);
    }
  }

  /** What callback tasks and publishers do: a step of some task's run_loop, or an event to the task of a
      subscription. */
  ghost predicate TaskMove(p: Platform, m: EndToEnd.Move)
  {
    m.TaskStep? && (CallbackProtocol.IsLoopStep(m.a) || (m.a.Send? && m.id in p.owner && p.owner[m.id].sub))
  }

  lemma TaskMoveKeepsLives(p: Platform, m: EndToEnd.Move, id: TaskId)
    requires PlatformOk(p) && TaskMove(p, m) && id in p.sys.tasks
    ensures id in Moved(p, m).sys.tasks && SameTask(p.sys.tasks[id], Moved(p, m).sys.tasks[id])
  {}

  /** It sends nothing to a timer's task. */
  lemma TaskMoveSends(p: Platform, m: EndToEnd.Move, id: TaskId)
    requires PlatformOk(p) && TaskMove(p, m) && id in p.sys.tasks && id in p.owner && !p.owner[id].sub
    ensures id in Moved(p, m).sys.tasks
    ensures var t, t' := p.sys.tasks[id], Moved(p, m).sys.tasks[id]; t'.sent - t'.stopSent == t.sent - t.stopSent
  {
    if !m.a.Send? { TaskStepSends(p.sys.tasks[id], m.a); }
  }

  lemma TaskMoveTouchesNobody(p: Platform, x: Exec, m: EndToEnd.Move)
    requires PlatformOk(p) && CellsOk(p, x) && TaskMove(p, m)
    ensures Untouched(p, Moved(p, m), x)
  {
    var p' := Moved(p, m);
    forall id | id in p.sys.tasks
      ensures id in p'.sys.tasks && SameTask(p.sys.tasks[id], p'.sys.tasks[id])
    {
      TaskMoveKeepsLives(p, m, id);
    }
    forall i | 0 <= i < |x.timers| && i !in x.started && x.timers[i].task.id in p.sys.tasks
      ensures x.timers[i].task.id in p'.sys.tasks
      ensures p'.sys.tasks[x.timers[i].task.id].sent - p'.sys.tasks[x.timers[i].task.id].stopSent
           == p.sys.tasks[x.timers[i].task.id].sent - p.sys.tasks[x.timers[i].task.id].stopSent
    {
      assert CellOk(p, x.timers[i].task, Slot(x.me, false, i));
      assert TaskOk(p, x.timers[i].task.id);
      TaskMoveSends(p, m, x.timers[i].task.id);
    }
  }

  ghost predicate OutsideMove(p: Platform, m: EndToEnd.Move)
  {
    TaskMove(p, m) || (m.DriverOp? && m.op.IsrAt? && Allowed(p.sys.world, m.op))
  }

  lemma OutsideKeepsChannel(p: Platform, h: Exec, m: EndToEnd.Move, c: int)
    requires Sized(p) && HolderInv(p, h) && OutsideMove(p, m) && ValidChannel(c)
    ensures ChannelState(Moved(p, m), h, c) && TargetOk(Moved(p, m), h, c)
    ensures var chs, chs' := p.sys.world.drv.channels, Moved(p, m).sys.world.drv.channels;
            chs'[c].period == chs[c].period && chs'[c].target == chs[c].target
  {
    assert ChannelState(p, h, c) && TargetOk(p, h, c);
    if c in h.started && c >= Stopped(h) {
      var k := h.started[c];
      GoKeepsLinked(p.sys, m, c, k.task, k.at, Ns(p, h, c), k.sent);
      assert Ns(Moved(p, m), h, c) == Ns(p, h, c);
    }
  }

  lemma OutsideKeepsHolder(p: Platform, h: Exec, m: EndToEnd.Move)
    requires PlatformOk(p) && HolderInv(p, h) && OutsideMove(p, m)
    ensures HolderInv(Moved(p, m), h)
  {
    forall c | 0 <= c < CHANNELS
      ensures ChannelState(Moved(p, m), h, c) && TargetOk(Moved(p, m), h, c)
      ensures Moved(p, m).sys.world.drv.channels[c].period == p.sys.world.drv.channels[c].period
      ensures Moved(p, m).sys.world.drv.channels[c].target == p.sys.world.drv.channels[c].target
    {
      OutsideKeepsChannel(p, h, m, c);
    }
  }

  lemma OutsideKeepsVacant(p: Platform, m: EndToEnd.Move)
    requires Sized(p) && Vacant(p) && OutsideMove(p, m)
    ensures Vacant(Moved(p, m))
  {}
}
