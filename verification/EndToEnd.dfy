/** The timer driver composed with the callback tasks it wakes. */
module EndToEnd {
  import opened TimerModel
  import opened TimerRuns
  import opened EventGrid
  import opened ChannelRuns
  import opened CallbackProtocol

  /** Tasks by their RTEMS id.  An id that is not in the map names no task. */
  datatype System = System(world: World, tasks: map<TaskId, Task>)

  /** An operation of the driver; a step of a task, of its stop() or of a sender other than the driver;
      a task newly created and started. */
  datatype Move = DriverOp(op: Op) | TaskStep(id: TaskId, a: Action) | NewTask(id: TaskId, t: Task)

  function Deliver(tasks: map<TaskId, Task>, evs: seq<Event>): map<TaskId, Task>
  {
    if evs == [] then tasks
    else
      var n := |evs| - 1;
      var before := Deliver(tasks, evs[..n]);
      if evs[n].task in before then before[evs[n].task := SendTo(before[evs[n].task])] else before
  }

  /** The events an operation of the driver sends. */
  function SentBy(d: Driver, op: Op): seq<Event>
  {
    if op.IsrAt? then IsrEvents(d.channels, op.now) else []
  }

  function Go(s: System, m: Move): (r: System)
    requires WellSized(s.world.drv)
    ensures WellSized(r.world.drv)
  {
    match m
    case DriverOp(op) => System(Step(s.world, op), Deliver(s.tasks, SentBy(s.world.drv, op)))
    case TaskStep(id, a) => if id in s.tasks then s.(tasks := s.tasks[id := Act(s.tasks[id], a)]) else s
    case NewTask(id, t) => s.(tasks := s.tasks[id := t])
  }

  function Goes(s: System, ms: seq<Move>): (r: System)
    requires WellSized(s.world.drv)
    ensures WellSized(r.world.drv)
    decreases ms
  {
    if ms == [] then s else Goes(Go(s, ms[0]), ms[1..])
  }

  /** The operation does not take channel c from task id, nor point another channel at it. */
  predicate KeepsTarget(op: Op, c: int, id: TaskId)
  {
    op.Ioctl? && op.cmd.SetTask? ==> op.cmd.channel != c && op.cmd.task != id
  }

  /** Channel c keeps its period and its task, and events come to the task from the driver only.  Any
      ioctl on the other channels is fine, also a new SET_TASK and START. */
  ghost predicate Undisturbing(s: System, c: int, id: TaskId, m: Move)
  {
    match m
    case DriverOp(op) => Allowed(s.world, op) && LeavesAlone(op, c) && KeepsTarget(op, c, id)
    case TaskStep(other, a) => other == id ==> !a.Send?
    case NewTask(other, _) => other != id
  }

  ghost predicate Undisturbed(s: System, c: int, id: TaskId, ms: seq<Move>)
    requires WellSized(s.world.drv)
    decreases ms
  {
    ms != [] ==> Undisturbing(s, c, id, ms[0]) && Undisturbed(Go(s, ms[0]), c, id, ms[1..])
  }

  ghost predicate OnlyChannel(chs: seq<Channel>, c: int, id: TaskId)
  {
    0 <= c < |chs| && id != NONE && forall i :: 0 <= i < |chs| ==> (chs[i].target == id <==> i == c)
  }

  /** A task none of whose channels is due gets nothing. */
  lemma {:induction false} NothingDelivered(tasks: map<TaskId, Task>, chs: seq<Channel>, now: int, id: TaskId)
    requires id in tasks && forall i :: 0 <= i < |chs| ==> Due(chs[i], now) ==> chs[i].target != id
    ensures var r := Deliver(tasks, IsrEvents(chs, now)); id in r && r[id] == tasks[id]
  {
    if chs != [] {
      var n := |chs| - 1;
      NothingDelivered(tasks, chs[..n], now, id);
      if Due(chs[n], now) {
        assert IsrEvents(chs, now)[..|IsrEvents(chs, now)| - 1] == IsrEvents(chs[..n], now);
      } else {
        assert IsrEvents(chs, now) == IsrEvents(chs[..n], now);
      }
    }
  }

  /** An interrupt reaches a task exactly when the one channel registered for it is due. */
  lemma {:induction false} DeliveredOnce(tasks: map<TaskId, Task>, chs: seq<Channel>, now: int, c: int, id: TaskId)
    requires id in tasks && OnlyChannel(chs, c, id)
    ensures var r := Deliver(tasks, IsrEvents(chs, now));
            id in r && r[id] == if Due(chs[c], now) then SendTo(tasks[id]) else tasks[id]
  {
    var n := |chs| - 1;
    if Due(chs[n], now) {
      assert IsrEvents(chs, now)[..|IsrEvents(chs, now)| - 1] == IsrEvents(chs[..n], now);
    } else {
      assert IsrEvents(chs, now) == IsrEvents(chs[..n], now);
    }
    if c == n {
      NothingDelivered(tasks, chs[..n], now, id);
    } else {
      DeliveredOnce(tasks, chs[..n], now, c, id);
    }
  }

  /** Events change neither the life of a task nor how far its stop() is. */
  ghost predicate SameLife(t: Task, t': Task)
  {
    t'.alive == t.alive && t'.stop == t.stop && t'.stopSent == t.stopSent
  }

  /** Delivery creates no task, and every task keeps its ledger. */
  lemma {:induction false} DeliverKeepsTasks(tasks: map<TaskId, Task>, evs: seq<Event>, id: TaskId)
    ensures var r := Deliver(tasks, evs);
            && (id in r <==> id in tasks)
            && (id in tasks ==> SameLife(tasks[id], r[id]) && (TaskInv(tasks[id]) ==> TaskInv(r[id])))
  {
    if evs != [] {
      var n := |evs| - 1;
      DeliverKeepsTasks(tasks, evs[..n], id);
      var before := Deliver(tasks, evs[..n]);
      if id in tasks && TaskInv(tasks[id]) { SendKeepsInv(before[id]); }
    }
  }

  /** Channel c, started at s with period p, feeds task `id` and nobody else does. */
  ghost predicate Linked(sys: System, c: int, id: TaskId, s: int, p: int, mark: int)
  {
    && Inv(sys.world) && Tracked(sys.world, c, s, p, mark)
    && OnlyChannel(sys.world.drv.channels, c, id)
    && id in sys.tasks && TaskInv(sys.tasks[id])
    && sys.tasks[id].sent == |EventsOf(sys.world.drv.sent[mark..], c)| + sys.tasks[id].stopSent
  }

  lemma TargetsKept(w: World, op: Op, c: int, id: TaskId)
    requires WellSized(w.drv) && OnlyChannel(w.drv.channels, c, id) && LeavesAlone(op, c) && KeepsTarget(op, c, id)
    ensures OnlyChannel(Step(w, op).drv.channels, c, id)
  {
    var chs := Step(w, op).drv.channels;
    if !(op.Ioctl? && op.cmd.SetTask?) {
      assert forall i :: 0 <= i < |chs| ==> chs[i].target == w.drv.channels[i].target;
    }
  }

  lemma DriverOpKeepsLinked(sys: System, op: Op, c: int, id: TaskId, s: int, p: int, mark: int)
    requires Linked(sys, c, id, s, p, mark)
    requires Allowed(sys.world, op) && LeavesAlone(op, c) && KeepsTarget(op, c, id)
    ensures Linked(Go(sys, DriverOp(op)), c, id, s, p, mark)
  {
    StepKeepsInv(sys.world, op);
    StepKeepsTracked(sys.world, op, c, s, p, mark);
    TargetsKept(sys.world, op, c, id);
    var d := sys.world.drv;
    if op.IsrAt? {
      EventsAfterIsr(d.sent, mark, d.channels, op.now, c);
      DeliveredOnce(sys.tasks, d.channels, op.now, c, id);
      SendKeepsInv(sys.tasks[id]);
    } else {
      assert Step(sys.world, op).drv.sent == d.sent;
    }
  }

  lemma TaskStepSends(t: Task, a: Action)
    requires !a.Send?
    ensures Act(t, a).sent - Act(t, a).stopSent == t.sent - t.stopSent
  {}

  lemma GoKeepsLinked(sys: System, m: Move, c: int, id: TaskId, s: int, p: int, mark: int)
    requires Linked(sys, c, id, s, p, mark) && Undisturbing(sys, c, id, m)
    ensures Linked(Go(sys, m), c, id, s, p, mark)
  {
    match m
    case DriverOp(op) =>
      DriverOpKeepsLinked(sys, op, c, id, s, p, mark);
    case TaskStep(other, a) =>
      if other == id {
        ActKeepsInv(sys.tasks[id], a);
        TaskStepSends(sys.tasks[id], a);
      }
    case NewTask(_, _) =>
  }

  lemma {:induction false} GoesKeepLinked(sys: System, ms: seq<Move>, c: int, id: TaskId, s: int, p: int, mark: int)
    requires Linked(sys, c, id, s, p, mark) && Undisturbed(sys, c, id, ms)
    ensures Linked(Goes(sys, ms), c, id, s, p, mark)
    decreases ms
  {
    if ms != [] {
      GoKeepsLinked(sys, ms[0], c, id, s, p, mark);
      GoesKeepLinked(Go(sys, ms[0]), ms[1..], c, id, s, p, mark);
    }
  }

  /** Where the task is in its loop when the channel is started does not matter, as long as nothing
      but stop() has sent it an event so far. */
  ghost predicate ReadyToStart(sys: System, start: Op, c: int, id: TaskId)
  {
    && Starts(sys.world, start, c) && OnlyChannel(sys.world.drv.channels, c, id)
    && id in sys.tasks && TaskInv(sys.tasks[id]) && sys.tasks[id].sent == sys.tasks[id].stopSent
  }

  lemma StartIsLinked(sys: System, start: Op, c: int, id: TaskId)
    requires ReadyToStart(sys, start, c, id)
    ensures Linked(Go(sys, DriverOp(start)), c, id, start.now, sys.world.drv.channels[c].period, |sys.world.drv.sent|)
  {
    StepKeepsInv(sys.world, start);
    StartIsTracked(sys.world, start, c);
    StartSendsNothing(sys.world, start, c, id);
    assert SentBy(sys.world.drv, start) == [];
  }

  lemma StartSendsNothing(w: World, start: Op, c: int, id: TaskId)
    requires Starts(w, start, c) && OnlyChannel(w.drv.channels, c, id)
    ensures OnlyChannel(Step(w, start).drv.channels, c, id)
    ensures |w.drv.sent| <= |Step(w, start).drv.sent|
    ensures EventsOf(Step(w, start).drv.sent[|w.drv.sent|..], c) == []
  {
    var d := Step(w, start).drv;
    assert d.sent == w.drv.sent && d.sent[|d.sent|..] == [];
    assert forall i :: 0 <= i < CHANNELS ==> d.channels[i].target == w.drv.channels[i].target;
  }

  /** Callbacks begun <= events sent <= periods elapsed, and every event is accounted for. */
  ghost predicate RateBounded(end: System, c: int, id: TaskId, s: int, p: int, mark: int)
  {
    && p > 0 && id in end.tasks && 0 <= mark <= |end.world.drv.sent|
    && var t := end.tasks[id];
       var events := |EventsOf(end.world.drv.sent[mark..], c)|;
       && t.begun <= events <= (end.world.clock - s) / p
       && events + t.stopSent == t.woken + Count(t.pending) + t.coalesced + t.toDead
  }

  lemma LinkedIsBounded(sys: System, c: int, id: TaskId, s: int, p: int, mark: int)
    requires Linked(sys, c, id, s, p, mark)
    ensures RateBounded(sys, c, id, s, p, mark)
  {
    TrackedAccount(sys.world, c, s, p, mark);
  }

  /** From the hardware to the callback.  Channel c is started for a task that waits anywhere in its
      loop; the bound holds whatever interrupts, operations on other channels, new tasks, task steps
      and stop() follow. */
  lemma EndToEndRate(sys: System, start: Op, ms: seq<Move>, c: int, id: TaskId)
    requires ReadyToStart(sys, start, c, id)
    requires Undisturbed(Go(sys, DriverOp(start)), c, id, ms)
    ensures RateBounded(Goes(Go(sys, DriverOp(start)), ms), c, id,
                        start.now, sys.world.drv.channels[c].period, |sys.world.drv.sent|)
  {
    var p, mark := sys.world.drv.channels[c].period, |sys.world.drv.sent|;
    StartIsLinked(sys, start, c, id);
    GoesKeepLinked(Go(sys, DriverOp(start)), ms, c, id, start.now, p, mark);
    LinkedIsBounded(Goes(Go(sys, DriverOp(start)), ms), c, id, start.now, p, mark);
  }
}
