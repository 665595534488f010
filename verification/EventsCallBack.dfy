/** From the hardware and the publishers to the callbacks: a due expiry of a connected timer, or a
    publication for a registered subscription, begins a callback of its task as soon as the task has
    been given a few steps, whatever interrupts, publications and other tasks come in between. */
module EventsCallBack {
  import opened TimerModel
  import opened TimerRuns
  import opened EndToEnd
  import opened ExecutorModel
  import opened ExecutorInvariant
  import opened Ownership
  import opened ConnectedTimers
  import opened CallbackProgress
  import CallbackProtocol

  /** No executor does anything: they wait in spin(). */
  predicate ByItself(ev: Occurrence) { !ev.Invokes? && !ev.Steps? }

  /** The occurrence is a step of task `id`. */
  predicate StepOf(f: Fleet, ev: Occurrence, id: TaskId)
  {
    ev.TaskRuns? && ev.id == id && id in f.p.sys.tasks && Enabled(f.p.sys.tasks[id], ev.a)
  }

  /** How many steps task `id` takes in a run. */
  function StepsOf(f: Fleet, evs: seq<Occurrence>, id: TaskId): nat
    requires Sized(f.p)
    decreases evs
  {
    if evs == [] then 0 else (if StepOf(f, evs[0], id) then 1 else 0) + StepsOf(After(f, evs[0]), evs[1..], id)
  }

  /** A callback is owed, and nobody has begun to stop the task. */
  ghost predicate OwedTo(tasks: map<TaskId, Task>, id: TaskId)
  {
    id in tasks && Owed(tasks[id]) && tasks[id].stop.Idle?
  }

  lemma {:induction false} DeliverKeepsOwed(tasks: map<TaskId, Task>, evs: seq<Event>, id: TaskId)
    requires OwedTo(tasks, id)
    ensures var r := Deliver(tasks, evs);
            OwedTo(r, id) && r[id].pc == tasks[id].pc && r[id].begun == tasks[id].begun
  {
    if evs != [] { DeliverKeepsOwed(tasks, evs[..|evs| - 1], id); }
  }

  /** The callback has begun, or is nearer. */
  ghost predicate Nearer(tasks: map<TaskId, Task>, tasks': map<TaskId, Task>, id: TaskId, step: bool)
    requires id in tasks
  {
    && id in tasks'
    && (|| tasks'[id].begun > tasks[id].begun
        || (OwedTo(tasks', id) && tasks'[id].begun == tasks[id].begun
            && ToGo(tasks'[id].pc) + (if step then 1 else 0) <= ToGo(tasks[id].pc)))
  }

  lemma OwedOccurrence(f: Fleet, ev: Occurrence, id: TaskId)
    requires Sized(f.p) && ByItself(ev) && OwedTo(f.p.sys.tasks, id)
    ensures Nearer(f.p.sys.tasks, After(f, ev).p.sys.tasks, id, StepOf(f, ev, id))
  {
    match ev
    case Interrupt(now, armNow) =>
      DeliverKeepsOwed(f.p.sys.tasks, IsrEvents(f.p.sys.world.drv.channels, now), id);
    case TaskRuns(other, a) => if CallbackProtocol.IsLoopStep(a) { OwedStep(f.p.sys.tasks[id], a); }
    case Publishes(other) => OwedStep(f.p.sys.tasks[id], CallbackProtocol.Send);
  }

  lemma BegunStays(f: Fleet, ev: Occurrence, id: TaskId)
    requires Sized(f.p) && ByItself(ev) && id in f.p.sys.tasks
    ensures id in After(f, ev).p.sys.tasks
    ensures After(f, ev).p.sys.tasks[id].begun >= f.p.sys.tasks[id].begun
  {
    match ev
    case Interrupt(now, armNow) => DeliverKeepsBegun(f.p.sys.tasks, IsrEvents(f.p.sys.world.drv.channels, now), id);
    case TaskRuns(other, a) => BegunNeverShrinks(f.p.sys.tasks[id], a);
    case Publishes(other) => BegunNeverShrinks(f.p.sys.tasks[id], CallbackProtocol.Send);
  }

  lemma {:induction false} DeliverKeepsBegun(tasks: map<TaskId, Task>, evs: seq<Event>, id: TaskId)
    requires id in tasks
    ensures var r := Deliver(tasks, evs); id in r && r[id].begun == tasks[id].begun
  {
    if evs != [] { DeliverKeepsBegun(tasks, evs[..|evs| - 1], id); }
  }

  lemma {:induction false} BegunStaysInRun(f: Fleet, evs: seq<Occurrence>, id: TaskId)
    requires Sized(f.p) && id in f.p.sys.tasks && forall i :: 0 <= i < |evs| ==> ByItself(evs[i])
    ensures id in Afters(f, evs).p.sys.tasks && Afters(f, evs).p.sys.tasks[id].begun >= f.p.sys.tasks[id].begun
    decreases evs
  {
    if evs != [] {
      BegunStays(f, evs[0], id);
      BegunStaysInRun(After(f, evs[0]), evs[1..], id);
    }
  }

  /** While the executors wait: a callback owed begins within the task's next five steps. */
  lemma {:induction false} OwedBegins(f: Fleet, evs: seq<Occurrence>, id: TaskId)
    requires Sized(f.p) && OwedTo(f.p.sys.tasks, id) && forall i :: 0 <= i < |evs| ==> ByItself(evs[i])
    requires StepsOf(f, evs, id) >= ToGo(f.p.sys.tasks[id].pc)
    ensures id in Afters(f, evs).p.sys.tasks && Afters(f, evs).p.sys.tasks[id].begun > f.p.sys.tasks[id].begun
    decreases evs
  {
    var f1 := After(f, evs[0]);
    OwedOccurrence(f, evs[0], id);
    if f1.p.sys.tasks[id].begun > f.p.sys.tasks[id].begun {
      BegunStaysInRun(f1, evs[1..], id);
    } else {
      OwedBegins(f1, evs[1..], id);
    }
  }

  lemma RunningTask(p: Platform, t: Cell, slot: Slot)
    requires PlatformOk(p) && CellOk(p, t, slot) && t.running
    ensures t.id in p.sys.tasks && p.sys.tasks[t.id].stop.Idle?
    ensures p.sys.tasks[t.id].alive && p.sys.tasks[t.id].running && !p.sys.tasks[t.id].pc.Exited?
  {
    assert TaskOk(p, t.id);
  }

  lemma ConnectedRuns(f: Fleet, e: nat, j: nat)
    requires FleetInv(f) && Serving(f, e) && Connected(f.p, f.members[e], j)
    ensures f.members[e].timers[j].task.running
    ensures CellOk(f.p, f.members[e].timers[j].task, Slot(e, false, j))
  {
    var x := f.members[e];
    assert x.me == e && ExecInv(f.p, x);
    assert StartedOk(f.p, x) && CellsOk(f.p, x);
  }

  lemma FiveAreEnough(pc: CallbackProtocol.Pc)
    ensures ToGo(pc) <= 5
  {}

  /** An event sent by an interrupt leaves a callback owed. */
  lemma ExpiryOwes(f: Fleet, t: Cell, slot: Slot, now: int, armNow: int)
    requires PlatformOk(f.p) && CellOk(f.p, t, slot) && t.running && t.id in f.p.sys.tasks
    requires var tasks := After(f, Interrupt(now, armNow)).p.sys.tasks;
             t.id in tasks && tasks[t.id] == CallbackProtocol.SendTo(f.p.sys.tasks[t.id])
    ensures var tasks := After(f, Interrupt(now, armNow)).p.sys.tasks;
            OwedTo(tasks, t.id) && tasks[t.id].begun == f.p.sys.tasks[t.id].begun
  {
    RunningTask(f.p, t, slot);
  }

  /** The expiry of a connected timer becomes a callback.  An interrupt comes when its channel is due; then,
      while the executors wait, the timer's task takes five steps or more among whatever else happens. */
  lemma DueExpiryCallsBack(f: Fleet, e: nat, j: nat, now: int, armNow: int, evs: seq<Occurrence>)
    requires FleetInv(f) && Serving(f, e) && Connected(f.p, f.members[e], j)
    requires f.p.sys.world.clock <= now <= armNow <= HORIZON && f.p.sys.world.drv.channels[j].nextFire <= now
    requires forall i :: 0 <= i < |evs| ==> ByItself(evs[i])
    requires StepsOf(After(f, Interrupt(now, armNow)), evs, f.members[e].timers[j].task.id) >= 5
    ensures var id := f.members[e].timers[j].task.id;
            var end := Afters(After(f, Interrupt(now, armNow)), evs);
            && id in f.p.sys.tasks && id in end.p.sys.tasks
            && end.p.sys.tasks[id].begun > f.p.sys.tasks[id].begun
  {
    var t := f.members[e].timers[j].task;
    ConnectedRuns(f, e, j);
    InterruptReachesOwnTask(f, e, j, now, armNow);
    ExpiryOwes(f, t, Slot(e, false, j), now, armNow);
    var f1 := After(f, Interrupt(now, armNow));
    FiveAreEnough(f1.p.sys.tasks[t.id].pc);
    OwedBegins(f1, evs, t.id);
  }

  lemma SubscriptionRuns(f: Fleet, e: nat, i: nat)
    requires FleetInv(f) && e < |f.members| && i < |f.members[e].subs| && f.members[e].subs[i].running
    ensures CellOk(f.p, f.members[e].subs[i], Slot(e, true, i))
  {
    var x := f.members[e];
    assert x.me == e && ExecInv(f.p, x);
    assert CellsOk(f.p, x);
  }

  /** A publication leaves a callback owed. */
  lemma PublicationOwes(f: Fleet, t: Cell, slot: Slot)
    requires PlatformOk(f.p) && CellOk(f.p, t, slot) && slot.sub && t.running
    ensures var tasks := After(f, Publishes(t.id)).p.sys.tasks;
            t.id in f.p.sys.tasks && OwedTo(tasks, t.id) && tasks[t.id].begun == f.p.sys.tasks[t.id].begun
  {
    RunningTask(f.p, t, slot);
  }

  /** Likewise the publication of a message for a registered subscription. */
  lemma PublicationCallsBack(f: Fleet, e: nat, i: nat, evs: seq<Occurrence>)
    requires FleetInv(f) && e < |f.members| && i < |f.members[e].subs| && f.members[e].subs[i].running
    requires forall k :: 0 <= k < |evs| ==> ByItself(evs[k])
    requires StepsOf(After(f, Publishes(f.members[e].subs[i].id)), evs, f.members[e].subs[i].id) >= 5
    ensures var id := f.members[e].subs[i].id;
            var end := Afters(After(f, Publishes(id)), evs);
            && id in f.p.sys.tasks && id in end.p.sys.tasks
            && end.p.sys.tasks[id].begun > f.p.sys.tasks[id].begun
  {
    var t := f.members[e].subs[i];
    SubscriptionRuns(f, e, i);
    PublicationOwes(f, t, Slot(e, true, i));
    var f1 := After(f, Publishes(t.id));
    FiveAreEnough(f1.p.sys.tasks[t.id].pc);
    OwedBegins(f1, evs, t.id);
  }
}
