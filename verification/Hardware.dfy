/** The hardware and kernel an executor runs on, as objects updated in place: the RTEMS tasks, the timer
    driver and the passing of time.  Each method is one move of the platform model. */
module Hardware {
  import opened Machine
  import opened TimerModel
  import opened TimerRuns
  import opened EndToEnd
  import opened RtssTimerDriver
  import opened ExecutorModel
  import opened ExecutorInvariant
  import opened SoloRuns
  import CallbackProtocol

  /** The directives of RTEMS used here; success or failure is the environment's. */
  class RtemsKernel {
    var nextId: TaskId
    var tasks: map<TaskId, Task>
    var handler: bool                  // the interrupt handler is installed
    ghost var owner: map<TaskId, Slot>

    constructor ()
      ensures nextId == 1 && tasks == map[] && owner == map[] && !handler
    {
      nextId, tasks, owner, handler := 1, map[], map[], false;
    }

    /** rtems_task_create: a dormant task gets the next id. */
    method TaskCreate() returns (id: TaskId)
      modifies this`nextId
      ensures id == old(nextId) && nextId == id + 1
    {
      id := nextId;
      nextId := nextId + 1;
    }

    /** rtems_task_start: from now on the task runs its loop. */
    method TaskStart(id: TaskId, ghost slot: Slot)
      modifies this`tasks, this`owner
      ensures tasks == old(tasks)[id := CallbackProtocol.STARTED] && owner == old(owner)[id := slot]
    {
      tasks := tasks[id := CallbackProtocol.STARTED];
      owner := owner[id := slot];
    }

    /** One step of a task, of its stop() or of a sender; nothing for an id that names no task. */
    method TaskMoves(id: TaskId, a: CallbackProtocol.Action)
      modifies this`tasks
      ensures tasks ==
              if id in old(tasks) then old(tasks)[id := CallbackProtocol.Act(old(tasks)[id], a)] else old(tasks)
    {
      if id in tasks { tasks := tasks[id := CallbackProtocol.Act(tasks[id], a)]; }
    }

    /** rtems_event_send of RTEMS_EVENT_1. */
    method EventSend(id: TaskId)
      modifies this`tasks
      ensures tasks ==
              if id in old(tasks) then old(tasks)[id := CallbackProtocol.SendTo(old(tasks)[id])] else old(tasks)
    {
      TaskMoves(id, CallbackProtocol.Send);
    }
  }

  class Board {
    const kernel: RtemsKernel
    const driver: TimerDriver
    const tps: uint32
    ghost var clock: int
    ghost var closing: int

    ghost predicate Valid()
      reads this, driver, driver.channels
    {
      driver.Valid()
    }

    ghost function View(): (p: Platform)
      requires Valid()
      reads this, kernel, driver, driver.channels, driver.fireNs
      ensures Sized(p)
    {
      Platform(System(World(driver.Model(), clock, closing), kernel.tasks), kernel.nextId, kernel.owner,
        kernel.handler, tps)
    }

    constructor (kernel: RtemsKernel, driver: TimerDriver, tps: uint32)
      requires driver.Valid()
      ensures Valid() && this.kernel == kernel && this.driver == driver && this.tps == tps && clock == 0 && closing == 0
    {
      this.kernel, this.driver, this.tps := kernel, driver, tps;
      clock, closing := 0, 0;
    }

    /** The timer interrupt: the handler, and the events it sends. */
    method Interrupt(now: int64, armNow: int64)
      requires Valid() && Inv(View().sys.world) && Allowed(View().sys.world, IsrAt(now, armNow))
      modifies this, kernel, driver, driver.channels, driver.fireNs
      ensures Valid() && View() == Moved(old(View()), DriverOp(IsrAt(now, armNow)))
    {
      ghost var was := View();
      StepKeepsInv(was.sys.world, IsrAt(now, armNow));
      var n := |driver.sent|;
      driver.PtIsr(now, armNow);
      clock := armNow;
      ghost var evs := IsrEvents(was.sys.world.drv.channels, now);
      assert driver.sent == was.sys.world.drv.sent + evs;
      for i := n to |driver.sent|
        invariant Valid() && driver.Model() == Isr(was.sys.world.drv, now, armNow)
        invariant kernel.nextId == was.nextId && kernel.owner == was.owner && kernel.handler == was.handler
        invariant clock == armNow && closing == was.sys.world.closing
        invariant kernel.tasks == Deliver(was.sys.tasks, evs[..i - n])
      {
        assert evs[..i + 1 - n][..i - n] == evs[..i - n];
        assert driver.sent[i] == evs[i - n];
        kernel.EventSend(driver.sent[i].task);
      }
      assert evs[..|evs|] == evs;
    }

    /** One thing that happens by itself. */
    method Happens(m: EndToEnd.Move)
      requires Valid() && Inv(View().sys.world) && OutsideMove(View(), m)
      modifies this, kernel, driver, driver.channels, driver.fireNs
      ensures Valid() && View() == Moved(old(View()), m)
    {
      match m
      case DriverOp(op) => Interrupt(op.now, op.armNow);
      case TaskStep(id, a) => kernel.TaskMoves(id, a);
    }

    /** One move of the stop() of task `id`. */
    method StopMove(id: TaskId, a: CallbackProtocol.Action)
      requires Valid()
      modifies kernel
      ensures Valid() && View() == Moved(old(View()), TaskStep(id, a))
    {
      kernel.TaskMoves(id, a);
    }

    /** All that happens by itself before the next step. */
    method Elapses(ms: seq<EndToEnd.Move>)
      requires Valid() && Inv(View().sys.world) && OutsideRun(View(), ms)
      modifies this, kernel, driver, driver.channels, driver.fireNs
      ensures Valid() && View() == Meanwhile(old(View()), ms) && Inv(View().sys.world)
    {
      ghost var was := View();
      for i := 0 to |ms|
        invariant Valid() && Inv(View().sys.world) && OutsideRun(View(), ms[i..])
        invariant Meanwhile(was, ms) == Meanwhile(View(), ms[i..])
      {
        assert ms[i..][0] == ms[i] && ms[i..][1..] == ms[i + 1..];
        if ms[i].DriverOp? { StepKeepsInv(View().sys.world, ms[i].op); }
        Happens(ms[i]);
      }
    }

    /** An ioctl that reads the clock. */
    method TimedIoctl(cmd: Command, now: int64, armNow: int64) returns (status: Status)
      requires Valid() && Inv(View().sys.world) && Allowed(View().sys.world, Ioctl(cmd, tps, now, armNow))
      modifies this, kernel, driver, driver.channels, driver.fireNs
      ensures Valid() && View() == Moved(old(View()), DriverOp(Ioctl(cmd, tps, now, armNow)))
      ensures status == Control(old(View()).sys.world.drv, cmd, tps, now, armNow).1
    {
      StepKeepsInv(View().sys.world, Ioctl(cmd, tps, now, armNow));
      status := driver.Control(cmd, tps, now, armNow);
      clock := armNow;
    }

    /** SET_MODE, SET_PERIOD or SET_TASK, which read no clock. */
    method Configure(cmd: Command) returns (status: Status)
      requires Valid() && (cmd.SetMode? || cmd.SetPeriod? || cmd.SetTask?)
      modifies this, kernel, driver, driver.channels, driver.fireNs
      ensures Valid() && View() == Untimed(old(View()), cmd) && status == StatusOf(old(View()), cmd)
    {
      status := driver.Control(cmd, tps, 0, 0);
    }

    /** START; it reads the clock only if the channel has a period. */
    method StartChannel(ch: int, now: int64, armNow: int64) returns (status: Status)
      requires Valid() && Inv(View().sys.world) && ValidChannel(ch)
      requires View().sys.world.drv.channels[ch].period != 0 ==>
               Allowed(View().sys.world, Ioctl(Start(ch), tps, now, armNow))
      modifies this, kernel, driver, driver.channels, driver.fireNs
      ensures Valid() && (status == Successful <==> old(View()).sys.world.drv.channels[ch].period != 0)
      ensures View() ==
              if status == Successful then Moved(old(View()), DriverOp(Ioctl(Start(ch), tps, now, armNow)))
              else old(View())
    {
      if driver.channels[ch].period == 0 {
        status := driver.Control(Start(ch), tps, now, armNow);
      } else {
        status := TimedIoctl(Start(ch), now, armNow);
      }
    }

    /** The kernel accepts one handler only. */
    method InstallHandler(installOk: bool) returns (ok: bool)
      requires Valid()
      modifies kernel
      ensures Valid() && ok == (installOk && !old(kernel.handler))
      ensures View() == if ok then old(View()).(handler := true) else old(View())
    {
      ok := installOk && !kernel.handler;
      if ok { kernel.handler := true; }
    }

    method MarkInstalled()
      requires Valid()
      modifies driver
      ensures Valid() && View() == Moved(old(View()), DriverOp(TimerRuns.MarkInstalled))
    {
      driver.MarkInstalled();
    }

    method MarkOpen()
      requires Valid()
      modifies driver
      ensures Valid() && View() == Moved(old(View()), DriverOp(TimerRuns.MarkOpen))
    {
      driver.MarkOpen();
    }

    /** The k-th store of rtss_close. */
    method StoreOfClose(k: nat)
      requires Valid() && k < STORES
      modifies this, kernel, driver, driver.channels, driver.fireNs
      ensures Valid() && View() == Moved(old(View()), DriverOp(CloseStore(k)))
    {
      driver.CloseStore(k);
      closing := if k + 1 < STORES then k + 1 else 0;
    }
  }
}
