/** RTExecutor and its CallbackTasks step by step.  Between any two steps of an executor there may be
    interrupts, steps of the callback tasks and steps of other executors, so each step is one test,
    one store, one ioctl or one kernel call.  The classes in RtExecutor.dfy are proved against it. */
module ExecutorModel {
  import opened Machine
  import opened TimerModel
  import opened LoadArithmetic
  import opened TimerRuns
  import opened EndToEnd
  import CallbackProtocol

  type Task = CallbackProtocol.Task

  /** Whose task an RTEMS id was created for: the index-th timer or subscription of an executor. */
  datatype Slot = Slot(exec: nat, sub: bool, index: nat)

  /** Driver, clock and RTEMS tasks; ids are handed out in increasing order and not used again.
      `owner` records every task ever started, `handler` whether RTEMS has the interrupt handler. */
  datatype Platform = Platform(sys: System, nextId: TaskId, owner: map<TaskId, Slot>, handler: bool, tps: uint32)

  /** task_id_ and running_ of a CallbackTask. */
  datatype Cell = Cell(id: TaskId, running: bool)

  datatype TimerReg = TimerReg(channel: int, ticks: uint32, task: Cell)

  /** Where an executor is: not yet spinning, in start_all_tasks, in rtss_open, in the loop of
      setup_timer_driver, blocked in spin, in its destructor, destroyed. */
  datatype Phase =
    | Built
    | StartTask(i: nat)
    | TestOpen             // about to test drv.opened
    | TestInstalled        // about to test drv.isr_installed
    | CallInstall          // about to call rtems_interrupt_handler_install
    | StoreInstalled       // about to set drv.isr_installed
    | StoreOpen            // about to set drv.opened
    | ModeOf               // about to do the ioctl SET_MODE
    | EnsureTask(i: nat)
    | PeriodOf(i: nat)
    | TargetOf(i: nat)
    | LaunchOf(i: nat)
    | Spinning
    | ClearFlag(k: nat)    // stop_all_tasks: the timers' tasks first, then the subscriptions'
    | SendStop(k: nat)
    | DeleteTask(k: nat)
    | StopChannel(i: nat)
    | Closing(k: nat)
    | Gone

  /** A successful START: the task it serves, its clock reading, and the events sent before it. */
  datatype Mark = Mark(task: TaskId, at: int, sent: nat)

  /** `handled` timers have had their turn in the set-up loop; `started` tells which channels it has
      started, and when. */
  datatype Exec = Exec(
    me: nat,
    phase: Phase,
    nextChannel: int,
    fd: int,
    timers: seq<TimerReg>,
    subs: seq<Cell>,
    handled: nat,
    started: map<int, Mark>)

  /** What the environment answers to one step. */
  datatype Input = Input(createOk: bool, startOk: bool, installOk: bool, fd: nat, now: int, armNow: int)

  ghost predicate Sized(p: Platform) { WellSized(p.sys.world.drv) }

  function FreshExec(me: nat): Exec
  {
    Exec(me, Built, 0, -1, [], [], 0, map[])
  }

  // ---- Platform steps ----

  function Moved(p: Platform, m: EndToEnd.Move): (r: Platform)
    requires Sized(p)
    ensures Sized(r)
  {
    p.(sys := EndToEnd.Go(p.sys, m))
  }

  /** An ioctl that reads no clock. */
  function Untimed(p: Platform, cmd: Command): (r: Platform)
    requires Sized(p)
    ensures Sized(r)
  {
    Moved(p, DriverOp(Ioctl(cmd, p.tps, p.sys.world.clock, p.sys.world.clock)))
  }

  function Timed(p: Platform, cmd: Command, inp: Input): (r: Platform)
    requires Sized(p)
    ensures Sized(r)
  {
    Moved(p, DriverOp(Ioctl(cmd, p.tps, inp.now, inp.armNow)))
  }

  function StatusOf(p: Platform, cmd: Command): Status
    requires Sized(p)
  {
    Control(p.sys.world.drv, cmd, p.tps, 0, 0).1
  }

  function CreateTask(p: Platform, slot: Slot): (r: Platform)
    requires Sized(p)
    ensures Sized(r)
  {
    Moved(p, NewTask(p.nextId, CallbackProtocol.STARTED)).(nextId := p.nextId + 1, owner := p.owner[p.nextId := slot])
  }

  /** CallbackTask::start.  A task that cannot be started is deleted again; its id was never known. */
  function StartCell(p: Platform, t: Cell, slot: Slot, inp: Input): (r: (Platform, Cell))
    requires Sized(p)
    ensures Sized(r.0)
  {
    if t.running then (p, t)
    else if !inp.createOk then (p, t)
    else if inp.startOk then (CreateTask(p, slot), Cell(p.nextId, true))
    else (p.(nextId := p.nextId + 1), Cell(NONE, false))
  }

  // ---- An executor's own steps ----

  function SetTimerTask(x: Exec, i: nat, t: Cell): Exec
    requires i < |x.timers|
  {
    x.(timers := x.timers[i := x.timers[i].(task := t)])
  }

  /** The k-th task of stop_all_tasks. */
  function CellAt(x: Exec, k: nat): Cell
    requires k < |x.timers| + |x.subs|
  {
    if k < |x.timers| then x.timers[k].task else x.subs[k - |x.timers|]
  }

  function SetCellAt(x: Exec, k: nat, t: Cell): Exec
    requires k < |x.timers| + |x.subs|
  {
    if k < |x.timers| then SetTimerTask(x, k, t) else x.(subs := x.subs[k - |x.timers| := t])
  }

  function SlotAt(x: Exec, k: nat): Slot
  {
    if k < |x.timers| then Slot(x.me, false, k) else Slot(x.me, true, k - |x.timers|)
  }

  /** One turn of start_all_tasks. */
  function StartTaskStep(p: Platform, x: Exec, i: nat, inp: Input): (r: (Platform, Exec))
    requires Sized(p)
    ensures Sized(r.0)
  {
    if i >= |x.timers| then (p, x.(phase := if x.timers == [] then Spinning else TestOpen))
    else
      var (p1, t) := StartCell(p, x.timers[i].task, Slot(x.me, false, i), inp);
      (p1, SetTimerTask(x, i, t).(phase := StartTask(i + 1)))
  }

  /** The steps of rtss_open, as called by open(). */
  function OpenStep(p: Platform, x: Exec, inp: Input): (r: (Platform, Exec))
    requires Sized(p)
    ensures Sized(r.0)
  {
    match x.phase
    case TestOpen =>
      if p.sys.world.drv.isOpen then (p, x.(fd := -1, phase := Spinning)) else (p, x.(phase := TestInstalled))
    case TestInstalled =>
      (p, x.(phase := if p.sys.world.drv.isrInstalled then StoreOpen else CallInstall))
    case CallInstall =>
      // a unique handler cannot be installed twice
      if inp.installOk && !p.handler then (p.(handler := true), x.(phase := StoreInstalled))
      else (p, x.(fd := -1, phase := Spinning))
    case StoreInstalled =>
      (Moved(p, DriverOp(MarkInstalled)), x.(phase := StoreOpen))
    case StoreOpen =>
      (Moved(p, DriverOp(MarkOpen)), x.(fd := inp.fd, phase := ModeOf))
    case _ => (p, x)
  }

  /** SET_MODE; set-up gives up if it fails. */
  function ModeStep(p: Platform, x: Exec): (r: (Platform, Exec))
    requires Sized(p)
    ensures Sized(r.0)
  {
    (Untimed(p, SetMode), x.(phase := if StatusOf(p, SetMode) == Successful then EnsureTask(0) else Spinning))
  }

  function NextTurn(x: Exec, i: nat): Exec
  {
    x.(handled := i + 1, phase := EnsureTask(i + 1))
  }

  /** One turn of the loop of setup_timer_driver: the task, then the three ioctls. */
  function EnsureTaskStep(p: Platform, x: Exec, i: nat, inp: Input): (r: (Platform, Exec))
    requires Sized(p)
    ensures Sized(r.0)
  {
    if i >= |x.timers| then (p, x.(phase := Spinning))
    else
      var (p1, t) := StartCell(p, x.timers[i].task, Slot(x.me, false, i), inp);
      var x1 := SetTimerTask(x, i, t);
      (p1, if t.running then x1.(phase := PeriodOf(i)) else NextTurn(x1, i))
  }

  function PeriodStep(p: Platform, x: Exec, i: nat): (r: (Platform, Exec))
    requires Sized(p)
    ensures Sized(r.0)
  {
    if i >= |x.timers| then (p, x)
    else
      var cmd := SetPeriod(x.timers[i].channel, x.timers[i].ticks);
      (Untimed(p, cmd), if StatusOf(p, cmd) == Successful then x.(phase := TargetOf(i)) else NextTurn(x, i))
  }

  /** A failed SET_TASK is only reported. */
  function TargetStep(p: Platform, x: Exec, i: nat): (r: (Platform, Exec))
    requires Sized(p)
    ensures Sized(r.0)
  {
    if i >= |x.timers| then (p, x)
    else (Untimed(p, SetTask(x.timers[i].channel, x.timers[i].task.id)), x.(phase := LaunchOf(i)))
  }

  function LaunchStep(p: Platform, x: Exec, i: nat, inp: Input): (r: (Platform, Exec))
    requires Sized(p)
    ensures Sized(r.0)
  {
    if i >= |x.timers| then (p, x)
    else
      var cmd := Start(x.timers[i].channel);
      if StatusOf(p, cmd) != Successful then (Untimed(p, cmd), NextTurn(x, i))
      else
        var mark := Mark(x.timers[i].task.id, inp.now, |p.sys.world.drv.sent|);
        (Timed(p, cmd, inp), NextTurn(x.(started := x.started[x.timers[i].channel := mark]), i))
  }

  /** CallbackTask::stop of the k-th task, in three steps. */
  function ClearFlagStep(p: Platform, x: Exec, k: nat): (r: (Platform, Exec))
    requires Sized(p)
    ensures Sized(r.0)
  {
    if k >= |x.timers| + |x.subs| then (p, x.(phase := if x.fd < 0 then Gone else StopChannel(0)))
    else
      var t := CellAt(x, k);
      if !t.running then (p, x.(phase := ClearFlag(k + 1)))
      else if t.id == NONE then (p, SetCellAt(x, k, t.(running := false)).(phase := ClearFlag(k + 1)))
      else (Moved(p, TaskStep(t.id, CallbackProtocol.StopEnter)),
        SetCellAt(x, k, t.(running := false)).(phase := SendStop(k)))
  }

  function SendStopStep(p: Platform, x: Exec, k: nat): (r: (Platform, Exec))
    requires Sized(p)
    ensures Sized(r.0)
  {
    if k >= |x.timers| + |x.subs| then (p, x)
    else (Moved(p, TaskStep(CellAt(x, k).id, CallbackProtocol.StopSend)), x.(phase := DeleteTask(k)))
  }

  function DeleteTaskStep(p: Platform, x: Exec, k: nat): (r: (Platform, Exec))
    requires Sized(p)
    ensures Sized(r.0)
  {
    if k >= |x.timers| + |x.subs| then (p, x)
    else (Moved(p, TaskStep(CellAt(x, k).id, CallbackProtocol.StopDelete)),
          SetCellAt(x, k, Cell(NONE, false)).(phase := ClearFlag(k + 1)))
  }

  /** teardown_timer_driver: STOP for every registered channel, then the stores of close. */
  function StopChannelStep(p: Platform, x: Exec, i: nat, inp: Input): (r: (Platform, Exec))
    requires Sized(p)
    ensures Sized(r.0)
  {
    if i >= |x.timers| then (p, x.(phase := Closing(0)))
    else (Timed(p, Stop(x.timers[i].channel), inp), x.(phase := StopChannel(i + 1)))
  }

  function ClosingStep(p: Platform, x: Exec, k: nat): (r: (Platform, Exec))
    requires Sized(p)
    ensures Sized(r.0)
  {
    (Moved(p, DriverOp(CloseStore(k))), if k + 1 < STORES then x.(phase := Closing(k + 1))
      else x.(fd := -1, phase := Gone))
  }

  /** The next step of an executor; one that waits for a call does nothing. */
  function Do(p: Platform, x: Exec, inp: Input): (r: (Platform, Exec))
    requires Sized(p)
    ensures Sized(r.0)
  {
    match x.phase
    case StartTask(i) => StartTaskStep(p, x, i, inp)
    case ModeOf => ModeStep(p, x)
    case EnsureTask(i) => EnsureTaskStep(p, x, i, inp)
    case PeriodOf(i) => PeriodStep(p, x, i)
    case TargetOf(i) => TargetStep(p, x, i)
    case LaunchOf(i) => LaunchStep(p, x, i, inp)
    case ClearFlag(k) => ClearFlagStep(p, x, k)
    case SendStop(k) => SendStopStep(p, x, k)
    case DeleteTask(k) => DeleteTaskStep(p, x, k)
    case StopChannel(i) => StopChannelStep(p, x, i, inp)
    case Closing(k) => ClosingStep(p, x, k)
    case _ => OpenStep(p, x, inp)
  }

  // ---- Calls ----

  datatype Call =
    | RegisterTimer(ms: uint32)
    | RegisterSubscription(present: bool, createOk: bool, startOk: bool)
    | Spin
    | Destroy

  predicate AtRest(x: Exec) { x.phase.Built? || x.phase.Spinning? }

  function AddTimer(x: Exec, ms: uint32, tps: uint32): (Exec, int)
  {
    if x.nextChannel >= CHANNELS then (x, -1)
    else (x.(nextChannel := x.nextChannel + 1,
             timers := x.timers + [TimerReg(x.nextChannel, MsToTicks(ms, tps), Cell(NONE, false))]),
          x.nextChannel)
  }

  /** A subscription's task is started at once; a failure leaves no registration. */
  function AddSubscription(p: Platform, x: Exec, present: bool, createOk: bool,
      startOk: bool): (r: (Platform, Exec, int))
    requires Sized(p)
    ensures Sized(r.0)
  {
    if !present then (p, x, -1)
    else
      var (p1, t) := StartCell(p, Cell(NONE, false), Slot(x.me, true, |x.subs|),
        Input(createOk, startOk, false, 0, 0, 0));
      if !t.running then (p1, x, -1) else (p1, x.(subs := x.subs + [t]), |x.subs|)
  }

  /** Calls come while the executor is not in the middle of another one; it spins at most once. */
  function Invoke(p: Platform, x: Exec, c: Call): (r: (Platform, Exec))
    requires Sized(p)
    ensures Sized(r.0)
  {
    if !AtRest(x) then (p, x)
    else
      match c
      case RegisterTimer(ms) => (p, AddTimer(x, ms, p.tps).0)
      case RegisterSubscription(present, createOk, startOk) =>
        var r := AddSubscription(p, x, present, createOk, startOk); (r.0, r.1)
      case Spin => (p, if x.phase.Built? then x.(phase := StartTask(0)) else x)
      case Destroy => (p, x.(phase := ClearFlag(0)))
  }

  // ---- Registration ----

  function Registrations(x: Exec, calls: seq<(uint32, uint32)>): (Exec, seq<int>)
  {
    if calls == [] then (x, [])
    else
      var n := |calls| - 1;
      var (x1, chs) := Registrations(x, calls[..n]);
      var (x2, ch) := AddTimer(x1, calls[n].0, calls[n].1);
      (x2, chs + [ch])
  }

  /** Any sequence of register calls hands out the channels 0, 1, ... 7 once each and then -1. */
  lemma {:induction false} ChannelsAreDistinct(me: nat, calls: seq<(uint32, uint32)>)
    ensures var (x, chs) := Registrations(FreshExec(me), calls);
            && |chs| == |calls|
            && (forall i :: 0 <= i < |chs| ==> chs[i] == if i < CHANNELS then i else -1)
            && |x.timers| == x.nextChannel == (if |calls| < CHANNELS then |calls| else CHANNELS)
            && forall i :: 0 <= i < |x.timers| ==>
                 x.timers[i] == TimerReg(i, MsToTicks(calls[i].0, calls[i].1), Cell(NONE, false))
  {
    if calls != [] { ChannelsAreDistinct(me, calls[..|calls| - 1]); }
  }
}
