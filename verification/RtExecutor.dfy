/** CallbackTask and RTExecutor as the C++ file has them: objects whose fields the methods update, owning
    their tasks and sharing the platform.  Before each step of a method the turns `ts` say what else
    happens (interrupts, task steps, publications) and what the environment answers; every method is
    proved to take exactly the executor's turns, in the state machine of ExecutorModel. */
module RtExecutor {
  import opened Machine
  import opened TimerModel
  import opened LoadArithmetic
  import opened TimerRuns
  import opened EndToEnd
  import opened ExecutorModel
  import opened ExecutorSteps
  import opened SoloRuns
  import opened Hardware
  import CallbackProtocol

  class CallbackTask {
    const board: Board
    var taskId: TaskId
    var running: bool

    ghost function View(): Cell
      reads this
    {
      Cell(taskId, running)
    }

    constructor (board: Board)
      ensures this.board == board && View() == Cell(NONE, false)
    {
      this.board := board;
      taskId, running := NONE, false;
    }

    method Start(inp: Input, ghost slot: Slot) returns (ok: bool)
      requires board.Valid() && (!running ==> NONE < board.kernel.nextId && board.kernel.nextId !in board.kernel.tasks)
      modifies this, board.kernel
      ensures board.Valid() && (board.View(), View()) == StartCell(old(board.View()), old(View()), slot, inp)
      ensures ok == running
    {
      if running { return true; }
      if !inp.createOk { return false; }
      taskId := board.kernel.TaskCreate();
      running := true;
      if !inp.startOk {
        running := false;
        board.kernel.TaskMoves(taskId, CallbackProtocol.StopDelete);
        taskId := NONE;
        return false;
      }
      board.kernel.TaskStart(taskId, slot);
      ok := true;
    }

    /** `gap1` and `gap2` happen between clearing the flag, sending the event and deleting the task. */
    method Stop(gap1: seq<EndToEnd.Move>, gap2: seq<EndToEnd.Move>)
      requires board.Valid() && Inv(board.View().sys.world)
      requires running && taskId != NONE ==> StopGaps(board.View(), taskId, gap1, gap2)
      modifies this, board, board.kernel, board.driver, board.driver.channels, board.driver.fireNs
      ensures board.Valid()
      ensures View() == if old(running) then Cell(NONE, false) else old(View())
      ensures board.View() == if old(running) && old(taskId) != NONE
                              then StopMoves(old(board.View()), old(taskId), gap1, gap2).2
                              else old(board.View())
    {
      if !running { return; }
      running := false;
      if taskId != NONE {
        ClearAndSend(gap1, gap2);
        board.Elapses(gap2);
        board.StopMove(taskId, CallbackProtocol.StopDelete);
        taskId := NONE;
      }
    }

    /** The first two moves of a stop() under way. */
    method ClearAndSend(gap1: seq<EndToEnd.Move>, ghost gap2: seq<EndToEnd.Move>)
      requires board.Valid() && Inv(board.View().sys.world) && StopGaps(board.View(), taskId, gap1, gap2)
      modifies board, board.kernel, board.driver, board.driver.channels, board.driver.fireNs
      ensures board.Valid() && Inv(board.View().sys.world)
      ensures board.View() == StopMoves(old(board.View()), taskId, gap1, gap2).1
    {
      board.StopMove(taskId, CallbackProtocol.StopEnter);
      board.Elapses(gap1);
      board.StopMove(taskId, CallbackProtocol.StopSend);
    }

    method Notify()
      requires board.Valid()
      modifies board.kernel
      ensures board.Valid()
      ensures board.View() ==
              if taskId != NONE then Moved(old(board.View()), TaskStep(taskId, CallbackProtocol.Send))
              else old(board.View())
    {
      if taskId != NONE { board.kernel.EventSend(taskId); }
    }
  }

  /** TimerReg of the source; each registration owns its task object alone. */
  datatype Reg = Reg(channel: int, ticks: uint32, task: CallbackTask)

  class Executor {
    const board: Board
    var nextChannel: int
    var devFd: int
    var timerRegs: seq<Reg>
    var subTasks: seq<CallbackTask>
    ghost var phase: Phase              // where the methods are, for the state machine
    ghost var handled: nat
    ghost var started: map<int, Mark>

    ghost function Tasks(): set<CallbackTask>
      reads this
    {
      (set i | 0 <= i < |timerRegs| :: timerRegs[i].task) + (set i | 0 <= i < |subTasks| :: subTasks[i])
    }

    /** No two registrations share a task object. */
    ghost predicate Valid()
      reads this
    {
      && (forall i :: 0 <= i < |timerRegs| ==> timerRegs[i].task.board == board)
      && (forall i :: 0 <= i < |subTasks| ==> subTasks[i].board == board)
      && (forall i, j :: 0 <= i < j < |timerRegs| ==> timerRegs[i].task != timerRegs[j].task)
      && (forall i, j :: 0 <= i < j < |subTasks| ==> subTasks[i] != subTasks[j])
      && (forall i, j :: 0 <= i < |timerRegs| && 0 <= j < |subTasks| ==> timerRegs[i].task != subTasks[j])
    }

    ghost function Timers(): (r: seq<TimerReg>)
      reads this, Tasks()
      ensures |r| == |timerRegs|
    {
      seq(|timerRegs|, i requires 0 <= i < |timerRegs| reads this, Tasks() =>
        TimerReg(timerRegs[i].channel, timerRegs[i].ticks, timerRegs[i].task.View()))
    }

    ghost function Subs(): (r: seq<Cell>)
      reads this, Tasks()
      ensures |r| == |subTasks|
    {
      seq(|subTasks|, i requires 0 <= i < |subTasks| reads this, Tasks() => subTasks[i].View())
    }

    ghost function View(): Exec
      reads this, Tasks()
    {
      Exec(0, phase, nextChannel, devFd, Timers(), Subs(), handled, started)
    }

    /** The executor with its platform. */
    ghost function State(): (s: (Platform, Exec))
      requires board.Valid()
      reads this, Tasks(), board, board.kernel, board.driver, board.driver.channels, board.driver.fireNs
      ensures Sized(s.0)
    {
      (board.View(), View())
    }

    constructor (board: Board)
      ensures Valid() && this.board == board && Tasks() == {} && View() == FreshExec(0)
    {
      this.board := board;
      nextChannel, devFd, timerRegs, subTasks := 0, -1, [], [];
      phase, handled, started := Built, 0, map[];
    }

    // ---- Registration ----

    method RegisterRtTimer(periodMs: uint32) returns (channel: int)
      requires Valid()
      modifies this
      ensures Valid() && fresh(Tasks() - old(Tasks()))
      ensures (View(), channel) == AddTimer(old(View()), periodMs, board.tps)
    {
      if nextChannel >= CHANNELS { return -1; }
      channel := nextChannel;
      nextChannel := nextChannel + 1;
      MsToTicksProductFits(periodMs, board.tps);
      var product: uint64 := periodMs * board.tps;
      var ticks: uint32 := product / 1000 % TWO32;
      var task := new CallbackTask(board);
      timerRegs := timerRegs + [Reg(channel, ticks, task)];
      assert Timers() == old(Timers()) + [TimerReg(channel, ticks, Cell(NONE, false))];
      assert Subs() == old(Subs());
    }

    method RegisterRtSubscription(present: bool, createOk: bool, startOk: bool) returns (index: int)
      requires Valid() && board.Valid() && NONE < board.kernel.nextId && board.kernel.nextId !in board.kernel.tasks
      modifies this`subTasks, board.kernel
      ensures Valid() && board.Valid() && fresh(Tasks() - old(Tasks()))
      ensures (board.View(), View(), index) ==
              AddSubscription(old(board.View()), old(View()), present, createOk, startOk)
    {
      if !present { return -1; }
      ghost var x := View();
      var task := new CallbackTask(board);
      var ok := task.Start(Input(createOk, startOk, false, 0, 0, 0), Slot(0, true, |subTasks|));
      assert Timers() == x.timers && Subs() == x.subs;
      if !ok { return -1; }
      index := |subTasks|;
      Enlist(task);
    }

    /** sub_regs_.push_back. */
    method Enlist(task: CallbackTask)
      requires Valid() && task !in Tasks() && task.board == board
      modifies this`subTasks
      ensures Valid() && Tasks() <= old(Tasks()) + {task} && subTasks == old(subTasks) + [task]
      ensures View() == old(View()).(subs := old(Subs()) + [task.View()])
    {
      subTasks := subTasks + [task];
      assert Timers() == old(Timers());
      assert Subs() == old(Subs()) + [task.View()];
    }

    // ---- Turns ----

    /** The executor is where the run `tr` is after `used` of its turns `ts`. */
    ghost predicate Took(tr: seq<(Platform, Exec)>, ts: seq<Turn>, used: nat)
      reads this, Tasks(), board, board.kernel, board.driver, board.driver.channels, board.driver.fireNs
    {
      Valid() && board.Valid() && SafeRunOf(tr, ts) && used <= |ts| && State() == tr[used]
    }

    /** What happens before the next step. */
    method Before(ghost tr: seq<(Platform, Exec)>, ts: seq<Turn>, used: nat)
      requires Took(tr, ts, used) && used < |ts|
      modifies board, board.kernel, board.driver, board.driver.channels, board.driver.fireNs
      ensures Valid() && board.Valid() && Sized(tr[used].0)
      ensures State() == BeforeStep(tr, ts, used) && StepSafe(board.View(), View(), ts[used].inp) &&
              View() == old(View())
    {
      StepMayBeTaken(tr, ts, used);
      board.Elapses(ts[used].before);
      assert Timers() == old(Timers()) && Subs() == old(Subs());
    }

    // ---- start_all_tasks ----

    /** `if (!task->is_running()) task->start()`, as both loops over the timers have it. */
    method EnsureStarted(i: nat, inp: Input) returns (ok: bool)
      requires Valid() && board.Valid() && i < |timerRegs| && NONE < board.kernel.nextId
      requires board.kernel.nextId !in board.kernel.tasks
      modifies timerRegs[i].task, board.kernel
      ensures Valid() && board.Valid()
      ensures var (p, t) := StartCell(old(board.View()), old(Timers())[i].task, Slot(0, false, i), inp);
              board.View() == p && View() == SetTimerTask(old(View()), i, t) && ok == t.running
    {
      ghost var x := View();
      ok := true;
      if !timerRegs[i].task.running {
        ok := timerRegs[i].task.Start(inp, Slot(0, false, i));
      }
      assert Timers() == x.timers[i := x.timers[i].(task := timerRegs[i].task.View())];
      assert Subs() == x.subs;
    }

    method StartTaskTurn(i: nat, inp: Input)
      requires Valid() && board.Valid() && phase == StartTask(i) && i < |timerRegs|
      requires NONE < board.kernel.nextId && board.kernel.nextId !in board.kernel.tasks
      modifies this`phase, timerRegs[i].task, board.kernel
      ensures Valid() && board.Valid()
      ensures State() == StartTaskStep(old(board.View()), old(View()), i, inp)
      ensures phase == StartTask(i + 1)
    {
      var _ := EnsureStarted(i, inp);
      ghost var x := View();
      phase := StartTask(i + 1);
      assert Timers() == x.timers && Subs() == x.subs;
    }

    /** The ghost program counter moves; nothing else changes. */
    ghost method Goto(ph: Phase)
      requires Valid()
      modifies this`phase
      ensures Valid() && phase == ph && View() == old(View()).(phase := ph)
    {
      phase := ph;
      assert Timers() == old(Timers()) && Subs() == old(Subs());
    }

    /** Likewise at the end of a turn of the set-up loop. */
    ghost method EndTurn(i: nat)
      requires Valid()
      modifies this`phase, this`handled
      ensures Valid() && View() == NextTurn(old(View()), i)
    {
      phase, handled := EnsureTask(i + 1), i + 1;
      assert Timers() == old(Timers()) && Subs() == old(Subs());
    }

    /** open() returned `fd`. */
    method Record(fd: int, ghost ph: Phase)
      requires Valid()
      modifies this`devFd, this`phase
      ensures Valid() && phase == ph && devFd == fd && View() == old(View()).(fd := fd, phase := ph)
    {
      devFd := fd;
      phase := ph;
      assert Timers() == old(Timers()) && Subs() == old(Subs());
    }

    method TakeStartTask(ghost tr: seq<(Platform, Exec)>, ts: seq<Turn>, k: nat, i: nat)
      requires Took(tr, ts, k) && k < |ts| && phase == StartTask(i) && i < |timerRegs|
      modifies this`phase, timerRegs[i].task
      modifies board, board.kernel, board.driver, board.driver.channels, board.driver.fireNs
      ensures Took(tr, ts, k + 1) && phase == StartTask(i + 1)
    {
      Before(tr, ts, k);
      StartTaskIsTaken(tr, ts, k, board.View(), View(), i);
      StartTaskTurn(i, ts[k].inp);
    }

    method LeaveStart(ghost tr: seq<(Platform, Exec)>, ts: seq<Turn>, k: nat)
      requires Took(tr, ts, k) && k < |ts| && phase == StartTask(|timerRegs|)
      modifies this`phase, board, board.kernel, board.driver, board.driver.channels, board.driver.fireNs
      ensures Took(tr, ts, k + 1) && phase == if |timerRegs| == 0 then Spinning else TestOpen
    {
      Before(tr, ts, k);
      StartTaskIsTaken(tr, ts, k, board.View(), View(), |timerRegs|);
      Goto(if |timerRegs| == 0 then Spinning else TestOpen);
    }

    method StartAllTasks(ghost tr: seq<(Platform, Exec)>, ts: seq<Turn>, from: nat) returns (used: nat)
      requires Took(tr, ts, from) && phase == StartTask(0) && from + |timerRegs| < |ts|
      modifies this`phase, Tasks(), board, board.kernel, board.driver, board.driver.channels, board.driver.fireNs
      ensures Took(tr, ts, used) && used == from + |timerRegs| + 1
      ensures phase == if |timerRegs| == 0 then Spinning else TestOpen
    {
      for i := 0 to |timerRegs|
        invariant Took(tr, ts, from + i) && phase == StartTask(i)
      {
        TakeStartTask(tr, ts, from + i, i);
      }
      LeaveStart(tr, ts, from + |timerRegs|);
      used := from + |timerRegs| + 1;
    }

    // ---- open(): rtss_open, with nothing masked between its steps ----

    /** `if (drv.opened)` */
    method TestOpened(ghost tr: seq<(Platform, Exec)>, ts: seq<Turn>, k: nat) returns (busy: bool)
      requires Took(tr, ts, k) && k < |ts| && phase.TestOpen?
      modifies this`phase, this`devFd, board, board.kernel, board.driver, board.driver.channels, board.driver.fireNs
      ensures Took(tr, ts, k + 1) && phase == if busy then Spinning else TestInstalled
      ensures busy ==> devFd == -1
    {
      Before(tr, ts, k);
      OpenStepIsTaken(tr, ts, k, board.View(), View());
      busy := board.driver.isOpen;
      if busy { Record(-1, Spinning); } else { Goto(TestInstalled); }
    }

    /** `if (drv.isr_installed)` */
    method TestHandler(ghost tr: seq<(Platform, Exec)>, ts: seq<Turn>, k: nat) returns (installed: bool)
      requires Took(tr, ts, k) && k < |ts| && phase.TestInstalled?
      modifies this`phase, board, board.kernel, board.driver, board.driver.channels, board.driver.fireNs
      ensures Took(tr, ts, k + 1) && phase == if installed then StoreOpen else CallInstall
    {
      Before(tr, ts, k);
      OpenStepIsTaken(tr, ts, k, board.View(), View());
      installed := board.driver.isrInstalled;
      Goto(if installed then StoreOpen else CallInstall);
    }

    method CallInstaller(inp: Input) returns (ok: bool)
      requires Valid() && board.Valid() && phase.CallInstall?
      modifies this`phase, this`devFd, board.kernel
      ensures Valid() && board.Valid() && State() == OpenStep(old(board.View()), old(View()), inp)
      ensures phase == (if ok then StoreInstalled else Spinning) && (!ok ==> devFd == -1)
    {
      ghost var x := View();
      ok := board.InstallHandler(inp.installOk);
      assert Timers() == x.timers && Subs() == x.subs;
      if ok { Goto(StoreInstalled); } else { Record(-1, Spinning); }
    }

    /** rtems_interrupt_handler_install */
    method InstallHandler(ghost tr: seq<(Platform, Exec)>, ts: seq<Turn>, k: nat) returns (ok: bool)
      requires Took(tr, ts, k) && k < |ts| && phase.CallInstall?
      modifies this`phase, this`devFd, board, board.kernel, board.driver, board.driver.channels, board.driver.fireNs
      ensures Took(tr, ts, k + 1) && phase == (if ok then StoreInstalled else Spinning) && (!ok ==> devFd == -1)
    {
      Before(tr, ts, k);
      OpenStepIsTaken(tr, ts, k, board.View(), View());
      ok := CallInstaller(ts[k].inp);
    }

    /** `drv.isr_installed = true` */
    method MarkInstalled(ghost tr: seq<(Platform, Exec)>, ts: seq<Turn>, k: nat)
      requires Took(tr, ts, k) && k < |ts| && phase.StoreInstalled?
      modifies this`phase, board, board.kernel, board.driver, board.driver.channels, board.driver.fireNs
      ensures Took(tr, ts, k + 1) && phase == StoreOpen
    {
      Before(tr, ts, k);
      OpenStepIsTaken(tr, ts, k, board.View(), View());
      ghost var x := View();
      board.MarkInstalled();
      assert Timers() == x.timers && Subs() == x.subs;
      Goto(StoreOpen);
    }

    /** `drv.opened = true`, and the descriptor that open() returns. */
    method MarkOpen(ghost tr: seq<(Platform, Exec)>, ts: seq<Turn>, k: nat)
      requires Took(tr, ts, k) && k < |ts| && phase.StoreOpen?
      modifies this`phase, this`devFd, board, board.kernel, board.driver, board.driver.channels, board.driver.fireNs
      ensures Took(tr, ts, k + 1) && phase == ModeOf && devFd >= 0
    {
      Before(tr, ts, k);
      OpenStepIsTaken(tr, ts, k, board.View(), View());
      ghost var x := View();
      board.MarkOpen();
      assert Timers() == x.timers && Subs() == x.subs;
      Record(ts[k].inp.fd, ModeOf);
    }

    /** The call and the store of install_pt_isr. */
    method InstallNow(ghost tr: seq<(Platform, Exec)>, ts: seq<Turn>, from: nat) returns (ok: bool, used: nat)
      requires Took(tr, ts, from) && from + 2 <= |ts| && phase.CallInstall?
      modifies this`phase, this`devFd, board, board.kernel, board.driver, board.driver.channels, board.driver.fireNs
      ensures Took(tr, ts, used) && from < used <= from + 2
      ensures phase == (if ok then StoreOpen else Spinning) && (!ok ==> devFd == -1)
    {
      ok := InstallHandler(tr, ts, from);
      used := from + 1;
      if ok {
        MarkInstalled(tr, ts, from + 1);
        used := from + 2;
      }
    }

    /** install_pt_isr. */
    method InstallPtIsr(ghost tr: seq<(Platform, Exec)>, ts: seq<Turn>, from: nat) returns (ok: bool, used: nat)
      requires Took(tr, ts, from) && from + 3 <= |ts| && phase.TestInstalled?
      modifies this`phase, this`devFd, board, board.kernel, board.driver, board.driver.channels, board.driver.fireNs
      ensures Took(tr, ts, used) && from < used <= from + 3
      ensures phase == (if ok then StoreOpen else Spinning) && (!ok ==> devFd == -1)
    {
      ok := TestHandler(tr, ts, from);
      used := from + 1;
      if !ok {
        ok, used := InstallNow(tr, ts, from + 1);
      }
    }

    /** rtss_open from its first test passed on. */
    method InstallAndMark(ghost tr: seq<(Platform, Exec)>, ts: seq<Turn>, from: nat) returns (ok: bool, used: nat)
      requires Took(tr, ts, from) && from + 4 <= |ts| && phase.TestInstalled?
      modifies this`phase, this`devFd
      modifies board, board.kernel, board.driver, board.driver.channels, board.driver.fireNs
      ensures Took(tr, ts, used) && from < used <= from + 4
      ensures phase == (if ok then ModeOf else Spinning) && (ok <==> devFd >= 0)
    {
      ok, used := InstallPtIsr(tr, ts, from);
      if ok {
        MarkOpen(tr, ts, used);
        used := used + 1;
      }
    }

    method OpenDevice(ghost tr: seq<(Platform, Exec)>, ts: seq<Turn>, from: nat) returns (ok: bool, used: nat)
      requires Took(tr, ts, from) && from + 5 <= |ts| && phase.TestOpen?
      modifies this`phase, this`devFd
      modifies board, board.kernel, board.driver, board.driver.channels, board.driver.fireNs
      ensures Took(tr, ts, used) && from <= used <= from + 5
      ensures phase == (if ok then ModeOf else Spinning) && (ok <==> devFd >= 0)
    {
      var busy := TestOpened(tr, ts, from);
      if busy { return false, from + 1; }
      ok, used := InstallAndMark(tr, ts, from + 1);
    }

    // ---- setup_timer_driver ----

    method SetModeNow() returns (ok: bool)
      requires Valid() && board.Valid() && phase.ModeOf?
      modifies this`phase
      modifies board, board.kernel, board.driver, board.driver.channels, board.driver.fireNs
      ensures Valid() && board.Valid() && State() == ModeStep(old(board.View()), old(View()))
      ensures ok && phase == EnsureTask(0)
    {
      ghost var x := View();
      var status := board.Configure(SetMode);
      assert Timers() == x.timers && Subs() == x.subs;
      ok := status == Successful;
      Goto(if ok then EnsureTask(0) else Spinning);
    }

    /** The ioctl SET_MODE; set-up would give up if it failed. */
    method ModeTurn(ghost tr: seq<(Platform, Exec)>, ts: seq<Turn>, k: nat) returns (ok: bool)
      requires Took(tr, ts, k) && k < |ts| && phase.ModeOf?
      modifies this`phase
      modifies board, board.kernel, board.driver, board.driver.channels, board.driver.fireNs
      ensures Took(tr, ts, k + 1) && ok && phase == EnsureTask(0)
    {
      Before(tr, ts, k);
      ModeIsTaken(tr, ts, k, board.View(), View());
      ok := SetModeNow();
    }

    /** `if (!task->is_running() && !task->start()) continue;` */
    method EnsureTaskTurn(ghost tr: seq<(Platform, Exec)>, ts: seq<Turn>, k: nat, i: nat) returns (ok: bool)
      requires Took(tr, ts, k) && k < |ts| && phase == EnsureTask(i) && i < |timerRegs|
      modifies this`phase, this`handled, timerRegs[i].task
      modifies board, board.kernel, board.driver, board.driver.channels, board.driver.fireNs
      ensures Took(tr, ts, k + 1) && phase == if ok then PeriodOf(i) else EnsureTask(i + 1)
    {
      Before(tr, ts, k);
      EnsureTaskIsTaken(tr, ts, k, board.View(), View(), i);
      ok := EnsureStarted(i, ts[k].inp);
      if ok { Goto(PeriodOf(i)); } else { EndTurn(i); }
    }

    method SetPeriodOf(i: nat) returns (ok: bool)
      requires Valid() && board.Valid() && phase == PeriodOf(i) && i < |timerRegs|
      modifies this`phase, this`handled, board, board.kernel, board.driver, board.driver.channels, board.driver.fireNs
      ensures Valid() && board.Valid() && State() == PeriodStep(old(board.View()), old(View()), i)
      ensures phase == if ok then TargetOf(i) else EnsureTask(i + 1)
    {
      ghost var x := View();
      assert x.timers[i].channel == timerRegs[i].channel && x.timers[i].ticks == timerRegs[i].ticks;
      var status := board.Configure(SetPeriod(timerRegs[i].channel, timerRegs[i].ticks));
      assert Timers() == x.timers && Subs() == x.subs;
      ok := status == Successful;
      if ok { Goto(TargetOf(i)); } else { EndTurn(i); }
    }

    /** The ioctl SET_PERIOD; `continue` when it fails. */
    method PeriodTurn(ghost tr: seq<(Platform, Exec)>, ts: seq<Turn>, k: nat, i: nat) returns (ok: bool)
      requires Took(tr, ts, k) && k < |ts| && phase == PeriodOf(i) && i < |timerRegs|
      modifies this`phase, this`handled, board, board.kernel, board.driver, board.driver.channels, board.driver.fireNs
      ensures Took(tr, ts, k + 1) && phase == if ok then TargetOf(i) else EnsureTask(i + 1)
    {
      Before(tr, ts, k);
      PeriodIsTaken(tr, ts, k, board.View(), View(), i);
      ok := SetPeriodOf(i);
    }

    method SetTaskOf(i: nat)
      requires Valid() && board.Valid() && phase == TargetOf(i) && i < |timerRegs|
      modifies this`phase, board, board.kernel, board.driver, board.driver.channels, board.driver.fireNs
      ensures Valid() && board.Valid() && State() == TargetStep(old(board.View()), old(View()), i)
      ensures phase == LaunchOf(i)
    {
      ghost var x := View();
      assert x.timers[i].channel == timerRegs[i].channel && x.timers[i].task == timerRegs[i].task.View();
      var _ := board.Configure(SetTask(timerRegs[i].channel, timerRegs[i].task.taskId));
      assert Timers() == x.timers && Subs() == x.subs;
      Goto(LaunchOf(i));
    }

    /** The ioctl SET_TASK; a failure is only reported. */
    method TargetTurn(ghost tr: seq<(Platform, Exec)>, ts: seq<Turn>, k: nat, i: nat)
      requires Took(tr, ts, k) && k < |ts| && phase == TargetOf(i) && i < |timerRegs|
      modifies this`phase, board, board.kernel, board.driver, board.driver.channels, board.driver.fireNs
      ensures Took(tr, ts, k + 1) && phase == LaunchOf(i)
    {
      Before(tr, ts, k);
      TargetIsTaken(tr, ts, k, board.View(), View(), i);
      SetTaskOf(i);
    }

    ghost method NoteStart(i: nat, mark: Mark)
      requires Valid()
      modifies this`started
      ensures Valid() && View() == old(View()).(started := old(started)[i := mark])
    {
      started := started[i := mark];
      assert Timers() == old(Timers()) && Subs() == old(Subs());
    }

    method StartOf(i: nat, inp: Input)
      requires Valid() && board.Valid() && phase == LaunchOf(i) && i < |timerRegs|
      requires timerRegs[i].channel == i < CHANNELS
      requires StepSafe(board.View(), View(), inp)
      modifies this`phase, this`handled, this`started
      modifies board, board.kernel, board.driver, board.driver.channels, board.driver.fireNs
      ensures Valid() && board.Valid() && State() == LaunchStep(old(board.View()), old(View()), i, inp)
      ensures phase == EnsureTask(i + 1)
    {
      ghost var p, x := board.View(), View();
      if p.sys.world.drv.channels[i].period == 0 { StartRefused(p, x, i, inp); } else { StartAccepted(p, x, i, inp); }
      ghost var mark := Mark(timerRegs[i].task.taskId, inp.now, |board.driver.sent|);
      var status := board.StartChannel(timerRegs[i].channel, inp.now, inp.armNow);
      assert Timers() == x.timers && Subs() == x.subs;
      if status == Successful { NoteStart(i, mark); }
      EndTurn(i);
    }

    /** The ioctl START. */
    method LaunchTurn(ghost tr: seq<(Platform, Exec)>, ts: seq<Turn>, k: nat, i: nat)
      requires Took(tr, ts, k) && k < |ts| && phase == LaunchOf(i) && i < |timerRegs|
      modifies this`phase, this`handled, this`started
      modifies board, board.kernel, board.driver, board.driver.channels, board.driver.fireNs
      ensures Took(tr, ts, k + 1) && phase == EnsureTask(i + 1)
    {
      Before(tr, ts, k);
      LaunchIsTaken(tr, ts, k, board.View(), View(), i);
      assert Timers()[i].channel == i;
      StartOf(i, ts[k].inp);
    }

    /** One turn of the loop over the registered timers. */
    method SetupTimer(ghost tr: seq<(Platform, Exec)>, ts: seq<Turn>, from: nat, i: nat) returns (used: nat)
      requires Took(tr, ts, from) && from + 4 <= |ts| && phase == EnsureTask(i) && i < |timerRegs|
      modifies this`phase, this`handled, this`started, timerRegs[i].task
      modifies board, board.kernel, board.driver, board.driver.channels, board.driver.fireNs
      ensures Took(tr, ts, used) && from < used <= from + 4 && phase == EnsureTask(i + 1)
    {
      used := from + 1;
      var running := EnsureTaskTurn(tr, ts, from, i);
      if !running { return; }
      used := used + 1;
      var periodSet := PeriodTurn(tr, ts, from + 1, i);
      if !periodSet { return; }
      TargetTurn(tr, ts, from + 2, i);
      LaunchTurn(tr, ts, from + 3, i);
      used := from + 4;
    }

    /** The loop over the registered timers. */
    method SetupTimers(ghost tr: seq<(Platform, Exec)>, ts: seq<Turn>, from: nat) returns (used: nat)
      requires Took(tr, ts, from) && from + 4 * |timerRegs| <= |ts| && phase == EnsureTask(0)
      modifies this`phase, this`handled, this`started, Tasks()
      modifies board, board.kernel, board.driver, board.driver.channels, board.driver.fireNs
      ensures Took(tr, ts, used) && from <= used <= from + 4 * |timerRegs| && phase == EnsureTask(|timerRegs|)
    {
      used := from;
      for i := 0 to |timerRegs|
        invariant Took(tr, ts, used) && from <= used <= from + 4 * i && phase == EnsureTask(i)
      {
        used := SetupTimer(tr, ts, used, i);
      }
    }

    method LeaveSetup(ghost tr: seq<(Platform, Exec)>, ts: seq<Turn>, k: nat)
      requires Took(tr, ts, k) && k < |ts| && phase == EnsureTask(|timerRegs|)
      modifies this`phase, board, board.kernel, board.driver, board.driver.channels, board.driver.fireNs
      ensures Took(tr, ts, k + 1) && phase.Spinning?
    {
      Before(tr, ts, k);
      EnsureTaskIsTaken(tr, ts, k, board.View(), View(), |timerRegs|);
      Goto(Spinning);
    }

    /** setup_timer_driver with the device open. */
    method ConfigureTimers(ghost tr: seq<(Platform, Exec)>, ts: seq<Turn>, from: nat) returns (ok: bool, used: nat)
      requires Took(tr, ts, from) && from + 4 * |timerRegs| + 2 <= |ts| && phase.ModeOf?
      modifies this`phase, this`handled, this`started, Tasks()
      modifies board, board.kernel, board.driver, board.driver.channels, board.driver.fireNs
      ensures Took(tr, ts, used) && from <= used <= from + 4 * |timerRegs| + 2 && phase.Spinning? && ok
    {
      used := from + 1;
      ok := ModeTurn(tr, ts, from);
      if !ok { return; }
      used := SetupTimers(tr, ts, used);
      LeaveSetup(tr, ts, used);
      used := used + 1;
    }

    method SetupTimerDriver(ghost tr: seq<(Platform, Exec)>, ts: seq<Turn>, from: nat) returns (ok: bool, used: nat)
      requires Took(tr, ts, from) && from + 4 * |timerRegs| + 7 <= |ts|
      requires phase == if |timerRegs| == 0 then Spinning else TestOpen
      modifies this`phase, this`devFd, this`handled, this`started, Tasks()
      modifies board, board.kernel, board.driver, board.driver.channels, board.driver.fireNs
      ensures Took(tr, ts, used) && from <= used <= from + 4 * |timerRegs| + 7 && phase.Spinning?
      ensures ok <==> |timerRegs| == 0 || devFd >= 0
    {
      used := from;
      if |timerRegs| == 0 { return true, used; }
      ok, used := OpenDevice(tr, ts, used);
      if !ok { return; }
      ok, used := ConfigureTimers(tr, ts, used);
    }

    /** spin() up to the point where it blocks.  In any sane environment (a run from a state between two
        steps, see SoloRuns.SaneRunIsSafe) it takes exactly the executor's steps, whatever comes in between. */
    method SpinSetup(ghost tr: seq<(Platform, Exec)>, ts: seq<Turn>) returns (used: nat)
      requires Valid() && board.Valid() && phase.Built? && SafeRunOf(tr, ts)
      requires tr[0] == Invoke(board.View(), View(), Spin)
      requires 5 * |timerRegs| + 8 <= |ts|
      modifies this`phase, this`devFd, this`handled, this`started, Tasks()
      modifies board, board.kernel, board.driver, board.driver.channels, board.driver.fireNs
      ensures Took(tr, ts, used) && phase.Spinning?
    {
      Goto(StartTask(0));
      used := StartAllTasks(tr, ts, 0);
      var _, n := SetupTimerDriver(tr, ts, used);
      used := n;
    }

    // ---- stop_all_tasks ----

    /** `reg.task->stop()` on the j-th task, timers first. */
    method StopTask(j: nat, gap1: seq<EndToEnd.Move>, gap2: seq<EndToEnd.Move>) returns (stopped: bool)
      requires Valid() && board.Valid() && Inv(board.View().sys.world) && j < |timerRegs| + |subTasks|
      requires var t := CellAt(View(), j); t.running && t.id != NONE ==> StopGaps(board.View(), t.id, gap1, gap2)
      modifies Tasks(), board, board.kernel, board.driver, board.driver.channels, board.driver.fireNs
      ensures Valid() && board.Valid()
      ensures var t := CellAt(old(View()), j);
              && View() == (if t.running then SetCellAt(old(View()), j, Cell(NONE, false)) else old(View()))
              && stopped == (t.running && t.id != NONE)
              && board.View() == if stopped then StopMoves(old(board.View()), t.id, gap1, gap2).2 else old(board.View())
    {
      ghost var x := View();
      var task := if j < |timerRegs| then timerRegs[j].task else subTasks[j - |timerRegs|];
      assert task.View() == CellAt(x, j);
      stopped := task.running && task.taskId != NONE;
      task.Stop(gap1, gap2);
      if j < |timerRegs| {
        assert Timers() == x.timers[j := x.timers[j].(task := task.View())];
        assert Subs() == x.subs;
      } else {
        assert Timers() == x.timers;
        assert Subs() == x.subs[j - |timerRegs| := task.View()];
      }
    }

    /** The step after Before, for the j-th task. */
    method StopNow(j: nat, gap1: seq<EndToEnd.Move>, gap2: seq<EndToEnd.Move>) returns (stopped: bool)
      requires Valid() && board.Valid() && Inv(board.View().sys.world) && j < |timerRegs| + |subTasks|
      requires StopTurns(View(), j) == 3 ==> StopGaps(board.View(), CellAt(View(), j).id, gap1, gap2)
      modifies this`phase, Tasks()
      modifies board, board.kernel, board.driver, board.driver.channels, board.driver.fireNs
      ensures Valid() && board.Valid() && stopped == (StopTurns(old(View()), j) == 3)
      ensures var t := CellAt(old(View()), j);
              var x' := if t.running then SetCellAt(old(View()), j, Cell(NONE, false)) else old(View());
              && View() == x'.(phase := ClearFlag(j + 1))
              && board.View() == if stopped then StopMoves(old(board.View()), t.id, gap1, gap2).2 else old(board.View())
    {
      stopped := StopTask(j, gap1, gap2);
      Goto(ClearFlag(j + 1));
    }

    method TakeStop(ghost tr: seq<(Platform, Exec)>, ts: seq<Turn>, k: nat, j: nat) returns (used: nat)
      requires Took(tr, ts, k) && k + 3 <= |ts| && phase == ClearFlag(j) && j < |timerRegs| + |subTasks|
      modifies this`phase, Tasks()
      modifies board, board.kernel, board.driver, board.driver.channels, board.driver.fireNs
      ensures Took(tr, ts, used) && k < used <= k + 3 && phase == ClearFlag(j + 1)
    {
      Before(tr, ts, k);
      TaskStopIsTaken(tr, ts, k, board.View(), View(), j);
      var stopped := StopNow(j, ts[k + 1].before, ts[k + 2].before);
      used := if stopped then k + 3 else k + 1;
    }

    method LeaveStops(ghost tr: seq<(Platform, Exec)>, ts: seq<Turn>, k: nat)
      requires Took(tr, ts, k) && k < |ts| && phase == ClearFlag(|timerRegs| + |subTasks|)
      modifies this`phase, board, board.kernel, board.driver, board.driver.channels, board.driver.fireNs
      ensures Took(tr, ts, k + 1) && phase == if devFd < 0 then Gone else StopChannel(0)
    {
      Before(tr, ts, k);
      ClearFlagIsTaken(tr, ts, k, board.View(), View(), |timerRegs| + |subTasks|);
      Goto(if devFd < 0 then Gone else StopChannel(0));
    }

    method StopAllTasks(ghost tr: seq<(Platform, Exec)>, ts: seq<Turn>, from: nat) returns (used: nat)
      requires Took(tr, ts, from) && from + 3 * (|timerRegs| + |subTasks|) < |ts| && phase == ClearFlag(0)
      modifies this`phase, Tasks(), board, board.kernel, board.driver, board.driver.channels, board.driver.fireNs
      ensures Took(tr, ts, used) && from < used <= from + 3 * (|timerRegs| + |subTasks|) + 1
      ensures phase == if devFd < 0 then Gone else StopChannel(0)
    {
      used := from;
      for j := 0 to |timerRegs| + |subTasks|
        invariant Took(tr, ts, used) && from <= used <= from + 3 * j && phase == ClearFlag(j)
      {
        used := TakeStop(tr, ts, used, j);
      }
      LeaveStops(tr, ts, used);
      used := used + 1;
    }

    // ---- teardown_timer_driver ----

    /** An ioctl that reads the clock leaves the executor itself as it is. */
    method Ioctl(cmd: Command, inp: Input)
      requires Valid() && board.Valid() && MayIoctl(board.View(), cmd, inp) && Inv(board.View().sys.world)
      requires 0 <= inp.now && inp.armNow <= HORIZON
      modifies board, board.kernel, board.driver, board.driver.channels, board.driver.fireNs
      ensures Valid() && board.Valid() && View() == old(View()) && board.View() == Timed(old(board.View()), cmd, inp)
    {
      ghost var x := View();
      var _ := board.TimedIoctl(cmd, inp.now, inp.armNow);
      assert Timers() == x.timers && Subs() == x.subs;
    }

    /** The ioctl STOP of timer i. */
    method StopOf(i: nat, inp: Input)
      requires Valid() && board.Valid() && phase == StopChannel(i) && i < |timerRegs| && timerRegs[i].channel == i
      requires StepSafe(board.View(), View(), inp)
      modifies this`phase, board, board.kernel, board.driver, board.driver.channels, board.driver.fireNs
      ensures Valid() && board.Valid() && State() == StopChannelStep(old(board.View()), old(View()), i, inp)
      ensures phase == StopChannel(i + 1)
    {
      Ioctl(Stop(timerRegs[i].channel), inp);
      Goto(StopChannel(i + 1));
    }

    method TakeStopChannel(ghost tr: seq<(Platform, Exec)>, ts: seq<Turn>, k: nat, i: nat)
      requires Took(tr, ts, k) && k < |ts| && phase == StopChannel(i) && i < |timerRegs|
      modifies this`phase, board, board.kernel, board.driver, board.driver.channels, board.driver.fireNs
      ensures Took(tr, ts, k + 1) && phase == StopChannel(i + 1)
    {
      Before(tr, ts, k);
      StopChannelIsTaken(tr, ts, k, board.View(), View(), i);
      assert Timers()[i].channel == i;
      StopOf(i, ts[k].inp);
    }

    method LeaveStopChannels(ghost tr: seq<(Platform, Exec)>, ts: seq<Turn>, k: nat)
      requires Took(tr, ts, k) && k < |ts| && phase == StopChannel(|timerRegs|)
      modifies this`phase, board, board.kernel, board.driver, board.driver.channels, board.driver.fireNs
      ensures Took(tr, ts, k + 1) && phase == Closing(0)
    {
      Before(tr, ts, k);
      StopChannelIsTaken(tr, ts, k, board.View(), View(), |timerRegs|);
      Goto(Closing(0));
    }

    /** The j-th store of close(). */
    method StoreOf(j: nat)
      requires Valid() && board.Valid() && phase == Closing(j) && j < STORES
      modifies this`phase, this`devFd, board, board.kernel, board.driver, board.driver.channels, board.driver.fireNs
      ensures Valid() && board.Valid() && State() == ClosingStep(old(board.View()), old(View()), j)
      ensures phase == if j + 1 < STORES then Closing(j + 1) else Gone
      ensures devFd == if j + 1 < STORES then old(devFd) else -1
    {
      ghost var x := View();
      board.StoreOfClose(j);
      assert Timers() == x.timers && Subs() == x.subs;
      if j + 1 < STORES { Goto(Closing(j + 1)); } else { Record(-1, Gone); }
    }

    method TakeStore(ghost tr: seq<(Platform, Exec)>, ts: seq<Turn>, k: nat, j: nat)
      requires Took(tr, ts, k) && k < |ts| && phase == Closing(j) && j < STORES
      modifies this`phase, this`devFd, board, board.kernel, board.driver, board.driver.channels, board.driver.fireNs
      ensures Took(tr, ts, k + 1) && phase == if j + 1 < STORES then Closing(j + 1) else Gone
      ensures devFd == if j + 1 < STORES then old(devFd) else -1
    {
      Before(tr, ts, k);
      ClosingIsTaken(tr, ts, k, board.View(), View(), j);
      StoreOf(j);
    }

    /** close(dev_fd_), with interrupts between its stores. */
    method CloseDevice(ghost tr: seq<(Platform, Exec)>, ts: seq<Turn>, from: nat)
      requires Took(tr, ts, from) && from + STORES <= |ts| && phase == Closing(0)
      modifies this`phase, this`devFd, board, board.kernel, board.driver, board.driver.channels, board.driver.fireNs
      ensures Took(tr, ts, from + STORES) && phase.Gone? && devFd == -1
    {
      for j := 0 to STORES
        invariant Took(tr, ts, from + j) && phase == (if j < STORES then Closing(j) else Gone)
        invariant j == STORES ==> devFd == -1
      {
        TakeStore(tr, ts, from + j, j);
      }
    }

    /** The STOP ioctls. */
    method StopChannels(ghost tr: seq<(Platform, Exec)>, ts: seq<Turn>, from: nat)
      requires Took(tr, ts, from) && from + |timerRegs| <= |ts| && phase == StopChannel(0)
      modifies this`phase, board, board.kernel, board.driver, board.driver.channels, board.driver.fireNs
      ensures Took(tr, ts, from + |timerRegs|) && phase == StopChannel(|timerRegs|)
    {
      for i := 0 to |timerRegs|
        invariant Took(tr, ts, from + i) && phase == StopChannel(i)
      {
        TakeStopChannel(tr, ts, from + i, i);
      }
    }

    method TeardownTimerDriver(ghost tr: seq<(Platform, Exec)>, ts: seq<Turn>, from: nat) returns (used: nat)
      requires Took(tr, ts, from) && from + |timerRegs| + 1 + STORES <= |ts|
      requires phase == if devFd < 0 then Gone else StopChannel(0)
      modifies this`phase, this`devFd, board, board.kernel, board.driver, board.driver.channels, board.driver.fireNs
      ensures Took(tr, ts, used) && phase.Gone? && devFd < 0
    {
      used := from;
      if devFd < 0 { return; }
      StopChannels(tr, ts, used);
      used := used + |timerRegs|;
      LeaveStopChannels(tr, ts, used);
      CloseDevice(tr, ts, used + 1);
      used := used + 1 + STORES;
    }

    /** ~RTExecutor, likewise. */
    method Destroy(ghost tr: seq<(Platform, Exec)>, ts: seq<Turn>) returns (used: nat)
      requires Valid() && board.Valid() && AtRest(View()) && SafeRunOf(tr, ts)
      requires tr[0] == Invoke(board.View(), View(), ExecutorModel.Destroy)
      requires 4 * |timerRegs| + 3 * |subTasks| + 2 + STORES <= |ts|
      modifies this`phase, this`devFd, Tasks()
      modifies board, board.kernel, board.driver, board.driver.channels, board.driver.fireNs
      ensures Took(tr, ts, used) && phase.Gone? && devFd < 0
    {
      Goto(ClearFlag(0));
      used := StopAllTasks(tr, ts, 0);
      used := TeardownTimerDriver(tr, ts, used);
    }
  }
}
