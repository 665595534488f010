/** Concrete runs from boot in which two executors race for the timer device: both come to hold it, and
    one of them, when it is destroyed, stops the timers of the other. */
module HoldersRace {
  import opened TimerModel
  import opened LoadArithmetic
  import opened CloseInterleaving
  import opened ExecutorModel
  import opened ExecutorInvariant
  import opened Ownership
  import opened DeviceHolders

  // ---- Reachable fleets ----

  ghost predicate Reaches(f: Fleet, g: Fleet)
    requires Sized(f.p)
  {
    exists evs :: SaneRun(f, evs) && Afters(f, evs) == g
  }

  lemma OneOccurrence(f: Fleet, ev: Occurrence, g: Fleet)
    requires Sized(f.p) && Sane(f, ev) && g == After(f, ev)
    ensures Reaches(f, g)
  {
    var evs := [ev];
    assert evs[0] == ev && evs[1..] == [];
    assert Afters(g, evs[1..]) == g && SaneRun(g, evs[1..]);
    assert SaneRun(f, evs) && Afters(f, evs) == g;
  }

  lemma {:induction false} AftersConcat(f: Fleet, xs: seq<Occurrence>, ys: seq<Occurrence>)
    requires Sized(f.p) && SaneRun(f, xs) && SaneRun(Afters(f, xs), ys)
    ensures SaneRun(f, xs + ys) && Afters(f, xs + ys) == Afters(Afters(f, xs), ys)
    decreases xs
  {
    if xs == [] {
      assert xs + ys == ys;
    } else {
      assert (xs + ys)[0] == xs[0] && (xs + ys)[1..] == xs[1..] + ys;
      AftersConcat(After(f, xs[0]), xs[1..], ys);
    }
  }

  lemma ThenReaches(f: Fleet, g: Fleet, h: Fleet)
    requires Sized(f.p) && Sized(g.p) && Reaches(f, g) && Reaches(g, h)
    ensures Reaches(f, h)
  {
    var xs :| SaneRun(f, xs) && Afters(f, xs) == g;
    var ys :| SaneRun(g, ys) && Afters(g, ys) == h;
    AftersConcat(f, xs, ys);
  }

  /** The fleet with executor e at a given point of the preparation: one timer registered. */
  function At(f: Fleet, e: nat, ph: Phase): Fleet
    requires e < |f.members|
  {
    f.(members := f.members[e := FreshExec(e).(nextChannel := 1, timers := [TimerReg(0, 10, Cell(NONE, false))],
      phase := ph)])
  }

  lemma Registers(f: Fleet, e: nat)
    requires Sized(f.p) && e < |f.members| && f.members[e] == FreshExec(e) && f.p.tps == 1000
    ensures Reaches(f, At(f, e, Built))
  {
    assert MsToTicks(10, 1000) == 10;
    assert AddTimer(FreshExec(e), 10, 1000).0 == At(f, e, Built).members[e];
    OneOccurrence(f, Invokes(e, RegisterTimer(10)), At(f, e, Built));
  }

  lemma CallsSpin(f: Fleet, e: nat)
    requires Sized(f.p) && e < |f.members|
    ensures Reaches(At(f, e, Built), At(f, e, StartTask(0)))
  {
    OneOccurrence(At(f, e, Built), Invokes(e, Spin), At(f, e, StartTask(0)));
  }

  const NO_TASK: Input := Input(false, false, false, 0, 0, 0)

  lemma SkipsTask(f: Fleet, e: nat)
    requires Sized(f.p) && e < |f.members|
    ensures Reaches(At(f, e, StartTask(0)), At(f, e, StartTask(1)))
  {
    var x := At(f, e, StartTask(0)).members[e];
    assert x.timers[0 := x.timers[0]] == x.timers;
    assert SetTimerTask(x, 0, x.timers[0].task) == x;
    OneOccurrence(At(f, e, StartTask(0)), Steps(e, NO_TASK), At(f, e, StartTask(1)));
  }

  lemma ComesToTest(f: Fleet, e: nat)
    requires Sized(f.p) && e < |f.members|
    ensures Reaches(At(f, e, StartTask(1)), At(f, e, TestOpen))
  {
    OneOccurrence(At(f, e, StartTask(1)), Steps(e, NO_TASK), At(f, e, TestOpen));
  }

  /** One registration and the call of spin() lead to the test in rtss_open. */
  lemma Prepares(f: Fleet, e: nat)
    requires Sized(f.p) && e < |f.members| && f.members[e] == FreshExec(e) && f.p.tps == 1000
    ensures Reaches(f, At(f, e, TestOpen))
  {
    Registers(f, e);
    CallsSpin(f, e);
    ThenReaches(f, At(f, e, Built), At(f, e, StartTask(0)));
    SkipsTask(f, e);
    ThenReaches(f, At(f, e, StartTask(0)), At(f, e, StartTask(1)));
    ComesToTest(f, e);
    ThenReaches(f, At(f, e, StartTask(1)), At(f, e, TestOpen));
  }

  lemma Tests(f: Fleet, e: nat, f': Fleet)
    requires Sized(f.p) && e < |f.members| && f.members[e].phase.TestOpen? && !f.p.sys.world.drv.isOpen
    requires f' == f.(members := f.members[e := f.members[e].(phase := TestInstalled)])
    ensures Reaches(f, f')
  {
    OneOccurrence(f, Steps(e, NO_TASK), f');
  }

  lemma {:induction false} FinishReaches(f: Fleet, order: seq<(nat, Input)>)
    requires Sized(f.p)
    ensures Reaches(f, Finish(f, order))
    decreases order
  {
    if order == [] {
      assert SaneRun(f, []) && Afters(f, []) == f;
    } else {
      var (e, inp) := order[0];
      var g := FinishStep(f, e, inp);
      if e < |f.members| && InOpen(f.members[e].phase) {
        OneOccurrence(f, Steps(e, inp), g);
      } else {
        assert SaneRun(f, []) && Afters(f, []) == f;
      }
      FinishReaches(g, order[1..]);
      ThenReaches(f, g, Finish(g, order[1..]));
    }
  }

  /** Both executors have found the device closed. */
  function BothInside(): Fleet
  {
    var f2 := At(At(Ownership.Boot(2, 1000), 0, TestOpen), 1, TestOpen);
    var f3 := f2.(members := f2.members[0 := f2.members[0].(phase := TestInstalled)]);
    f3.(members := f3.members[1 := f3.members[1].(phase := TestInstalled)])
  }

  lemma BothGetInside()
    ensures Sized(BothInside().p) && Reaches(Ownership.Boot(2, 1000), BothInside())
  {
    var f0 := Ownership.Boot(2, 1000);
    var f1 := At(f0, 0, TestOpen);
    Prepares(f0, 0);
    var f2 := At(f1, 1, TestOpen);
    Prepares(f1, 1);
    ThenReaches(f0, f1, f2);
    var f3 := f2.(members := f2.members[0 := f2.members[0].(phase := TestInstalled)]);
    Tests(f2, 0, f3);
    ThenReaches(f0, f2, f3);
    Tests(f3, 1, BothInside());
    ThenReaches(f0, f3, BothInside());
  }

  /** From boot, two executors with a timer each can both come to hold the device. */
  lemma TwoHoldersHappen()
    ensures exists evs :: SaneRun(Ownership.Boot(2, 1000), evs) && TwoHolders(Afters(Ownership.Boot(2, 1000), evs))
  {
    var f4 := BothInside();
    BothGetInside();
    var inp := Input(true, true, true, 3, 0, 0);
    var order := Turns(0, inp, 4) + Turns(1, inp, 4);
    BothFinish(f4, 0, 1, inp);
    FinishReaches(f4, order);
    ThenReaches(Ownership.Boot(2, 1000), f4, Finish(f4, order));
  }

  // ---- One destroys what the other has set up ----

  /** One of the two executors: one timer of 10 ticks, registered for channel 0. */
  function Racer(e: nat, ph: Phase, fd: int, t: Cell, handled: nat, started: map<int, Mark>): Exec
  {
    Exec(e, ph, 1, fd, [TimerReg(0, 10, t)], [], handled, started)
  }

  function Waiting(e: nat, ph: Phase, fd: int): Exec
  {
    Racer(e, ph, fd, Cell(NONE, false), 0, map[])
  }

  /** The fleet with the two executors as given, at uptime 0. */
  ghost predicate Scene(f: Fleet, x0: Exec, x1: Exec)
  {
    Sized(f.p) && f.members == [x0, x1] && f.p.tps == 1000 && f.p.sys.world.clock == 0 && f.p.nextId > NONE
  }

  const GO: Input := Input(true, true, true, 3, 0, 0)

  lemma StepReaches(f: Fleet, e: nat, inp: Input)
    requires Sized(f.p) && Sane(f, Steps(e, inp))
    ensures Reaches(f, After(f, Steps(e, inp)))
  {
    OneOccurrence(f, Steps(e, inp), After(f, Steps(e, inp)));
  }

  /** Executor 0 opens the device, the handler not being installed yet, and sets the mode. */
  lemma FirstOpens(f: Fleet, x1: Exec) returns (g: Fleet)
    requires Scene(f, Waiting(0, TestInstalled, -1), x1) && !f.p.sys.world.drv.isrInstalled && !f.p.handler
    ensures Reaches(f, g) && Scene(g, Waiting(0, EnsureTask(0), 3), x1) && g.p.sys.world.drv.isrInstalled
  {
    var f1 := FirstTests(f, x1);
    var f2 := FirstInstalls(f1, x1);
    ThenReaches(f, f1, f2);
    var f3 := FirstMarks(f2, x1);
    ThenReaches(f, f2, f3);
    var f4 := FirstStores(f3, x1);
    ThenReaches(f, f3, f4);
    g := FirstSetsMode(f4, x1);
    ThenReaches(f, f4, g);
  }

  lemma FirstTests(f: Fleet, x1: Exec) returns (g: Fleet)
    requires Scene(f, Waiting(0, TestInstalled, -1), x1) && !f.p.sys.world.drv.isrInstalled && !f.p.handler
    ensures Reaches(f, g) && Scene(g, Waiting(0, CallInstall, -1), x1) && !g.p.handler
  {
    g := After(f, Steps(0, GO));
    StepReaches(f, 0, GO);
  }

  lemma FirstInstalls(f: Fleet, x1: Exec) returns (g: Fleet)
    requires Scene(f, Waiting(0, CallInstall, -1), x1) && !f.p.handler
    ensures Reaches(f, g) && Scene(g, Waiting(0, StoreInstalled, -1), x1)
  {
    g := After(f, Steps(0, GO));
    StepReaches(f, 0, GO);
  }

  lemma FirstMarks(f: Fleet, x1: Exec) returns (g: Fleet)
    requires Scene(f, Waiting(0, StoreInstalled, -1), x1)
    ensures Reaches(f, g) && Scene(g, Waiting(0, StoreOpen, -1), x1) && g.p.sys.world.drv.isrInstalled
  {
    g := After(f, Steps(0, GO));
    StepReaches(f, 0, GO);
  }

  lemma FirstStores(f: Fleet, x1: Exec) returns (g: Fleet)
    requires Scene(f, Waiting(0, StoreOpen, -1), x1) && f.p.sys.world.drv.isrInstalled
    ensures Reaches(f, g) && Scene(g, Waiting(0, ModeOf, 3), x1) && g.p.sys.world.drv.isrInstalled
  {
    g := After(f, Steps(0, GO));
    StepReaches(f, 0, GO);
  }

  lemma FirstSetsMode(f: Fleet, x1: Exec) returns (g: Fleet)
    requires Scene(f, Waiting(0, ModeOf, 3), x1) && f.p.sys.world.drv.isrInstalled
    ensures Reaches(f, g) && Scene(g, Waiting(0, EnsureTask(0), 3), x1) && g.p.sys.world.drv.isrInstalled
  {
    g := After(f, Steps(0, GO));
    StepReaches(f, 0, GO);
  }

  /** Executor 1, inside its own open all the while, opens the device as well. */
  lemma SecondOpens(f: Fleet, x0: Exec) returns (g: Fleet)
    requires Scene(f, x0, Waiting(1, TestInstalled, -1)) && f.p.sys.world.drv.isrInstalled
    ensures Reaches(f, g) && Scene(g, x0, Waiting(1, EnsureTask(0), 3))
  {
    var f1 := SecondTests(f, x0);
    var f2 := SecondStores(f1, x0);
    ThenReaches(f, f1, f2);
    g := SecondSetsMode(f2, x0);
    ThenReaches(f, f2, g);
  }

  lemma SecondTests(f: Fleet, x0: Exec) returns (g: Fleet)
    requires Scene(f, x0, Waiting(1, TestInstalled, -1)) && f.p.sys.world.drv.isrInstalled
    ensures Reaches(f, g) && Scene(g, x0, Waiting(1, StoreOpen, -1))
  {
    g := After(f, Steps(1, GO));
    StepReaches(f, 1, GO);
  }

  lemma SecondStores(f: Fleet, x0: Exec) returns (g: Fleet)
    requires Scene(f, x0, Waiting(1, StoreOpen, -1))
    ensures Reaches(f, g) && Scene(g, x0, Waiting(1, ModeOf, 3))
  {
    g := After(f, Steps(1, GO));
    StepReaches(f, 1, GO);
  }

  lemma SecondSetsMode(f: Fleet, x0: Exec) returns (g: Fleet)
    requires Scene(f, x0, Waiting(1, ModeOf, 3))
    ensures Reaches(f, g) && Scene(g, x0, Waiting(1, EnsureTask(0), 3))
  {
    g := After(f, Steps(1, GO));
    StepReaches(f, 1, GO);
  }

  /** Channel 0 as the set-up of executor 0 leaves it step by step. */
  function ChannelOf(f: Fleet): Channel
    requires Sized(f.p)
  {
    f.p.sys.world.drv.channels[0]
  }

  const PERIOD: int := 10_000_000

  lemma StartsTask(f: Fleet, x1: Exec) returns (g: Fleet, t: Cell)
    requires Scene(f, Waiting(0, EnsureTask(0), 3), x1)
    ensures Reaches(f, g) && t.running && t.id != NONE && Scene(g, Racer(0, PeriodOf(0), 3, t, 0, map[]), x1)
  {
    g := After(f, Steps(0, GO));
    t := Cell(f.p.nextId, true);
    assert [TimerReg(0, 10, Cell(NONE, false))][0 := TimerReg(0, 10, t)] == [TimerReg(0, 10, t)];
    StepReaches(f, 0, GO);
  }

  lemma SetsPeriod(f: Fleet, x1: Exec, t: Cell) returns (g: Fleet)
    requires Scene(f, Racer(0, PeriodOf(0), 3, t, 0, map[]), x1)
    ensures Reaches(f, g) && Scene(g, Racer(0, TargetOf(0), 3, t, 0, map[]), x1) && ChannelOf(g).period == PERIOD
  {
    assert TicksToNs(10, 1000) == PERIOD;
    g := After(f, Steps(0, GO));
    StepReaches(f, 0, GO);
  }

  lemma SetsTask(f: Fleet, x1: Exec, t: Cell) returns (g: Fleet)
    requires Scene(f, Racer(0, TargetOf(0), 3, t, 0, map[]), x1) && ChannelOf(f).period == PERIOD
    ensures Reaches(f, g) && Scene(g, Racer(0, LaunchOf(0), 3, t, 0, map[]), x1) && ChannelOf(g).period == PERIOD
  {
    g := After(f, Steps(0, GO));
    StepReaches(f, 0, GO);
  }

  lemma Launches(f: Fleet, x1: Exec, t: Cell) returns (g: Fleet, m: Mark)
    requires Scene(f, Racer(0, LaunchOf(0), 3, t, 0, map[]), x1) && ChannelOf(f).period == PERIOD
    ensures Reaches(f, g) && Scene(g, Racer(0, EnsureTask(1), 3, t, 1, map[0 := m]), x1) && ChannelOf(g).active
  {
    g := After(f, Steps(0, GO));
    m := Mark(t.id, 0, |f.p.sys.world.drv.sent|);
    StepReaches(f, 0, GO);
    assert map[][0 := m] == map[0 := m];
  }

  lemma Blocks(f: Fleet, x1: Exec, t: Cell, m: Mark) returns (g: Fleet)
    requires Scene(f, Racer(0, EnsureTask(1), 3, t, 1, map[0 := m]), x1) && ChannelOf(f).active
    ensures Reaches(f, g) && Scene(g, Racer(0, Spinning, 3, t, 1, map[0 := m]), x1) && ChannelOf(g).active
  {
    g := After(f, Steps(0, GO));
    StepReaches(f, 0, GO);
  }

  /** Executor 0 sets up its timer and waits. */
  lemma FirstSetsUp(f: Fleet, x1: Exec) returns (g: Fleet, t: Cell, m: Mark)
    requires Scene(f, Waiting(0, EnsureTask(0), 3), x1)
    ensures Reaches(f, g) && t.running && Scene(g, Racer(0, Spinning, 3, t, 1, map[0 := m]), x1) && ChannelOf(g).active
  {
    var f1, f2, f3, f4;
    f1, t := StartsTask(f, x1);
    f2 := SetsPeriod(f1, x1, t);
    ThenReaches(f, f1, f2);
    f3 := SetsTask(f2, x1, t);
    ThenReaches(f, f2, f3);
    f4, m := Launches(f3, x1, t);
    ThenReaches(f, f3, f4);
    g := Blocks(f4, x1, t, m);
    ThenReaches(f, f4, g);
  }

  /** Executor 1 cannot create its task, so it connects nothing. */
  lemma SecondSkips(f: Fleet, x0: Exec) returns (g: Fleet)
    requires Scene(f, x0, Waiting(1, EnsureTask(0), 3)) && ChannelOf(f).active
    ensures Reaches(f, g) && ChannelOf(g).active
    ensures Scene(g, x0, Racer(1, EnsureTask(1), 3, Cell(NONE, false), 1, map[]))
  {
    g := After(f, Steps(1, NO_TASK));
    var r := TimerReg(0, 10, Cell(NONE, false));
    assert [r][0 := r] == [r];
    StepReaches(f, 1, NO_TASK);
  }

  lemma SecondBlocks(f: Fleet, x0: Exec) returns (g: Fleet)
    requires Scene(f, x0, Racer(1, EnsureTask(1), 3, Cell(NONE, false), 1, map[])) && ChannelOf(f).active
    ensures Reaches(f, g) && ChannelOf(g).active
    ensures Scene(g, x0, Racer(1, Spinning, 3, Cell(NONE, false), 1, map[]))
  {
    g := After(f, Steps(1, NO_TASK));
    StepReaches(f, 1, NO_TASK);
  }

  lemma SecondIsDestroyed(f: Fleet, x0: Exec) returns (g: Fleet)
    requires Scene(f, x0, Racer(1, Spinning, 3, Cell(NONE, false), 1, map[]))
    ensures Reaches(f, g) && Scene(g, x0, Racer(1, ClearFlag(0), 3, Cell(NONE, false), 1, map[]))
  {
    g := After(f, Invokes(1, Destroy));
    OneOccurrence(f, Invokes(1, Destroy), g);
  }

  lemma SecondStopsTask(f: Fleet, x0: Exec, k: nat) returns (g: Fleet)
    requires k <= 1 && Scene(f, x0, Racer(1, ClearFlag(k), 3, Cell(NONE, false), 1, map[]))
    ensures Reaches(f, g)
    ensures Scene(g, x0, Racer(1, if k == 0 then ClearFlag(1) else StopChannel(0), 3, Cell(NONE, false), 1, map[]))
  {
    g := After(f, Steps(1, NO_TASK));
    StepReaches(f, 1, NO_TASK);
  }

  lemma SecondStopsChannel(f: Fleet, x0: Exec) returns (g: Fleet)
    requires Scene(f, x0, Racer(1, StopChannel(0), 3, Cell(NONE, false), 1, map[]))
    ensures Reaches(f, g) && !ChannelOf(g).active
    ensures Scene(g, x0, Racer(1, StopChannel(1), 3, Cell(NONE, false), 1, map[]))
  {
    g := After(f, Steps(1, GO));
    StepReaches(f, 1, GO);
  }

  lemma SecondCloses(f: Fleet, x0: Exec) returns (g: Fleet)
    requires Scene(f, x0, Racer(1, StopChannel(1), 3, Cell(NONE, false), 1, map[])) && !ChannelOf(f).active
    ensures Reaches(f, g) && !ChannelOf(g).active
    ensures Scene(g, x0, Racer(1, Closing(0), 3, Cell(NONE, false), 1, map[]))
  {
    g := After(f, Steps(1, GO));
    StepReaches(f, 1, GO);
  }

  lemma SecondStoresOnce(f: Fleet, x0: Exec, k: nat) returns (g: Fleet)
    requires k < STORES && Sized(f.p) && !ChannelOf(f).active
    requires Scene(f, x0, Racer(1, Closing(k), 3, Cell(NONE, false), 1, map[]))
    ensures Reaches(f, g) && !ChannelOf(g).active
    ensures if k + 1 < STORES then Scene(g, x0, Racer(1, Closing(k + 1), 3, Cell(NONE, false), 1, map[]))
            else Scene(g, x0, Racer(1, Gone, -1, Cell(NONE, false), 1, map[])) && !g.p.sys.world.drv.isOpen
  {
    g := After(f, Steps(1, GO));
    StepReaches(f, 1, GO);
  }

  lemma SecondIsGone(f: Fleet, x0: Exec, k: nat) returns (g: Fleet)
    requires k < STORES && Sized(f.p) && !ChannelOf(f).active
    requires Scene(f, x0, Racer(1, Closing(k), 3, Cell(NONE, false), 1, map[]))
    ensures Reaches(f, g) && !ChannelOf(g).active && !g.p.sys.world.drv.isOpen
    ensures Scene(g, x0, Racer(1, Gone, -1, Cell(NONE, false), 1, map[]))
    decreases STORES - k
  {
    var f1 := SecondStoresOnce(f, x0, k);
    g := f1;
    if k + 1 < STORES {
      g := SecondIsGone(f1, x0, k + 1);
      ThenReaches(f, f1, g);
    }
  }

  lemma SecondLeaves(f: Fleet, x0: Exec) returns (g: Fleet)
    requires Scene(f, x0, Waiting(1, EnsureTask(0), 3)) && ChannelOf(f).active
    ensures Reaches(f, g) && !ChannelOf(g).active && !g.p.sys.world.drv.isOpen
    ensures Scene(g, x0, Racer(1, Gone, -1, Cell(NONE, false), 1, map[]))
  {
    var f1 := SecondSkips(f, x0);
    var f2 := SecondBlocks(f1, x0);
    ThenReaches(f, f1, f2);
    var f3 := SecondIsDestroyed(f2, x0);
    ThenReaches(f, f2, f3);
    var f4 := SecondStopsTask(f3, x0, 0);
    ThenReaches(f, f3, f4);
    var f5 := SecondStopsTask(f4, x0, 1);
    ThenReaches(f, f4, f5);
    var f6 := SecondStopsChannel(f5, x0);
    ThenReaches(f, f5, f6);
    var f7 := SecondCloses(f6, x0);
    ThenReaches(f, f6, f7);
    g := SecondIsGone(f7, x0, 0);
    ThenReaches(f, f7, g);
  }

  /** Executor 0 waits in spin(), takes itself for the holder and its timer for started; but its channel is
      off and the device closed. */
  ghost predicate Robbed(f: Fleet)
  {
    && Sized(f.p) && |f.members| == 2
    && f.members[0].phase.Spinning? && f.members[0].fd >= 0
    && 0 in f.members[0].started && |f.members[0].timers| == 1 && f.members[0].timers[0].task.running
    && f.members[1].phase.Gone?
    && !f.p.sys.world.drv.channels[0].active && !f.p.sys.world.drv.isOpen
  }

  /** From boot: both executors hold the device, one sets up its timer, the other is destroyed, and with it
      the first one's timer stops. */
  lemma CloseHitsTheOther()
    ensures exists evs :: SaneRun(Ownership.Boot(2, 1000), evs) && Robbed(Afters(Ownership.Boot(2, 1000), evs))
  {
    var f0 := Ownership.Boot(2, 1000);
    var f1 := BothInside();
    BothGetInside();
    var f2 := FirstOpens(f1, Waiting(1, TestInstalled, -1));
    ThenReaches(f0, f1, f2);
    var f3 := SecondOpens(f2, Waiting(0, EnsureTask(0), 3));
    ThenReaches(f0, f2, f3);
    var f4, t, m := FirstSetsUp(f3, Waiting(1, EnsureTask(0), 3));
    ThenReaches(f0, f3, f4);
    var f5 := SecondLeaves(f4, Racer(0, Spinning, 3, t, 1, map[0 := m]));
    ThenReaches(f0, f4, f5);
    assert Robbed(f5);
  }

  // ---- The close of one is the close of all ----

  /** The states of a run in which executor e alone takes steps. */
  ghost predicate StepsAlone(fs: seq<Fleet>, e: nat, inp: Input)
  {
    && (forall i :: 0 <= i < |fs| ==> Sized(fs[i].p))
    && forall i :: 0 < i < |fs| ==> fs[i] == After(fs[i - 1], Steps(e, inp))
  }

  lemma OneStore(f: Fleet, e: nat, inp: Input, k: nat)
    requires Sized(f.p) && e < |f.members| && f.members[e].phase == Closing(k) && k < STORES
    ensures var f' := After(f, Steps(e, inp));
            && f'.p.sys.world.drv == DoStore(f.p.sys.world.drv, StoreAt(k))
            && (k + 1 < STORES ==> f'.members[e] == f.members[e].(phase := Closing(k + 1)))
            && forall a :: 0 <= a < |f.members| && a != e ==> f'.members[a] == f.members[a]
  {}

  /** Executor e has made k stores of its close, and nothing else has changed. */
  ghost predicate Made(f: Fleet, e: nat, k: nat, f': Fleet)
    requires Sized(f.p) && Sized(f'.p) && k < STORES
  {
    && e < |f.members| == |f'.members|
    && f'.members[e].phase == Closing(k)
    && (forall a :: 0 <= a < |f.members| && a != e ==> f'.members[a] == f.members[a])
    && f'.p.sys.world.drv == AfterStores(f.p.sys.world.drv, k)
  }

  lemma MadeOneMore(f: Fleet, e: nat, inp: Input, k: nat, f': Fleet)
    requires Sized(f.p) && Sized(f'.p) && k + 1 < STORES && Made(f, e, k, f')
    ensures Made(f, e, k + 1, After(f', Steps(e, inp)))
  {
    OneStore(f', e, inp, k);
  }

  lemma {:induction false} StoresSoFar(fs: seq<Fleet>, e: nat, inp: Input, k: nat)
    requires StepsAlone(fs, e, inp) && k < |fs| && k < STORES
    requires e < |fs[0].members| && fs[0].members[e].phase == Closing(0)
    ensures Made(fs[0], e, k, fs[k])
  {
    if k > 0 {
      StoresSoFar(fs, e, inp, k - 1);
      MadeOneMore(fs[0], e, inp, k - 1, fs[k - 1]);
    }
  }

  /** In general: whatever the others are doing, the close of one executor is the whole device's close, and
      the others are not told. */
  lemma CloseIsForAll(fs: seq<Fleet>, e: nat, inp: Input)
    requires StepsAlone(fs, e, inp) && |fs| == STORES + 1
    requires e < |fs[0].members| && fs[0].members[e].phase == Closing(0)
    ensures fs[STORES].p.sys.world.drv == Close(fs[0].p.sys.world.drv)
    ensures |fs[STORES].members| == |fs[0].members|
    ensures forall a :: 0 <= a < |fs[0].members| && a != e ==> fs[STORES].members[a] == fs[0].members[a]
  {
    StoresSoFar(fs, e, inp, STORES - 1);
    OneStore(fs[STORES - 1], e, inp, STORES - 1);
    StoresAreClose(fs[0].p.sys.world.drv);
  }
}
