/** What spin() and the destructor achieve, with interrupts, callback tasks, publishers and other
    executors acting between any two of their steps. */
module ConnectedTimers {
  import opened Machine
  import opened TimerModel
  import opened TimerRuns
  import opened EventGrid
  import opened ChannelRuns
  import opened CloseInterleaving
  import opened EndToEnd
  import opened ExecutorModel
  import opened ExecutorInvariant
  import opened Ownership
  import CallbackProtocol
  import ExecutorSteps

  /** Timer j has its channel: active with its own period and its own task as target, no other channel
      with that target, on the grid of its own START ever since, and its callbacks within the rate. */
  ghost predicate Connected(p: Platform, x: Exec, j: int)
    requires Sized(p)
  {
    && 0 <= j < |x.timers| && ValidChannel(j) && j in x.started
    && var ch := p.sys.world.drv.channels[j];
       var id := x.timers[j].task.id;
       var start := x.started[j];
       && ch.active && ch.period == Ns(p, x, j) > 0 && ch.target == id == start.task
       && OnlyChannel(p.sys.world.drv.channels, j, id)
       && Tracked(p.sys.world, j, start.at, ch.period, start.sent)
       && RateBounded(p.sys, j, id, start.at, ch.period, start.sent)
  }

  /** Executor e holds the device and is not being destroyed. */
  ghost predicate Serving(f: Fleet, e: nat)
  {
    e < |f.members| && f.members[e].fd >= 0 && !TearingDown(f.members[e].phase)
  }

  lemma LinkedIsConnected(f: Fleet, e: nat, j: nat)
    requires FleetInv(f) && Serving(f, e) && j in f.members[e].started
    ensures Connected(f.p, f.members[e], j)
  {
    var x := f.members[e];
    assert ShapeOk(f.p, x) && StartedOk(f.p, x);
    assert ChannelState(f.p, x, j);
    var k := x.started[j];
    LinkedIsBounded(f.p.sys, j, k.task, k.at, Ns(f.p, x, j), k.sent);
  }

  lemma ConnectedSoFar(f: Fleet, e: nat)
    requires FleetInv(f) && Serving(f, e)
    ensures var x := f.members[e];
            && x.handled <= |x.timers| <= CHANNELS
            && (forall j: nat :: j < x.handled && x.timers[j].task.running && Ns(f.p, x, j) > 0 ==>
               Connected(f.p, x, j))
            && (forall c: nat :: c < CHANNELS && f.p.sys.world.drv.channels[c].active ==> Connected(f.p, x, c))
  {
    var x := f.members[e];
    assert ShapeOk(f.p, x) && StartedOk(f.p, x);
    forall j: nat | j in x.started
      ensures Connected(f.p, x, j)
    {
      LinkedIsConnected(f, e, j);
    }
    forall c: nat | c < CHANNELS && f.p.sys.world.drv.channels[c].active
      ensures c in x.started
    {
      assert ChannelState(f.p, x, c);
    }
  }

  /** In every run without overlapping opens, at every moment from the first turn of the set-up loop on
      until the destructor is called: each timer that had its turn, whose task runs and whose period
      converts to a positive number of nanoseconds, is connected, however many interrupts have come
      since its START; and no other channel is active. */
  lemma SetupConnectsTimers(n: nat, tps: uint32, evs: seq<Occurrence>, e: nat)
    requires SaneRun(Ownership.Boot(n, tps), evs) && NoOverlap(Ownership.Boot(n, tps), evs)
    requires Serving(Afters(Ownership.Boot(n, tps), evs), e)
    ensures var f := Afters(Ownership.Boot(n, tps), evs);
            var x := f.members[e];
            && (forall j: nat :: j < x.handled && j < |x.timers| && x.timers[j].task.running && Ns(f.p, x, j) > 0 ==>
               Connected(f.p, x, j))
            && (forall c: nat :: c < CHANNELS && f.p.sys.world.drv.channels[c].active ==> Connected(f.p, x, c))
  {
    Ownership.BootInv(n, tps);
    AftersKeepInv(Ownership.Boot(n, tps), evs);
    ConnectedSoFar(Afters(Ownership.Boot(n, tps), evs), e);
  }

  /** When the set-up loop ends, every registered timer has had its turn. */
  lemma SetupReachesAll(f: Fleet, e: nat, inp: Input)
    requires FleetInv(f) && e < |f.members| && f.members[e].phase.EnsureTask?
    requires After(f, Steps(e, inp)).members[e].phase.Spinning?
    ensures var x := After(f, Steps(e, inp)).members[e]; x.handled == |x.timers| && x.fd >= 0
  {}

  /** An interrupt signals a connected timer's own task exactly when its channel is due, and afterwards the
      channel's next expiry is the first point of the ideal grid of its START after `now`. */
  lemma InterruptReachesOwnTask(f: Fleet, e: nat, j: nat, now: int, armNow: int)
    requires FleetInv(f) && Serving(f, e) && Connected(f.p, f.members[e], j)
    requires f.p.sys.world.clock <= now <= armNow <= HORIZON
    ensures var f' := After(f, Interrupt(now, armNow));
            var x := f.members[e];
            var ch := f.p.sys.world.drv.channels[j];
            var id := x.timers[j].task.id;
            && id in f.p.sys.tasks && id in f'.p.sys.tasks
            && f'.p.sys.tasks[id] ==
               (if ch.nextFire <= now then CallbackProtocol.SendTo(f.p.sys.tasks[id]) else f.p.sys.tasks[id])
            && f'.p.sys.world.drv.channels[j].nextFire == FirstPointAfter(x.started[j].at, ch.period, now)
  {
    var x := f.members[e];
    var ch := f.p.sys.world.drv.channels[j];
    DeliveredOnce(f.p.sys.tasks, f.p.sys.world.drv.channels, now, j, x.timers[j].task.id);
    IsrOnTracked(f.p.sys.world, now, armNow, j, x.started[j].at, ch.period, x.started[j].sent);
  }

  // ---- Executors without the device, and destroyed ones ----

  /** An executor that neither holds the device nor is inside rtss_open leaves the driver as it is,
      whatever it does; so does a destructor whose open had failed. */
  lemma NonHolderLeavesDriver(f: Fleet, e: nat, inp: Input)
    requires FleetInv(f) && e < |f.members| && f.members[e].fd < 0 && !InOpen(f.members[e].phase)
    ensures After(f, Steps(e, inp)).p.sys.world == f.p.sys.world
  {
    var x := f.members[e];
    assert PhaseOk(x);
    assert Do(f.p, x, inp).0.sys.world == f.p.sys.world;
  }

  /** Once the destructor of an executor is through, none of its tasks lives and all its cells are empty;
      and when nobody holds the device the driver is quiet.  Interrupts, task steps and the other
      executors may have come in between at any point, also between the stores of close. */
  lemma DestroyedIsGone(n: nat, tps: uint32, evs: seq<Occurrence>, e: nat)
    requires SaneRun(Ownership.Boot(n, tps), evs) && NoOverlap(Ownership.Boot(n, tps), evs)
    requires e < n && Afters(Ownership.Boot(n, tps), evs).members[e].phase.Gone?
    ensures var f := Afters(Ownership.Boot(n, tps), evs);
            var x := f.members[e];
            && x.fd < 0
            && (forall i :: 0 <= i < |x.timers| ==> x.timers[i].task == Cell(NONE, false))
            && (forall i :: 0 <= i < |x.subs| ==> x.subs[i] == Cell(NONE, false))
            && (forall id :: id in f.p.owner && f.p.owner[id].exec == e ==>
                 id in f.p.sys.tasks && !f.p.sys.tasks[id].alive)
  {
    var f := Afters(Ownership.Boot(n, tps), evs);
    Ownership.BootInv(n, tps);
    AftersKeepInv(Ownership.Boot(n, tps), evs);
    var x := f.members[e];
    EmptyCells(f.p, x);
    ExecutorSteps.NoTaskIsNone(f.p);
    forall id | id in f.p.owner && f.p.owner[id].exec == e
      ensures id in f.p.sys.tasks && !f.p.sys.tasks[id].alive
    {
      assert id in f.p.sys.tasks && (f.p.sys.tasks[id].alive ==> HasCell(x, f.p.owner[id], id));
    }
  }

  lemma EmptyCells(p: Platform, x: Exec)
    requires ExecInv(p, x) && x.phase.Gone?
    ensures forall i :: 0 <= i < |x.timers| ==> x.timers[i].task == Cell(NONE, false)
    ensures forall i :: 0 <= i < |x.subs| ==> x.subs[i] == Cell(NONE, false)
  {
    forall i | 0 <= i < |x.timers|
      ensures x.timers[i].task == Cell(NONE, false)
    {
      assert CellAt(x, i) == x.timers[i].task;
    }
    forall i | 0 <= i < |x.subs|
      ensures x.subs[i] == Cell(NONE, false)
    {
      assert CellAt(x, i + |x.timers|) == x.subs[i];
    }
  }

  /** The last step of the holder's destructor, whatever came between its earlier ones. */
  lemma HolderLeavesQuiet(f: Fleet, e: nat, inp: Input)
    requires FleetInv(f) && e < |f.members| && f.members[e].fd >= 0
    requires After(f, Steps(e, inp)).members[e].phase.Gone?
    ensures Quiet(After(f, Steps(e, inp)).p.sys.world.drv)
  {
    var x := f.members[e];
    assert PhaseOk(x) && x.phase == Closing(STORES - 1);
    ExecutorSteps.ClosingEnds(f.p, x, STORES - 1);
  }
}
