/** Several executors share the one timer device.  Each may be given registrations, spin once and be
    destroyed, all step by step, with the others' steps, interrupts, callback tasks and publishers
    in between.  rtss_open tests `opened` and sets it later, with nothing masked: whether two
    executors can come to hold the device is exactly whether one's test falls into the other's open. */
module Ownership {
  import opened Machine
  import opened TimerModel
  import opened TimerRuns
  import opened EndToEnd
  import opened ExecutorModel
  import opened ExecutorInvariant
  import opened ExecutorSteps
  import opened ExecutorCalls
  import CallbackProtocol

  datatype Fleet = Fleet(p: Platform, members: seq<Exec>)

  datatype Occurrence =
    | Invokes(e: nat, c: Call)
    | Steps(e: nat, inp: Input)
    | Interrupt(now: int, armNow: int)
    | TaskRuns(id: TaskId, a: CallbackProtocol.Action)
    | Publishes(id: TaskId)            // a message for a subscription: its task is notified

  function After(f: Fleet, ev: Occurrence): (r: Fleet)
    requires Sized(f.p)
    ensures Sized(r.p) && |r.members| == |f.members|
  {
    match ev
    case Invokes(e, c) =>
      if e < |f.members| then var (p, x) := Invoke(f.p, f.members[e], c); Fleet(p, f.members[e := x]) else f
    case Steps(e, inp) =>
      if e < |f.members| then var (p, x) := Do(f.p, f.members[e], inp); Fleet(p, f.members[e := x]) else f
    case Interrupt(now, armNow) => f.(p := Moved(f.p, DriverOp(IsrAt(now, armNow))))
    case TaskRuns(id, a) => if CallbackProtocol.IsLoopStep(a) then f.(p := Moved(f.p, TaskStep(id, a))) else f
    case Publishes(id) =>
      if id in f.p.owner && f.p.owner[id].sub then f.(p := Moved(f.p, TaskStep(id, CallbackProtocol.Send))) else f
  }

  function Afters(f: Fleet, evs: seq<Occurrence>): (r: Fleet)
    requires Sized(f.p)
    ensures Sized(r.p) && |r.members| == |f.members|
    decreases evs
  {
    if evs == [] then f else Afters(After(f, evs[0]), evs[1..])
  }

  /** Clock readings are monotone, and timers' periods within what the driver's arithmetic can hold. */
  ghost predicate Sane(f: Fleet, ev: Occurrence)
  {
    match ev
    case Invokes(e, c) => SoundCall(f.p, c)
    case Steps(e, inp) =>
      e < |f.members| && (f.members[e].phase.LaunchOf? || f.members[e].phase.StopChannel?) ==> ClockOk(f.p, inp)
    case Interrupt(now, armNow) => f.p.sys.world.clock <= now <= armNow <= HORIZON
    case _ => true
  }

  ghost predicate SaneRun(f: Fleet, evs: seq<Occurrence>)
    requires Sized(f.p)
    decreases evs
  {
    evs != [] ==> Sane(f, evs[0]) && SaneRun(After(f, evs[0]), evs[1..])
  }

  /** An executor finds the device closed while another is between its own test and its store. */
  ghost predicate Overlaps(f: Fleet, ev: Occurrence)
    requires Sized(f.p)
  {
    && ev.Steps? && ev.e < |f.members| && f.members[ev.e].phase.TestOpen? && !f.p.sys.world.drv.isOpen
    && exists a :: 0 <= a < |f.members| && a != ev.e && InOpen(f.members[a].phase)
  }

  ghost predicate NoOverlap(f: Fleet, evs: seq<Occurrence>)
    requires Sized(f.p)
    decreases evs
  {
    evs != [] ==> !Overlaps(f, evs[0]) && NoOverlap(After(f, evs[0]), evs[1..])
  }

  function Boot(n: nat, tps: uint32): (f: Fleet)
    ensures Sized(f.p) && |f.members| == n
  {
    Fleet(Platform(System(TimerRuns.Boot(), map[]), 1, map[], false, tps),
      seq(n, e requires 0 <= e < n => FreshExec(e)))
  }

  // ---- The invariant ----

  predicate Claims(x: Exec) { InOpen(x.phase) || x.fd >= 0 }

  ghost predicate OneClaim(f: Fleet)
  {
    forall e, e' :: 0 <= e < |f.members| && 0 <= e' < |f.members| && Claims(f.members[e]) && Claims(f.members[e']) ==>
      e == e'
  }

  ghost predicate Held(f: Fleet)
  {
    exists e :: 0 <= e < |f.members| && f.members[e].fd >= 0
  }

  ghost predicate CustodyOk(f: Fleet)
    requires Sized(f.p)
  {
    && (f.p.sys.world.drv.isOpen <==> Held(f))
    && (forall e :: 0 <= e < |f.members| && f.members[e].fd >= 0 ==> HolderInv(f.p, f.members[e]))
    && (!Held(f) ==> Vacant(f.p))
  }

  ghost predicate InstallPhaseOk(p: Platform, ph: Phase)
    requires Sized(p)
  {
    && (ph.CallInstall? ==> !p.handler && !p.sys.world.drv.isrInstalled)
    && (ph.StoreInstalled? ==> p.handler)
    && (ph.StoreOpen? ==> p.sys.world.drv.isrInstalled)
  }

  ghost predicate HandlerOk(f: Fleet)
    requires Sized(f.p)
  {
    && (forall e :: 0 <= e < |f.members| ==> InstallPhaseOk(f.p, f.members[e].phase))
    && (f.p.handler == f.p.sys.world.drv.isrInstalled
        || exists e :: 0 <= e < |f.members| && f.members[e].phase.StoreInstalled?)
  }

  ghost predicate MembersOk(f: Fleet)
  {
    forall e :: 0 <= e < |f.members| ==> f.members[e].me == e && ExecInv(f.p, f.members[e])
  }

  ghost predicate FleetInv(f: Fleet)
  {
    PlatformOk(f.p) && MembersOk(f) && OneClaim(f) && CustodyOk(f) && HandlerOk(f)
  }

  // ---- Interrupts, tasks and publishers ----

  lemma NobodyAimed(f: Fleet, e: nat)
    requires FleetInv(f) && e < |f.members|
    ensures NotAimed(f.p, f.members[e])
  {
    if Held(f) {
      var h :| 0 <= h < |f.members| && f.members[h].fd >= 0;
      HolderAims(f.p, f.members[h], f.members[e]);
    }
  }

  lemma OutsideKeepsMember(f: Fleet, m: EndToEnd.Move, e: nat)
    requires FleetInv(f) && OutsideMove(f.p, m) && e < |f.members|
    ensures ExecInv(Moved(f.p, m), f.members[e])
  {
    NobodyAimed(f, e);
    if m.DriverOp? {
      InterruptTouchesNobody(f.p, f.members[e], m.op.now, m.op.armNow);
    } else {
      TaskMoveTouchesNobody(f.p, f.members[e], m);
    }
    MoveKeepsPlatform(f.p, m);
    NoTaskIsNone(Moved(f.p, m));
    UntouchedKeepsExec(f.p, Moved(f.p, m), f.members[e]);
  }

  lemma OutsideKeepsCustody(f: Fleet, m: EndToEnd.Move)
    requires FleetInv(f) && OutsideMove(f.p, m)
    ensures var f' := f.(p := Moved(f.p, m)); CustodyOk(f') && HandlerOk(f')
  {
    var f' := f.(p := Moved(f.p, m));
    forall e | 0 <= e < |f.members| && f.members[e].fd >= 0
      ensures HolderInv(f'.p, f.members[e])
    {
      OutsideKeepsHolder(f.p, f.members[e], m);
    }
    OutsideKeepsFlags(f.p, m);
    if Vacant(f.p) { OutsideKeepsVacant(f.p, m); }
    assert Held(f') == Held(f);
    forall e | 0 <= e < |f.members|
      ensures InstallPhaseOk(f'.p, f.members[e].phase)
    {
      assert InstallPhaseOk(f.p, f.members[e].phase);
    }
  }

  lemma OutsideKeepsFlags(p: Platform, m: EndToEnd.Move)
    requires Sized(p) && OutsideMove(p, m)
    ensures SameFlags(p, Moved(p, m))
  {}

  lemma OutsideKeepsInv(f: Fleet, m: EndToEnd.Move)
    requires FleetInv(f) && OutsideMove(f.p, m)
    ensures FleetInv(f.(p := Moved(f.p, m)))
  {
    MoveKeepsPlatform(f.p, m);
    forall e | 0 <= e < |f.members|
      ensures ExecInv(Moved(f.p, m), f.members[e])
    {
      OutsideKeepsMember(f, m, e);
    }
    OutsideKeepsCustody(f, m);
  }

  // ---- An executor's own step or call ----

  lemma OthersUntouched(p: Platform, p': Platform, me: nat, y: Exec)
    requires PlatformOk(p) && PlatformOk(p') && OnlyOwn(p, p', me) && ExecInv(p, y) && y.me != me
    ensures ExecInv(p', y)
  {
    OwnTouchesNoOther(p, p', me, y);
    NoTaskIsNone(p');
    UntouchedKeepsExec(p, p', y);
  }

  lemma OtherHolderKept(p: Platform, p': Platform, me: nat, y: Exec)
    requires PlatformOk(p) && Sized(p') && OnlyOwn(p, p', me) && p'.sys.world == p.sys.world && HolderInv(p, y)
    requires y.me != me
    ensures HolderInv(p', y)
  {
    forall c | 0 <= c < CHANNELS
      ensures ChannelState(p', y, c) && TargetOk(p', y, c)
    {
      assert ChannelState(p, y, c) && TargetOk(p, y, c);
      assert Ns(p', y, c) == Ns(p, y, c);
    }
  }

  /** How the step of one executor may change who holds the device and what is installed. */
  ghost predicate CustodyStep(p: Platform, x: Exec, p': Platform, x': Exec)
    requires Sized(p) && Sized(p')
  {
    var d, d' := p.sys.world.drv, p'.sys.world.drv;
    // it goes on holding it, gives it back, takes it, or has nothing to do with it
    || (x.fd >= 0 && x'.fd >= 0 && HolderInv(p', x') && d'.isOpen == d.isOpen)
    || (x.fd >= 0 && x'.fd < 0 && Vacant(p') && !d'.isOpen && !InOpen(x'.phase))
    || (x.fd < 0 && x'.fd >= 0 && InOpen(x.phase) && HolderInv(p', x') && d'.isOpen)
    || (x.fd < 0 && x'.fd < 0 && p'.sys.world == p.sys.world && (InOpen(x'.phase) ==> InOpen(x.phase) || !d.isOpen))
    || (x.fd < 0 && x'.fd < 0 && InOpen(x.phase) && d'.isOpen == d.isOpen && (Vacant(p) ==> Vacant(p')))
  }

  ghost predicate InstallStep(p: Platform, x: Exec, p': Platform, x': Exec)
    requires Sized(p) && Sized(p')
  {
    && InstallPhaseOk(p', x'.phase)
    && ((p'.handler == p.handler && p'.sys.world.drv.isrInstalled == p.sys.world.drv.isrInstalled
         && (x.phase.StoreInstalled? ==> x'.phase.StoreInstalled?))
        || (InOpen(x.phase) && (p'.handler == p'.sys.world.drv.isrInstalled || x'.phase.StoreInstalled?)))
  }

  /** No executor's test falls between another's test and its store. */
  ghost predicate NewClaimAlone(f: Fleet, e: nat, x': Exec)
    requires e < |f.members|
  {
    InOpen(x'.phase) && !InOpen(f.members[e].phase) ==>
      forall a :: 0 <= a < |f.members| && a != e ==> !InOpen(f.members[a].phase)
  }

  ghost predicate MemberStep(f: Fleet, e: nat, p': Platform, x': Exec)
    requires Sized(f.p) && Sized(p')
  {
    && e < |f.members| && StepOk(f.p, f.members[e], p', x')
    && CustodyStep(f.p, f.members[e], p', x') && InstallStep(f.p, f.members[e], p', x')
    && NewClaimAlone(f, e, x')
  }

  lemma StepKeepsMembers(f: Fleet, e: nat, p': Platform, x': Exec)
    requires FleetInv(f) && Sized(p') && MemberStep(f, e, p', x')
    ensures MembersOk(Fleet(p', f.members[e := x']))
  {
    forall a | 0 <= a < |f.members| && a != e
      ensures ExecInv(p', f.members[a])
    {
      OthersUntouched(f.p, p', e, f.members[a]);
    }
  }

  lemma StepKeepsClaim(f: Fleet, e: nat, p': Platform, x': Exec)
    requires FleetInv(f) && Sized(p') && MemberStep(f, e, p', x')
    ensures OneClaim(Fleet(p', f.members[e := x']))
  {
    var f' := Fleet(p', f.members[e := x']);
    forall a | 0 <= a < |f.members| && a != e && Claims(x')
      ensures !Claims(f.members[a])
    {
      assert f.members[a].fd >= 0 ==> Held(f);
    }
  }

  lemma StepKeepsCustody(f: Fleet, e: nat, p': Platform, x': Exec)
    requires FleetInv(f) && PlatformOk(p') && MemberStep(f, e, p', x')
    ensures CustodyOk(Fleet(p', f.members[e := x']))
  {
    var f' := Fleet(p', f.members[e := x']);
    var x := f.members[e];
    if x.fd >= 0 { assert Held(f); }
    if x'.fd >= 0 { assert f'.members[e].fd >= 0; assert Held(f'); }
    forall a | 0 <= a < |f.members| && a != e && f.members[a].fd >= 0
      ensures HolderInv(p', f.members[a]) && Held(f') && Held(f) && x.fd < 0
    {
      assert f'.members[a].fd >= 0;
      assert Claims(f.members[a]) && !Claims(x);
      OtherHolderKept(f.p, p', e, f.members[a]);
    }
    if Held(f') && x'.fd < 0 {
      var a :| 0 <= a < |f'.members| && f'.members[a].fd >= 0;
      assert a != e && f.members[a].fd >= 0;
    }
    if Held(f) && x.fd < 0 { HolderStays(f, e, f', x'); }
  }

  lemma HolderStays(f: Fleet, e: nat, f': Fleet, x': Exec)
    requires e < |f.members| && f'.members == f.members[e := x'] && f.members[e].fd < 0 && Held(f)
    ensures Held(f')
  {
    var a :| 0 <= a < |f.members| && f.members[a].fd >= 0;
    assert f'.members[a].fd >= 0;
  }

  lemma StepKeepsHandler(f: Fleet, e: nat, p': Platform, x': Exec)
    requires FleetInv(f) && Sized(p') && MemberStep(f, e, p', x')
    ensures HandlerOk(Fleet(p', f.members[e := x']))
  {
    var f' := Fleet(p', f.members[e := x']);
    var x := f.members[e];
    forall a | 0 <= a < |f.members| && a != e
      ensures InstallPhaseOk(p', f.members[a].phase)
    {
      assert InstallPhaseOk(f.p, f.members[a].phase);
      if InOpen(x.phase) { assert Claims(x) && !Claims(f.members[a]); }
    }
    if x'.phase.StoreInstalled? {
      assert f'.members[e].phase.StoreInstalled?;
    } else if !(f.p.handler == f.p.sys.world.drv.isrInstalled) {
      var a :| 0 <= a < |f.members| && f.members[a].phase.StoreInstalled?;
      if a != e {
        assert Claims(f.members[a]) && !Claims(x);
        assert f'.members[a].phase.StoreInstalled?;
      }
    }
  }

  lemma MemberKeepsInv(f: Fleet, e: nat, p': Platform, x': Exec)
    requires FleetInv(f) && Sized(p') && MemberStep(f, e, p', x')
    ensures FleetInv(Fleet(p', f.members[e := x']))
  {
    StepKeepsMembers(f, e, p', x');
    StepKeepsClaim(f, e, p', x');
    StepKeepsCustody(f, e, p', x');
    StepKeepsHandler(f, e, p', x');
  }

  /** A step in which the holder goes on holding the device. */
  lemma HolderMember(f: Fleet, e: nat, p': Platform, x': Exec)
    requires FleetInv(f) && Sized(p') && e < |f.members| && HolderStep(f.p, f.members[e], p', x')
    requires f.members[e].fd >= 0 && !InOpen(x'.phase) && !InOpen(f.members[e].phase)
    ensures MemberStep(f, e, p', x')
  {}

  lemma TeardownMember(f: Fleet, e: nat, p': Platform, x': Exec)
    requires FleetInv(f) && Sized(p') && e < |f.members| && TeardownStep(f.p, f.members[e], p', x')
    requires !InOpen(x'.phase) && !InOpen(f.members[e].phase)
    ensures MemberStep(f, e, p', x')
  {}

  /** Outside rtss_open no step leads into it, save from the end of start_all_tasks to its test. */
  lemma NotIntoOpen(p: Platform, x: Exec, inp: Input)
    requires Sized(p) && !Opening(x.phase)
    ensures !InOpen(Do(p, x, inp).1.phase)
  {}

  lemma EnsureTaskOk(f: Fleet, e: nat, i: nat, inp: Input)
    requires FleetInv(f) && e < |f.members| && f.members[e].phase == EnsureTask(i)
    ensures var (p', x') := Do(f.p, f.members[e], inp); MemberStep(f, e, p', x')
  {
    EnsureTaskHolds(f.p, f.members[e], i, inp);
    NotIntoOpen(f.p, f.members[e], inp);
    HolderMember(f, e, Do(f.p, f.members[e], inp).0, Do(f.p, f.members[e], inp).1);
  }

  lemma ModeOk(f: Fleet, e: nat, inp: Input)
    requires FleetInv(f) && e < |f.members| && f.members[e].phase.ModeOf?
    ensures var (p', x') := Do(f.p, f.members[e], inp); MemberStep(f, e, p', x')
  {
    ModeKeeps(f.p, f.members[e]);
    NotIntoOpen(f.p, f.members[e], inp);
    HolderMember(f, e, Do(f.p, f.members[e], inp).0, Do(f.p, f.members[e], inp).1);
  }

  lemma PeriodOk(f: Fleet, e: nat, i: nat, inp: Input)
    requires FleetInv(f) && e < |f.members| && f.members[e].phase == PeriodOf(i)
    ensures var (p', x') := Do(f.p, f.members[e], inp); MemberStep(f, e, p', x')
  {
    PeriodKeeps(f.p, f.members[e], i);
    NotIntoOpen(f.p, f.members[e], inp);
    HolderMember(f, e, Do(f.p, f.members[e], inp).0, Do(f.p, f.members[e], inp).1);
  }

  lemma SetTaskOk(f: Fleet, e: nat, i: nat, inp: Input)
    requires FleetInv(f) && e < |f.members| && f.members[e].phase == TargetOf(i)
    ensures var (p', x') := Do(f.p, f.members[e], inp); MemberStep(f, e, p', x')
  {
    TargetKeeps(f.p, f.members[e], i);
    NotIntoOpen(f.p, f.members[e], inp);
    HolderMember(f, e, Do(f.p, f.members[e], inp).0, Do(f.p, f.members[e], inp).1);
  }

  lemma LaunchOk(f: Fleet, e: nat, i: nat, inp: Input)
    requires FleetInv(f) && e < |f.members| && f.members[e].phase == LaunchOf(i) && ClockOk(f.p, inp)
    ensures var (p', x') := Do(f.p, f.members[e], inp); MemberStep(f, e, p', x')
  {
    LaunchKeeps(f.p, f.members[e], i, inp);
    NotIntoOpen(f.p, f.members[e], inp);
    HolderMember(f, e, Do(f.p, f.members[e], inp).0, Do(f.p, f.members[e], inp).1);
  }

  lemma ClearFlagOk(f: Fleet, e: nat, k: nat, inp: Input)
    requires FleetInv(f) && e < |f.members| && f.members[e].phase == ClearFlag(k)
    ensures var (p', x') := Do(f.p, f.members[e], inp); MemberStep(f, e, p', x')
  {
    ClearFlagKeeps(f.p, f.members[e], k);
    NotIntoOpen(f.p, f.members[e], inp);
    TeardownMember(f, e, Do(f.p, f.members[e], inp).0, Do(f.p, f.members[e], inp).1);
  }

  lemma SendStopOk(f: Fleet, e: nat, k: nat, inp: Input)
    requires FleetInv(f) && e < |f.members| && f.members[e].phase == SendStop(k)
    ensures var (p', x') := Do(f.p, f.members[e], inp); MemberStep(f, e, p', x')
  {
    SendStopKeeps(f.p, f.members[e], k);
    NotIntoOpen(f.p, f.members[e], inp);
    TeardownMember(f, e, Do(f.p, f.members[e], inp).0, Do(f.p, f.members[e], inp).1);
  }

  lemma DeleteTaskOk(f: Fleet, e: nat, k: nat, inp: Input)
    requires FleetInv(f) && e < |f.members| && f.members[e].phase == DeleteTask(k)
    ensures var (p', x') := Do(f.p, f.members[e], inp); MemberStep(f, e, p', x')
  {
    DeleteTaskKeeps(f.p, f.members[e], k);
    NotIntoOpen(f.p, f.members[e], inp);
    TeardownMember(f, e, Do(f.p, f.members[e], inp).0, Do(f.p, f.members[e], inp).1);
  }

  lemma StopChannelOk(f: Fleet, e: nat, i: nat, inp: Input)
    requires FleetInv(f) && e < |f.members| && f.members[e].phase == StopChannel(i) && ClockOk(f.p, inp)
    ensures var (p', x') := Do(f.p, f.members[e], inp); MemberStep(f, e, p', x')
  {
    StopChannelKeeps(f.p, f.members[e], i, inp);
    NotIntoOpen(f.p, f.members[e], inp);
    TeardownMember(f, e, Do(f.p, f.members[e], inp).0, Do(f.p, f.members[e], inp).1);
  }

  lemma StoreOk(f: Fleet, e: nat, k: nat, inp: Input)
    requires FleetInv(f) && e < |f.members| && f.members[e].phase == Closing(k)
    ensures var (p', x') := Do(f.p, f.members[e], inp); MemberStep(f, e, p', x')
  {
    if k + 1 < STORES {
      ClosingGoesOn(f.p, f.members[e], k);
      NotIntoOpen(f.p, f.members[e], inp);
      HolderMember(f, e, Do(f.p, f.members[e], inp).0, Do(f.p, f.members[e], inp).1);
    } else {
      ClosingEnds(f.p, f.members[e], k);
    }
  }

  lemma StartTaskOk(f: Fleet, e: nat, i: nat, inp: Input)
    requires FleetInv(f) && e < |f.members| && f.members[e].phase == StartTask(i)
    ensures var (p', x') := Do(f.p, f.members[e], inp); MemberStep(f, e, p', x')
  {
    StartTaskKeeps(f.p, f.members[e], i, inp);
  }

  /** A step of rtss_open that does not touch the driver. */
  lemma QuietOpenMember(f: Fleet, e: nat, p': Platform, x': Exec)
    requires FleetInv(f) && PlatformOk(p') && e < |f.members| && StepOk(f.p, f.members[e], p', x')
    requires Opening(f.members[e].phase)
    requires p'.sys == f.p.sys && f.members[e].fd < 0 && x'.fd < 0
    requires InOpen(x'.phase) ==> InOpen(f.members[e].phase) || !f.p.sys.world.drv.isOpen
    requires InstallStep(f.p, f.members[e], p', x') && NewClaimAlone(f, e, x')
    ensures MemberStep(f, e, p', x')
  {}

  lemma TestOpenOk(f: Fleet, e: nat, inp: Input)
    requires FleetInv(f) && e < |f.members| && f.members[e].phase.TestOpen? && !Overlaps(f, Steps(e, inp))
    ensures var (p', x') := Do(f.p, f.members[e], inp); MemberStep(f, e, p', x')
  {
    OpenTestKeeps(f.p, f.members[e], inp);
    QuietOpenMember(f, e, Do(f.p, f.members[e], inp).0, Do(f.p, f.members[e], inp).1);
  }

  lemma TestInstalledOk(f: Fleet, e: nat, inp: Input)
    requires FleetInv(f) && e < |f.members| && f.members[e].phase.TestInstalled?
    ensures var (p', x') := Do(f.p, f.members[e], inp); MemberStep(f, e, p', x')
  {
    OpenTestKeeps(f.p, f.members[e], inp);
    HandlerKnown(f, e);
    QuietOpenMember(f, e, Do(f.p, f.members[e], inp).0, Do(f.p, f.members[e], inp).1);
  }

  lemma CallInstallOk(f: Fleet, e: nat, inp: Input)
    requires FleetInv(f) && e < |f.members| && f.members[e].phase.CallInstall?
    ensures var (p', x') := Do(f.p, f.members[e], inp); MemberStep(f, e, p', x')
  {
    OpenTestKeeps(f.p, f.members[e], inp);
    assert InstallPhaseOk(f.p, f.members[e].phase);
    QuietOpenMember(f, e, Do(f.p, f.members[e], inp).0, Do(f.p, f.members[e], inp).1);
  }

  lemma StoreInstalledOk(f: Fleet, e: nat, inp: Input)
    requires FleetInv(f) && e < |f.members| && f.members[e].phase.StoreInstalled?
    ensures var (p', x') := Do(f.p, f.members[e], inp); MemberStep(f, e, p', x')
  {
    StoreInstalledKeeps(f.p, f.members[e], inp);
    assert InstallPhaseOk(f.p, f.members[e].phase);
  }

  lemma StoreOpenOk(f: Fleet, e: nat, inp: Input)
    requires FleetInv(f) && e < |f.members| && f.members[e].phase.StoreOpen?
    ensures var (p', x') := Do(f.p, f.members[e], inp); MemberStep(f, e, p', x')
  {
    OpenerIsFirst(f, e);
    StoreOpenKeeps(f.p, f.members[e], inp);
    assert InstallPhaseOk(f.p, f.members[e].phase);
    OpenedFlags(f.p, f.members[e], inp);
  }

  lemma OpenedFlags(p: Platform, x: Exec, inp: Input)
    requires Sized(p) && x.phase.StoreOpen?
    ensures var (p', x') := Do(p, x, inp);
            p'.handler == p.handler && p'.sys.world.drv.isOpen &&
              p'.sys.world.drv.isrInstalled == p.sys.world.drv.isrInstalled
            && x'.phase.ModeOf?
  {}

  lemma OpenerIsFirst(f: Fleet, e: nat)
    requires FleetInv(f) && e < |f.members| && InOpen(f.members[e].phase)
    ensures Vacant(f.p) && !f.p.sys.world.drv.isOpen && f.members[e].fd < 0
  {
    assert PhaseOk(f.members[e]) && Claims(f.members[e]);
    forall h | 0 <= h < |f.members|
      ensures f.members[h].fd < 0
    {
      assert Claims(f.members[h]) ==> h == e;
    }
  }

  lemma HandlerKnown(f: Fleet, e: nat)
    requires FleetInv(f) && e < |f.members| && f.members[e].phase.TestInstalled?
    ensures f.p.handler == f.p.sys.world.drv.isrInstalled
  {
    forall a | 0 <= a < |f.members|
      ensures !f.members[a].phase.StoreInstalled?
    {
      assert Claims(f.members[e]) && (Claims(f.members[a]) ==> a == e);
    }
  }

  lemma WaitingStepOk(f: Fleet, e: nat, inp: Input)
    requires FleetInv(f) && e < |f.members|
    requires var ph := f.members[e].phase; ph.Built? || ph.Spinning? || ph.Gone?
    ensures Do(f.p, f.members[e], inp) == (f.p, f.members[e])
  {}

  lemma StepIsOk(f: Fleet, e: nat, inp: Input)
    requires FleetInv(f) && e < |f.members| && Sane(f, Steps(e, inp)) && !Overlaps(f, Steps(e, inp))
    requires var ph := f.members[e].phase; !ph.Built? && !ph.Spinning? && !ph.Gone?
    ensures var (p', x') := Do(f.p, f.members[e], inp); MemberStep(f, e, p', x')
  {
    match f.members[e].phase
    case StartTask(i) => StartTaskOk(f, e, i, inp);
    case TestOpen => TestOpenOk(f, e, inp);
    case TestInstalled => TestInstalledOk(f, e, inp);
    case CallInstall => CallInstallOk(f, e, inp);
    case StoreInstalled => StoreInstalledOk(f, e, inp);
    case StoreOpen => StoreOpenOk(f, e, inp);
    case ModeOf => ModeOk(f, e, inp);
    case EnsureTask(i) => EnsureTaskOk(f, e, i, inp);
    case PeriodOf(i) => PeriodOk(f, e, i, inp);
    case TargetOf(i) => SetTaskOk(f, e, i, inp);
    case LaunchOf(i) => LaunchOk(f, e, i, inp);
    case ClearFlag(k) => ClearFlagOk(f, e, k, inp);
    case SendStop(k) => SendStopOk(f, e, k, inp);
    case DeleteTask(k) => DeleteTaskOk(f, e, k, inp);
    case StopChannel(i) => StopChannelOk(f, e, i, inp);
    case Closing(k) => StoreOk(f, e, k, inp);
  }

  lemma ExecutorStepKeepsInv(f: Fleet, e: nat, inp: Input)
    requires FleetInv(f) && e < |f.members| && Sane(f, Steps(e, inp)) && !Overlaps(f, Steps(e, inp))
    ensures FleetInv(After(f, Steps(e, inp)))
  {
    var ph := f.members[e].phase;
    if ph.Built? || ph.Spinning? || ph.Gone? {
      WaitingStepOk(f, e, inp);
      assert f.members[e := f.members[e]] == f.members;
    } else {
      StepIsOk(f, e, inp);
      MemberKeepsInv(f, e, Do(f.p, f.members[e], inp).0, Do(f.p, f.members[e], inp).1);
    }
  }

  lemma CallKeepsInv(f: Fleet, e: nat, c: Call)
    requires FleetInv(f) && e < |f.members| && SoundCall(f.p, c)
    ensures FleetInv(After(f, Invokes(e, c)))
  {
    var x := f.members[e];
    var (p', x') := Invoke(f.p, x, c);
    InvokeKeeps(f.p, x, c);
    MemberKeepsInv(f, e, p', x');
  }

  lemma AfterKeepsInv(f: Fleet, ev: Occurrence)
    requires FleetInv(f) && Sane(f, ev) && !Overlaps(f, ev)
    ensures FleetInv(After(f, ev))
  {
    match ev
    case Invokes(e, c) => if e < |f.members| { CallKeepsInv(f, e, c); }
    case Steps(e, inp) => if e < |f.members| { ExecutorStepKeepsInv(f, e, inp); }
    case Interrupt(now, armNow) => OutsideKeepsInv(f, DriverOp(IsrAt(now, armNow)));
    case TaskRuns(id, a) => if CallbackProtocol.IsLoopStep(a) { OutsideKeepsInv(f, TaskStep(id, a)); }
    case Publishes(id) =>
      if id in f.p.owner && f.p.owner[id].sub { OutsideKeepsInv(f, TaskStep(id, CallbackProtocol.Send)); }
  }

  lemma {:induction false} AftersKeepInv(f: Fleet, evs: seq<Occurrence>)
    requires FleetInv(f) && SaneRun(f, evs) && NoOverlap(f, evs)
    ensures FleetInv(Afters(f, evs))
    decreases evs
  {
    if evs != [] {
      AfterKeepsInv(f, evs[0]);
      AftersKeepInv(After(f, evs[0]), evs[1..]);
    }
  }

  lemma BootInv(n: nat, tps: uint32)
    ensures FleetInv(Boot(n, tps))
  {
    TimerRuns.BootInv();
  }
}
