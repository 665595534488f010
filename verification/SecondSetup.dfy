/** setup_timer_driver overwrites dev_fd_ without looking at it: what a second set-up on the executor
    that holds the device comes to. */
module SecondSetup {
  import opened Machine
  import opened TimerModel
  import opened ExecutorModel
  import opened ExecutorInvariant
  import opened ExecutorSteps
  import opened Ownership

  /** One executor; it makes no new call meanwhile, everything else may happen. */
  ghost predicate Alone(f: Fleet, evs: seq<Occurrence>)
  {
    |f.members| == 1 && forall i :: 0 <= i < |evs| ==> !evs[i].Invokes?
  }

  function IsOpen(f: Fleet): bool { f.p.sys.world.drv.isOpen }

  /** In the second set-up the device is open; it is lost once the test has been made. */
  ghost predicate SettingUpAgain(f: Fleet, timers: nat)
  {
    && |f.members| == 1 && IsOpen(f) && |f.members[0].timers| == timers
    && match f.members[0].phase
       case StartTask(_) => f.members[0].fd >= 0
       case TestOpen => timers > 0
       case Spinning => f.members[0].fd >= 0 <==> timers == 0
       case _ => false
  }

  /** In the destructor after it. */
  ghost predicate TearingDownAfter(f: Fleet, timers: nat)
  {
    && |f.members| == 1 && |f.members[0].timers| == timers
    && match f.members[0].phase
       case ClearFlag(_) => IsOpen(f) && (f.members[0].fd >= 0 <==> timers == 0)
       case SendStop(_) => IsOpen(f) && (f.members[0].fd >= 0 <==> timers == 0)
       case DeleteTask(_) => IsOpen(f) && (f.members[0].fd >= 0 <==> timers == 0)
       case StopChannel(_) => timers == 0
       case Closing(k) => k < STORES && timers == 0
       case Gone => IsOpen(f) <==> timers != 0
       case _ => false
  }

  lemma SetupAgainStep(f: Fleet, ev: Occurrence, timers: nat)
    requires Sized(f.p) && SettingUpAgain(f, timers) && !ev.Invokes?
    ensures SettingUpAgain(After(f, ev), timers)
  {}

  lemma TeardownAfterStep(f: Fleet, ev: Occurrence, timers: nat)
    requires Sized(f.p) && TearingDownAfter(f, timers) && !ev.Invokes?
    ensures TearingDownAfter(After(f, ev), timers)
  {
    if ev.Steps? {
      TeardownOwnStep(f, ev.e, ev.inp, timers);
    } else {
      OutsideKeepsDevice(f, ev);
    }
  }

  lemma OutsideKeepsDevice(f: Fleet, ev: Occurrence)
    requires Sized(f.p) && !ev.Invokes? && !ev.Steps?
    ensures After(f, ev).members == f.members && IsOpen(After(f, ev)) == IsOpen(f)
  {}

  lemma TeardownOwnStep(f: Fleet, e: nat, inp: Input, timers: nat)
    requires Sized(f.p) && TearingDownAfter(f, timers)
    ensures TearingDownAfter(After(f, Steps(e, inp)), timers)
  {}

  lemma {:induction false} SetupAgainRun(f: Fleet, evs: seq<Occurrence>, timers: nat)
    requires Sized(f.p) && SettingUpAgain(f, timers) && Alone(f, evs)
    ensures SettingUpAgain(Afters(f, evs), timers)
    decreases evs
  {
    if evs != [] {
      SetupAgainStep(f, evs[0], timers);
      SetupAgainRun(After(f, evs[0]), evs[1..], timers);
    }
  }

  lemma {:induction false} TeardownAfterRun(f: Fleet, evs: seq<Occurrence>, timers: nat)
    requires Sized(f.p) && TearingDownAfter(f, timers) && Alone(f, evs)
    ensures TearingDownAfter(Afters(f, evs), timers)
    decreases evs
  {
    if evs != [] {
      TeardownAfterStep(f, evs[0], timers);
      TeardownAfterRun(After(f, evs[0]), evs[1..], timers);
    }
  }

  function At(f: Fleet, ph: Phase): Fleet
    requires |f.members| == 1
  {
    f.(members := [f.members[0].(phase := ph)])
  }

  /** For the holder: the device stays open iff the executor has a timer. */
  lemma HolderAgain(f: Fleet, setup: seq<Occurrence>, teardown: seq<Occurrence>)
    requires Sized(f.p) && Alone(f, setup) && Alone(f, teardown) && IsOpen(f) && f.members[0].fd >= 0
    requires Afters(At(f, StartTask(0)), setup).members[0].phase.Spinning?
    requires Afters(At(Afters(At(f, StartTask(0)), setup), ClearFlag(0)), teardown).members[0].phase.Gone?
    ensures IsOpen(Afters(At(Afters(At(f, StartTask(0)), setup), ClearFlag(0)), teardown)) <==>
            f.members[0].timers != []
  {
    var timers := |f.members[0].timers|;
    SetupAgainRun(At(f, StartTask(0)), setup, timers);
    TeardownAfterRun(At(Afters(At(f, StartTask(0)), setup), ClearFlag(0)), teardown, timers);
  }

  // ---- Who holds the device has a timer ----

  predicate HasTimer(x: Exec)
  {
    Opening(x.phase) || x.fd >= 0 ==> x.timers != []
  }

  ghost predicate HoldersHaveTimers(f: Fleet)
  {
    forall e :: 0 <= e < |f.members| ==> HasTimer(f.members[e])
  }

  lemma TimersStay(p: Platform, x: Exec, inp: Input)
    requires Sized(p)
    ensures |Do(p, x, inp).1.timers| == |x.timers|
  {}

  lemma StepKeepsTimer(p: Platform, x: Exec, inp: Input)
    requires Sized(p) && HasTimer(x)
    ensures HasTimer(Do(p, x, inp).1)
  {
    TimersStay(p, x, inp);
  }

  lemma CallKeepsTimer(p: Platform, x: Exec, c: Call)
    requires Sized(p) && HasTimer(x)
    ensures HasTimer(Invoke(p, x, c).1)
  {}

  lemma AfterKeepsTimers(f: Fleet, ev: Occurrence)
    requires Sized(f.p) && HoldersHaveTimers(f)
    ensures HoldersHaveTimers(After(f, ev))
  {
    match ev
    case Invokes(e, c) => if e < |f.members| { CallKeepsTimer(f.p, f.members[e], c); }
    case Steps(e, inp) => if e < |f.members| { StepKeepsTimer(f.p, f.members[e], inp); }
    case _ =>
  }

  lemma {:induction false} AftersKeepTimers(f: Fleet, evs: seq<Occurrence>)
    requires Sized(f.p) && HoldersHaveTimers(f)
    ensures HoldersHaveTimers(Afters(f, evs))
    decreases evs
  {
    if evs != [] {
      AfterKeepsTimers(f, evs[0]);
      AftersKeepTimers(After(f, evs[0]), evs[1..]);
    }
  }

  // ---- For an executor whose first open failed ----

  lemma {:induction false} LonelyRunsDoNotOverlap(f: Fleet, evs: seq<Occurrence>)
    requires Sized(f.p) && |f.members| == 1
    ensures NoOverlap(f, evs)
    decreases evs
  {
    if evs != [] { LonelyRunsDoNotOverlap(After(f, evs[0]), evs[1..]); }
  }

  lemma MemberAgain(f: Fleet)
    requires FleetInv(f) && |f.members| == 1 && f.members[0].phase.Spinning? && f.members[0].fd < 0
    ensures ExecInv(f.p, f.members[0].(phase := StartTask(0)))
  {
    PhaseMoves(f.p, f.members[0], StartTask(0), f.members[0].handled);
  }

  lemma SpinsAgain(f: Fleet)
    requires FleetInv(f) && |f.members| == 1 && f.members[0].phase.Spinning? && f.members[0].fd < 0
    ensures FleetInv(At(f, StartTask(0)))
  {
    var f' := At(f, StartTask(0));
    MemberAgain(f);
    assert f'.members[0] == f.members[0].(phase := StartTask(0));
    assert !Held(f') && !Held(f);
  }

  lemma IsDestroyed(f: Fleet)
    requires FleetInv(f) && |f.members| == 1 && f.members[0].phase.Spinning?
    ensures FleetInv(At(f, ClearFlag(0)))
  {
    CallKeepsInv(f, 0, Destroy);
    assert After(f, Invokes(0, Destroy)) == At(f, ClearFlag(0));
  }

  lemma TriesAgain(f: Fleet, setup: seq<Occurrence>, teardown: seq<Occurrence>)
    requires FleetInv(f) && |f.members| == 1 && f.members[0].phase.Spinning? && f.members[0].fd < 0
    requires SaneRun(At(f, StartTask(0)), setup)
    requires Afters(At(f, StartTask(0)), setup).members[0].phase.Spinning?
    requires SaneRun(At(Afters(At(f, StartTask(0)), setup), ClearFlag(0)), teardown)
    requires Afters(At(Afters(At(f, StartTask(0)), setup), ClearFlag(0)), teardown).members[0].phase.Gone?
    ensures !IsOpen(Afters(At(Afters(At(f, StartTask(0)), setup), ClearFlag(0)), teardown))
  {
    var f0 := At(f, StartTask(0));
    var f1 := Afters(f0, setup);
    var f2 := At(f1, ClearFlag(0));
    SpinsAgain(f);
    LonelyRunsDoNotOverlap(f0, setup);
    AftersKeepInv(f0, setup);
    IsDestroyed(f1);
    LonelyRunsDoNotOverlap(f2, teardown);
    AftersKeepInv(f2, teardown);
    var end := Afters(f2, teardown);
    assert PhaseOk(end.members[0]);
    assert !Held(end);
  }

  lemma LonelyInv(tps: uint32, evs: seq<Occurrence>)
    requires SaneRun(Ownership.Boot(1, tps), evs)
    ensures var f := Afters(Ownership.Boot(1, tps), evs); FleetInv(f) && HoldersHaveTimers(f)
  {
    Ownership.BootInv(1, tps);
    LonelyRunsDoNotOverlap(Ownership.Boot(1, tps), evs);
    AftersKeepInv(Ownership.Boot(1, tps), evs);
    AftersKeepTimers(Ownership.Boot(1, tps), evs);
  }

  // ---- Main result ----

  /** An executor that has spun, from any run from boot, spins a second time and is then destroyed, with
      interrupts and task steps anywhere in between: the device is left open, with nobody to close it,
      if and only if the executor held it when it spun again.  After a failed first open the second
      attempt is harmless. */
  lemma SecondSetupLosesTheDevice(tps: uint32, evs: seq<Occurrence>, setup: seq<Occurrence>, teardown: seq<Occurrence>)
    requires SaneRun(Ownership.Boot(1, tps), evs)
    requires var f := Afters(Ownership.Boot(1, tps), evs);
             && f.members[0].phase.Spinning?
             && Alone(f, setup) && SaneRun(At(f, StartTask(0)), setup)
             && var f1 := Afters(At(f, StartTask(0)), setup);
                && f1.members[0].phase.Spinning?
                && Alone(f1, teardown) && SaneRun(At(f1, ClearFlag(0)), teardown)
                && Afters(At(f1, ClearFlag(0)), teardown).members[0].phase.Gone?
    ensures var f := Afters(Ownership.Boot(1, tps), evs);
            IsOpen(Afters(At(Afters(At(f, StartTask(0)), setup), ClearFlag(0)), teardown)) <==> f.members[0].fd >= 0
  {
    var f := Afters(Ownership.Boot(1, tps), evs);
    LonelyInv(tps, evs);
    if f.members[0].fd >= 0 {
      assert Held(f) && HasTimer(f.members[0]);
      HolderAgain(f, setup, teardown);
    } else {
      TriesAgain(f, setup, teardown);
    }
  }
}
