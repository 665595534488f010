/** The two views of rtss_open agree: its steps, taken with nobody in between, are the call of the driver
    model. */
module OpenAlone {
  import opened TimerModel
  import opened ExecutorModel
  import opened ExecutorInvariant
  import opened ExecutorSteps

  /** At most n more steps of the open under way. */
  function OpenRun(p: Platform, x: Exec, inp: Input, n: nat): (r: (Platform, Exec))
    requires Sized(p)
    ensures Sized(r.0)
    decreases n
  {
    if n == 0 || !Opening(x.phase) then (p, x)
    else var (p1, x1) := OpenStep(p, x, inp); OpenRun(p1, x1, inp, n - 1)
  }

  lemma OpenRunStep(p: Platform, x: Exec, inp: Input, n: nat)
    requires Sized(p) && n > 0 && Opening(x.phase)
    ensures OpenRun(p, x, inp, n) == OpenRun(OpenStep(p, x, inp).0, OpenStep(p, x, inp).1, inp, n - 1)
  {}

  /** The driver afterwards, and how the executor sees it: a descriptor, and set-up goes on, exactly when
      the call of the model succeeds. */
  ghost predicate Opened(p: Platform, x: Exec, inp: Input, r: (Platform, Exec))
    requires Sized(p) && Sized(r.0)
  {
    var (d', status) := Open(p.sys.world.drv, inp.installOk);
    && r.0.sys == p.sys.(world := p.sys.world.(drv := d'))
    && r.1 == (if status == Successful then x.(fd := inp.fd, phase := ModeOf) else x.(fd := -1, phase := Spinning))
  }

  /** From its last store. */
  lemma LastStep(p: Platform, x: Exec, inp: Input, n: nat)
    requires Sized(p) && x.phase.StoreOpen? && n >= 1
    ensures var r := OpenRun(p, x, inp, n);
            && r.0 == Moved(p, EndToEnd.DriverOp(TimerRuns.MarkOpen))
            && r.1 == x.(fd := inp.fd, phase := ModeOf)
  {
    OpenRunStep(p, x, inp, n);
  }

  /** From the call of the installer. */
  lemma InstallSteps(p: Platform, x: Exec, inp: Input, n: nat)
    requires Sized(p) && x.phase.CallInstall? && n >= 3 && !p.handler
    requires !p.sys.world.drv.isOpen && !p.sys.world.drv.isrInstalled
    ensures Opened(p, x, inp, OpenRun(p, x, inp, n))
  {
    OpenRunStep(p, x, inp, n);
    if inp.installOk {
      var (p1, x1) := OpenStep(p, x, inp);
      OpenRunStep(p1, x1, inp, n - 1);
      var (p2, x2) := OpenStep(p1, x1, inp);
      LastStep(p2, x2, inp, n - 2);
    }
  }

  /** From its first test, the handler being installed in RTEMS exactly if the driver says so. */
  lemma StepsAreOpen(p: Platform, x: Exec, inp: Input)
    requires Sized(p) && x.phase.TestOpen? && p.handler == p.sys.world.drv.isrInstalled
    ensures Opened(p, x, inp, OpenRun(p, x, inp, 5))
  {
    OpenRunStep(p, x, inp, 5);
    if !p.sys.world.drv.isOpen {
      var x1 := OpenStep(p, x, inp).1;
      OpenRunStep(p, x1, inp, 4);
      var x2 := OpenStep(p, x1, inp).1;
      if p.sys.world.drv.isrInstalled { LastStep(p, x2, inp, 3); } else { InstallSteps(p, x2, inp, 3); }
    }
  }
}
