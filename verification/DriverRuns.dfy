/** Whole runs performed on the driver object itself. */
module DriverRuns {
  import opened TimerRuns
  import opened RtssTimerDriver

  /** Any allowed run can be carried out on the object: every precondition of its methods is met on
      the way (no endless inner loop, no 64-bit overflow), and the result is the model's. */
  method Perform(driver: TimerDriver, ghost clock: int, ghost closing: int, ops: seq<Op>)
    requires driver.Valid() && Inv(World(driver.Model(), clock, closing))
    requires AllowedRun(World(driver.Model(), clock, closing), ops)
    modifies driver, driver.channels, driver.fireNs
    ensures driver.Valid() && driver.Model() == Run(World(old(driver.Model()), clock, closing), ops).drv
  {
    ghost var w := World(driver.Model(), clock, closing);
    for i := 0 to |ops|
      invariant driver.Valid() && w.drv == driver.Model() && Inv(w) && AllowedRun(w, ops[i..])
      invariant Run(World(old(driver.Model()), clock, closing), ops) == Run(w, ops[i..])
    {
      assert ops[i..][0] == ops[i] && ops[i..][1..] == ops[i + 1..];
      StepKeepsInv(w, ops[i]);
      match ops[i] {
        case IsrAt(now, armNow) =>
          driver.PtIsr(now, armNow);
        case Ioctl(cmd, tps, now, armNow) =>
          var _ := driver.Control(cmd, tps, now, armNow);
        case MarkInstalled =>
          driver.MarkInstalled();
        case MarkOpen =>
          driver.MarkOpen();
        case CloseStore(k) =>
          driver.CloseStore(k);
      }
      w := Step(w, ops[i]);
    }
  }
}
