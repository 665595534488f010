/** One executor on its platform, as its methods run: before each of its steps any number of
    interrupts, task steps and publications may come. */
module SoloRuns {
  import opened TimerModel
  import opened TimerRuns
  import opened EndToEnd
  import opened ExecutorModel
  import opened ExecutorInvariant
  import opened ExecutorSteps
  import opened Ownership
  import CallbackProtocol

  /** What happens before the next step, and what the environment answers to it. */
  datatype Turn = Turn(before: seq<EndToEnd.Move>, inp: Input)

  function Meanwhile(p: Platform, ms: seq<EndToEnd.Move>): (r: Platform)
    requires Sized(p)
    ensures Sized(r)
    decreases ms
  {
    if ms == [] then p else Meanwhile(Moved(p, ms[0]), ms[1..])
  }

  ghost predicate OutsideRun(p: Platform, ms: seq<EndToEnd.Move>)
    requires Sized(p)
    decreases ms
  {
    ms != [] ==> OutsideMove(p, ms[0]) && OutsideRun(Moved(p, ms[0]), ms[1..])
  }

  /** The three moves of stop() on task `id`, with what happens between them. */
  function StopMoves(p: Platform, id: TaskId, gap1: seq<EndToEnd.Move>,
      gap2: seq<EndToEnd.Move>): (r: (Platform, Platform, Platform))
    requires Sized(p)
    ensures Sized(r.0) && Sized(r.1) && Sized(r.2)
  {
    var p1 := Moved(p, TaskStep(id, CallbackProtocol.StopEnter));
    var p2 := Moved(Meanwhile(p1, gap1), TaskStep(id, CallbackProtocol.StopSend));
    (p1, p2, Moved(Meanwhile(p2, gap2), TaskStep(id, CallbackProtocol.StopDelete)))
  }

  ghost predicate StopGaps(p: Platform, id: TaskId, gap1: seq<EndToEnd.Move>, gap2: seq<EndToEnd.Move>)
    requires Sized(p)
  {
    OutsideRun(StopMoves(p, id, gap1, gap2).0, gap1) && OutsideRun(StopMoves(p, id, gap1, gap2).1, gap2)
  }

  function TakeTurn(s: (Platform, Exec), t: Turn): (r: (Platform, Exec))
    requires Sized(s.0)
    ensures Sized(r.0)
  {
    Do(Meanwhile(s.0, t.before), s.1, t.inp)
  }

  ghost predicate SaneTurn(s: (Platform, Exec), t: Turn)
    requires Sized(s.0)
  {
    OutsideRun(s.0, t.before) && ClockOk(Meanwhile(s.0, t.before), t.inp)
  }

  /** What holds of the executor and its platform between any two steps. */
  ghost predicate SoloInv(s: (Platform, Exec))
  {
    FleetInv(Fleet(s.0, [s.1]))
  }

  lemma {:induction false} MeanwhileKeepsInv(p: Platform, x: Exec, ms: seq<EndToEnd.Move>)
    requires SoloInv((p, x)) && OutsideRun(p, ms)
    ensures SoloInv((Meanwhile(p, ms), x))
    decreases ms
  {
    if ms != [] {
      OutsideKeepsInv(Fleet(p, [x]), ms[0]);
      MeanwhileKeepsInv(Moved(p, ms[0]), x, ms[1..]);
    }
  }

  lemma DoKeepsInv(p: Platform, x: Exec, inp: Input)
    requires SoloInv((p, x)) && ClockOk(p, inp)
    ensures SoloInv(Do(p, x, inp))
  {
    var f := Fleet(p, [x]);
    ExecutorStepKeepsInv(f, 0, inp);
    var (p', x') := Do(p, x, inp);
    assert [x][0 := x'] == [x'];
    assert After(f, Steps(0, inp)) == Fleet(p', [x']);
  }

  lemma TurnKeepsInv(s: (Platform, Exec), t: Turn)
    requires SoloInv(s) && SaneTurn(s, t)
    ensures SoloInv((Meanwhile(s.0, t.before), s.1)) && SoloInv(TakeTurn(s, t))
  {
    MeanwhileKeepsInv(s.0, s.1, t.before);
    DoKeepsInv(Meanwhile(s.0, t.before), s.1, t.inp);
  }

  // ---- What the methods rely on ----

  ghost predicate MayIoctl(p: Platform, cmd: Command, inp: Input)
    requires Sized(p)
  {
    Allowed(p.sys.world, Ioctl(cmd, p.tps, inp.now, inp.armNow))
  }

  /** The C++ code may take this step: no arithmetic overflows in the driver, the registrations are in
      order, a new task gets a new id. */
  ghost predicate StepSafe(p: Platform, x: Exec, inp: Input)
    requires Sized(p)
  {
    && Inv(p.sys.world) && ClockOk(p, inp) && 0 <= inp.now && inp.armNow <= HORIZON
    && p.nextId > NONE && p.nextId !in p.sys.tasks
    && |x.timers| <= CHANNELS && (forall i :: 0 <= i < |x.timers| ==> x.timers[i].channel == i)
    && match x.phase
       case LaunchOf(i) => i < |x.timers| ==> p.sys.world.drv.channels[i].period != 0 ==> MayIoctl(p, Start(i), inp)
       case StopChannel(i) => i < |x.timers| ==> MayIoctl(p, Stop(i), inp)
       case _ => true
  }

  ghost predicate TurnSafe(s: (Platform, Exec), t: Turn)
    requires Sized(s.0)
  {
    Inv(s.0.sys.world) && OutsideRun(s.0, t.before) && StepSafe(Meanwhile(s.0, t.before), s.1, t.inp)
  }

  lemma NextIdIsNew(p: Platform)
    requires PlatformOk(p)
    ensures p.nextId > NONE && p.nextId !in p.sys.tasks
  {
    assert p.nextId in p.sys.tasks ==> TaskOk(p, p.nextId);
  }

  lemma LaunchIsSafe(p: Platform, x: Exec, i: nat, inp: Input)
    requires PlatformOk(p) && ExecInv(p, x) && HolderInv(p, x) && x.phase == LaunchOf(i) && ClockOk(p, inp)
    ensures i < |x.timers| && ValidChannel(i) && p.sys.world.drv.channels[i].period != 0 ==> MayIoctl(p, Start(i), inp)
  {
    TurnFacts(p, x, i);
    if p.sys.world.drv.channels[i].period != 0 { LaunchLinks(p, x, i, inp); }
  }

  lemma StopIsSafe(p: Platform, x: Exec, i: nat, inp: Input)
    requires PlatformOk(p) && ExecInv(p, x) && HolderInv(p, x) && x.phase == StopChannel(i) && ClockOk(p, inp)
    ensures i < |x.timers| ==> MayIoctl(p, Stop(i), inp)
  {
    if i < |x.timers| { StopChannelAllowed(p, x, i, inp); }
  }

  lemma InvIsSafe(p: Platform, x: Exec, inp: Input)
    requires SoloInv((p, x)) && ClockOk(p, inp)
    ensures StepSafe(p, x, inp)
  {
    var f := Fleet(p, [x]);
    assert f.members[0] == x;
    assert ExecInv(p, x) && PhaseOk(x) && ShapeOk(p, x);
    NextIdIsNew(p);
    if x.fd >= 0 { assert HolderInv(p, x); }
    if x.phase.LaunchOf? { LaunchIsSafe(p, x, x.phase.i, inp); }
    if x.phase.StopChannel? { StopIsSafe(p, x, x.phase.i, inp); }
  }

  lemma TurnIsSafe(s: (Platform, Exec), t: Turn)
    requires SoloInv(s) && SaneTurn(s, t)
    ensures TurnSafe(s, t)
  {
    MeanwhileKeepsInv(s.0, s.1, t.before);
    InvIsSafe(Meanwhile(s.0, t.before), s.1, t.inp);
  }

  // ---- Runs ----

  /** The states of a run: `tr[k]` before the k-th turn, `tr[k + 1]` after it. */
  ghost predicate SaneStep(tr: seq<(Platform, Exec)>, ts: seq<Turn>, k: int)
  {
    0 <= k < |ts| && k + 1 < |tr| && Sized(tr[k].0) && tr[k + 1] == TakeTurn(tr[k], ts[k]) && SaneTurn(tr[k], ts[k])
  }

  /** A run in a sane environment from a state between two steps. */
  ghost predicate SaneRunOf(tr: seq<(Platform, Exec)>, ts: seq<Turn>)
  {
    |tr| == |ts| + 1 && SoloInv(tr[0]) && forall k :: 0 <= k < |ts| ==> SaneStep(tr, ts, k)
  }

  ghost predicate SafeStep(tr: seq<(Platform, Exec)>, ts: seq<Turn>, k: int)
  {
    0 <= k < |ts| && k + 1 < |tr| && Sized(tr[k].0) && tr[k + 1] == TakeTurn(tr[k], ts[k]) && TurnSafe(tr[k], ts[k])
  }

  ghost predicate SafeRunOf(tr: seq<(Platform, Exec)>, ts: seq<Turn>)
  {
    |tr| == |ts| + 1 && forall k :: 0 <= k < |ts| ==> SafeStep(tr, ts, k)
  }

  lemma {:induction false} RunKeepsInv(tr: seq<(Platform, Exec)>, ts: seq<Turn>, k: nat)
    requires SaneRunOf(tr, ts) && k <= |ts|
    ensures SoloInv(tr[k])
  {
    if k > 0 {
      RunKeepsInv(tr, ts, k - 1);
      assert SaneStep(tr, ts, k - 1);
      TurnKeepsInv(tr[k - 1], ts[k - 1]);
    }
  }

  /** Every step of such a run is one the C++ code may take. */
  lemma SaneRunIsSafe(tr: seq<(Platform, Exec)>, ts: seq<Turn>)
    requires SaneRunOf(tr, ts)
    ensures SafeRunOf(tr, ts) && forall k :: 0 <= k <= |ts| ==> SoloInv(tr[k])
  {
    forall k | 0 <= k <= |ts|
      ensures SoloInv(tr[k])
    {
      RunKeepsInv(tr, ts, k);
    }
    forall k | 0 <= k < |ts|
      ensures SafeStep(tr, ts, k)
    {
      assert SaneStep(tr, ts, k);
      TurnIsSafe(tr[k], ts[k]);
    }
  }

  /** The state in which the executor takes the k-th turn's step. */
  function BeforeStep(tr: seq<(Platform, Exec)>, ts: seq<Turn>, k: nat): (r: (Platform, Exec))
    requires k < |ts| && k < |tr| && Sized(tr[k].0)
    ensures Sized(r.0)
  {
    (Meanwhile(tr[k].0, ts[k].before), tr[k].1)
  }

  lemma StepMayBeTaken(tr: seq<(Platform, Exec)>, ts: seq<Turn>, k: nat)
    requires SafeRunOf(tr, ts) && k < |ts|
    ensures Sized(tr[k].0) && Inv(tr[k].0.sys.world) && OutsideRun(tr[k].0, ts[k].before)
    ensures StepSafe(BeforeStep(tr, ts, k).0, BeforeStep(tr, ts, k).1, ts[k].inp)
  {
    assert SafeStep(tr, ts, k);
  }

  lemma StepIsTaken(tr: seq<(Platform, Exec)>, ts: seq<Turn>, k: nat)
    requires SafeRunOf(tr, ts) && k < |ts|
    ensures Sized(tr[k].0) && Sized(tr[k + 1].0)
    ensures tr[k + 1] == Do(BeforeStep(tr, ts, k).0, BeforeStep(tr, ts, k).1, ts[k].inp)
  {
    assert SafeStep(tr, ts, k);
  }

  // ---- Which step a phase takes ----

  lemma StartTaskIsTaken(tr: seq<(Platform, Exec)>, ts: seq<Turn>, k: nat, p: Platform, x: Exec, i: nat)
    requires SafeRunOf(tr, ts) && k < |ts| && Sized(tr[k].0) && (p, x) == BeforeStep(tr, ts, k)
    requires x.phase == StartTask(i)
    ensures Sized(tr[k + 1].0) && tr[k + 1] == StartTaskStep(p, x, i, ts[k].inp)
  {
    StepIsTaken(tr, ts, k);
  }

  lemma OpenStepIsTaken(tr: seq<(Platform, Exec)>, ts: seq<Turn>, k: nat, p: Platform, x: Exec)
    requires SafeRunOf(tr, ts) && k < |ts| && Sized(tr[k].0) && (p, x) == BeforeStep(tr, ts, k) && Opening(x.phase)
    ensures Sized(tr[k + 1].0) && tr[k + 1] == OpenStep(p, x, ts[k].inp)
  {
    StepIsTaken(tr, ts, k);
  }

  lemma ModeIsTaken(tr: seq<(Platform, Exec)>, ts: seq<Turn>, k: nat, p: Platform, x: Exec)
    requires SafeRunOf(tr, ts) && k < |ts| && Sized(tr[k].0) && (p, x) == BeforeStep(tr, ts, k)
    requires x.phase.ModeOf?
    ensures Sized(tr[k + 1].0) && tr[k + 1] == ModeStep(p, x)
  {
    StepIsTaken(tr, ts, k);
  }

  lemma EnsureTaskIsTaken(tr: seq<(Platform, Exec)>, ts: seq<Turn>, k: nat, p: Platform, x: Exec, i: nat)
    requires SafeRunOf(tr, ts) && k < |ts| && Sized(tr[k].0) && (p, x) == BeforeStep(tr, ts, k)
    requires x.phase == EnsureTask(i)
    ensures Sized(tr[k + 1].0) && tr[k + 1] == EnsureTaskStep(p, x, i, ts[k].inp)
  {
    StepIsTaken(tr, ts, k);
  }

  lemma PeriodIsTaken(tr: seq<(Platform, Exec)>, ts: seq<Turn>, k: nat, p: Platform, x: Exec, i: nat)
    requires SafeRunOf(tr, ts) && k < |ts| && Sized(tr[k].0) && (p, x) == BeforeStep(tr, ts, k)
    requires x.phase == PeriodOf(i)
    ensures Sized(tr[k + 1].0) && tr[k + 1] == PeriodStep(p, x, i)
  {
    StepIsTaken(tr, ts, k);
  }

  lemma TargetIsTaken(tr: seq<(Platform, Exec)>, ts: seq<Turn>, k: nat, p: Platform, x: Exec, i: nat)
    requires SafeRunOf(tr, ts) && k < |ts| && Sized(tr[k].0) && (p, x) == BeforeStep(tr, ts, k)
    requires x.phase == TargetOf(i)
    ensures Sized(tr[k + 1].0) && tr[k + 1] == TargetStep(p, x, i)
  {
    StepIsTaken(tr, ts, k);
  }

  lemma LaunchIsTaken(tr: seq<(Platform, Exec)>, ts: seq<Turn>, k: nat, p: Platform, x: Exec, i: nat)
    requires SafeRunOf(tr, ts) && k < |ts| && Sized(tr[k].0) && (p, x) == BeforeStep(tr, ts, k)
    requires x.phase == LaunchOf(i)
    ensures Sized(tr[k + 1].0) && tr[k + 1] == LaunchStep(p, x, i, ts[k].inp)
  {
    StepIsTaken(tr, ts, k);
  }

  lemma ClearFlagIsTaken(tr: seq<(Platform, Exec)>, ts: seq<Turn>, k: nat, p: Platform, x: Exec, j: nat)
    requires SafeRunOf(tr, ts) && k < |ts| && Sized(tr[k].0) && (p, x) == BeforeStep(tr, ts, k)
    requires x.phase == ClearFlag(j)
    ensures Sized(tr[k + 1].0) && tr[k + 1] == ClearFlagStep(p, x, j)
  {
    StepIsTaken(tr, ts, k);
  }

  lemma SendStopIsTaken(tr: seq<(Platform, Exec)>, ts: seq<Turn>, k: nat, p: Platform, x: Exec, j: nat)
    requires SafeRunOf(tr, ts) && k < |ts| && Sized(tr[k].0) && (p, x) == BeforeStep(tr, ts, k)
    requires x.phase == SendStop(j)
    ensures Sized(tr[k + 1].0) && tr[k + 1] == SendStopStep(p, x, j)
  {
    StepIsTaken(tr, ts, k);
  }

  lemma DeleteTaskIsTaken(tr: seq<(Platform, Exec)>, ts: seq<Turn>, k: nat, p: Platform, x: Exec, j: nat)
    requires SafeRunOf(tr, ts) && k < |ts| && Sized(tr[k].0) && (p, x) == BeforeStep(tr, ts, k)
    requires x.phase == DeleteTask(j)
    ensures Sized(tr[k + 1].0) && tr[k + 1] == DeleteTaskStep(p, x, j)
  {
    StepIsTaken(tr, ts, k);
  }

  lemma StopChannelIsTaken(tr: seq<(Platform, Exec)>, ts: seq<Turn>, k: nat, p: Platform, x: Exec, i: nat)
    requires SafeRunOf(tr, ts) && k < |ts| && Sized(tr[k].0) && (p, x) == BeforeStep(tr, ts, k)
    requires x.phase == StopChannel(i)
    ensures Sized(tr[k + 1].0) && tr[k + 1] == StopChannelStep(p, x, i, ts[k].inp)
  {
    StepIsTaken(tr, ts, k);
  }

  lemma ClosingIsTaken(tr: seq<(Platform, Exec)>, ts: seq<Turn>, k: nat, p: Platform, x: Exec, j: nat)
    requires SafeRunOf(tr, ts) && k < |ts| && Sized(tr[k].0) && (p, x) == BeforeStep(tr, ts, k) && x.phase == Closing(j)
    ensures Sized(tr[k + 1].0) && tr[k + 1] == ClosingStep(p, x, j)
  {
    StepIsTaken(tr, ts, k);
  }

  /** The stop() of a running task takes three turns. */
  lemma StopIsTaken(tr: seq<(Platform, Exec)>, ts: seq<Turn>, k: nat, p: Platform, x: Exec, j: nat)
    requires SafeRunOf(tr, ts) && k + 3 <= |ts| && Sized(tr[k].0) && (p, x) == BeforeStep(tr, ts, k)
    requires x.phase == ClearFlag(j) && j < Slots(x) && CellAt(x, j).running && CellAt(x, j).id != NONE
    ensures StopGaps(p, CellAt(x, j).id, ts[k + 1].before, ts[k + 2].before)
    ensures tr[k + 3].0 == StopMoves(p, CellAt(x, j).id, ts[k + 1].before, ts[k + 2].before).2
    ensures tr[k + 3].1 == SetCellAt(x, j, Cell(NONE, false)).(phase := ClearFlag(j + 1))
  {
    var id := CellAt(x, j).id;
    var x1 := SetCellAt(x, j, Cell(id, false)).(phase := SendStop(j));
    ClearFlagIsTaken(tr, ts, k, p, x, j);
    SetCellReads(x, j, Cell(id, false), SendStop(j));
    assert tr[k + 1] == (Moved(p, TaskStep(id, CallbackProtocol.StopEnter)), x1);
    SendIsTaken(tr, ts, k + 1, x1, j);
    DeleteIsTaken(tr, ts, k + 2, x1.(phase := DeleteTask(j)), j);
    SetTwice(x, j, Cell(id, false), Cell(NONE, false));
  }

  lemma SendIsTaken(tr: seq<(Platform, Exec)>, ts: seq<Turn>, k: nat, x: Exec, j: nat)
    requires SafeRunOf(tr, ts) && k < |ts| && Sized(tr[k].0) && tr[k].1 == x && x.phase == SendStop(j) && j < Slots(x)
    ensures OutsideRun(tr[k].0, ts[k].before)
    ensures tr[k + 1].0 == Moved(Meanwhile(tr[k].0, ts[k].before), TaskStep(CellAt(x, j).id, CallbackProtocol.StopSend))
    ensures tr[k + 1].1 == x.(phase := DeleteTask(j))
  {
    StepMayBeTaken(tr, ts, k);
    SendStopIsTaken(tr, ts, k, BeforeStep(tr, ts, k).0, x, j);
  }

  lemma DeleteIsTaken(tr: seq<(Platform, Exec)>, ts: seq<Turn>, k: nat, x: Exec, j: nat)
    requires SafeRunOf(tr, ts) && k < |ts| && Sized(tr[k].0) && tr[k].1 == x && x.phase == DeleteTask(j) && j < Slots(x)
    ensures OutsideRun(tr[k].0, ts[k].before)
    ensures tr[k + 1].0 ==
              Moved(Meanwhile(tr[k].0, ts[k].before), TaskStep(CellAt(x, j).id, CallbackProtocol.StopDelete))
    ensures tr[k + 1].1 == SetCellAt(x, j, Cell(NONE, false)).(phase := ClearFlag(j + 1))
  {
    StepMayBeTaken(tr, ts, k);
    DeleteTaskIsTaken(tr, ts, k, BeforeStep(tr, ts, k).0, x, j);
  }

  lemma SetTwice(x: Exec, j: nat, t: Cell, t': Cell)
    requires j < Slots(x)
    ensures Slots(SetCellAt(x, j, t)) == Slots(x)
    ensures forall ph, ph' ::
              SetCellAt(SetCellAt(x, j, t).(phase := ph), j, t').(phase := ph') == SetCellAt(x, j, t').(phase := ph')
  {}

  /** How many turns stop_all_tasks takes for its j-th task. */
  function StopTurns(x: Exec, j: nat): nat
    requires j < Slots(x)
  {
    if CellAt(x, j).running && CellAt(x, j).id != NONE then 3 else 1
  }

  lemma TaskStopIsTaken(tr: seq<(Platform, Exec)>, ts: seq<Turn>, k: nat, p: Platform, x: Exec, j: nat)
    requires SafeRunOf(tr, ts) && k + 3 <= |ts| && Sized(tr[k].0) && (p, x) == BeforeStep(tr, ts, k)
    requires x.phase == ClearFlag(j) && j < Slots(x)
    ensures var t := CellAt(x, j);
            var x' := if t.running then SetCellAt(x, j, Cell(NONE, false)) else x;
            && (StopTurns(x, j) == 3 ==> StopGaps(p, t.id, ts[k + 1].before, ts[k + 2].before))
            && tr[k + StopTurns(x, j)] ==
               (if StopTurns(x, j) == 3 then StopMoves(p, t.id, ts[k + 1].before, ts[k + 2].before).2
                 else p, x'.(phase := ClearFlag(j + 1)))
  {
    if StopTurns(x, j) == 3 { StopIsTaken(tr, ts, k, p, x, j); } else { ClearFlagIsTaken(tr, ts, k, p, x, j); }
  }
}
