/** What a callback task does when it is given the processor: an event leads to a callback, and a stopped
    task ends, in a stated number of the task's own steps, whatever else happens in between. */
module CallbackProgress {
  import opened CallbackProtocol

  /** The step run_loop takes next. */
  function OwnStep(t: Task): Action
  {
    match t.pc
    case AtGuard => Guard
    case Blocked => Receive
    case Woken => Test
    case Ready => Begin
    case InCallback => End
    case Exited => SelfDelete
  }

  /** It can take it now; only the wait for an event blocks. */
  predicate Enabled(t: Task, a: Action)
  {
    t.alive && a == OwnStep(t) && (t.pc.Blocked? ==> t.pending)
  }

  /** How many of the actions are steps the task takes. */
  function StepsTaken(t: Task, acts: seq<Action>): nat
    decreases acts
  {
    if acts == [] then 0
    else (if Enabled(t, acts[0]) then 1 else 0) + StepsTaken(Act(t, acts[0]), acts[1..])
  }

  /** What a send does: nothing to a dead task; on a live one the event becomes pending, or coalesces with
      the one that is. */
  lemma SendResult(t: Task)
    ensures var t' := SendTo(t);
            && t'.sent == t.sent + 1 && t'.pc == t.pc && t'.running == t.running && t'.alive == t.alive
            && (!t.alive ==> t'.pending == t.pending && t'.toDead == t.toDead + 1 && t'.coalesced == t.coalesced)
            && (t.alive ==> t'.pending && t'.toDead == t.toDead
                            && t'.coalesced == if t.pending then t.coalesced + 1 else t.coalesced)
  {}

  // ---- From an event to its callback ----

  const ROUND: seq<Action> := [Receive, Test, Begin, End, Guard]

  lemma FiveActs(t: Task, a: Action, b: Action, c: Action, d: Action, e: Action)
    ensures Acts(t, [a, b, c, d, e]) == Act(Act(Act(Act(Act(t, a), b), c), d), e)
  {
    var t1 := Act(t, a);
    var t2 := Act(t1, b);
    var t3 := Act(t2, c);
    var t4 := Act(t3, d);
    assert [a, b, c, d, e][1..] == [b, c, d, e] && [b, c, d, e][1..] == [c, d, e];
    assert [c, d, e][1..] == [d, e] && [d, e][1..] == [e] && [e][1..] == [];
    assert Acts(t4, [e]) == Act(t4, e);
    assert Acts(t3, [d, e]) == Acts(t4, [e]);
    assert Acts(t2, [c, d, e]) == Acts(t3, [d, e]);
    assert Acts(t1, [b, c, d, e]) == Acts(t2, [c, d, e]);
  }

  /** A running task that waits with an event pending, left to itself, receives it, enters its callback
      exactly once, and waits again. */
  lemma EventIsOneCallback(t: Task)
    requires TaskInv(t) && t.running && t.pending && t.pc.Blocked?
    ensures var t' := Acts(t, ROUND);
            && t'.begun == t.begun + 1 && t'.woken == t.woken + 1
            && t'.pc.Blocked? && !t'.pending && t'.running && t'.alive
  {
    FiveActs(t, Receive, Test, Begin, End, Guard);
  }

  /** The steps from any other point of the loop of a running task to its wait. */
  function WayHome(pc: Pc): seq<Action>
  {
    match pc
    case AtGuard => [Guard]
    case Blocked => []
    case Woken => [Test, Begin, End, Guard]
    case Ready => [Begin, End, Guard]
    case InCallback => [End, Guard]
    case Exited => []
  }

  lemma ActsStep(t: Task, acts: seq<Action>)
    requires acts != []
    ensures Acts(t, acts) == Acts(Act(t, acts[0]), acts[1..])
  {}

  /** From any point of the loop a running task, left to itself, comes back to its wait, and calls its
      callback on the way if it had been woken. */
  lemma {:induction false} ComesHome(t: Task)
    requires TaskInv(t) && t.running
    ensures var t' := Acts(t, WayHome(t.pc));
            && t'.pc.Blocked? && t'.running && t'.alive && t'.pending == t.pending
            && t'.begun == t.begun + Count(t.pc.Woken? || t.pc.Ready?)
    decreases |WayHome(t.pc)|
  {
    if !t.pc.Blocked? {
      var t1 := Act(t, OwnStep(t));
      ActKeepsInv(t, OwnStep(t));
      ActsStep(t, WayHome(t.pc));
      assert WayHome(t.pc)[1..] == WayHome(t1.pc);
      ComesHome(t1);
    }
  }

  // ---- The same in any interleaving ----

  /** An event is pending or has just been received. */
  predicate Owed(t: Task)
  {
    t.alive && t.running && !t.pc.Exited? && (t.pending || t.pc.Woken? || t.pc.Ready?)
  }

  /** Own steps until the callback begins. */
  function ToGo(pc: Pc): nat
  {
    match pc
    case InCallback => 5
    case AtGuard => 4
    case Blocked => 3
    case Woken => 2
    case Ready => 1
    case Exited => 0
  }

  lemma OwedStep(t: Task, a: Action)
    requires Owed(t) && !a.StopEnter? && t.stop.Idle?
    ensures var t' := Act(t, a);
            || t'.begun > t.begun
            || (Owed(t') && t'.stop.Idle? && t'.begun == t.begun
                && ToGo(t'.pc) + (if Enabled(t, a) then 1 else 0) <= ToGo(t.pc))
  {}

  lemma BegunNeverShrinks(t: Task, a: Action)
    ensures Act(t, a).begun >= t.begun
  {}

  lemma {:induction false} BegunGrows(t: Task, acts: seq<Action>)
    ensures Acts(t, acts).begun >= t.begun
    decreases acts
  {
    if acts != [] {
      BegunNeverShrinks(t, acts[0]);
      BegunGrows(Act(t, acts[0]), acts[1..]);
    }
  }

  /** In any interleaving without stop(): once the task has taken as many of its own steps as its place in
      the loop asks for, five at most, a callback has begun. */
  lemma {:induction false} OwedCallbackBegins(t: Task, acts: seq<Action>)
    requires Owed(t) && t.stop.Idle? && forall i :: 0 <= i < |acts| ==> !acts[i].StopEnter?
    requires StepsTaken(t, acts) >= ToGo(t.pc)
    ensures Acts(t, acts).begun > t.begun
    decreases acts
  {
    var t1 := Act(t, acts[0]);
    OwedStep(t, acts[0]);
    if t1.begun > t.begun {
      BegunGrows(t1, acts[1..]);
    } else {
      OwedCallbackBegins(t1, acts[1..]);
    }
  }

  // ---- The end of a task ----

  /** stop() has cleared the flag, and its event has come unless the task does not wait for one. */
  predicate Ending(t: Task)
  {
    !t.running && (t.pc.Blocked? ==> t.pending)
  }

  /** Own steps until the task has deleted itself. */
  function ToEnd(pc: Pc): nat
  {
    match pc
    case Ready => 4
    case InCallback => 3
    case Blocked => 3
    case AtGuard => 2
    case Woken => 2
    case Exited => 1
  }

  lemma EndingStep(t: Task, a: Action)
    requires Ending(t)
    ensures var t' := Act(t, a);
            !t'.alive || (Ending(t') && ToEnd(t'.pc) + (if Enabled(t, a) then 1 else 0) <= ToEnd(t.pc))
  {}

  lemma {:induction false} DeadStaysDead(t: Task, acts: seq<Action>)
    requires !t.alive
    ensures !Acts(t, acts).alive
    decreases acts
  {
    if acts != [] { DeadStaysDead(Act(t, acts[0]), acts[1..]); }
  }

  /** In any interleaving a stopped task is gone after at most four of its own steps, if stop() has not
      deleted it before. */
  lemma {:induction false} StoppedTaskEnds(t: Task, acts: seq<Action>)
    requires Ending(t) && StepsTaken(t, acts) >= ToEnd(t.pc)
    ensures !Acts(t, acts).alive
    decreases acts
  {
    var t1 := Act(t, acts[0]);
    EndingStep(t, acts[0]);
    if !t1.alive {
      DeadStaysDead(t1, acts[1..]);
    } else {
      StoppedTaskEnds(t1, acts[1..]);
    }
  }

  /** stop() on a running task, left to itself, returns and leaves no task. */
  lemma StopCompletes(t: Task)
    requires TaskInv(t) && t.running
    ensures var t' := Acts(t, [StopEnter, StopSend, StopDelete, StopReturn, Guard]);
            t'.stop.Returned? && !t'.alive && !t'.running && t'.sent == t.sent + 1 && t'.stopSent == 1
  {
    FiveActs(t, StopEnter, StopSend, StopDelete, StopReturn, Guard);
  }
}
