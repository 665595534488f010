/** RTExecutor::spin blocking on its shutdown event, and any number of concurrent cancel calls.
    cancel is three steps: clear `spinning`, read the published task id, send the event. */
module SpinCancel {

  datatype Pc =
    | Called       // about to exchange `spinning`
    | SettingUp    // tasks and driver; spin_task_id_ not yet published
    | Published
    | Waiting      // in rtems_event_receive(SHUTDOWN_EVENT)
    | Received
    | Returned
    | Threw        // spin() called while already spinning

  datatype State = State(
    pc: Pc,
    spinning: bool,
    pending: bool,       // SHUTDOWN_EVENT is pending for the spinning task
    entered: nat,        // cancels that have cleared the flag but not read the id
    armed: nat,          // cancels that read a published id but have not sent
    missed: nat,         // cancels that read RTEMS_ID_NONE and returned
    sends: nat)

  datatype Action = SpinStep | CancelEnter | CancelRead | CancelSend

  function IdPublished(s: State): bool
  {
    s.pc.Published? || s.pc.Waiting? || s.pc.Received? || s.pc.Returned?
  }

  function Act(s: State, a: Action): State
  {
    match a
    case SpinStep =>
      (match s.pc
       case Called => if s.spinning then s.(pc := Threw) else s.(pc := SettingUp, spinning := true)
       case SettingUp => s.(pc := Published)
       case Published => s.(pc := Waiting)
       case Waiting => if s.pending then s.(pc := Received, pending := false) else s
       case Received => s.(pc := Returned, spinning := false)
       case _ => s)
    case CancelEnter => s.(spinning := false, entered := s.entered + 1)
    case CancelRead =>
      if s.entered == 0 then s
      else if IdPublished(s) then s.(entered := s.entered - 1, armed := s.armed + 1)
      else s.(entered := s.entered - 1, missed := s.missed + 1)
    case CancelSend =>
      if s.armed == 0 then s else s.(armed := s.armed - 1, sends := s.sends + 1, pending := true)
  }

  function Acts(s: State, acts: seq<Action>): State
    decreases acts
  {
    if acts == [] then s else Acts(Act(s, acts[0]), acts[1..])
  }

  /** spin() is called for the first time on its executor. */
  ghost predicate FirstCall(s: State)
  {
    s.pc.Called? && !s.spinning && !s.pending && s.entered == 0 && s.armed == 0 && s.missed == 0 && s.sends == 0
  }

  ghost predicate SpinInv(s: State)
  {
    && (s.armed + s.sends > 0 ==> IdPublished(s))
    && (s.pc.Received? || s.pc.Returned? ==> s.sends >= 1)
    && (s.sends >= 1 ==> s.pending || s.pc.Received? || s.pc.Returned?)
    && (s.pending ==> s.sends >= 1)
  }

  lemma {:induction false} ActsKeepInv(s: State, acts: seq<Action>)
    requires SpinInv(s)
    ensures SpinInv(Acts(s, acts))
    decreases acts
  {
    if acts != [] { ActsKeepInv(Act(s, acts[0]), acts[1..]); }
  }

  /** In every interleaving: spin() does not return before a shutdown event was sent, and an event
      sent by a cancel that saw the published id stays pending until spin() receives it, even when it
      comes before the wait. */
  lemma ShutdownIsNotLost(s0: State, acts: seq<Action>)
    requires FirstCall(s0)
    ensures var s := Acts(s0, acts);
            && (s.pc.Returned? ==> s.sends >= 1)
            && (s.sends >= 1 && !s.pc.Received? && !s.pc.Returned? ==> s.pending)
  {
    ActsKeepInv(s0, acts);
  }

  function Steps(n: nat): seq<Action>
  {
    if n == 0 then [] else [SpinStep] + Steps(n - 1)
  }

  lemma {:induction false} StuckWithoutEvent(s: State, n: nat)
    requires !s.pending && !s.pc.Received? && !s.pc.Returned?
    ensures !Acts(s, Steps(n)).pc.Returned?
    decreases n
  {
    if n > 0 {
      assert Steps(n)[0] == SpinStep && Steps(n)[1..] == Steps(n - 1);
      StuckWithoutEvent(Act(s, SpinStep), n - 1);
    }
  }

  lemma StepsUnfold(s: State, n: nat)
    requires n > 0
    ensures Acts(s, Steps(n)) == Acts(Act(s, SpinStep), Steps(n - 1))
  {
    assert Steps(n)[0] == SpinStep && Steps(n)[1..] == Steps(n - 1);
  }

  lemma ReturnsWithEvent(s: State)
    requires (s.pending && (s.pc.Published? || s.pc.Waiting?)) || s.pc.Received? || s.pc.Returned?
    ensures Acts(s, Steps(3)).pc.Returned?
  {
    StepsUnfold(s, 3);
    StepsUnfold(Act(s, SpinStep), 2);
    StepsUnfold(Act(Act(s, SpinStep), SpinStep), 1);
    assert Steps(0) == [];
  }

  lemma StuckForEver(s: State)
    requires !s.pending && !s.pc.Received? && !s.pc.Returned?
    ensures forall n: nat :: !Acts(s, Steps(n)).pc.Returned?
  {
    forall n: nat
      ensures !Acts(s, Steps(n)).pc.Returned?
    {
      StuckWithoutEvent(s, n);
    }
  }

  /** What cancel() tests decides.  In any run in which no other cancel has got as far as its send, one
      cancel reads the id and, if it read one, sends the event: after that, spin() left alone
      returns if and only if spin_task_id_ was published when the cancel read it.  Otherwise the
      cancel is lost and spin() waits for ever. */
  lemma SpinReturnsIff(s0: State, acts: seq<Action>)
    requires FirstCall(s0)
    requires var s := Acts(s0, acts); s.entered >= 1 && s.armed == 0 && s.sends == 0
    ensures var s := Acts(s0, acts);
            var s' := Act(Act(s, CancelRead), CancelSend);
            (exists n: nat :: Acts(s', Steps(n)).pc.Returned?) <==> IdPublished(s)
  {
    var s := Acts(s0, acts);
    var s' := Act(Act(s, CancelRead), CancelSend);
    ActsKeepInv(s0, acts);
    if IdPublished(s) {
      ReturnsWithEvent(s');
    } else {
      StuckForEver(s');
    }
  }

  /** With any number of cancels: once the id is published, spin() left alone returns if and only if the
      event has been sent to it. */
  lemma SpinReturnsIffSent(s0: State, acts: seq<Action>)
    requires FirstCall(s0) && IdPublished(Acts(s0, acts))
    ensures (exists n: nat :: Acts(Acts(s0, acts), Steps(n)).pc.Returned?) <==> Acts(s0, acts).sends >= 1
  {
    var s := Acts(s0, acts);
    ActsKeepInv(s0, acts);
    if s.sends >= 1 {
      ReturnsWithEvent(s);
    } else {
      StuckForEver(s);
    }
  }

  /** The cancel that is lost: it runs between the call of spin() and the publication of the id. */
  lemma EarlyCancelIsLost(s0: State)
    requires FirstCall(s0)
    ensures var s := Acts(s0, [SpinStep, CancelEnter, CancelRead, SpinStep]);
            s.missed == 1 && IdPublished(s) && forall n: nat :: !Acts(s, Steps(n)).pc.Returned?
  {
    var acts := [SpinStep, CancelEnter, CancelRead, SpinStep];
    assert acts[1..][1..][1..][1..] == [];
    var s := Acts(s0, acts);
    assert s == Act(Act(Act(Act(s0, SpinStep), CancelEnter), CancelRead), SpinStep) by {
      assert Acts(s0, acts) == Acts(Act(s0, SpinStep), acts[1..]);
      assert Acts(Act(Act(s0, SpinStep), CancelEnter), acts[1..][1..])
          == Acts(Act(Act(Act(s0, SpinStep), CancelEnter), CancelRead), acts[1..][1..][1..]);
    }
    StuckForEver(s);
  }

  /** The flag `spinning`: set exactly while a first spin() is under way that nobody has cancelled, so that a
      second spin() throws exactly then. */
  ghost predicate FlagInv(s: State)
  {
    && (s.spinning ==> s.pc.SettingUp? || s.pc.Published? || s.pc.Waiting? || s.pc.Received?)
    && !s.pc.Threw?
  }

  lemma {:induction false} FlagKept(s: State, acts: seq<Action>)
    requires FlagInv(s)
    ensures FlagInv(Acts(s, acts))
    decreases acts
  {
    if acts != [] { FlagKept(Act(s, acts[0]), acts[1..]); }
  }

  /** No cancel has been called. */
  predicate NoCancel(acts: seq<Action>) { forall i :: 0 <= i < |acts| ==> acts[i].SpinStep? }

  lemma {:induction false} FlagSetUntilReturn(s: State, acts: seq<Action>)
    requires NoCancel(acts) && !s.pc.Threw? && (s.spinning <==> !s.pc.Called? && !s.pc.Returned?)
    ensures var s' := Acts(s, acts); !s'.pc.Threw? && (s'.spinning <==> !s'.pc.Called? && !s'.pc.Returned?)
    decreases acts
  {
    if acts != [] { FlagSetUntilReturn(Act(s, acts[0]), acts[1..]); }
  }

  /** A spin() called on an executor in any state of a first one throws if and only if the flag is set:
      without a cancel exactly while the first is under way, and never once it has been cancelled or has
      returned. */
  lemma SecondSpinThrowsIff(s0: State, acts: seq<Action>)
    requires FirstCall(s0)
    ensures var s := Acts(s0, acts);
            var second := Act(s.(pc := Called), SpinStep);
            && (second.pc.Threw? <==> s.spinning)
            && (NoCancel(acts) ==> (s.spinning <==> !s.pc.Called? && !s.pc.Returned?))
            && (s.spinning ==> !s.pc.Called? && !s.pc.Returned?)
            && !Act(s, CancelEnter).spinning
  {
    FlagKept(s0, acts);
    if NoCancel(acts) { FlagSetUntilReturn(s0, acts); }
  }
}
