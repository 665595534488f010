/** One CallbackTask as a state machine: the RTEMS task in `run_loop`, the senders of its event, and
    the controller in `stop`, interleaved step by step.  The one-bit event coalesces. */
module CallbackProtocol {

  /** Where the RTEMS task is in run_loop. */
  datatype Pc =
    | AtGuard      // about to test `while (running_)`
    | Blocked      // in rtems_event_receive
    | Woken        // the event arrived; about to test `!running_`
    | Ready        // about to call the callback
    | InCallback
    | Exited       // left the loop; about to delete itself

  /** How far the controller is in stop(). */
  datatype StopPc = Idle | FlagCleared | EventSent | Deleted | Returned

  datatype Task = Task(
    alive: bool,
    pending: bool,          // RTEMS_EVENT_1 is pending
    running: bool,          // running_
    pc: Pc,
    stop: StopPc,
    stopPending: bool,      // the pending event includes the one sent by stop()
    wokenByStop: bool,      // so did the latest wake-up
    sent: nat,              // every rtems_event_send to this id
    stopSent: nat,          // those made by stop()
    woken: nat,
    coalesced: nat,
    toDead: nat,
    begun: nat,             // callbacks entered
    aborted: nat)           // wake-ups that found running_ false

  datatype Action =
    | Send
    | Guard | Receive | Test | Begin | End | SelfDelete
    | StopEnter | StopSend | StopDelete | StopReturn

  /** A task just started by start(). */
  const STARTED: Task := Task(true, false, true, AtGuard, Idle, false, false, 0, 0, 0, 0, 0, 0, 0)

  ghost predicate JustStarted(t: Task)
  {
    && t.alive && !t.pending && t.running && t.pc.AtGuard? && t.stop.Idle? && !t.stopPending && !t.wokenByStop
    && t.sent == 0 && t.stopSent == 0 && t.woken == 0 && t.coalesced == 0 && t.toDead == 0 && t.begun == 0 &&
       t.aborted == 0
  }

  function SendTo(t: Task): Task
  {
    if !t.alive then t.(sent := t.sent + 1, toDead := t.toDead + 1)
    else if t.pending then t.(sent := t.sent + 1, coalesced := t.coalesced + 1)
    else t.(sent := t.sent + 1, pending := true)
  }

  /** One step; a step that is not enabled changes nothing. */
  function Act(t: Task, a: Action): Task
  {
    match a
    case Send => SendTo(t)
    case Guard =>
      if t.alive && t.pc.AtGuard? then t.(pc := if t.running then Blocked else Exited) else t
    case Receive =>
      if t.alive && t.pc.Blocked? && t.pending
      then t.(pending := false, woken := t.woken + 1, pc := Woken, wokenByStop := t.stopPending, stopPending := false)
      else t
    case Test =>
      if t.alive && t.pc.Woken?
      then if t.running then t.(pc := Ready) else t.(pc := Exited, aborted := t.aborted + 1)
      else t
    case Begin =>
      if t.alive && t.pc.Ready? then t.(pc := InCallback, begun := t.begun + 1) else t
    case End =>
      if t.alive && t.pc.InCallback? then t.(pc := AtGuard) else t
    case SelfDelete =>
      if t.alive && t.pc.Exited? then t.(alive := false) else t
    case StopEnter =>
      if !t.stop.Idle? then t
      else if t.running then t.(running := false, stop := FlagCleared) else t.(stop := Returned)
    case StopSend =>
      if t.stop.FlagCleared?
      then SendTo(t).(stop := EventSent, stopSent := t.stopSent + 1, stopPending := t.alive)
      else t
    case StopDelete =>
      if t.stop.EventSent? then t.(alive := false, stop := Deleted) else t
    case StopReturn =>
      if t.stop.Deleted? then t.(stop := Returned) else t
  }

  function Acts(t: Task, acts: seq<Action>): Task
    decreases acts
  {
    if acts == [] then t else Acts(Act(t, acts[0]), acts[1..])
  }

  function Count(b: bool): (n: nat) { if b then 1 else 0 }

  /** Every event sent is accounted for, and every wake-up. */
  ghost predicate Ledger(t: Task)
  {
    && t.sent == t.woken + Count(t.pending) + t.coalesced + t.toDead
    && t.woken == t.begun + t.aborted + Count(t.pc.Woken? || t.pc.Ready?)
  }

  ghost predicate StopInv(t: Task)
  {
    && (t.running <==> t.stop.Idle?)
    && (t.running ==> t.alive && !t.pc.Exited? && t.aborted == 0)
    && (t.stop.Deleted? || t.stop.Returned? ==> !t.alive)
    && t.stopSent == Count(t.stop.EventSent? || t.stop.Deleted? || t.stop.Returned?)
    && (t.stopPending ==> t.pending && t.stopSent == 1)
    && (t.wokenByStop ==> (t.pc.Woken? || t.pc.Exited?) && t.stopSent == 1)
    && (t.stopSent == 1 && t.alive ==> t.stopPending || t.wokenByStop || t.pc.Exited?)
    && t.begun + Count(t.pc.Ready? || (t.pc.Woken? && !t.wokenByStop)) + t.stopSent <= t.sent
  }

  ghost predicate TaskInv(t: Task) { Ledger(t) && StopInv(t) }

  lemma SendKeepsInv(t: Task)
    requires TaskInv(t)
    ensures TaskInv(SendTo(t))
  {}

  predicate IsLoopStep(a: Action)
  {
    a.Guard? || a.Receive? || a.Test? || a.Begin? || a.End? || a.SelfDelete?
  }

  lemma LoopKeepsInv(t: Task, a: Action)
    requires TaskInv(t) && IsLoopStep(a)
    ensures TaskInv(Act(t, a))
  {
    match a
    case Receive => ReceiveKeepsInv(t);
    case _ =>
  }

  lemma ReceiveKeepsInv(t: Task)
    requires TaskInv(t)
    ensures TaskInv(Act(t, Receive))
  {}

  lemma StopSendKeepsInv(t: Task)
    requires TaskInv(t)
    ensures TaskInv(Act(t, StopSend))
  {}

  lemma StopKeepsInv(t: Task, a: Action)
    requires TaskInv(t) && (a.StopEnter? || a.StopDelete? || a.StopReturn?)
    ensures TaskInv(Act(t, a))
  {}

  /** Every single step of the senders, of run_loop and of stop() keeps the ledger. */
  lemma ActKeepsInv(t: Task, a: Action)
    requires TaskInv(t)
    ensures TaskInv(Act(t, a))
  {
    if a.Send? {
      SendKeepsInv(t);
    } else if IsLoopStep(a) {
      LoopKeepsInv(t, a);
    } else if a.StopSend? {
      StopSendKeepsInv(t);
    } else {
      StopKeepsInv(t, a);
    }
  }

  lemma {:induction false} ActsKeepInv(t: Task, acts: seq<Action>)
    requires TaskInv(t)
    ensures TaskInv(Acts(t, acts))
    decreases acts
  {
    if acts != [] {
      ActKeepsInv(t, acts[0]);
      ActsKeepInv(Act(t, acts[0]), acts[1..]);
    }
  }

  lemma StartedInv(t: Task)
    requires JustStarted(t)
    ensures TaskInv(t)
  {}

  /** Conservation over every interleaving: sent = woken + pending + coalesced + sent to a dead task;
      every wake-up was a callback, save those about to be one and those cut short by stop(); and
      callbacks never outnumber the events sent by anyone but stop(). */
  lemma EventConservation(t0: Task, acts: seq<Action>)
    requires JustStarted(t0)
    ensures var t := Acts(t0, acts);
            && t.sent == t.woken + Count(t.pending) + t.coalesced + t.toDead
            && t.woken == t.begun + Count(t.pc.Woken? || t.pc.Ready?) + t.aborted
            && (t.running ==> t.aborted == 0)
            && t.begun + t.stopSent <= t.sent
  {
    StartedInv(t0);
    ActsKeepInv(t0, acts);
  }

  /** The wake-up sent by stop() never leads to a callback: whenever it is about to call, or is
      inside, its callback, it was woken without stop()'s event. */
  lemma StopWakeupRunsNoCallback(t0: Task, acts: seq<Action>)
    requires JustStarted(t0)
    ensures var t := Acts(t0, acts);
            (t.pc.Ready? || t.pc.InCallback? ==> !t.wokenByStop)
  {
    StartedInv(t0);
    ActsKeepInv(t0, acts);
  }

  /** After stop() has returned no callback begins, whatever is still sent to the old id. */
  lemma {:induction false} NoCallbackAfterStop(t: Task, acts: seq<Action>)
    requires TaskInv(t) && t.stop.Returned?
    ensures var t' := Acts(t, acts);
            t'.begun == t.begun && t'.pc == t.pc && t'.stop.Returned? && !t'.alive
    decreases acts
  {
    if acts != [] {
      ActKeepsInv(t, acts[0]);
      NoCallbackAfterStop(Act(t, acts[0]), acts[1..]);
    }
  }

  lemma LateStep(t: Task, a: Action)
    requires !t.running
    ensures var t' := Act(t, a);
            !t'.running && t'.begun + Count(t'.pc.Ready?) <= t.begun + Count(t.pc.Ready?)
  {
  }

  /** Once stop() has cleared the flag, at most one more callback begins: the one whose test of the
      flag had already passed. */
  lemma {:induction false} AtMostOneLateCallback(t: Task, acts: seq<Action>)
    requires !t.running
    ensures Acts(t, acts).begun <= t.begun + Count(t.pc.Ready?)
    decreases acts
  {
    if acts != [] {
      LateStep(t, acts[0]);
      AtMostOneLateCallback(Act(t, acts[0]), acts[1..]);
    }
  }
}
