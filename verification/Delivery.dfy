/** Messages do get delivered: what one callback takes, and what has been delivered once the publishers
    pause and the subscription's task has had the time to run. */
module Delivery {
  import opened CallbackProtocol
  import opened CallbackProgress
  import opened Backlog

  // ---- One callback ----

  /** The body of a callback in progress: the oldest message goes from the buffer to the subscriber; with
      no message there it only ends.  Then the task is back at the guard of its loop. */
  lemma TakeDelivers(s: Sub)
    requires Sound(s) && s.task.alive && s.task.pc.InCallback?
    ensures var r := Go(s, Take);
            && r.task == s.task.(pc := AtGuard)
            && r.published == s.published && r.overwritten == s.overwritten && r.inFlight == s.inFlight
            && (if s.buffer == []
                then r.buffer == [] && r.delivered == s.delivered && r.emptyWakeups == s.emptyWakeups + 1
                else r.delivered == s.delivered + [s.buffer[0]] && [s.buffer[0]] + r.buffer == s.buffer
                     && r.emptyWakeups == s.emptyWakeups)
  {}

  /** A notification, of a message or of none, wakes a waiting task: its callback then takes the oldest
      message, and finds nothing exactly if none was there. */
  lemma NotificationWakes(s: Sub, m: Move)
    requires Sound(s) && s.task.alive && s.task.running && s.task.pc.Blocked? && !s.task.pending
    requires m.Foreign? || (m.Notify? && s.inFlight > 0)
    ensures var woken := Go(Go(s, m), Internal(Receive));
            var r := Go(Go(Go(woken, Internal(Test)), Internal(Begin)), Take);
            && r.delivered == s.delivered + s.buffer[..if s.buffer == [] then 0 else 1]
            && r.emptyWakeups == s.emptyWakeups + Count(s.buffer == [])
            && r.task.begun == s.task.begun + 1 && r.task.pc.AtGuard?
            && r.foreign == s.foreign + Count(m.Foreign?) && r.inFlight == s.inFlight - Count(m.Notify?)
  {}

  // ---- Pausing publishers ----

  /** Notifications still owed, and what the task does; no new message. */
  predicate Drains(m: Move)
  {
    m.Notify? || m.Take? || (m.Internal? && IsLoopStep(m.a))
  }

  predicate AllDrain(ms: seq<Move>)
  {
    forall i :: 0 <= i < |ms| ==> Drains(ms[i])
  }

  /** The move changes something. */
  predicate Moves(s: Sub, m: Move)
  {
    match m
    case Notify => s.inFlight > 0
    case Take => s.task.alive && s.task.pc.InCallback?
    case Internal(a) => Enabled(s.task, a) && !a.End?
    case _ => false
  }

  /** Steps to the wait, from each point of the loop. */
  function ToWait(pc: Pc): nat
  {
    match pc
    case Woken => 4
    case Ready => 3
    case InCallback => 2
    case AtGuard => 1
    case _ => 0
  }

  /** What is still to be done: six steps for a notification owed, five for a pending event. */
  function Work(s: Sub): nat
  {
    6 * s.inFlight + 5 * Count(s.task.pending) + ToWait(s.task.pc)
  }

  /** A calm state: nothing lost so far, and nothing coalesced. */
  ghost predicate Calm(s: Sub, k: nat)
  {
    CalmInv(s, k) && s.capacity >= k + 2 && s.task.coalesced == 0
  }

  lemma DrainStep(s: Sub, k: nat, m: Move)
    requires Calm(s, k) && Drains(m) && Go(s, m).task.coalesced == 0
    ensures Calm(Go(s, m), k)
    ensures Go(s, m).delivered + Go(s, m).buffer == s.delivered + s.buffer && Go(s, m).published == s.published
  {
    CalmStep(s, k, m);
    if m.Take? && s.task.alive && s.task.pc.InCallback? && s.buffer != [] {
      assert s.delivered + [s.buffer[0]] + s.buffer[1..] == s.delivered + s.buffer;
    }
  }

  /** Every such move that changes something leaves less to do. */
  lemma DrainLessens(s: Sub, k: nat, m: Move)
    requires Calm(s, k) && Drains(m) && Moves(s, m) && Go(s, m).task.coalesced == 0
    ensures Work(Go(s, m)) < Work(s)
  {}

  /** As long as something is left to do, a move is possible, and one that coalesces nothing. */
  lemma NotDoneMoves(s: Sub, k: nat) returns (m: Move)
    requires Calm(s, k) && Work(s) > 0
    ensures Drains(m) && Moves(s, m) && Go(s, m).task.coalesced == 0
  {
    if s.task.pc.InCallback? {
      m := Take;
    } else if !s.task.pc.Blocked? || s.task.pending {
      m := Internal(OwnStep(s.task));
    } else {
      m := Notify;
    }
  }

  lemma {:induction false} DrainKeeps(s: Sub, k: nat, ms: seq<Move>)
    requires Calm(s, k) && AllDrain(ms) && Goes(s, ms).task.coalesced == 0
    ensures Calm(Goes(s, ms), k)
    ensures Goes(s, ms).delivered + Goes(s, ms).buffer == s.delivered + s.buffer
    ensures Goes(s, ms).published == s.published
    decreases ms
  {
    if ms != [] {
      CoalescedNeverShrinks(Go(s, ms[0]), ms[1..]);
      DrainStep(s, k, ms[0]);
      DrainKeeps(Go(s, ms[0]), k, ms[1..]);
    }
  }

  /** Once nothing is left to do, everything that was waiting has been delivered, in order. */
  lemma DrainedIsDelivered(s: Sub, k: nat, ms: seq<Move>)
    requires Calm(s, k) && AllDrain(ms) && Goes(s, ms).task.coalesced == 0 && Work(Goes(s, ms)) == 0
    ensures Goes(s, ms).delivered == s.delivered + s.buffer && Goes(s, ms).buffer == []
  {
    DrainKeeps(s, k, ms);
    var end := Goes(s, ms);
    assert end.buffer == [];
    assert end.delivered + [] == end.delivered;
  }

  /** Each move of the run changes something. */
  ghost predicate AllMove(s: Sub, ms: seq<Move>)
    requires Sound(s)
    decreases ms
  {
    ms != [] ==> Moves(s, ms[0]) && AllMove(Go(s, ms[0]), ms[1..])
  }

  /** However the moves are ordered, there are at most Work(s) of them. */
  lemma {:induction false} DrainEnds(s: Sub, k: nat, ms: seq<Move>)
    requires Calm(s, k) && AllDrain(ms) && AllMove(s, ms) && Goes(s, ms).task.coalesced == 0
    ensures |ms| + Work(Goes(s, ms)) <= Work(s)
    decreases ms
  {
    if ms != [] {
      CoalescedNeverShrinks(Go(s, ms[0]), ms[1..]);
      DrainLessens(s, k, ms[0]);
      DrainStep(s, k, ms[0]);
      DrainEnds(Go(s, ms[0]), k, ms[1..]);
    }
  }

  lemma PrependMove(s: Sub, m: Move, rest: seq<Move>)
    requires Sound(s) && Drains(m) && Moves(s, m) && AllDrain(rest) && AllMove(Go(s, m), rest)
    ensures AllDrain([m] + rest) && AllMove(s, [m] + rest) && Goes(s, [m] + rest) == Goes(Go(s, m), rest)
  {
    assert ([m] + rest)[0] == m && ([m] + rest)[1..] == rest;
  }

  /** And there is an order in which nothing coalesces and nothing is left to do at the end. */
  lemma {:induction false} CanDrain(s: Sub, k: nat) returns (ms: seq<Move>)
    requires Calm(s, k)
    ensures AllDrain(ms) && AllMove(s, ms) && Goes(s, ms).task.coalesced == 0 && Work(Goes(s, ms)) == 0
    decreases Work(s)
  {
    ms := [];
    if Work(s) > 0 {
      var m := NotDoneMoves(s, k);
      DrainStep(s, k, m);
      DrainLessens(s, k, m);
      var rest := CanDrain(Go(s, m), k);
      PrependMove(s, m, rest);
      ms := [m] + rest;
    }
  }

  // ---- From registration on ----

  lemma {:induction false} CalmReached(s: Sub, k: nat, ms: seq<Move>)
    requires Calm(s, k) && Bounded(s, k, ms) && Goes(s, ms).task.coalesced == 0
    ensures Calm(Goes(s, ms), k)
    decreases ms
  {
    if ms != [] {
      CoalescedNeverShrinks(Go(s, ms[0]), ms[1..]);
      CalmStep(s, k, ms[0]);
      CalmReached(Go(s, ms[0]), k, ms[1..]);
    }
  }

  lemma {:induction false} IncreasingIsAll(xs: seq<nat>, bound: nat, i: nat)
    requires Increasing(xs, bound) && |xs| == bound && i < |xs|
    ensures xs[i] == i
    decreases |xs| - i
  {
    AtLeastIndex(xs, bound, i);
    if i + 1 < |xs| { IncreasingIsAll(xs, bound, i + 1); }
  }

  lemma {:induction false} AtLeastIndex(xs: seq<nat>, bound: nat, i: nat)
    requires Increasing(xs, bound) && i < |xs|
    ensures xs[i] >= i
  {
    if i > 0 { AtLeastIndex(xs, bound, i - 1); }
  }

  /** Every message published is delivered exactly once and in publish order.  In any run from registration
      in which no two notifications coalesce, stop() is not called, and the capacity is two more than
      the publishers interrupted at a time: once the publishers pause and nothing is left to do, the
      deliveries are those of the state at the pause followed by its buffer, and they are all the
      messages, 0, 1, 2, ...  That point is reached in at most Work(s) moves, in any order without
      coalescing, and there is such an order. */
  lemma EverythingIsDelivered(s0: Sub, k: nat, ms: seq<Move>, drain: seq<Move>)
    requires JustRegistered(s0) && s0.capacity >= k + 2 && Bounded(s0, k, ms)
    requires AllDrain(drain) && Goes(Goes(s0, ms), drain).task.coalesced == 0 && Work(Goes(Goes(s0, ms), drain)) == 0
    ensures var s, end := Goes(s0, ms), Goes(Goes(s0, ms), drain);
            && end.delivered == s.delivered + s.buffer
            && |end.delivered| == s.published
            && forall i :: 0 <= i < |end.delivered| ==> end.delivered[i] == i
  {
    var s := Goes(s0, ms);
    CoalescedNeverShrinks(s, drain);
    RegisteredInv(s0);
    CalmReached(s0, k, ms);
    DrainedIsDelivered(s, k, drain);
    DrainKeeps(s, k, drain);
    AllDelivered(Goes(s, drain), k);
  }

  lemma AllDelivered(s: Sub, k: nat)
    requires Calm(s, k) && s.buffer == []
    ensures |s.delivered| == s.published && forall i :: 0 <= i < |s.delivered| ==> s.delivered[i] == i
  {
    assert s.delivered + s.buffer == s.delivered;
    forall i | 0 <= i < |s.delivered|
      ensures s.delivered[i] == i
    {
      IncreasingIsAll(s.delivered, s.published, i);
    }
  }
}
