/** A subscription driven by intra-process notification: publishers push into the ring buffer and
    then send the event, the callback task takes one message per wake-up.  Pushing and notifying are
    two steps of the publisher, so anything may come in between. */
module Backlog {
  import opened CallbackProtocol
  import RingBuffer

  datatype Sub = Sub(
    task: Task,
    capacity: nat,
    buffer: seq<nat>,        // messages are numbered in publish order
    inFlight: nat,           // messages pushed whose notification is still to come
    published: nat,
    delivered: seq<nat>,
    overwritten: nat,
    emptyWakeups: nat,       // callbacks that found no message
    foreign: nat)            // notifications without a message (the DDS path)

  datatype Move =
    | Publish                // the push alone
    | Notify                 // the notification of an earlier push
    | PublishAndNotify       // a publisher nobody interrupts
    | Foreign
    | Take                   // the body of the callback
    | Internal(a: Action)    // a step of the callback task or of stop()

  function Push(s: Sub): Sub
    requires Sound(s)
  {
    s.(buffer := RingBuffer.Pushed(s.buffer, s.capacity, s.published),
       published := s.published + 1,
       overwritten := s.overwritten + Count(|s.buffer| == s.capacity),
       inFlight := s.inFlight + 1)
  }

  function NotifyOne(s: Sub): Sub
  {
    if s.inFlight > 0 then s.(task := SendTo(s.task), inFlight := s.inFlight - 1) else s
  }

  predicate Sound(s: Sub) { s.capacity > 0 && |s.buffer| <= s.capacity }

  function Go(s: Sub, m: Move): (r: Sub)
    requires Sound(s)
    ensures Sound(r)
  {
    match m
    case Publish => Push(s)
    case Notify => NotifyOne(s)
    case PublishAndNotify => NotifyOne(Push(s))
    case Foreign => s.(task := SendTo(s.task), foreign := s.foreign + 1)
    case Take =>
      if !(s.task.alive && s.task.pc.InCallback?) then s
      else if s.buffer == [] then s.(task := Act(s.task, End), emptyWakeups := s.emptyWakeups + 1)
      else s.(task := Act(s.task, End), delivered := s.delivered + [s.buffer[0]], buffer := s.buffer[1..])
    case Internal(a) =>
      // events and the end of the callback come only from the moves above
      if a.Send? || a.End? then s else s.(task := Act(s.task, a))
  }

  function Goes(s: Sub, ms: seq<Move>): (r: Sub)
    requires Sound(s)
    ensures Sound(r)
    decreases ms
  {
    if ms == [] then s else Goes(Go(s, ms[0]), ms[1..])
  }

  ghost predicate JustRegistered(s: Sub)
  {
    && JustStarted(s.task) && s.capacity > 0
    && s.buffer == [] && s.inFlight == 0 && s.published == 0 && s.delivered == []
    && s.overwritten == 0 && s.emptyWakeups == 0 && s.foreign == 0
  }

  /** Woken, but the message not yet taken. */
  function Holding(t: Task): nat
  {
    Count(t.pc.Woken? || t.pc.Ready? || t.pc.InCallback?)
  }

  ghost predicate Increasing(xs: seq<nat>, bound: nat)
  {
    && (forall i :: 0 <= i < |xs| ==> xs[i] < bound)
    && (forall i, j :: 0 <= i < j < |xs| ==> xs[i] < xs[j])
  }

  ghost predicate SubInv(s: Sub)
  {
    && Sound(s) && TaskInv(s.task)
    && s.published == |s.delivered| + |s.buffer| + s.overwritten
    && s.task.sent + s.inFlight == s.published + s.foreign + s.task.stopSent
    && s.task.begun == |s.delivered| + s.emptyWakeups + Count(s.task.pc.InCallback?)
    && Increasing(s.delivered + s.buffer, s.published)
  }

  lemma RegisteredInv(s: Sub)
    requires JustRegistered(s)
    ensures SubInv(s)
  {
    StartedInv(s.task);
  }

  lemma IncreasingAppend(xs: seq<nat>, bound: nat)
    requires Increasing(xs, bound)
    ensures Increasing(xs + [bound], bound + 1)
  {}

  lemma IncreasingDrop(xs: seq<nat>, ys: seq<nat>, bound: nat)
    requires ys != [] && Increasing(xs + ys, bound)
    ensures Increasing(xs + ys[1..], bound)
  {
    var all, rest := xs + ys, xs + ys[1..];
    var at := (i: int) => if i < |xs| then i else i + 1;
    forall i | 0 <= i < |rest|
      ensures rest[i] < bound
    {
      assert rest[i] == all[at(i)];
    }
    forall i, j | 0 <= i < j < |rest|
      ensures rest[i] < rest[j]
    {
      assert rest[i] == all[at(i)] && rest[j] == all[at(j)];
    }
  }

  lemma PushKeepsInv(s: Sub)
    requires SubInv(s)
    ensures SubInv(Push(s))
  {
    if |s.buffer| == s.capacity {
      IncreasingDrop(s.delivered, s.buffer, s.published);
      IncreasingAppend(s.delivered + s.buffer[1..], s.published);
      assert s.delivered + (s.buffer[1..] + [s.published]) == s.delivered + s.buffer[1..] + [s.published];
    } else {
      IncreasingAppend(s.delivered + s.buffer, s.published);
      assert s.delivered + (s.buffer + [s.published]) == s.delivered + s.buffer + [s.published];
    }
  }

  lemma NotifyKeepsInv(s: Sub)
    requires SubInv(s)
    ensures SubInv(NotifyOne(s))
  {
    ActKeepsInv(s.task, Send);
  }

  lemma TakeKeepsInv(s: Sub)
    requires SubInv(s)
    ensures SubInv(Go(s, Take))
  {
    ActKeepsInv(s.task, End);
    if s.buffer != [] {
      assert s.delivered + [s.buffer[0]] + s.buffer[1..] == s.delivered + s.buffer;
    }
  }

  lemma InternalKeepsInv(s: Sub, a: Action)
    requires SubInv(s)
    ensures SubInv(Go(s, Internal(a)))
  {
    ActKeepsInv(s.task, a);
  }

  lemma GoKeepsInv(s: Sub, m: Move)
    requires SubInv(s)
    ensures SubInv(Go(s, m))
  {
    match m
    case Publish => PushKeepsInv(s);
    case Notify => NotifyKeepsInv(s);
    case PublishAndNotify => PushKeepsInv(s); NotifyKeepsInv(Push(s));
    case Foreign => ActKeepsInv(s.task, Send);
    case Take => TakeKeepsInv(s);
    case Internal(a) => InternalKeepsInv(s, a);
  }

  lemma {:induction false} GoesKeepInv(s: Sub, ms: seq<Move>)
    requires SubInv(s)
    ensures SubInv(Goes(s, ms))
    decreases ms
  {
    if ms != [] {
      GoKeepsInv(s, ms[0]);
      GoesKeepInv(Go(s, ms[0]), ms[1..]);
    }
  }

  /** The exact backlog in every interleaving: messages waiting plus messages lost equal the wake-ups
      still owed to them (in flight, pending, or woken) plus the notifications that coalesced, went
      to a dead task, were cut short by stop() or found nothing, less those that carried no message.
      Deliveries follow publish order, without duplicates. */
  lemma BacklogLaw(s0: Sub, ms: seq<Move>)
    requires JustRegistered(s0)
    ensures var s := Goes(s0, ms); var t := s.task;
            && |s.buffer| + s.overwritten + s.foreign + t.stopSent
               == s.inFlight + Count(t.pending) + Holding(t)
                  + t.coalesced + t.toDead + t.aborted + s.emptyWakeups
            && Increasing(s.delivered + s.buffer, s.published)
  {
    RegisteredInv(s0);
    GoesKeepInv(s0, ms);
  }

  // ---- When is nothing lost? ----

  /** Intra-process notifications only, no stop(), at most k pushes awaiting their notification. */
  ghost predicate Bounded(s: Sub, k: nat, ms: seq<Move>)
    requires Sound(s)
    decreases ms
  {
    ms != [] ==>
      && !ms[0].Foreign? && (ms[0].Internal? ==> !ms[0].a.StopEnter?)
      && (ms[0].Publish? ==> s.inFlight < k)
      && Bounded(Go(s, ms[0]), k, ms[1..])
  }

  /** Nothing overwritten, no empty wake-up, every waiting message owed a wake-up. */
  ghost predicate Lossless(s: Sub)
  {
    && s.overwritten == 0 && s.emptyWakeups == 0
    && |s.buffer| == s.inFlight + Count(s.task.pending) + Holding(s.task)
  }

  ghost predicate CalmInv(s: Sub, k: nat)
  {
    && SubInv(s) && Lossless(s) && s.inFlight <= k
    && s.task.alive && s.task.running && !s.task.pc.Exited? && s.foreign == 0
  }

  lemma CoalescedGrows(t: Task, a: Action)
    ensures Act(t, a).coalesced >= t.coalesced
  {}

  lemma {:induction false} CoalescedNeverShrinks(s: Sub, ms: seq<Move>)
    requires Sound(s)
    ensures Goes(s, ms).task.coalesced >= s.task.coalesced
    decreases ms
  {
    if ms != [] {
      if ms[0].Internal? { CoalescedGrows(s.task, ms[0].a); }
      CoalescedNeverShrinks(Go(s, ms[0]), ms[1..]);
    }
  }

  /** Without coalescing a push by a publisher nobody interrupts finds no event pending. */
  lemma CalmPublishAndNotify(s: Sub, k: nat)
    requires CalmInv(s, k) && s.capacity >= k + 2
    requires s.task.coalesced == 0 && Go(s, PublishAndNotify).task.coalesced == 0
    ensures Lossless(Go(s, PublishAndNotify))
  {
  }

  lemma CalmInternal(s: Sub, k: nat, a: Action)
    requires CalmInv(s, k) && !a.StopEnter?
    ensures var t := Go(s, Internal(a)).task;
            && t.alive && t.running && !t.pc.Exited?
            && Count(t.pending) + Holding(t) == Count(s.task.pending) + Holding(s.task)
  {
  }

  lemma CalmStep(s: Sub, k: nat, m: Move)
    requires CalmInv(s, k) && s.capacity >= k + 2 && s.task.coalesced == 0
    requires !m.Foreign? && (m.Internal? ==> !m.a.StopEnter?) && (m.Publish? ==> s.inFlight < k)
    requires Go(s, m).task.coalesced == 0
    ensures CalmInv(Go(s, m), k)
  {
    GoKeepsInv(s, m);
    match m
    case Publish =>
    case Notify =>
    case PublishAndNotify => CalmPublishAndNotify(s, k);
    case Foreign =>
    case Take =>
    case Internal(a) => CalmInternal(s, k, a);
  }

  lemma {:induction false} CalmRun(s: Sub, k: nat, ms: seq<Move>)
    requires CalmInv(s, k) && s.capacity >= k + 2 && Bounded(s, k, ms)
    requires Goes(s, ms).task.coalesced == 0
    ensures Lossless(Goes(s, ms)) && s.task.coalesced == 0
    decreases ms
  {
    CoalescedNeverShrinks(s, ms);
    if ms != [] {
      CoalescedNeverShrinks(Go(s, ms[0]), ms[1..]);
      CalmStep(s, k, ms[0]);
      CalmRun(Go(s, ms[0]), k, ms[1..]);
    }
  }

  /** Capacity `capacity` loses nothing in any run in which no two notifications coalesce and at most
      k publishers are interrupted between push and notification. */
  ghost predicate Suffices(capacity: nat, k: nat)
  {
    forall s: Sub, ms: seq<Move> ::
      JustRegistered(s) && s.capacity == capacity && Bounded(s, k, ms) && Goes(s, ms).task.coalesced == 0
      ==> Lossless(Goes(s, ms))
  }

  function Registered(capacity: nat): Sub
  {
    Sub(STARTED, capacity, [], 0, 0, [], 0, 0, 0)
  }

  function Pushes(k: nat): seq<Move>
  {
    if k == 0 then [] else [Publish] + Pushes(k - 1)
  }

  lemma {:induction false} ManyPushes(s: Sub, k: nat, bound: nat)
    requires Sound(s) && s.inFlight + k <= bound
    ensures Bounded(s, bound, Pushes(k))
    ensures var r := Goes(s, Pushes(k));
            r.published == s.published + k && r.delivered == s.delivered && r.task == s.task && r.capacity == s.capacity
    decreases k
  {
    if k > 0 {
      assert Pushes(k)[1..] == Pushes(k - 1);
      ManyPushes(Push(s), k - 1, bound);
    }
  }

  lemma {:induction false} Concatenated(s: Sub, a: seq<Move>, b: seq<Move>, k: nat)
    requires Sound(s) && Bounded(s, k, a) && Bounded(Goes(s, a), k, b)
    ensures Bounded(s, k, a + b) && Goes(s, a + b) == Goes(Goes(s, a), b)
    decreases a
  {
    if a == [] {
      assert a + b == b;
    } else {
      assert (a + b)[0] == a[0] && (a + b)[1..] == a[1..] + b;
      Concatenated(Go(s, a[0]), a[1..], b, k);
    }
  }

  /** Wake up with one message, leave a second notified, then interrupt k publishers: k + 2
      messages with nothing coalesced. */
  const WAKE: seq<Move> := [PublishAndNotify, Internal(Guard), Internal(Receive), PublishAndNotify]

  lemma WakeRun(s: Sub, k: nat)
    requires JustRegistered(s)
    ensures Bounded(s, k, WAKE)
    ensures var r := Goes(s, WAKE);
            r.published == 2 && r.delivered == [] && r.inFlight == 0 && r.task.coalesced == 0 &&
              r.capacity == s.capacity
  {
    var s1 := Go(s, WAKE[0]);
    var s2 := Go(s1, WAKE[1]);
    var s3 := Go(s2, WAKE[2]);
    var s4 := Go(s3, WAKE[3]);
    assert WAKE[1..][1..][1..][1..] == [];
    assert Goes(s3, WAKE[1..][1..][1..]) == s4;
    assert Goes(s2, WAKE[1..][1..]) == s4;
    assert Goes(s1, WAKE[1..]) == s4;
  }

  lemma MoreThanFits(s: Sub)
    requires SubInv(s) && s.delivered == [] && s.published > s.capacity
    ensures !Lossless(s)
  {}

  lemma TooSmall(s: Sub, k: nat)
    requires JustRegistered(s) && s.capacity < k + 2
    ensures exists ms: seq<Move> :: Bounded(s, k, ms) && Goes(s, ms).task.coalesced == 0 && !Lossless(Goes(s, ms))
  {
    WakeRun(s, k);
    var awake := Goes(s, WAKE);
    ManyPushes(awake, k, k);
    Concatenated(s, WAKE, Pushes(k), k);
    RegisteredInv(s);
    GoesKeepInv(s, WAKE);
    GoesKeepInv(awake, Pushes(k));
    MoreThanFits(Goes(awake, Pushes(k)));
  }

  lemma RegisteredStarts(capacity: nat)
    requires capacity > 0
    ensures JustRegistered(Registered(capacity)) && Registered(capacity).capacity == capacity
  {}

  lemma LargeEnough(capacity: nat, k: nat)
    requires capacity >= k + 2
    ensures Suffices(capacity, k)
  {
    forall s: Sub, ms: seq<Move> | JustRegistered(s) && s.capacity == capacity && Bounded(s, k, ms) &&
      Goes(s, ms).task.coalesced == 0
      ensures Lossless(Goes(s, ms))
    {
      RegisteredInv(s);
      CalmRun(s, k, ms);
    }
  }

  lemma NotSuffices(s: Sub, k: nat, ms: seq<Move>)
    requires JustRegistered(s) && Bounded(s, k, ms) && Goes(s, ms).task.coalesced == 0 && !Lossless(Goes(s, ms))
    ensures !Suffices(s.capacity, k)
  {}

  /** Exactly how much capacity is needed: two more than the number of publishers that may be
      interrupted between push and notification.  In particular capacity 2 is enough only when
      publish and notify are never separated. */
  lemma CapacityNeeded(capacity: nat, k: nat)
    requires capacity > 0
    ensures Suffices(capacity, k) <==> capacity >= k + 2
  {
    if capacity >= k + 2 {
      LargeEnough(capacity, k);
    } else {
      var s := Registered(capacity);
      RegisteredStarts(capacity);
      TooSmall(s, k);
      var ms: seq<Move> :| Bounded(s, k, ms) && Goes(s, ms).task.coalesced == 0 && !Lossless(Goes(s, ms));
      NotSuffices(s, k, ms);
    }
  }
}
