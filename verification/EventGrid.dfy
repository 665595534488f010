/** The events of one channel seen as a chain along its time grid s + p, s + 2 p, ...: conservation of
    grid points, closed form of the next expiry, spacing.  No driver state here, only the event log. */
module EventGrid {
  import opened Machine
  import opened TimerModel

  ghost predicate SentInPast(sent: seq<Event>, clock: int)
  {
    forall i :: 0 <= i < |sent| ==> sent[i].at <= clock
  }

  lemma {:induction false} IsrEventsAt(chs: seq<Channel>, now: int)
    ensures forall i :: 0 <= i < |IsrEvents(chs, now)| ==> IsrEvents(chs, now)[i].at == now
  {
    if chs != [] { IsrEventsAt(chs[..|chs| - 1], now); }
  }

  function EventsOf(log: seq<Event>, c: int): (r: seq<Event>)
    ensures |r| <= |log|
  {
    if log == [] then []
    else
      var n := |log| - 1;
      EventsOf(log[..n], c) + if log[n].channel == c then [log[n]] else []
  }

  lemma {:induction false} EventsOfConcat(a: seq<Event>, b: seq<Event>, c: int)
    ensures EventsOf(a + b, c) == EventsOf(a, c) + EventsOf(b, c)
  {
    if b == [] {
      assert a + b == a;
    } else {
      var n := |b| - 1;
      assert (a + b)[..|a + b| - 1] == a + b[..n];
      EventsOfConcat(a, b[..n], c);
    }
  }

  lemma {:induction false} EventsOfOneIsr(chs: seq<Channel>, now: int, c: int)
    ensures EventsOf(IsrEvents(chs, now), c) ==
            if 0 <= c < |chs| && Due(chs[c], now) then [Event(c, chs[c].target, chs[c].nextFire, now)] else []
  {
    if chs != [] {
      var n := |chs| - 1;
      EventsOfOneIsr(chs[..n], now, c);
      var last := if Due(chs[n], now) then [Event(n, chs[n].target, chs[n].nextFire, now)] else [];
      EventsOfConcat(IsrEvents(chs[..n], now), last, c);
    }
  }

  lemma {:induction false} EventsOfWithin(log: seq<Event>, c: int, t: int)
    requires SentInPast(log, t)
    ensures SentInPast(EventsOf(log, c), t)
  {
    if log != [] { EventsOfWithin(log[..|log| - 1], c, t); }
  }

  /** The events of a channel chain along its grid: each is sent at or after its grid point, and the
      next one is due at the first grid point after it was sent. */
  ghost predicate OnGrid(evs: seq<Event>, s: int, p: int, next: int)
    requires p > 0
  {
    if evs == [] then next == s + p
    else
      var n := |evs| - 1;
      && OnGrid(evs[..n], s, p, evs[n].due)
      && evs[n].due <= evs[n].at
      && next == Advance(evs[n].due, p, evs[n].at)
  }

  lemma GridExtends(evs: seq<Event>, s: int, p: int, e: Event)
    requires p > 0 && OnGrid(evs, s, p, e.due) && e.due <= e.at
    ensures OnGrid(evs + [e], s, p, Advance(e.due, p, e.at))
  {
    assert (evs + [e])[..|evs|] == evs;
  }

  lemma EventsAfterIsr(sent: seq<Event>, mark: int, chs: seq<Channel>, now: int, c: int)
    requires 0 <= mark <= |sent| && 0 <= c < |chs|
    ensures EventsOf((sent + IsrEvents(chs, now))[mark..], c) ==
            EventsOf(sent[mark..], c) + if Due(chs[c], now) then [Event(c, chs[c].target, chs[c].nextFire, now)] else []
  {
    assert (sent + IsrEvents(chs, now))[mark..] == sent[mark..] + IsrEvents(chs, now);
    EventsOfConcat(sent[mark..], IsrEvents(chs, now), c);
    EventsOfOneIsr(chs, now, c);
  }

  /** Grid points passed over at each event: how many whole periods late the event was. */
  function Skipped(evs: seq<Event>, p: int): int
    requires p > 0
  {
    if evs == [] then 0
    else
      var e := evs[|evs| - 1];
      Skipped(evs[..|evs| - 1], p) + (e.at - e.due) / p
  }

  /** Conservation: every grid point before the next expiry was either the due point of exactly one
      event or skipped by one. */
  lemma {:induction false} GridConservation(evs: seq<Event>, s: int, p: int, next: int)
    requires p > 0 && OnGrid(evs, s, p, next)
    ensures next == s + (|evs| + Skipped(evs, p) + 1) * p
    ensures Skipped(evs, p) >= 0
  {
    if evs != [] {
      var n := |evs| - 1;
      var e := evs[n];
      GridConservation(evs[..n], s, p, e.due);
      AdvanceAlongGrid(s, n + Skipped(evs[..n], p) + 1, e.due, p, e.at);
    }
  }

  lemma AdvanceAlongGrid(s: int, k: int, due: int, p: int, at: int)
    requires p > 0 && due == s + k * p && due <= at
    ensures (at - due) / p >= 0
    ensures Advance(due, p, at) == s + (k + (at - due) / p + 1) * p
  {
    AdvanceClosedForm(due, p, at);
    DivMonotone(0, at - due, p);
    AddMultiples(s, k, (at - due) / p + 1, p);
  }

  lemma AddMultiples(s: int, a: int, b: int, p: int)
    ensures s + a * p + b * p == s + (a + b) * p
  {}

  lemma GridIndex(evs: seq<Event>, s: int, p: int, next: int)
    requires p > 0 && OnGrid(evs, s, p, next)
    ensures (next - s) / p - 1 == |evs| + Skipped(evs, p)
  {
    GridConservation(evs, s, p, next);
    var total := |evs| + Skipped(evs, p) + 1;
    DivUnique(total * p, p, total);
  }

  /** The first point of the ideal grid s + p, s + 2 p, ... after `now`. */
  function FirstPointAfter(s: int, p: int, now: int): int
    requires p > 0
  {
    s + ((now - s) / p + 1) * p
  }

  lemma IdealClosedForm(evs: seq<Event>, s: int, p: int, next: int, now: int)
    requires p > 0 && OnGrid(evs, s, p, next)
    requires s <= now && SentInPast(evs, now) && next > now
    ensures next == FirstPointAfter(s, p, now)
  {
    NextWithinPeriod(evs, s, p, next, now);
    GridConservation(evs, s, p, next);
    var k := |evs| + Skipped(evs, p);
    AddMultiples(s, k, 1, p);
    DivUnique(now - s, p, k);
  }

  /** The next expiry is at most one period after the latest event (or is the first grid point). */
  lemma NextWithinPeriod(evs: seq<Event>, s: int, p: int, next: int, t: int)
    requires p > 0 && OnGrid(evs, s, p, next) && s <= t && SentInPast(evs, t)
    ensures next <= t + p
  {
  }

  lemma {:induction false} GridPrefix(evs: seq<Event>, s: int, p: int, next: int, m: int)
    requires p > 0 && OnGrid(evs, s, p, next) && 0 <= m < |evs|
    ensures OnGrid(evs[..m], s, p, evs[m].due) && evs[m].due <= evs[m].at
  {
    var n := |evs| - 1;
    if m < n {
      GridPrefix(evs[..n], s, p, evs[n].due, m);
      assert evs[..n][..m] == evs[..m];
    }
  }

  lemma {:induction false} NextAfterEvent(evs: seq<Event>, s: int, p: int, next: int, k: int)
    requires p > 0 && OnGrid(evs, s, p, next) && 0 <= k < |evs|
    ensures next > evs[k].at + (|evs| - k - 1) * p
  {
    var n := |evs| - 1;
    if k < n {
      NextAfterEvent(evs[..n], s, p, evs[n].due, k);
      AdvanceByAPeriod(evs[n].due, p, evs[n].at);
      AddMultiples(evs[k].at, n - k - 1, 1, p);
    }
  }

  lemma AdvanceByAPeriod(next: int, p: int, now: int)
    requires p > 0 && next <= now
    ensures Advance(next, p, now) >= next + p
  {
    AdvanceClosedForm(next, p, now);
    DivMonotone(0, now - next, p);
    MulMonotone(1, (now - next) / p + 1, p);
  }

  /** If every event left in time (before the following grid point), nothing was skipped and event
      i served exactly the grid point s + (i + 1) p. */
  lemma {:induction false} InTimeNothingSkipped(evs: seq<Event>, s: int, p: int, next: int)
    requires p > 0 && OnGrid(evs, s, p, next)
    requires InTime(evs, p)
    ensures Skipped(evs, p) == 0 && EachPointOnce(evs, s, p)
  {
    if evs != [] {
      var n := |evs| - 1;
      InTimeNothingSkipped(evs[..n], s, p, evs[n].due);
      GridConservation(evs[..n], s, p, evs[n].due);
      DivUnique(evs[n].at - evs[n].due, p, 0);
    }
  }

  /** Two events are more than (m - k - 1) periods apart. */
  ghost predicate Spaced(evs: seq<Event>, p: int)
  {
    forall k, m :: 0 <= k < m < |evs| ==> evs[m].at - evs[k].at > (m - k - 1) * p
  }

  /** Every event left before the grid point that follows the one it served. */
  ghost predicate InTime(evs: seq<Event>, p: int)
  {
    forall i :: 0 <= i < |evs| ==> evs[i].at < evs[i].due + p
  }

  /** The events serve the grid points one by one, in order. */
  ghost predicate EachPointOnce(evs: seq<Event>, s: int, p: int)
  {
    forall i :: 0 <= i < |evs| ==> evs[i].due == s + (i + 1) * p
  }

  /** What a run owes one channel since its START at s with period p, at uptime t: every grid point
      before the next expiry was served or skipped; never more events than periods elapsed; the
      spacing; and events served in time serve every grid point once. */
  ghost predicate Account(evs: seq<Event>, s: int, p: int, next: int, t: int)
    requires p > 0
  {
    && (next - s) / p - 1 == |evs| + Skipped(evs, p)
    && |evs| <= (t - s) / p
    && Spaced(evs, p)
    && (InTime(evs, p) ==> Skipped(evs, p) == 0 && EachPointOnce(evs, s, p))
  }

  lemma EventsWithinElapsed(evs: seq<Event>, s: int, p: int, next: int, t: int)
    requires p > 0 && OnGrid(evs, s, p, next) && s <= t && SentInPast(evs, t)
    ensures |evs| <= (t - s) / p
  {
    GridConservation(evs, s, p, next);
    NextWithinPeriod(evs, s, p, next, t);
    var k := |evs| + Skipped(evs, p);
    AddMultiples(s, k, 1, p);
    DivUnique(k * p, p, k);
    DivMonotone(k * p, t - s, p);
  }

  lemma EventSpacing(evs: seq<Event>, s: int, p: int, next: int, k: int, m: int)
    requires p > 0 && OnGrid(evs, s, p, next) && 0 <= k < m < |evs|
    ensures evs[m].at - evs[k].at > (m - k - 1) * p
  {
    GridPrefix(evs, s, p, next, m);
    NextAfterEvent(evs[..m], s, p, evs[m].due, k);
  }

  lemma GridAccount(evs: seq<Event>, s: int, p: int, next: int, t: int)
    requires p > 0 && OnGrid(evs, s, p, next) && s <= t && SentInPast(evs, t)
    ensures Account(evs, s, p, next, t)
  {
    GridIndex(evs, s, p, next);
    EventsWithinElapsed(evs, s, p, next, t);
    forall k, m | 0 <= k < m < |evs|
      ensures evs[m].at - evs[k].at > (m - k - 1) * p
    {
      EventSpacing(evs, s, p, next, k, m);
    }
    if InTime(evs, p) { InTimeNothingSkipped(evs, s, p, next); }
  }
}
