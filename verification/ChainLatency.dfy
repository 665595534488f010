/** Latency accounting of a chain of n callbacks: the timer node stamps and publishes, relays pass the
    stamp on, the last node computes the end-to-end time.  Sums are kept in globals across callbacks. */
module ChainLatency {
  import opened Machine
  import opened Options

  const TOTAL_ROUNDS: int := 500
  const INT64_MIN: int := -INT64_MAX - 1

  datatype Stats = Stats(min: int, max: int, sum: int, count: int)

  const NO_STATS: Stats := Stats(INT64_MAX, INT64_MIN, 0, 0)

  function Update(s: Stats, v: int): Stats
  {
    Stats(if v < s.min then v else s.min, if v > s.max then v else s.max, s.sum + v, s.count + 1)
  }

  /** The globals of the experiment. */
  datatype Chain = Chain(
    length: int,             // CHAIN_LENGTH
    round: int,
    done: bool,
    e2e: Stats,
    publish: Stats,
    sched: Stats,
    lastPublishEnd: int,
    publishSum: int,
    schedSum: int)

  function Fresh(length: int): Chain
  {
    Chain(length, 0, false, NO_STATS, NO_STATS, NO_STATS, 0, 0, 0)
  }

  /** trunc_e2e: the difference of two 32-bit stamps, wrapping around. */
  function TruncE2E(startTrunc: int32, endNs: int): int
  {
    ToInt32(ToInt32(endNs) - startTrunc)
  }

  function NextRound(c: Chain): Chain
  {
    c.(round := c.round + 1, done := c.done || c.round + 1 >= TOTAL_ROUNDS)
  }

  /** The timer callback up to its publish call: it resets the sums and stamps the message. */
  function TimerEnter(c: Chain, start: int): (Chain, Option<int32>)
  {
    if c.done || c.round >= TOTAL_ROUNDS then (c, None)
    else (c.(publishSum := 0, schedSum := 0), Some(ToInt32(start)))
  }

  /** And from the return of its publish call. */
  function TimerLeave(c: Chain, t0: int, t1: int): Chain
  {
    c.(lastPublishEnd := t1, publishSum := c.publishSum + (t1 - t0))
  }

  /** The timer callback.  `t0` and `t1` are the clock readings around publish; in a chain of length
      one `t1` is the reading that ends the measurement.  The message is the truncated start stamp. */
  function OnTimer(c: Chain, start: int, t0: int, t1: int): (Chain, Option<int32>)
  {
    var (c1, msg) := TimerEnter(c, start);
    if msg.None? then (c, None)
    else if c.length == 1 then (NextRound(c1.(e2e := Update(c1.e2e, t1 - start))), None)
    else (TimerLeave(c1, t0, t1), msg)
  }

  /** A relay callback up to its publish call, and from the return of it. */
  function RelayEnter(c: Chain, entry: int): Chain
  {
    if c.done then c else c.(schedSum := c.schedSum + (entry - c.lastPublishEnd))
  }

  function RelayLeave(c: Chain, t0: int, t1: int): Chain
  {
    c.(lastPublishEnd := t1, publishSum := c.publishSum + (t1 - t0))
  }

  /** A relay callback; `alive` says whether its publisher still exists. */
  function OnRelay(c: Chain, alive: bool, entry: int, t0: int, t1: int): Chain
  {
    if c.done || !alive then RelayEnter(c, entry) else RelayLeave(RelayEnter(c, entry), t0, t1)
  }

  function OnFinal(c: Chain, msg: int32, entry: int): Chain
  {
    if c.done then c
    else
      var sched := c.schedSum + (entry - c.lastPublishEnd);
      NextRound(c.(schedSum := sched,
                   e2e := Update(c.e2e, TruncE2E(msg, entry)),
                   publish := Update(c.publish, c.publishSum),
                   sched := Update(c.sched, sched)))
  }

  /** The same callbacks on the globals themselves. */
  class Experiment {
    const length: int
    var round: int
    var done: bool
    var e2e: Stats
    var publish: Stats
    var sched: Stats
    var lastPublishEnd: int
    var publishSum: int
    var schedSum: int

    ghost function Globals(): Chain
      reads this
    {
      Chain(length, round, done, e2e, publish, sched, lastPublishEnd, publishSum, schedSum)
    }

    constructor (length: int)
      ensures Globals() == Fresh(length)
    {
      this.length := length;
      round, done, e2e, publish, sched := 0, false, NO_STATS, NO_STATS, NO_STATS;
      lastPublishEnd, publishSum, schedSum := 0, 0, 0;
    }

    method TimerCallback(start: int, t0: int, t1: int) returns (msg: Option<int32>)
      modifies this
      ensures (Globals(), msg) == OnTimer(old(Globals()), start, t0, t1)
    {
      if done || round >= TOTAL_ROUNDS { return None; }
      publishSum := 0;
      schedSum := 0;
      if length == 1 {
        e2e := Update(e2e, t1 - start);
        round := round + 1;
        if round >= TOTAL_ROUNDS && !done { done := true; }
        return None;
      }
      msg := Some(ToInt32(start));
      var pubNs := t1 - t0;
      lastPublishEnd := t1;
      publishSum := publishSum + pubNs;
    }

    method RelayCallback(alive: bool, entry: int, t0: int, t1: int)
      modifies this
      ensures Globals() == OnRelay(old(Globals()), alive, entry, t0, t1)
    {
      if done { return; }
      schedSum := schedSum + (entry - lastPublishEnd);
      if !alive { return; }
      lastPublishEnd := t1;
      publishSum := publishSum + (t1 - t0);
    }

    method FinalCallback(msg: int32, entry: int)
      modifies this
      ensures Globals() == OnFinal(old(Globals()), msg, entry)
    {
      if done { return; }
      schedSum := schedSum + (entry - lastPublishEnd);
      var total := TruncE2E(msg, entry);
      e2e := Update(e2e, total);
      publish := Update(publish, publishSum);
      sched := Update(sched, schedSum);
      round := round + 1;
      if round >= TOTAL_ROUNDS && !done { done := true; }
    }
  }

  function Summary(vs: seq<int>): Stats
  {
    if vs == [] then NO_STATS else Update(Summary(vs[..|vs| - 1]), vs[|vs| - 1])
  }

  function Sum(vs: seq<int>): int
  {
    if vs == [] then 0 else Sum(vs[..|vs| - 1]) + vs[|vs| - 1]
  }

  /** The statistics are the true extremes, sum and number of what was recorded. */
  lemma {:induction false} SummaryIsExact(vs: seq<int64>)
    ensures var s := Summary(vs);
            && s.count == |vs| && s.sum == Sum(vs)
            && (forall i :: 0 <= i < |vs| ==> s.min <= vs[i] <= s.max)
            && (vs != [] ==> s.min in vs && s.max in vs)
  {
    if vs != [] {
      var n := |vs| - 1;
      SummaryIsExact(vs[..n]);
      assert vs == vs[..n] + [vs[n]];
    }
  }

  // ---- Rounds ----

  /** Clock readings of one publishing callback: its entry, and around its publish call. */
  datatype Hop = Hop(entry: int, t0: int, t1: int)

  /** A round of a chain of length |hops| + 1: hops[0] is the timer node, the rest are relays. */
  datatype Round = Round(hops: seq<Hop>, final: int)

  /** One clock, one message in flight: every callback enters after the previous publish returned. */
  ghost predicate Sequential(r: Round)
  {
    && r.hops != []
    && (forall i :: 0 <= i < |r.hops| ==> r.hops[i].entry <= r.hops[i].t0 <= r.hops[i].t1)
    && (forall i :: 0 < i < |r.hops| ==> r.hops[i - 1].t1 <= r.hops[i].entry)
    && r.hops[|r.hops| - 1].t1 <= r.final
  }

  function Relays(c: Chain, hops: seq<Hop>): Chain
  {
    if |hops| <= 1 then c
    else
      var h := hops[|hops| - 1];
      OnRelay(Relays(c, hops[..|hops| - 1]), true, h.entry, h.t0, h.t1)
  }

  function PlayRound(c: Chain, r: Round): Chain
    requires r.hops != []
  {
    var h := r.hops[0];
    var (c1, msg) := OnTimer(c, h.entry, h.t0, h.t1);
    if msg.None? then c1 else OnFinal(Relays(c1, r.hops), msg.value, r.final)
  }

  function PublishTime(hops: seq<Hop>): int
  {
    if hops == [] then 0
    else PublishTime(hops[..|hops| - 1]) + (hops[|hops| - 1].t1 - hops[|hops| - 1].t0)
  }

  /** Time between the entry of a publishing callback and its publish call. */
  function EntryGaps(hops: seq<Hop>): int
  {
    if hops == [] then 0
    else EntryGaps(hops[..|hops| - 1]) + (hops[|hops| - 1].t0 - hops[|hops| - 1].entry)
  }

  /** Time from each publish return to the next callback's entry, the last one being `entry`. */
  function DispatchTime(hops: seq<Hop>, entry: int): int
  {
    if hops == [] then 0
    else
      var n := |hops| - 1;
      DispatchTime(hops[..n], hops[n].entry) + (entry - hops[n].t1)
  }

  /** The end-to-end time telescopes, for every chain length. */
  lemma {:induction false} Telescope(hops: seq<Hop>, entry: int)
    requires hops != []
    ensures entry - hops[0].entry == PublishTime(hops) + DispatchTime(hops, entry) + EntryGaps(hops)
  {
    var n := |hops| - 1;
    if n > 0 {
      Telescope(hops[..n], hops[n].entry);
    } else {
      assert hops[..0] == [];
    }
  }

  lemma {:induction false} GapsNonNegative(r: Round, n: nat)
    requires Sequential(r) && n <= |r.hops|
    ensures EntryGaps(r.hops[..n]) >= 0
    ensures n > 0 ==> r.hops[0].entry <= r.hops[n - 1].t1
  {
    if n > 0 {
      GapsNonNegative(r, n - 1);
      assert r.hops[..n][..n - 1] == r.hops[..n - 1];
    }
  }

  /** What the globals hold after the timer and the relays of a round. */
  lemma {:induction false} RelaysRecord(c: Chain, hops: seq<Hop>, entry: int)
    requires !c.done && hops != []
    requires c.publishSum == hops[0].t1 - hops[0].t0 && c.schedSum == 0 && c.lastPublishEnd == hops[0].t1
    ensures var c' := Relays(c, hops);
            && c' == c.(publishSum := PublishTime(hops), schedSum := c'.schedSum, lastPublishEnd := hops[|hops| - 1].t1)
            && c'.schedSum + (entry - c'.lastPublishEnd) == DispatchTime(hops, entry)
  {
    var n := |hops| - 1;
    if n > 0 {
      RelaysRecord(c, hops[..n], hops[n].entry);
    } else {
      assert hops[..0] == [];
    }
  }

  /** The stamps survive truncation: subtracting them modulo 2^32 gives back the true duration iff it
      is a 32-bit signed number, so for a non-negative one iff it is below 2^31 ns. */
  lemma TruncationIsExactIff(start: int, end: int)
    ensures TruncE2E(ToInt32(start), end) == ToInt32(end - start)
    ensures start <= end ==> (TruncE2E(ToInt32(start), end) == end - start <==> end - start < 0x8000_0000)
  {
    var a, b := start / TWO32, end / TWO32;
    var d := ToInt32(end) - ToInt32(start);
    SameLowBits(end - start, d, b - a + (if ToInt32(start) < 0 then -1 else 0) + (if ToInt32(end) < 0 then 1 else 0));
  }

  lemma SameLowBits(x: int, y: int, k: int)
    requires x == y + k * TWO32
    ensures ToInt32(x) == ToInt32(y)
  {}

  /** One sequential round, whatever came before it: each statistic grows by its own sum, and e2e =
      publish + sched + gaps, hence publish + sched <= e2e. */
  lemma RoundRecords(c: Chain, r: Round)
    requires Sequential(r) && |r.hops| == c.length - 1
    requires !c.done && c.round < TOTAL_ROUNDS && r.final - r.hops[0].entry < 0x8000_0000
    ensures var c' := PlayRound(c, r);
            var e2e, pub, sch := r.final - r.hops[0].entry, PublishTime(r.hops), DispatchTime(r.hops, r.final);
            && c'.e2e == Update(c.e2e, e2e) && c'.publish == Update(c.publish, pub) && c'.sched == Update(c.sched, sch)
            && e2e == pub + sch + EntryGaps(r.hops) && pub + sch <= e2e
            && c'.length == c.length && c'.round == c.round + 1 && (c'.done <==> c.round + 1 >= TOTAL_ROUNDS)
  {
    var h := r.hops[0];
    var c1 := OnTimer(c, h.entry, h.t0, h.t1).0;
    GapsNonNegative(r, |r.hops|);
    RelaysRecord(c1, r.hops, r.final);
    TruncationIsExactIff(h.entry, r.final);
    Telescope(r.hops, r.final);
    assert r.hops[..|r.hops|] == r.hops;
  }

  function Play(c: Chain, rs: seq<Round>): Chain
    requires forall i :: 0 <= i < |rs| ==> rs[i].hops != []
  {
    if rs == [] then c else PlayRound(Play(c, rs[..|rs| - 1]), rs[|rs| - 1])
  }

  function TotalGaps(rs: seq<Round>, n: nat): int
    requires n <= |rs|
  {
    if n == 0 then 0 else TotalGaps(rs, n - 1) + EntryGaps(rs[n - 1].hops)
  }

  ghost predicate GoodRounds(rs: seq<Round>, length: int)
  {
    forall i :: 0 <= i < |rs| ==>
      Sequential(rs[i]) && |rs[i].hops| == length - 1 && rs[i].final - rs[i].hops[0].entry < 0x8000_0000
  }

  function Counted(k: nat): nat { if k < TOTAL_ROUNDS then k else TOTAL_ROUNDS }

  function E2eTime(r: Round): int
    requires r.hops != []
  {
    r.final - r.hops[0].entry
  }

  /** The true end-to-end times of the first n rounds. */
  function EndToEnds(rs: seq<Round>, n: nat): seq<int>
    requires n <= |rs| && forall i :: 0 <= i < |rs| ==> rs[i].hops != []
  {
    if n == 0 then [] else EndToEnds(rs, n - 1) + [E2eTime(rs[n - 1])]
  }

  /** The globals after the first n of some sequential rounds have been counted. */
  ghost predicate Adds(c: Chain, length: int, rs: seq<Round>, n: nat)
    requires n <= |rs| && GoodRounds(rs, length)
  {
    && c.length == length && c.round == c.publish.count == c.sched.count == n
    && (c.done <==> n == TOTAL_ROUNDS)
    && c.e2e == Summary(EndToEnds(rs, n))
    && c.e2e.sum == c.publish.sum + c.sched.sum + TotalGaps(rs, n)
    && c.publish.sum + c.sched.sum <= c.e2e.sum
  }

  lemma SummaryStep(vs: seq<int>, v: int)
    ensures Summary(vs + [v]) == Update(Summary(vs), v)
  {
    assert (vs + [v])[..|vs|] == vs;
  }

  lemma OneMoreRound(c: Chain, length: int, rs: seq<Round>, n: nat)
    requires n < |rs| && n < TOTAL_ROUNDS && GoodRounds(rs, length) && Adds(c, length, rs, n)
    ensures Adds(PlayRound(c, rs[n]), length, rs, n + 1)
  {
    RoundRecords(c, rs[n]);
    SummaryStep(EndToEnds(rs, n), E2eTime(rs[n]));
  }

  lemma FreshAdds(length: int, rs: seq<Round>)
    requires GoodRounds(rs, length)
    ensures Adds(Fresh(length), length, rs, 0)
  {}

  lemma PlayOne(c: Chain, rs: seq<Round>, k: nat)
    requires 0 < k <= |rs| && forall i :: 0 <= i < |rs| ==> rs[i].hops != []
    ensures Play(c, rs[..k]) == PlayRound(Play(c, rs[..k - 1]), rs[k - 1])
  {
    assert rs[..k][..k - 1] == rs[..k - 1];
  }

  lemma DoneIgnoresRounds(c: Chain, r: Round)
    requires c.done && r.hops != []
    ensures PlayRound(c, r) == c
  {}

  lemma NextRoundAdds(c: Chain, length: int, rs: seq<Round>, n: nat)
    requires n < |rs| && GoodRounds(rs, length) && Adds(c, length, rs, Counted(n))
    ensures Adds(PlayRound(c, rs[n]), length, rs, Counted(n + 1))
  {
    if n < TOTAL_ROUNDS { OneMoreRound(c, length, rs, n); } else { DoneIgnoresRounds(c, rs[n]); }
  }

  /** Over a whole experiment of any number of sequential rounds: exactly the first 500 are counted,
      `done` is set by the 500th, the end-to-end statistics are those of the true durations, and
      their sum is the accumulated publish time plus the accumulated dispatch time plus the gaps. */
  lemma {:induction false} ExperimentAdds(length: int, rs: seq<Round>, k: nat)
    requires length >= 2 && GoodRounds(rs, length) && k <= |rs|
    ensures Adds(Play(Fresh(length), rs[..k]), length, rs, Counted(k))
  {
    if k == 0 {
      assert rs[..0] == [];
      FreshAdds(length, rs);
    } else {
      ExperimentAdds(length, rs, k - 1);
      PlayOne(Fresh(length), rs, k);
      NextRoundAdds(Play(Fresh(length), rs[..k - 1]), length, rs, k - 1);
    }
  }

  /** What the sequential hypothesis is worth.  In a chain of two nodes let the final callback run inside
      the timer's publish call, before the time of its return is stored: the round is then charged
      the time since an earlier round's publish, and publish + sched exceed the end-to-end time
      exactly when that publish had returned before this round began. */
  lemma CallbackInsidePublish(c: Chain, start: int, t0: int, entry: int, t1: int)
    requires c.length == 2 && !c.done && c.round < TOTAL_ROUNDS
    requires start <= t0 <= entry <= t1 && entry - start < 0x8000_0000
    ensures var (c1, msg) := TimerEnter(c, start);
            msg.Some? &&
            var end := TimerLeave(OnFinal(c1, msg.value, entry), t0, t1);
            (end.publish.sum - c.publish.sum) + (end.sched.sum - c.sched.sum) > end.e2e.sum - c.e2e.sum
            <==> c.lastPublishEnd < start
  {
    TruncationIsExactIff(start, entry);
  }

  /** The same in a longer chain.  Let the final callback run inside the publish call of the last relay, whose
      callback was entered at `entry` after the sequential hops `hops`: the time from the previous
      publish to the final callback is charged in full, on top of the dispatch of the relay itself.  So
      publish + sched exceed the end-to-end time exactly when that dispatch took longer than all the
      earlier callbacks together spent between entry and publish. */
  lemma FinalInsideRelayPublish(c: Chain, hops: seq<Hop>, entry: int, t0: int, final: int, t1: int)
    requires Sequential(Round(hops, entry)) && c.length == |hops| + 2 && !c.done && c.round < TOTAL_ROUNDS
    requires entry <= t0 <= final <= t1 && final - hops[0].entry < 0x8000_0000
    ensures var (c1, msg) := OnTimer(c, hops[0].entry, hops[0].t0, hops[0].t1);
            msg.Some? &&
            var end := RelayLeave(OnFinal(RelayEnter(Relays(c1, hops), entry), msg.value, final), t0, t1);
            (end.publish.sum - c.publish.sum) + (end.sched.sum - c.sched.sum) > end.e2e.sum - c.e2e.sum
            <==> entry - hops[|hops| - 1].t1 > EntryGaps(hops)
  {
    var c1 := OnTimer(c, hops[0].entry, hops[0].t0, hops[0].t1).0;
    GapsNonNegative(Round(hops, entry), |hops|);
    assert hops[..|hops|] == hops;
    RelaysRecord(c1, hops, entry);
    Telescope(hops, entry);
    TruncationIsExactIff(hops[0].entry, final);
  }

  // ---- The remaining branches ----

  /** Once the experiment is done, after 500 rounds, no callback changes anything or publishes. */
  lemma DoneFreezes(c: Chain, start: int, t0: int, t1: int, alive: bool, entry: int, msg: int32)
    requires c.done
    ensures OnTimer(c, start, t0, t1) == (c, None)
    ensures OnRelay(c, alive, entry, t0, t1) == c && OnFinal(c, msg, entry) == c
  {}

  /** A relay whose publisher is gone adds its dispatch time and passes nothing on: the times of its own
      publish call, which it does not make, have no effect. */
  lemma RelayWithoutPublisher(c: Chain, entry: int, t0: int, t1: int)
    requires !c.done
    ensures var r := OnRelay(c, false, entry, t0, t1);
            && r.schedSum == c.schedSum + (entry - c.lastPublishEnd)
            && r.publishSum == c.publishSum && r.lastPublishEnd == c.lastPublishEnd
            && r.e2e == c.e2e && r.publish == c.publish && r.sched == c.sched && r.round == c.round && !r.done
  {}

  /** A chain of one node: each call of the timer callback is a round of its own. */
  function PlayAlone(c: Chain, rs: seq<(int, int)>): Chain
  {
    if rs == [] then c
    else
      var (start, end) := rs[|rs| - 1];
      OnTimer(PlayAlone(c, rs[..|rs| - 1]), start, start, end).0
  }

  function Durations(rs: seq<(int, int)>, n: nat): seq<int>
    requires n <= |rs|
  {
    if n == 0 then [] else Durations(rs, n - 1) + [rs[n - 1].1 - rs[n - 1].0]
  }

  /** The globals after n of them. */
  function Alone(rs: seq<(int, int)>, n: nat): Chain
    requires n <= |rs|
  {
    Fresh(1).(round := n, done := n >= 500, e2e := Summary(Durations(rs, n)))
  }

  function Capped(k: nat): nat { if k < 500 then k else 500 }

  lemma AloneStep(rs: seq<(int, int)>, k: nat)
    requires k < |rs|
    ensures OnTimer(Alone(rs, Capped(k)), rs[k].0, rs[k].0, rs[k].1).0 == Alone(rs, Capped(k + 1))
  {
    if k < 500 { SummaryStep(Durations(rs, k), rs[k].1 - rs[k].0); }
  }

  lemma PlayAloneStep(c: Chain, rs: seq<(int, int)>, k: nat)
    requires k < |rs|
    ensures PlayAlone(c, rs[..k + 1]) == OnTimer(PlayAlone(c, rs[..k]), rs[k].0, rs[k].0, rs[k].1).0
  {
    assert rs[..k + 1][..k] == rs[..k];
  }

  /** The first 500 are recorded with their durations, in order; nothing is published or charged. */
  lemma {:induction false} AloneRecords(rs: seq<(int, int)>, k: nat)
    requires k <= |rs|
    ensures PlayAlone(Fresh(1), rs[..k]) == Alone(rs, Capped(k))
  {
    if k == 0 {
      assert rs[..0] == [];
    } else {
      AloneRecords(rs, k - 1);
      PlayAloneStep(Fresh(1), rs, k - 1);
      AloneStep(rs, k - 1);
    }
  }
}
