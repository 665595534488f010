/** Exact arithmetic of the two conversions in the driver and the executor:
    nanoseconds to PT load values, and milliseconds to ticks to nanoseconds. */
module LoadArithmetic {
  import opened Machine
  import opened TimerModel

  // Longest delay whose product with the peripheral clock still fits int64 (about 92.2 s).
  const MAX_DELTA: int := 92_233_720_368

  /** For every non-negative delay: the product fits exactly up to MAX_DELTA, and each clamp fires
      exactly outside [10 ns, MAX_PERIOD_NS + 10 ns). In between the load is the floor of ns / 10. */
  lemma LoadExactly(ns: int)
    requires ns >= 0
    ensures ns * PERIPHCLK <= INT64_MAX <==> ns <= MAX_DELTA
    ensures CDiv(ns * PERIPHCLK, NS_PER_SEC) < 1 <==> ns < 10
    ensures CDiv(ns * PERIPHCLK, NS_PER_SEC) > UINT32_MAX <==> ns >= MAX_PERIOD_NS + 10
    ensures NsToPtLoad(ns) == if ns < 10 then 1 else if ns >= MAX_PERIOD_NS + 10 then UINT32_MAX else ns / 10
  {
    assert ns * PERIPHCLK / NS_PER_SEC == ns / 10;
  }

  /** SET_PERIOD_NS accepts exactly the periods that convert without overflow and without clamping
      to a load of at least 100; it stores them unchanged, and both ends of the range are attained. */
  lemma AcceptedPeriods(d: Driver, ch: int, ns: int64, tps: uint32, now: int, armNow: int)
    requires WellSized(d) && ValidChannel(ch)
    ensures var (d', status) := Control(d, SetPeriodNs(ch, ns), tps, now, armNow);
            && (status == Successful <==> MIN_PERIOD_NS <= ns <= MAX_PERIOD_NS)
            && (status == Successful ==>
                  && d'.channels[ch] == d.channels[ch].(period := ns)
                  && ns * PERIPHCLK <= INT64_MAX && NsToPtLoad(ns) == ns / 10 && 100 <= ns / 10 <= UINT32_MAX)
            && (status != Successful ==> d' == d && (ns < 1000 || ns / 10 > UINT32_MAX || ns % 10 != 0))
    ensures NsToPtLoad(MIN_PERIOD_NS) == 100 && NsToPtLoad(MAX_PERIOD_NS) == UINT32_MAX
  {
    if ns >= 0 { LoadExactly(ns); }
    LoadExactly(MIN_PERIOD_NS);
    LoadExactly(MAX_PERIOD_NS);
  }

  lemma LoadMonotone(a: int, b: int)
    requires 0 <= a <= b
    ensures NsToPtLoad(a) <= NsToPtLoad(b)
  {
    LoadExactly(a);
    LoadExactly(b);
  }

  /** rt_ms_to_ticks: the product is 64-bit, the result is cut to 32 bits. */
  function MsToTicks(ms: uint32, tps: uint32): (r: uint32)
  {
    ms * tps / 1000 % TWO32
  }

  /** The tick count is the true one up to a multiple of 2^32, and the true one whenever that fits. */
  lemma MsToTicksWraps(ms: uint32, tps: uint32) returns (k: int)
    ensures ms * tps / 1000 == MsToTicks(ms, tps) + k * 0x1_0000_0000
    ensures k == 0 <==> 0 <= ms * tps / 1000 <= 0xFFFF_FFFF
  {
    MsToTicksProductFits(ms, tps);
    var p := ms * tps;
    k := p / 1000 / TWO32;
    DivBounds(p / 1000, TWO32);
  }

  lemma MsToTicksProductFits(ms: uint32, tps: uint32)
    ensures 0 <= ms * tps <= 0xFFFF_FFFF_FFFF_FFFF
  {
    MulMonotone(0, ms, tps);
    MulMonotone(ms, UINT32_MAX, tps);
  }

  lemma TicksToNsFits(ticks: uint32, tps: uint32)
    requires tps > 0
    ensures ticks * NS_PER_SEC <= INT64_MAX
    ensures TicksToNs(ticks, tps) == ticks * NS_PER_SEC / tps
    ensures 0 <= TicksToNs(ticks, tps) <= ticks * NS_PER_SEC
    ensures TicksToNs(ticks, tps) * tps <= ticks * NS_PER_SEC < TicksToNs(ticks, tps) * tps + tps
  {
    var x := ticks * NS_PER_SEC;
    DivBounds(x, tps);
    if x / tps > x { MulMonotone(x + 1, x / tps, tps); MulMonotone(1, tps, x + 1); }
    if x / tps < 0 { MulMonotone(x / tps, -1, tps); }
  }

  /** A period in milliseconds reaches the driver as ticks and then as nanoseconds.  As long as the
      tick count fits 32 bits, it never grows and loses less than one tick plus one nanosecond;
      nothing is lost when ms * tps is a multiple of 1000; and START accepts the channel exactly
      when ms * tps >= 1000 (for tick rates up to 1 GHz). */
  lemma PeriodConversion(ms: uint32, tps: uint32)
    requires tps > 0 && ms * tps / 1000 <= UINT32_MAX
    ensures var ns := TicksToNs(MsToTicks(ms, tps), tps);
            && 0 <= ns <= ms * 1_000_000 <= INT64_MAX
            && (ms * 1_000_000 - ns - 1) * tps < NS_PER_SEC
            && (ms * tps % 1000 == 0 ==> ns == ms * 1_000_000)
            && (tps <= NS_PER_SEC ==> (ns != 0 <==> ms * tps >= 1000))
  {
    var p := ms * tps;
    MsToTicksProductFits(ms, tps);
    var t := MsToTicks(ms, tps);
    assert t == p / 1000 && 1000 * t <= p < 1000 * t + 1000;
    var ns := TicksToNs(t, tps);
    TicksToNsFits(t, tps);
    var full := ms * 1_000_000;
    assert full * tps == p * 1_000_000;
    assert ns * tps <= full * tps;
    if ns > full { MulMonotone(full + 1, ns, tps); }
    assert (full - ns - 1) * tps == full * tps - ns * tps - tps;
    if p % 1000 == 0 {
      assert t * NS_PER_SEC == full * tps;
      DivUnique(t * NS_PER_SEC, tps, full);
    }
    if tps <= NS_PER_SEC {
      if t >= 1 && ns == 0 { assert false; }
      if t == 0 { DivUnique(0, tps, 0); }
    }
  }

  /** The same seen from the driver: after SET_PERIOD with the converted ticks, START is accepted
      exactly when ms * tps >= 1000, and then the channel runs with that period. */
  lemma StartAcceptedIff(d: Driver, ch: int, ms: uint32, tps: uint32, now: int, armNow: int)
    requires WellSized(d) && ValidChannel(ch)
    requires 0 < tps <= NS_PER_SEC && ms * tps / 1000 <= UINT32_MAX
    ensures var d1 := Control(d, SetPeriod(ch, MsToTicks(ms, tps)), tps, now, armNow).0;
            var (d2, status) := Control(d1, Start(ch), tps, now, armNow);
            && (status == Successful <==> ms * tps >= 1000)
            && (status == Successful ==>
                 d2.channels[ch].active && d2.channels[ch].period == TicksToNs(MsToTicks(ms, tps), tps))
            && (status != Successful ==> d2.channels[ch].active == d.channels[ch].active)
  {
    PeriodConversion(ms, tps);
  }
}
