/** rtss_close runs with interrupts enabled.  Its stores, one by one, may be interleaved with the
    interrupt handler in any way; this module proves what holds all the same. */
module CloseInterleaving {
  import opened Machine
  import opened TimerModel
  import opened TimerRuns
  import opened EventGrid
  import opened ChannelRuns

  /** While a close is under way its caller does nothing else; interrupts may come at any point. */
  predicate WhileClosing(op: Op) { op.IsrAt? || op.CloseStore? }

  function Stores(ops: seq<Op>): nat
  {
    if ops == [] then 0 else (if ops[0].CloseStore? then 1 else 0) + Stores(ops[1..])
  }

  /** A closed driver: every channel inactive and without target, the timer disabled. */
  ghost predicate Quiet(d: Driver)
    requires WellSized(d)
  {
    && !d.isOpen && !d.pt.enabled
    && forall i :: 0 <= i < CHANNELS ==>
         !d.channels[i].active && d.channels[i].target == NONE && d.channels[i].nextFire == INT64_MAX
  }

  /** From the moment the store that clears the active flag of channel i is done, no event goes to
      channel i, through any run without a new START of it. */
  lemma NoEventAfterClear(w: World, ops: seq<Op>, i: int)
    requires ValidChannel(i) && Allowed(w, CloseStore(3 * i))
    requires forall j :: 0 <= j < |ops| ==> !Activates(ops[j], i)
    ensures EventsOf(Run(Step(w, CloseStore(3 * i)), ops).drv.sent, i) == EventsOf(w.drv.sent, i)
  {
    InactiveStaysSilent(Step(w, CloseStore(3 * i)), ops, i);
  }

  lemma LastStoreQuiets(w: World)
    requires Inv(w) && w.closing == STORES - 1
    ensures Quiet(Step(w, CloseStore(w.closing)).drv)
  {
    forall i | 0 <= i < CHANNELS
      ensures ChannelOk(w.drv.channels[i], w.clock, w.closing - 3 * i) && !w.drv.channels[i].active
    {
    }
  }

  /** `left` stores are still to come, or the close is over. */
  ghost predicate ToGo(w: World, left: nat)
    requires WellSized(w.drv)
  {
    left == STORES - w.closing || (left == 0 && w.closing == 0 && Quiet(w.drv))
  }

  lemma ToGoStep(w: World, op: Op, left: nat)
    requires Inv(w) && Allowed(w, op) && WhileClosing(op) && ToGo(w, left)
    requires op.CloseStore? ==> left > 0
    ensures ToGo(Step(w, op), if op.CloseStore? then left - 1 else left)
  {
    if op.CloseStore? {
      if w.closing == STORES - 1 { LastStoreQuiets(w); }
    } else if left == 0 {
      StrayInterrupt(w.drv, op.now, op.armNow);
    }
  }

  lemma {:induction false} CloseCompletes(w: World, ops: seq<Op>)
    requires Inv(w) && AllowedRun(w, ops) && ToGo(w, Stores(ops))
    requires forall i :: 0 <= i < |ops| ==> WhileClosing(ops[i])
    ensures Inv(Run(w, ops)) && ToGo(Run(w, ops), 0)
    decreases ops
  {
    if ops != [] {
      StepKeepsInv(w, ops[0]);
      ToGoStep(w, ops[0], Stores(ops));
      CloseCompletes(Step(w, ops[0]), ops[1..]);
    }
  }

  /** Closing from any reachable state, with interrupts between any two stores: once all the stores are
      done the driver is quiet, the invariant of reachable states holds again, and that stays so
      however many late interrupts come. */
  lemma CloseEndsQuiet(w: World, ops: seq<Op>)
    requires Inv(w) && w.closing == 0 && AllowedRun(w, ops)
    requires (forall i :: 0 <= i < |ops| ==> WhileClosing(ops[i])) && Stores(ops) == STORES
    ensures var end := Run(w, ops);
            Quiet(end.drv) && end.closing == 0 && Inv(end)
  {
    CloseCompletes(w, ops);
  }

  /** An interrupt that was already on its way changes no channel of a quiet driver, sends nothing
      and leaves the timer disabled. */
  lemma StrayInterrupt(d: Driver, now: int, armNow: int)
    requires WellSized(d) && Quiet(d)
    ensures Isr(d, now, armNow) == d
  {
    var chs := IsrChannels(d.channels, now);
    assert chs == d.channels;
    NearestIsMinimum(chs);
    if IsrEvents(chs, now) != [] {
      var e := IsrEvents(chs, now)[0];
      IsrEventsAreDue(chs, now);
      assert false;
    }
    assert IsrFireNs(chs, d.fireNs, now) == d.fireNs;
  }

  lemma {:induction false} IsrEventsAreDue(chs: seq<Channel>, now: int)
    ensures forall k :: 0 <= k < |IsrEvents(chs, now)| ==>
              var e := IsrEvents(chs, now)[k];
              0 <= e.channel < |chs| && Due(chs[e.channel], now) && e.task == chs[e.channel].target
  {
    if chs != [] { IsrEventsAreDue(chs[..|chs| - 1], now); }
  }

  // ---- Without interrupts the stores are exactly Close ----

  function Partial(c: Channel, done: int): Channel
  {
    Channel(if done >= 1 then false else c.active, c.period,
            if done >= 3 then INT64_MAX else c.nextFire,
            if done >= 2 then NONE else c.target)
  }

  function AfterStores(d: Driver, k: nat): (r: Driver)
    requires WellSized(d) && k <= STORES
    ensures WellSized(r)
  {
    if k == 0 then d else DoStore(AfterStores(d, k - 1), StoreAt(k - 1))
  }

  lemma {:induction false} AfterStoresPartial(d: Driver, k: nat)
    requires WellSized(d) && k <= STORES
    ensures var r := AfterStores(d, k);
            && (forall i :: 0 <= i < CHANNELS ==> r.channels[i] == Partial(d.channels[i], k - 3 * i))
            && r.pt == (if k >= STORES - 1 then d.pt.(enabled := false) else d.pt)
            && r == d.(channels := r.channels, pt := r.pt, isOpen := k < STORES && d.isOpen)
  {
    if k > 0 {
      var r0, r := AfterStores(d, k - 1), AfterStores(d, k);
      AfterStoresPartial(d, k - 1);
      forall i | 0 <= i < CHANNELS
        ensures r.channels[i] == Partial(d.channels[i], k - 3 * i)
      {
        StorePartial(r0.channels[i], d.channels[i], k - 1, i);
      }
    }
  }

  lemma StorePartial(c: Channel, orig: Channel, k: nat, i: int)
    requires k < STORES && ValidChannel(i) && c == Partial(orig, k - 3 * i)
    ensures StoreOn(c, StoreAt(k), i) == Partial(orig, k + 1 - 3 * i)
  {
  }

  lemma StoresAreClose(d: Driver)
    requires WellSized(d)
    ensures AfterStores(d, STORES) == Close(d)
  {
    AfterStoresPartial(d, STORES);
    assert AfterStores(d, STORES).channels == Close(d).channels;
  }
}
