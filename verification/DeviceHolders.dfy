/** Who comes to hold the timer device, in every run of any number of executors. */
module DeviceHolders {
  import opened Machine
  import opened TimerModel
  import opened TimerRuns
  import opened CloseInterleaving
  import opened ExecutorModel
  import opened ExecutorInvariant
  import opened Ownership

  ghost predicate TwoHolders(f: Fleet)
  {
    exists a, b :: 0 <= a < b < |f.members| && f.members[a].fd >= 0 && f.members[b].fd >= 0
  }

  /** In every run in which no executor's test falls between another's test and its store: at most one
      holds the device, it is open exactly while one does, and while nobody does every channel is
      inactive without a target and the timer is off. */
  lemma OneHolder(n: nat, tps: uint32, evs: seq<Occurrence>)
    requires SaneRun(Ownership.Boot(n, tps), evs) && NoOverlap(Ownership.Boot(n, tps), evs)
    ensures var f := Afters(Ownership.Boot(n, tps), evs);
            var d := f.p.sys.world.drv;
            && !TwoHolders(f)
            && (d.isOpen <==> exists e :: 0 <= e < n && f.members[e].fd >= 0)
            && (!d.isOpen ==> Quiet(d))
  {
    Ownership.BootInv(n, tps);
    AftersKeepInv(Ownership.Boot(n, tps), evs);
    OneClaimOneHolder(Afters(Ownership.Boot(n, tps), evs));
  }

  lemma OneClaimOneHolder(f: Fleet)
    requires FleetInv(f)
    ensures !TwoHolders(f)
    ensures !f.p.sys.world.drv.isOpen ==> Quiet(f.p.sys.world.drv)
  {
    forall a, b | 0 <= a < b < |f.members|
      ensures f.members[a].fd < 0 || f.members[b].fd < 0
    {
      assert Claims(f.members[a]) && Claims(f.members[b]) ==> a == b;
    }
    if !f.p.sys.world.drv.isOpen {
      forall i | 0 <= i < CHANNELS
        ensures ChannelOk(f.p.sys.world.drv.channels[i], f.p.sys.world.clock, 0 - 3 * i)
      {
      }
    }
  }

  // ---- Letting the opens under way finish ----

  /** Step executor e if it is inside rtss_open. */
  function FinishStep(f: Fleet, e: nat, inp: Input): (r: Fleet)
    requires Sized(f.p)
    ensures Sized(r.p) && |r.members| == |f.members|
  {
    if e < |f.members| && InOpen(f.members[e].phase) then After(f, Steps(e, inp)) else f
  }

  /** The opens under way go on in some order; nobody else does anything. */
  function Finish(f: Fleet, order: seq<(nat, Input)>): (r: Fleet)
    requires Sized(f.p)
    ensures Sized(r.p) && |r.members| == |f.members|
    decreases order
  {
    if order == [] then f else Finish(FinishStep(f, order[0].0, order[0].1), order[1..])
  }

  lemma {:induction false} FinishKeepsInv(f: Fleet, order: seq<(nat, Input)>)
    requires FleetInv(f)
    ensures FleetInv(Finish(f, order))
    decreases order
  {
    if order != [] {
      var (e, inp) := order[0];
      if e < |f.members| && InOpen(f.members[e].phase) { AfterKeepsInv(f, Steps(e, inp)); }
      FinishKeepsInv(FinishStep(f, e, inp), order[1..]);
    }
  }

  /** Executor e is inside rtss_open and nothing stands in the way of its success. */
  ghost predicate CanFinish(f: Fleet, e: nat)
    requires Sized(f.p)
  {
    && e < |f.members| && InOpen(f.members[e].phase)
    && InstallPhaseOk(f.p, f.members[e].phase)
    && (f.members[e].phase.TestInstalled? ==> f.p.sys.world.drv.isrInstalled || !f.p.handler)
  }

  function Turns(e: nat, inp: Input, k: nat): seq<(nat, Input)>
  {
    if k == 0 then [] else [(e, inp)] + Turns(e, inp, k - 1)
  }

  /** Steps that rtss_open still takes. */
  function StepsLeft(p: Platform, ph: Phase): nat
    requires Sized(p)
  {
    match ph
    case TestInstalled => if p.sys.world.drv.isrInstalled then 2 else 4
    case CallInstall => 3
    case StoreInstalled => 2
    case StoreOpen => 1
    case _ => 0
  }

  /** One step nearer to success, or there; the others are as they were. */
  lemma FinishStepHelps(f: Fleet, e: nat, inp: Input)
    requires Sized(f.p) && CanFinish(f, e) && inp.installOk
    ensures var f' := FinishStep(f, e, inp);
            && (forall a :: 0 <= a < |f.members| && a != e ==> f'.members[a] == f.members[a])
            && if f.members[e].phase.StoreOpen?
               then f'.members[e].fd >= 0 && f'.p.sys.world.drv.isrInstalled && !InOpen(f'.members[e].phase)
               else CanFinish(f', e) && StepsLeft(f'.p, f'.members[e].phase) < StepsLeft(f.p, f.members[e].phase)
  {}

  lemma {:induction false} FinishTakes(f: Fleet, e: nat, inp: Input, k: nat)
    requires Sized(f.p) && CanFinish(f, e) && inp.installOk && k >= StepsLeft(f.p, f.members[e].phase)
    ensures var f' := Finish(f, Turns(e, inp, k));
            && f'.members[e].fd >= 0 && f'.p.sys.world.drv.isrInstalled
            && forall a :: 0 <= a < |f.members| && a != e ==> f'.members[a] == f.members[a]
    decreases k
  {
    var f1 := FinishStep(f, e, inp);
    FinishStepHelps(f, e, inp);
    assert Turns(e, inp, k)[0] == (e, inp) && Turns(e, inp, k)[1..] == Turns(e, inp, k - 1);
    if f.members[e].phase.StoreOpen? {
      FinishedStays(f1, e, inp, k - 1);
    } else {
      FinishTakes(f1, e, inp, k - 1);
    }
  }

  lemma {:induction false} FinishedStays(f: Fleet, e: nat, inp: Input, k: nat)
    requires Sized(f.p) && e < |f.members| && !InOpen(f.members[e].phase)
    ensures Finish(f, Turns(e, inp, k)) == f
    decreases k
  {
    if k > 0 {
      assert Turns(e, inp, k)[0] == (e, inp) && Turns(e, inp, k)[1..] == Turns(e, inp, k - 1);
      FinishedStays(f, e, inp, k - 1);
    }
  }

  lemma {:induction false} FinishConcat(f: Fleet, xs: seq<(nat, Input)>, ys: seq<(nat, Input)>)
    requires Sized(f.p)
    ensures Finish(f, xs + ys) == Finish(Finish(f, xs), ys)
    decreases xs
  {
    if xs == [] {
      assert xs + ys == ys;
    } else {
      assert (xs + ys)[0] == xs[0] && (xs + ys)[1..] == xs[1..] + ys;
      FinishConcat(FinishStep(f, xs[0].0, xs[0].1), xs[1..], ys);
    }
  }

  // ---- The exact condition ----

  /** Let first a and then b finish. */
  lemma BothFinish(f: Fleet, a: nat, b: nat, inp: Input)
    requires Sized(f.p) && CanFinish(f, a) && b < |f.members| && b != a && f.members[b].phase.TestInstalled?
    requires inp.installOk
    ensures TwoHolders(Finish(f, Turns(a, inp, 4) + Turns(b, inp, 4)))
  {
    FinishTakes(f, a, inp, 4);
    var f2 := Finish(f, Turns(a, inp, 4));
    assert f2.members[b] == f.members[b];
    FinishTakes(f2, b, inp, 4);
    var f3 := Finish(f2, Turns(b, inp, 4));
    FinishConcat(f, Turns(a, inp, 4), Turns(b, inp, 4));
    assert f3.members[a] == f2.members[a] && f3.members[b].fd >= 0;
    if a < b { assert TwoHolders(f3); } else { assert b < a && TwoHolders(f3); }
  }

  lemma OverlapLeaves(f: Fleet, ev: Occurrence, a: nat)
    requires FleetInv(f) && Overlaps(f, ev) && a < |f.members| && a != ev.e && InOpen(f.members[a].phase)
    ensures CanFinish(After(f, ev), a) && After(f, ev).members[ev.e].phase.TestInstalled?
  {
    if f.members[a].phase.TestInstalled? { HandlerKnown(f, a); }
    assert InstallPhaseOk(f.p, f.members[a].phase);
    assert After(f, ev).members[a] == f.members[a] && After(f, ev).p == f.p;
  }

  /** After an overlapping test there is a way to two holders. */
  lemma OverlapGivesTwoHolders(f: Fleet, ev: Occurrence)
    requires FleetInv(f) && Overlaps(f, ev)
    ensures exists order :: TwoHolders(Finish(After(f, ev), order))
  {
    var a :| 0 <= a < |f.members| && a != ev.e && InOpen(f.members[a].phase);
    var inp := Input(true, true, true, 3, 0, 0);
    var f1 := After(f, ev);
    OverlapLeaves(f, ev, a);
    BothFinish(f1, a, ev.e, inp);
    assert TwoHolders(Finish(f1, Turns(a, inp, 4) + Turns(ev.e, inp, 4)));
  }

  /** Some way of finishing the opens under way at some point of the run gives two holders. */
  ghost predicate CanBeTwo(f: Fleet, evs: seq<Occurrence>)
    requires Sized(f.p)
  {
    exists i, order :: 0 <= i <= |evs| && TwoHolders(Finish(Afters(f, evs[..i]), order))
  }

  lemma LaterCanBeTwo(f: Fleet, evs: seq<Occurrence>)
    requires Sized(f.p) && evs != [] && CanBeTwo(After(f, evs[0]), evs[1..])
    ensures CanBeTwo(f, evs)
  {
    var f1 := After(f, evs[0]);
    var i, order :| 0 <= i <= |evs[1..]| && TwoHolders(Finish(Afters(f1, evs[1..][..i]), order));
    assert evs[..i + 1][0] == evs[0] && evs[..i + 1][1..] == evs[1..][..i];
    assert Afters(f, evs[..i + 1]) == Afters(f1, evs[1..][..i]);
  }

  lemma OverlapAtOnce(f: Fleet, evs: seq<Occurrence>)
    requires FleetInv(f) && evs != [] && Overlaps(f, evs[0])
    ensures CanBeTwo(f, evs)
  {
    OverlapGivesTwoHolders(f, evs[0]);
    var order :| TwoHolders(Finish(After(f, evs[0]), order));
    assert evs[..1][0] == evs[0] && evs[..1][1..] == [];
    assert Afters(f, evs[..1]) == After(f, evs[0]);
  }

  lemma {:induction false} OverlapCanBeTwo(f: Fleet, evs: seq<Occurrence>)
    requires FleetInv(f) && SaneRun(f, evs) && !NoOverlap(f, evs)
    ensures CanBeTwo(f, evs)
    decreases evs
  {
    if Overlaps(f, evs[0]) {
      OverlapAtOnce(f, evs);
    } else {
      AfterKeepsInv(f, evs[0]);
      OverlapCanBeTwo(After(f, evs[0]), evs[1..]);
      LaterCanBeTwo(f, evs);
    }
  }

  lemma {:induction false} PrefixIsFine(f: Fleet, evs: seq<Occurrence>, i: nat)
    requires Sized(f.p) && SaneRun(f, evs) && NoOverlap(f, evs) && i <= |evs|
    ensures SaneRun(f, evs[..i]) && NoOverlap(f, evs[..i])
    decreases evs
  {
    if i > 0 {
      assert evs[..i][0] == evs[0] && evs[..i][1..] == evs[1..][..i - 1];
      PrefixIsFine(After(f, evs[0]), evs[1..], i - 1);
    }
  }

  lemma NoOverlapNeverTwo(f: Fleet, evs: seq<Occurrence>, i: nat, order: seq<(nat, Input)>)
    requires FleetInv(f) && SaneRun(f, evs) && NoOverlap(f, evs) && i <= |evs|
    ensures !TwoHolders(Finish(Afters(f, evs[..i]), order))
  {
    PrefixIsFine(f, evs, i);
    AftersKeepInv(f, evs[..i]);
    FinishKeepsInv(Afters(f, evs[..i]), order);
    OneClaimOneHolder(Finish(Afters(f, evs[..i]), order));
  }

  lemma NoOverlapCannotBeTwo(f: Fleet, evs: seq<Occurrence>)
    requires FleetInv(f) && SaneRun(f, evs) && NoOverlap(f, evs)
    ensures !CanBeTwo(f, evs)
  {
    forall i, order | 0 <= i <= |evs|
      ensures !TwoHolders(Finish(Afters(f, evs[..i]), order))
    {
      NoOverlapNeverTwo(f, evs, i, order);
    }
  }

  /** The exact condition, over all interleavings.  At no point of a run can the opens under way finish
      with two executors holding the device, if and only if no executor found the device closed
      while another was between its own test and its store. */
  lemma OneHolderIff(n: nat, tps: uint32, evs: seq<Occurrence>)
    requires SaneRun(Ownership.Boot(n, tps), evs)
    ensures NoOverlap(Ownership.Boot(n, tps), evs) <==> !CanBeTwo(Ownership.Boot(n, tps), evs)
  {
    Ownership.BootInv(n, tps);
    if NoOverlap(Ownership.Boot(n, tps), evs) {
      NoOverlapCannotBeTwo(Ownership.Boot(n, tps), evs);
    } else {
      OverlapCanBeTwo(Ownership.Boot(n, tps), evs);
    }
  }
}
