/** The driver as the C file has it: a static channel table, a time-stamp array and the timer
    registers, all updated in place.  Every method is proved equal to the value model. */
module RtssTimerDriver {
  import opened Machine
  import opened TimerModel
  import opened CloseInterleaving
  import LoadArithmetic

  /** The two time fields of the C structure are int64_t. */
  ghost predicate FitsInt64(c: Channel)
  {
    -INT64_MAX <= c.period <= INT64_MAX && -INT64_MAX <= c.nextFire <= INT64_MAX
  }

  class TimerDriver {
    var isOpen: bool
    var isrInstalled: bool
    const channels: array<Channel>
    const fireNs: array<int>          // rtss_isr_fire_ns
    var pt: Pt
    var sent: seq<Event>              // every rtems_event_send the handler has made

    ghost predicate Valid()
      reads this, channels
    {
      && channels.Length == CHANNELS
      && fireNs.Length == CHANNELS
      && forall i :: 0 <= i < CHANNELS ==> FitsInt64(channels[i])
    }

    ghost function Model(): (d: Driver)
      requires Valid()
      reads this, channels, fireNs
      ensures WellSized(d)
    {
      Driver(isOpen, isrInstalled, channels[..], fireNs[..], pt, sent)
    }

    constructor ()
      ensures Valid() && fresh(channels) && fresh(fireNs)
      ensures Model() == Init()
    {
      isOpen, isrInstalled, pt, sent := false, false, Pt(false, 0, 0), [];
      channels := new Channel[8](_ => CLEARED);
      fireNs := new int[8](_ => 0);
      new;
      assert channels[..] == seq(CHANNELS, _ => CLEARED);
      assert fireNs[..] == seq(CHANNELS, _ => 0);
    }

    /** rtss_open, with nobody else in between. */
    method Open(installOk: bool) returns (status: Status)
      requires Valid()
      modifies this`isOpen, this`isrInstalled
      ensures Valid() && (Model(), status) == TimerModel.Open(old(Model()), installOk)
    {
      if isOpen { return TooMany; }
      var installed := InstallPtIsr(installOk);
      if !installed { return InstallFailed; }
      MarkOpen();
      status := Successful;
    }

    method InstallPtIsr(installOk: bool) returns (ok: bool)
      modifies this`isrInstalled
      ensures ok == (old(isrInstalled) || installOk) && isrInstalled == ok
    {
      if isrInstalled { return true; }
      if installOk { MarkInstalled(); }
      return installOk;
    }

    method MarkInstalled()
      modifies this`isrInstalled
      ensures isrInstalled
    {
      isrInstalled := true;
    }

    method MarkOpen()
      modifies this`isOpen
      ensures isOpen
    {
      isOpen := true;
    }

    /** The k-th store of rtss_close. */
    method CloseStore(k: int)
      requires Valid() && 0 <= k < STORES
      modifies this`isOpen, this`pt, channels
      ensures Valid() && Model() == DoStore(old(Model()), StoreAt(k))
    {
      match StoreAt(k)
      case ClearActive(i) => channels[i] := channels[i].(active := false);
      case ClearTarget(i) => channels[i] := channels[i].(target := NONE);
      case ClearNext(i) => channels[i] := channels[i].(nextFire := INT64_MAX);
      case DisablePt => PtDisable();
      case ClearOpen => isOpen := false;
      assert channels[..] == DoStore(old(Model()), StoreAt(k)).channels;
    }

    method NextStore(k: nat, ghost was: Driver)
      requires Valid() && k < STORES && WellSized(was) && Model() == AfterStores(was, k)
      modifies this`isOpen, this`pt, channels
      ensures Valid() && Model() == AfterStores(was, k + 1)
    {
      CloseStore(k);
    }

    /** One turn of the loop of rtss_close. */
    method ReleaseChannel(k: nat, ghost was: Driver)
      requires Valid() && k + 3 <= STORES && WellSized(was) && Model() == AfterStores(was, k)
      modifies this`isOpen, this`pt, channels
      ensures Valid() && Model() == AfterStores(was, k + 3)
    {
      NextStore(k, was);
      NextStore(k + 1, was);
      NextStore(k + 2, was);
    }

    /** rtss_close, with no interrupt in between. */
    method Close()
      requires Valid()
      modifies this`isOpen, this`pt, channels
      ensures Valid() && Model() == TimerModel.Close(old(Model()))
    {
      ghost var was := Model();
      for i := 0 to 8
        invariant Valid() && Model() == AfterStores(was, 3 * i)
      {
        ReleaseChannel(3 * i, was);
      }
      NextStore(STORES - 2, was);
      NextStore(STORES - 1, was);
      StoresAreClose(was);
    }

    method PtDisable()
      modifies this`pt
      ensures pt == old(pt).(enabled := false)
    {
      pt := pt.(enabled := false);
    }

    method PtArmDelta(delta: int64, armNow: int)
      requires 1 <= delta && delta * PERIPHCLK <= INT64_MAX
      modifies this`pt
      ensures pt == Pt(true, NsToPtLoad(delta), armNow)
    {
      var product: int64 := delta * PERIPHCLK;
      var load: int64 := product / NS_PER_SEC;
      if load < 1 { load := 1; }
      if load > UINT32_MAX { load := UINT32_MAX; }
      var reg: uint32 := load;
      pt := Pt(true, reg, armNow);
    }

    method PtArmAbsolute(target: int64, armNow: int64)
      requires -INT64_MAX <= target - armNow && (target - armNow) * PERIPHCLK <= INT64_MAX
      modifies this`pt
      ensures pt == ArmAbsolute(target, armNow)
    {
      var delta: int64 := target - armNow;
      if delta < 1 { delta := 1; }
      PtArmDelta(delta, armNow);
    }

    /** The first channel with the least expiry among the active ones, or -1. */
    method FindNearestExpiration() returns (nearestCh: int, nearest: int)
      requires Valid()
      ensures nearest == Nearest(channels[..])
      ensures nearestCh == -1 <==> nearest == INT64_MAX
      ensures nearestCh != -1 ==>
                && 0 <= nearestCh < CHANNELS
                && channels[nearestCh].active && channels[nearestCh].nextFire == nearest
                && (forall j :: 0 <= j < CHANNELS && channels[j].active ==> nearest <= channels[j].nextFire)
                && (forall j :: 0 <= j < nearestCh && channels[j].active ==> nearest < channels[j].nextFire)
    {
      nearestCh := -1;
      nearest := INT64_MAX;
      for i := 0 to 8
        invariant nearest == Nearest(channels[..i]) <= INT64_MAX
        invariant nearestCh == -1 <==> nearest == INT64_MAX
        invariant nearestCh != -1 ==>
                    && 0 <= nearestCh < i
                    && channels[nearestCh].active && channels[nearestCh].nextFire == nearest
                    && (forall j :: 0 <= j < i && channels[j].active ==> nearest <= channels[j].nextFire)
                    && (forall j :: 0 <= j < nearestCh && channels[j].active ==> nearest < channels[j].nextFire)
        invariant nearestCh == -1 ==> forall j :: 0 <= j < i && channels[j].active ==> nearest <= channels[j].nextFire
      {
        assert channels[..i + 1][..i] == channels[..i];
        if channels[i].active && channels[i].nextFire < nearest {
          nearest := channels[i].nextFire;
          nearestCh := i;
        }
      }
      assert channels[..8] == channels[..];
    }

    method RearmPt(armNow: int64)
      requires Valid() && ArmSafe(channels[..], armNow)
      modifies this`pt
      ensures pt == Rearm(channels[..], old(pt), armNow)
    {
      var ch, nearest := FindNearestExpiration();
      if ch < 0 {
        PtDisable();
        return;
      }
      LoadArithmetic.LoadExactly(Max(0, nearest - armNow));
      var target: int64 := nearest;
      PtArmAbsolute(target, armNow);
    }

    /** The inner loop of the handler: step one channel along its grid until it lies in the future. */
    method SkipMissed(i: int, now: int64)
      requires Valid() && 0 <= i < CHANNELS
      requires channels[i].nextFire <= now ==> channels[i].period > 0 && now + channels[i].period <= INT64_MAX
      modifies channels
      ensures Valid()
      ensures channels[i] == old(channels[i]).(nextFire :=
                  Advance(old(channels[i]).nextFire, old(channels[i]).period, now))
      ensures forall j :: 0 <= j < CHANNELS && j != i ==> channels[j] == old(channels[j])
    {
      ghost var ch := channels[i];
      while channels[i].nextFire <= now
        invariant channels[i] == ch.(nextFire := channels[i].nextFire) && FitsInt64(channels[i])
        invariant forall j :: 0 <= j < CHANNELS && j != i ==> channels[j] == old(channels[j])
        invariant Advance(channels[i].nextFire, ch.period, now) == Advance(ch.nextFire, ch.period, now)
        decreases now - channels[i].nextFire
      {
        var next: int64 := channels[i].nextFire + channels[i].period;
        channels[i] := channels[i].(nextFire := next);
      }
    }

    /** One turn of the handler's channel loop. */
    method ServeChannel(i: int, now: int64)
      requires Valid() && 0 <= i < CHANNELS
      requires Due(channels[i], now) ==> channels[i].period > 0 && now + channels[i].period <= INT64_MAX
      modifies this`sent, channels, fireNs
      ensures Valid()
      ensures channels[i] == IsrChannel(old(channels[i]), now)
      ensures forall j :: 0 <= j < CHANNELS && j != i ==> channels[j] == old(channels[j])
      ensures fireNs[..] == if Due(old(channels[i]), now) then old(fireNs[..])[i := now] else old(fireNs[..])
      ensures sent == old(sent) + if Due(old(channels[i]), now)
                                  then [Event(i, old(channels[i]).target, old(channels[i]).nextFire, now)] else []
    {
      var ch := channels[i];
      if !ch.active || ch.target == NONE { return; }
      if ch.nextFire <= now {
        fireNs[i] := now;
        sent := sent + [Event(i, ch.target, ch.nextFire, now)];
        SkipMissed(i, now);
      }
    }

    /** The handler's loop over the channels. */
    method ServeChannels(now: int64)
      requires Valid()
      requires forall i :: 0 <= i < CHANNELS && Due(channels[i], now) ==>
                 channels[i].period > 0 && now + channels[i].period <= INT64_MAX
      modifies this`sent, channels, fireNs
      ensures Valid()
      ensures channels[..] == IsrChannels(old(channels[..]), now)
      ensures fireNs[..] == IsrFireNs(old(channels[..]), old(fireNs[..]), now)
      ensures sent == old(sent) + IsrEvents(old(channels[..]), now)
    {
      ghost var was := channels[..];
      ghost var wasFire := fireNs[..];
      for i := 0 to 8
        invariant Valid()
        invariant forall j :: 0 <= j < i ==> channels[j] == IsrChannel(was[j], now)
        invariant forall j :: i <= j < 8 ==> channels[j] == was[j]
        invariant forall j :: 0 <= j < i ==> fireNs[j] == if Due(was[j], now) then now else wasFire[j]
        invariant forall j :: i <= j < 8 ==> fireNs[j] == wasFire[j]
        invariant sent == old(sent) + IsrEvents(was[..i], now)
      {
        assert was[..i + 1][..i] == was[..i];
        ServeChannel(i, now);
      }
      assert was[..8] == was;
    }

    /** pt_isr: `now` is read once at entry, `armNow` when the timer is re-armed. */
    method PtIsr(now: int64, armNow: int64)
      requires Valid() && IsrSafe(Model(), now, armNow)
      modifies this`pt, this`sent, channels, fireNs
      ensures Valid() && Model() == Isr(old(Model()), now, armNow)
    {
      ServeChannels(now);
      RearmPt(armNow);
    }

    /** rtss_control. */
    method Control(cmd: Command, tps: uint32, now: int64, armNow: int64) returns (status: Status)
      requires Valid() && ControlSafe(Model(), cmd, now, armNow)
      modifies this`pt, channels
      ensures Valid() && (Model(), status) == TimerModel.Control(old(Model()), cmd, tps, now, armNow)
    {
      match cmd
      case SetMode =>
        return Successful;
      case NullBuffer =>
        return InvalidAddress;
      case Unknown =>
        return NotDefined;
      case SetPeriod(ch, ticks) =>
        if ch < 0 || ch >= CHANNELS { return InvalidNumber; }
        if tps == 0 { return NotDefined; }
        LoadArithmetic.TicksToNsFits(ticks, tps);
        var product: int64 := ticks * NS_PER_SEC;
        var period: int64 := product / tps;
        channels[ch] := channels[ch].(period := period);
        return Successful;
      case SetPeriodNs(ch, ns) =>
        if ch < 0 || ch >= CHANNELS { return InvalidNumber; }
        if ns < MIN_PERIOD_NS { return InvalidNumber; }
        if ns > MAX_PERIOD_NS { return InvalidNumber; }
        channels[ch] := channels[ch].(period := ns);
        return Successful;
      case Start(ch) =>
        if ch < 0 || ch >= CHANNELS { return InvalidNumber; }
        if channels[ch].period == 0 { return NotDefined; }
        channels[ch] := channels[ch].(active := true);
        var first: int64 := now + channels[ch].period;
        channels[ch] := channels[ch].(nextFire := first);
        assert channels[..] == StartChannel(old(Model()), ch, now, armNow).channels;
        RearmPt(armNow);
        return Successful;
      case Stop(ch) =>
        if ch < 0 || ch >= CHANNELS { return InvalidNumber; }
        channels[ch] := channels[ch].(active := false);
        channels[ch] := channels[ch].(nextFire := INT64_MAX);
        assert channels[..] == StopChannel(old(Model()), ch, armNow).channels;
        RearmPt(armNow);
        return Successful;
      case SetTask(ch, task) =>
        if ch < 0 || ch >= CHANNELS { return InvalidNumber; }
        channels[ch] := channels[ch].(target := task);
        return Successful;
    }
  }
}
