/** The cross-structure invariant is kept by every event, whatever the devices ask and answer. */
module Structure {
  import opened Types
  import opened FuncQueue
  import opened TxList
  import opened ChannelModem
  import opened Device
  import opened Phy
  import opened Invariant

  // ---------------------------------------------------------------- one device

  /** The device has just ended the simulation. */
  predicate EndedBy(l: Loc) { l.dev.log.Snoc? && l.dev.log.last.Ended? && l.active == 0 }

  /** What one handler does to the list of transmissions. */
  ghost predicate ListStep(l: TxL, k: TxL, d: nat)
  {
    && d < |l.els| == |k.els|
    && (forall i :: 0 <= i < |l.els| && i != d ==> k.els[i] == l.els[i])
    && (IsGreatestOn(l.els, l.maxTx) ==> IsGreatestOn(k.els, k.maxTx))
    && l.ctr <= k.ctr
    && (l.ctr == k.ctr ==> Active(l.els) == Active(k.els))
  }

  ghost predicate CoreStep(l: Loc, r: Loc, d: nat)
    requires Fits(l, d) && Fits(r, d)
  {
    && ListStep(l.txl, r.txl, d)
    && (r.halted || EndedBy(r)
        || (Core(r.txl.els[d], r.dev) && r.active == l.active - (if r.dev.ev.kind == NoEvent then 1 else 0)))
  }

  lemma ListOps(l: TxL, d: nat, t: TxReq, packet: bool, ab: Abort)
    requires d < |l.els| && -1 <= l.maxTx < |l.els|
    ensures ListStep(l, l, d)
    ensures !l.els[d].used.On() ==> ListStep(l, l.Register(d, t, packet), d)
    ensures ListStep(l, l.StartTx(d), d)
    ensures l.els[d].used.On() ==> ListStep(l, l.StartPacket(d), d) && ListStep(l, l.EndPacket(d), d)
    ensures ListStep(l, l.SetAbort(d, ab), d)
    ensures ListStep(l, l.Clear(d), d)
  {
    CounterGuardsActive(l, d, t, packet, ab);
    if IsGreatestOn(l.els, l.maxTx) {
      GreatestKept(l, d, t, packet, ab);
    }
  }

  lemma ListStepTrans(a: TxL, b: TxL, c: TxL, d: nat)
    requires ListStep(a, b, d) && ListStep(b, c, d)
    ensures ListStep(a, c, d)
  {
  }

  /** A device which is neither transmitting nor searching. */
  predicate Quiet(l: Loc, d: nat)
    requires Fits(l, d)
  {
    !l.txl.els[d].used.On() && !l.txl.els[d].packet && !l.dev.rx.searching
  }

  /** A quiet device reads its next request. */
  lemma HandleNextCore(m: Model, now: nat, d: nat, l: Loc, q: Request)
    requires Fits(l, d) && Quiet(l, d)
    ensures CoreStep(l, HandleNext(m, now, d, l, q), d)
  {
    hide PrepareTx, PrepareRx, PrepareCca, ListStep;
    var l1 := Emit(l, Asked(now, q));
    ListOps(l.txl, d, NO_TX, false, NO_TX.ab);
    match q
    case Tx(t) => PrepareTxCore(now, d, l1, MapTxV1(t));
    case TxV2(t) => PrepareTxCore(now, d, l1, t);
    case Rx(r) => PrepareRxCore(now, d, l1, MapRxV1(r));
    case RxV2(r) => PrepareRxCore(now, d, l1, r);
    case CcaScan(c) => PrepareCcaCore(m, now, d, l1, c);
    case _ =>
  }

  lemma PrepareTxCore(now: nat, d: nat, l: Loc, t: TxReq)
    requires Fits(l, d) && Quiet(l, d)
    ensures CoreStep(l, PrepareTx(now, d, l, t), d)
  {
    ListOps(l.txl, d, t, t.size > 0, NO_TX.ab);
  }

  lemma PrepareRxCore(now: nat, d: nat, l: Loc, r: RxReq)
    requires Fits(l, d) && Quiet(l, d)
    ensures CoreStep(l, PrepareRx(now, l, r), d)
  {
    ListOps(l.txl, d, NO_TX, false, NO_TX.ab);
  }

  lemma PrepareCcaCore(m: Model, now: nat, d: nat, l: Loc, c: CcaReq)
    requires Fits(l, d) && Quiet(l, d)
    ensures CoreStep(l, PrepareCca(m, now, l, c), d)
  {
    ListOps(l.txl, d, NO_TX, false, NO_TX.ab);
  }

  lemma AbortReevalCore(m: Config, now: nat, d: nat, l: Loc, e: Env)
    requires now < TIME_NEVER && Fits(l, d) && Core(l.txl.els[d], l.dev) && TxOnKind(l.dev.ev.kind)
    ensures CoreStep(l, TxAbortReevaluated(m, now, d, l, e), d)
  {
    hide ListStep, ImmediateRssis, Active, Goes, KeepsAligned;
    var p := PickAbort(m.world, now, d, l, e.reply);
    match p.ab
    case Some(ab) => ListOps(l.txl, d, NO_TX, false, ab);
    case None => ListOps(l.txl, d, NO_TX, false, NO_TX.ab);
  }

  lemma TxPacketEndCore(m: Config, now: nat, d: nat, l: Loc)
    requires now < TIME_NEVER && Fits(l, d) && Core(l.txl.els[d], l.dev) && TxOnKind(l.dev.ev.kind)
    ensures CoreStep(l, TxPacketEnded(m, now, d, l), d)
  {
    ListOps(l.txl, d, NO_TX, false, NO_TX.ab);
  }

  lemma TxEndCore(m: Model, now: nat, d: nat, l: Loc, e: Env)
    requires now < TIME_NEVER && Fits(l, d) && Core(l.txl.els[d], l.dev) && TxOnKind(l.dev.ev.kind)
    ensures CoreStep(l, TxEnded(m, now, d, l, e), d)
  {
    ListOps(l.txl, d, NO_TX, false, NO_TX.ab);
    var l1 := Emit(l.(txl := l.txl.Clear(d)), TxReply(now));
    HandleNextCore(m, now, d, l1, e.next);
    ListStepTrans(l.txl, l1.txl, TxEnded(m, now, d, l, e).txl, d);
  }

  lemma OtherHandlersCore(m: Config, now: nat, d: nat, l: Loc, e: Env)
    requires now < TIME_NEVER && Fits(l, d) && Core(l.txl.els[d], l.dev) && !TxOnKind(l.dev.ev.kind)
    requires l.dev.ev.kind !in {NoEvent, TxStart}
    ensures CoreStep(l, Handle(m, now, d, l, e), d)
  {
    hide TxEnded, AfterRssi, AfterSyncCheck, AfterBitErrors, ListStep;
    ListOps(l.txl, d, NO_TX, false, NO_TX.ab);
    match l.dev.ev.kind
    case WaitDone => HandleNextCore(m.world, now, d, Emit(l, WaitReply(now)), e.next);
    case RssiMeas =>
      var l1 := Measure(m.world, now, d, l, l.dev.rssi.gain, l.dev.rssi.radio).0;
      HandleNextCore(m.world, now, d, Emit(l1, RssiReply(now)), e.next);
    case CcaMeas => CcaCore(m.world, now, d, l, e);
    case RxFound =>
    case RxSync => SyncCore(m.world, now, d, l, e);
    case RxHeader => HeaderCore(m.world, now, d, l, e);
    case RxPayload => PayloadCore(m.world, now, d, l, e);
    case RxSearchReeval => SearchReevalCore(m.world, now, d, l, e);
    case RxSearchStart => SearchStartCore(m.world, now, d, l, e);
  }

  lemma CcaCore(m: Model, now: nat, d: nat, l: Loc, e: Env)
    requires now < TIME_NEVER && Fits(l, d) && Core(l.txl.els[d], l.dev) && l.dev.ev.kind == CcaMeas
    ensures CoreStep(l, CcaMeasured(m, now, d, l, e), d)
  {
    hide HandleNext, CcaSampled, ListStep, AfterRssi, Active, Goes, KeepsAligned;
    ListOps(l.txl, d, NO_TX, false, NO_TX.ab);
    var c := CcaRecheck(m, now, d, l, e);
    if !c.quit {
      var l1 := if now >= c.l.dev.cca.nextMeas then CcaSample(m, now, d, c.l) else c.l;
      HandleNextCore(m, now, d, Emit(l1, CcaReply(now, l1.dev.cca.done, l1.dev.cca.samples)), e.next);
    }
  }

  lemma ScanEndedCore(m: Model, now: nat, d: nat, l: Loc, e: Env)
    requires Fits(l, d) && !l.txl.els[d].used.On() && !l.txl.els[d].packet
    ensures CoreStep(l, ScanEnded(m, now, d, l, e), d)
  {
    var rx := l.dev.rx;
    var l1 := if rx.req.ab.abort != now then Measure(m, now, d, l, rx.req.gain, rx.req.radio).0 else l;
    HandleNextCore(m, now, d, Emit(SetRx(l1, rx.(searching := false)), RxReply(now, NoSync, [])), e.next);
  }

  lemma SearchStartCore(m: Model, now: nat, d: nat, l: Loc, e: Env)
    requires now < TIME_NEVER && Fits(l, d) && Core(l.txl.els[d], l.dev) && l.dev.ev.kind == RxSearchStart
    ensures CoreStep(l, SearchStarted(m, now, d, l, e), d)
  {
    ListOps(l.txl, d, NO_TX, false, NO_TX.ab);
    var c := RxRecheck(m, now, d, l, e, true);
    if !c.quit {
      SearchFromCore(m, now, d, c.l, e);
    }
  }

  lemma SearchFromCore(m: Model, now: nat, d: nat, l: Loc, e: Env)
    requires now < TIME_NEVER && Fits(l, d) && Core(l.txl.els[d], l.dev) && l.dev.ev.kind == RxSearchStart
    ensures CoreStep(l, SearchFrom(m, now, d, l, e), d)
  {
    ListOps(l.txl, d, NO_TX, false, NO_TX.ab);
  }

  lemma SearchReevalCore(m: Model, now: nat, d: nat, l: Loc, e: Env)
    requires now < TIME_NEVER && Fits(l, d) && Core(l.txl.els[d], l.dev) && l.dev.ev.kind == RxSearchReeval
    ensures CoreStep(l, SearchReevaluated(m, now, d, l, e), d)
  {
    hide ScanEnded, ImmediateRssis, ListStep;
    ListOps(l.txl, d, NO_TX, false, NO_TX.ab);
    var c := RxRecheck(m, now, d, l, e, true);
    if !c.quit {
      ScanEndedCore(m, now, d, c.l, e);
    }
  }

  lemma SyncCore(m: Model, now: nat, d: nat, l: Loc, e: Env)
    requires now < TIME_NEVER && Fits(l, d) && Core(l.txl.els[d], l.dev) && l.dev.ev.kind == RxSync
    ensures CoreStep(l, Synchronized(m, now, d, l, e), d)
  {
    ListOps(l.txl, d, NO_TX, false, NO_TX.ab);
    var c := RxRecheck(m, now, d, l, e, true);
    if !c.quit {
      SyncFromCore(m, now, d, c.l, e);
    }
  }

  lemma SyncFromCore(m: Model, now: nat, d: nat, l: Loc, e: Env)
    requires now < TIME_NEVER && Fits(l, d) && Core(l.txl.els[d], l.dev) && l.dev.ev.kind == RxSync
    ensures CoreStep(l, SyncFrom(m, now, d, l, e), d)
  {
    hide ScanEnded, SyncSampled, ListStep;
    ListOps(l.txl, d, NO_TX, false, NO_TX.ab);
    ScanEndedCore(m, now, d, l, e);
    SyncSampledCore(m, now, d, l, e);
  }

  lemma SyncSampledCore(m: Model, now: nat, d: nat, l: Loc, e: Env)
    requires now < TIME_NEVER && Fits(l, d) && Core(l.txl.els[d], l.dev) && l.dev.ev.kind == RxSync
    ensures CoreStep(l, SyncSampled(m, now, d, l, e), d)
  {
    hide OfferPacket, DrawErrors, IsGreatestOn, Live, Active, ListStep;
    ListOps(l.txl, d, NO_TX, false, NO_TX.ab);
    OfferCore(m, now, d, DrawErrors(m, now, d, l, e), e);
  }

  lemma OfferCore(m: Model, now: nat, d: nat, l: Loc, e: Env)
    requires now < TIME_NEVER && Fits(l, d) && Core(l.txl.els[d], l.dev) && l.dev.ev.kind == RxSync
    ensures CoreStep(l, OfferPacket(m, now, d, l, e), d)
  {
    hide Goes, KeepsAligned, IsGreatestOn, Live, Active, ListStep;
    ListOps(l.txl, d, NO_TX, false, NO_TX.ab);
    var rx := l.dev.rx;
    var l1 := Measure(m, now, d, l, rx.req.gain, rx.req.radio).0;
    var l2 := Emit(SetRx(l1, rx.(biterrors := 0, errs := [])), AddressFound(now, rx.errs));
    HandleNextCore(m, now, d, Emit(l2, Stopped(now)), e.next);
  }

  lemma RxFinishedCore(m: Model, now: nat, d: nat, l: Loc, e: Env, result: RxResult)
    requires now < TIME_NEVER && Fits(l, d) && Core(l.txl.els[d], l.dev) && l.dev.ev.kind in {RxHeader, RxPayload}
    ensures CoreStep(l, RxFinished(m, now, d, l, e, result), d)
  {
    HandleNextCore(m, now, d, Emit(l, RxReply(now, result, l.dev.rx.errs)), e.next);
  }

  lemma HeaderCore(m: Model, now: nat, d: nat, l: Loc, e: Env)
    requires now < TIME_NEVER && Fits(l, d) && Core(l.txl.els[d], l.dev) && l.dev.ev.kind == RxHeader
    ensures CoreStep(l, HeaderReceived(m, now, d, l, e), d)
  {
    ListOps(l.txl, d, NO_TX, false, NO_TX.ab);
    var c := RxRecheck(m, now, d, l, e, false);
    if !c.quit {
      PacketFromCore(m, now, d, DrawErrors(m, now, d, c.l, e), e);
    }
  }

  lemma PayloadCore(m: Model, now: nat, d: nat, l: Loc, e: Env)
    requires now < TIME_NEVER && Fits(l, d) && Core(l.txl.els[d], l.dev) && l.dev.ev.kind == RxPayload
    ensures CoreStep(l, PayloadReceived(m, now, d, l, e), d)
  {
    ListOps(l.txl, d, NO_TX, false, NO_TX.ab);
    var c := RxRecheck(m, now, d, l, e, false);
    if !c.quit {
      PacketFromCore(m, now, d, DrawErrors(m, now, d, c.l, e), e);
    }
  }

  lemma PacketFromCore(m: Model, now: nat, d: nat, l: Loc, e: Env)
    requires now < TIME_NEVER && Fits(l, d) && Core(l.txl.els[d], l.dev) && l.dev.ev.kind in {RxHeader, RxPayload}
    ensures CoreStep(l, HeaderFrom(m, now, d, l, e), d)
    ensures CoreStep(l, PayloadFrom(m, now, d, l, e), d)
  {
    hide IsGreatestOn, Live, Active, Goes, KeepsAligned, HandleNext, ListStep;
    ListOps(l.txl, d, NO_TX, false, NO_TX.ab);
    RxFinishedCore(m, now, d, l, e, HeaderError);
    RxFinishedCore(m, now, d, l, e, ContentError);
    RxFinishedCore(m, now, d, l, e, RxOk);
  }

  // ---------------------------------------------------------------- all devices

  lemma {:induction false} LiveUpdate(devs: seq<Dev>, d: nat, dev: Dev)
    requires d < |devs|
    ensures Live(devs[d := dev]) + (if devs[d].ev.kind == NoEvent then 0 else 1)
            == Live(devs) + (if dev.ev.kind == NoEvent then 0 else 1)
  {
    var last := |devs| - 1;
    if d == last {
      assert devs[d := dev][..last] == devs[..last];
    } else {
      assert devs[d := dev][..last] == devs[..last][d := dev];
      LiveUpdate(devs[..last], d, dev);
    }
  }

  lemma {:induction false} LiveSame(devs: seq<Dev>, devs': seq<Dev>)
    requires |devs| == |devs'|
    requires forall i :: 0 <= i < |devs| ==> (devs[i].ev.kind == NoEvent <==> devs'[i].ev.kind == NoEvent)
    ensures Live(devs) == Live(devs')
  {
    if |devs| > 0 {
      LiveSame(devs[..|devs| - 1], devs'[..|devs| - 1]);
    }
  }

  /** One device changed as a handler may change it. */
  lemma PutStructured(s: State, d: nat, r: Loc)
    requires Structured(s) && d < |s.devs| && s.devs[d].ev.kind != NoEvent
    requires Fits(r, d) && CoreStep(Get(s, d), r, d)
    ensures r.halted || EndedBy(r) || Structured(Put(s, d, r))
  {
    LiveUpdate(s.devs, d, r.dev);
  }

  /** A packet start moves receivers from searching to found, and touches no other event. */
  lemma ActivateStructured(s: State, t: TxReq, tx: nat)
    requires Structured(s) && s.now <= TIME_NEVER
    ensures Structured(ActivateAll(s, t, tx))
  {
    var r := ActivateAll(s, t, tx);
    LiveSame(s.devs, r.devs);
  }

  /** The device which starts transmitting, with its list element and event updated. */
  lemma TxStartCore(m: Config, now: nat, d: nat, l: Loc)
    requires now < TIME_NEVER && Fits(l, d) && Core(l.txl.els[d], l.dev) && l.dev.ev.kind == TxStart
    ensures CoreStep(l, TxSchedule(m, now, d, TxStarted(now, d, l)), d)
  {
    ListOps(l.txl, d, NO_TX, false, NO_TX.ab);
    var k := l.txl.StartTx(d);
    ListOps(k, d, NO_TX, false, NO_TX.ab);
    ListStepTrans(l.txl, k, k.StartPacket(d), d);
    ScheduledKind(m, now, d, TxStarted(now, d, l));
  }

  lemma TxPacketStartCore(m: Config, now: nat, d: nat, l: Loc)
    requires now < TIME_NEVER && Fits(l, d) && Core(l.txl.els[d], l.dev) && l.dev.ev.kind == TxPacketStart
    ensures CoreStep(l, TxSchedule(m, now, d, l.(txl := l.txl.StartPacket(d))), d)
  {
    ListOps(l.txl, d, NO_TX, false, NO_TX.ab);
    ScheduledKind(m, now, d, l.(txl := l.txl.StartPacket(d)));
  }

  lemma ScheduledKind(m: Config, now: nat, d: nat, l: Loc)
    requires now < TIME_NEVER && Fits(l, d)
    ensures var r := TxSchedule(m, now, d, l);
      TxOnKind(r.dev.ev.kind) && r.dev.ev.time <= TIME_NEVER && r == l.(dev := l.dev.(ev := r.dev.ev))
  {
  }

  lemma PutTwice(s: State, d: nat, a: Loc, b: Loc)
    requires Sized(s) && d < |s.devs| && Fits(a, d) && Fits(b, d)
    requires |a.txl.els| == |s.devs| == |b.txl.els|
    ensures Put(Put(s, d, a), d, b) == Put(s, d, b)
    ensures Get(Put(s, d, a), d) == a
  {
  }

  /** Activating receivers commutes with an update of the transmitting device, which is not one of
      them. */
  lemma ActivateOthers(s: State, d: nat, l: Loc, t: TxReq)
    requires Sized(s) && d < |s.devs| && Fits(l, d) && |l.txl.els| == |s.devs|
    requires !s.devs[d].rx.searching && !l.dev.rx.searching
    ensures ActivateAll(Put(s, d, l), t, d) == Put(ActivateAll(s, t, d), d, l)
  {
    assert ActivateAll(Put(s, d, l), t, d).devs == Put(ActivateAll(s, t, d), d, l).devs;
  }

  /** The two packet-starting events, as one activation and one update. */
  lemma StartEvents(m: Config, s: State, d: nat)
    requires Sized(s) && d < |s.devs| && !s.devs[d].rx.searching
    ensures var l := Get(s, d);
      var t := s.txl.els[d].tx;
      && TxStartEvent(m, s, d) ==
         Put(if s.now >= t.startPacket then ActivateAll(s, t, d) else s, d,
             TxSchedule(m, s.now, d, TxStarted(s.now, d, l)))
      && TxPacketStartEvent(m, s, d) ==
         Put(ActivateAll(s, t, d), d, TxSchedule(m, s.now, d, l.(txl := l.txl.StartPacket(d))))
  {
    var l := Get(s, d);
    var t := s.txl.els[d].tx;
    var a := TxStarted(s.now, d, l);
    var b := TxSchedule(m, s.now, d, a);
    ActivateOthers(s, d, a, t);
    PutTwice(s, d, a, b);
    PutTwice(ActivateAll(s, t, d), d, a, b);
    var c := l.(txl := l.txl.StartPacket(d));
    ActivateOthers(s, d, c, t);
    assert s.(txl := c.txl).devs == Put(s, d, c).devs;
    assert s.(txl := c.txl) == Put(s, d, c);
    PutTwice(ActivateAll(s, t, d), d, c, TxSchedule(m, s.now, d, c));
  }

  /** Every handler which touches no other device. */
  lemma HandleCore(m: Config, now: nat, d: nat, l: Loc, e: Env)
    requires now < TIME_NEVER && Fits(l, d) && Core(l.txl.els[d], l.dev)
    requires l.dev.ev.kind !in {NoEvent, TxStart, TxPacketStart}
    ensures CoreStep(l, Handle(m, now, d, l, e), d)
  {
    hide WaitFinished, TxEnded, CcaMeasured, RssiMeasured, FoundTx, Synchronized, HeaderReceived, PayloadReceived,
      SearchReevaluated, SearchStarted, TxAbortReevaluated, TxPacketEnded, ListStep;
    var k := l.dev.ev.kind;
    if k == TxAbortReeval {
      AbortReevalCore(m, now, d, l, e);
    } else if k == TxPacketEnd {
      TxPacketEndCore(m, now, d, l);
    } else if k == TxEnd {
      TxEndCore(m.world, now, d, l, e);
    } else {
      OtherHandlersCore(m, now, d, l, e);
    }
  }

  lemma DispatchStructured(m: Config, s: State, d: nat, e: Env)
    requires Structured(s) && d < |s.devs| && s.now < TIME_NEVER && s.devs[d].ev.kind != NoEvent
    ensures var r := Dispatch(m, s, d, e); r.halted || r.active <= 0 || Structured(r)
  {
    hide Handle, CoreStep, IsGreatestOn, Live, Active, ListStep;
    var k := s.devs[d].ev.kind;
    if k == TxStart || k == TxPacketStart {
      StartStructured(m, s, d);
    } else {
      HandleCore(m, s.now, d, Get(s, d), e);
      PutStructured(s, d, Handle(m, s.now, d, Get(s, d), e));
    }
  }

  lemma StartStructured(m: Config, s: State, d: nat)
    requires Structured(s) && d < |s.devs| && s.now < TIME_NEVER
    ensures s.devs[d].ev.kind == TxStart ==> Structured(TxStartEvent(m, s, d)) || s.halted || s.active <= 0
    ensures s.devs[d].ev.kind == TxPacketStart ==> Structured(TxPacketStartEvent(m, s, d)) || s.halted || s.active <= 0
  {
    if s.devs[d].ev.kind in {TxStart, TxPacketStart} && !s.halted && s.active > 0 {
      var l := Get(s, d);
      var t := s.txl.els[d].tx;
      StartEvents(m, s, d);
      ActivateStructured(s, t, d);
      var s1 := ActivateAll(s, t, d);
      assert Get(s1, d) == l;
      if s.devs[d].ev.kind == TxStart {
        TxStartCore(m, s.now, d, l);
        PutStructured(s, d, TxSchedule(m, s.now, d, TxStarted(s.now, d, l)));
        PutStructured(s1, d, TxSchedule(m, s.now, d, TxStarted(s.now, d, l)));
      } else {
        TxPacketStartCore(m, s.now, d, l);
        PutStructured(s1, d, TxSchedule(m, s.now, d, l.(txl := l.txl.StartPacket(d))));
      }
    }
  }

  /** The new state of the device whose event is dispatched. */
  function NewLoc(m: Config, s: State, d: nat, e: Env): (r: Loc)
    requires Sized(s) && d < |s.devs|
    ensures Fits(r, d) && |r.txl.els| == |s.devs|
  {
    var l := Get(s, d);
    match s.devs[d].ev.kind
    case TxStart => TxSchedule(m, s.now, d, TxStarted(s.now, d, l))
    case TxPacketStart => TxSchedule(m, s.now, d, l.(txl := l.txl.StartPacket(d)))
    case _ => Handle(m, s.now, d, l, e)
  }

  lemma NewLocCore(m: Config, s: State, d: nat, e: Env)
    requires Sized(s) && d < |s.devs| && Core(s.txl.els[d], s.devs[d])
    requires s.now < TIME_NEVER && s.devs[d].ev.kind != NoEvent
    ensures CoreStep(Get(s, d), NewLoc(m, s, d, e), d)
  {
    hide Handle, TxSchedule, TxStarted, IsGreatestOn, Live, Active, ListStep;
    var k := s.devs[d].ev.kind;
    if k == TxStart {
      TxStartCore(m, s.now, d, Get(s, d));
    } else if k == TxPacketStart {
      TxPacketStartCore(m, s.now, d, Get(s, d));
    } else {
      HandleCore(m, s.now, d, Get(s, d), e);
    }
  }

  /** What one event does to another device. */
  ghost predicate OtherStep(s: State, k: State, d: nat, j: nat)
    requires d < |s.devs| && j < |s.devs| == |k.devs|
  {
    || k.devs[j] == s.devs[j]
    || (s.devs[d].ev.kind in {TxStart, TxPacketStart} && s.devs[j].ev.kind == RxSearchReeval
        && k.devs[j] == s.devs[j].(ev := Entry(s.now, RxFound), rx := k.devs[j].rx))
  }

  lemma DispatchOther(m: Config, s: State, d: nat, e: Env, j: nat)
    requires Structured(s) && d < |s.devs| && j < |s.devs| && j != d
    ensures OtherStep(s, Dispatch(m, s, d, e), d, j)
  {
    hide Handle, TxSchedule, TxStarted, IsGreatestOn, Live, Active, Match;
    assert Core(s.txl.els[d], s.devs[d]) && Core(s.txl.els[j], s.devs[j]);
    if s.devs[d].ev.kind in {TxStart, TxPacketStart} {
      StartEvents(m, s, d);
    }
  }

  /** What one event changes: its own device, the list of transmissions, and perhaps some searching
      receivers, which are found at once. */
  lemma DispatchShape(m: Config, s: State, d: nat, e: Env)
    requires Structured(s) && d < |s.devs| && s.devs[d].ev.kind != NoEvent
    ensures var k, r := Dispatch(m, s, d, e), NewLoc(m, s, d, e);
      && k.now == s.now && k.active == r.active && k.halted == r.halted && k.txl == r.txl
      && k.devs[d] == r.dev
      && forall j :: 0 <= j < |s.devs| && j != d ==>
           k.devs[j] == s.devs[j]
           || (s.devs[d].ev.kind in {TxStart, TxPacketStart} && s.devs[j].ev.kind == RxSearchReeval
               && k.devs[j] == s.devs[j].(ev := Entry(s.now, RxFound), rx := k.devs[j].rx))
  {
    hide Handle, TxSchedule, TxStarted, IsGreatestOn, Live, Active, Match;
    assert Core(s.txl.els[d], s.devs[d]);
    if s.devs[d].ev.kind in {TxStart, TxPacketStart} {
      StartEvents(m, s, d);
    }
    forall j: nat | j < |s.devs| && j != d
      ensures OtherStep(s, Dispatch(m, s, d, e), d, j)
    {
      DispatchOther(m, s, d, e, j);
    }
  }

  /** At the loop head the current time is that of the next event. */
  predicate AtNext(s: State)
    requires Sized(s)
  {
    s.now == s.devs[Next(Entries(s))].ev.time
  }

  /** The running loop only ever dispatches a registered handler, and every event leaves the four
      structures in agreement, or ends the simulation. */
  lemma StepStructured(m: Config, s: State, e: Env)
    requires Structured(s) && AtNext(s) && Running(m, s)
    ensures s.devs[Next(Entries(s))].ev.kind != NoEvent
    ensures AtNext(Step(m, s, e))
    ensures var r := Step(m, s, e); r.halted || r.active <= 0 || Structured(r)
  {
    DispatchStructured(m, s, Next(Entries(s)), e);
  }

  /** The transmission counter only grows, and while it stands still so does the air. */
  lemma StepCounter(m: Config, s: State, e: Env)
    requires Structured(s) && AtNext(s) && Running(m, s)
    ensures var r := Step(m, s, e);
      s.txl.ctr <= r.txl.ctr && (s.txl.ctr == r.txl.ctr ==> Active(s.txl.els) == Active(r.txl.els))
  {
    var d := Next(Entries(s));
    StepStructured(m, s, e);
    NewLocCore(m, s, d, e);
    DispatchShape(m, s, d, e);
  }
}
