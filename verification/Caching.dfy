/** The cached bit error rate of every reception is that of the present air. */
module Caching {
  import opened Types
  import opened FuncQueue
  import opened TxList
  import opened ErrorCalc
  import opened ChannelModem
  import opened Device
  import opened Phy
  import opened Invariant
  import opened Structure

  ghost predicate SoundAt(m: Model, d: nat, l: Loc)
  {
    Sound(m, l.dev.rec, l.txl.ctr, Active(l.txl.els), d)
  }

  ghost predicate CoherentAt(m: Model, d: nat, l: Loc)
  {
    Coherent(m, l.dev.rec, l.txl.ctr, Active(l.txl.els), l.dev.rx.req, l.dev.rx.txNbr, d)
  }

  /** The cache of a device which is receiving. */
  ghost predicate ReadyAt(m: Model, d: nat, l: Loc)
  {
    SoundAt(m, d, l) && (!l.dev.rx.prelocked ==> CoherentAt(m, d, l))
  }

  lemma MeasureReady(m: Model, now: nat, d: nat, l: Loc, gain: real, radio: Radio)
    requires SoundAt(m, d, l)
    ensures var r := Measure(m, now, d, l, gain, radio).0;
      SoundAt(m, d, r) && (CoherentAt(m, d, l) ==> CoherentAt(m, d, r))
  {
    RssiKeepsCoherent(m, l.dev.rec, l.txl.ctr, Active(l.txl.els), l.dev.rx.req, l.dev.rx.txNbr, d, gain, radio, now);
  }

  lemma {:induction false} ImmediateReady(m: Model, now: nat, d: nat, l: Loc, rs: seq<RssiReq>)
    requires SoundAt(m, d, l)
    ensures var r := ImmediateRssis(m, now, d, l, rs);
      SoundAt(m, d, r) && (CoherentAt(m, d, l) ==> CoherentAt(m, d, r))
    decreases |rs|
  {
    hide Sound, Coherent, AfterRssi, Active;
    if rs != [] {
      var l1 := Measure(m, now, d, l, rs[0].gain, rs[0].radio).0;
      MeasureReady(m, now, d, l, rs[0].gain, rs[0].radio);
      ImmediateReady(m, now, d, Emit(l1, ImmRssi(now)), rs[1..]);
    }
  }

  lemma PickReady(m: Model, now: nat, d: nat, l: Loc, r: AbortReply)
    requires SoundAt(m, d, l)
    ensures var p := PickAbort(m, now, d, l, r);
      SoundAt(m, d, p.l) && (CoherentAt(m, d, l) ==> CoherentAt(m, d, p.l))
  {
    hide Sound, Coherent, Active;
    ImmediateReady(m, now, d, Emit(l, AbortAsked(now)), r.immRssi);
  }

  lemma RecheckReady(m: Model, now: nat, d: nat, l: Loc, e: Env, scanning: bool)
    requires SoundAt(m, d, l)
    ensures var c := RxRecheck(m, now, d, l, e, scanning);
      && SoundAt(m, d, c.l)
      && (!c.quit ==> c.l.dev.rx.prelocked == l.dev.rx.prelocked && c.l.dev.rx.txNbr == l.dev.rx.txNbr
                      && (CoherentAt(m, d, l) ==> CoherentAt(m, d, c.l)))
  {
    hide Sound, Active, PickAbort;
    PickReady(m, now, d, l, e.reply);
  }

  /** The same rate, for the same reasons. */
  predicate SameCache(a: Rec, b: Rec)
  {
    && a.lastTxCtr == b.lastTxCtr && a.lastRxCtr == b.lastRxCtr && a.rxCtr == b.rxCtr
    && a.ber == b.ber && a.basis == b.basis
  }

  lemma {:induction false} ImmediateSame(m: Model, now: nat, d: nat, l: Loc, rs: seq<RssiReq>)
    ensures SameCache(l.dev.rec, ImmediateRssis(m, now, d, l, rs).dev.rec)
    decreases |rs|
  {
    hide Active, Powers;
    if rs != [] {
      ImmediateSame(m, now, d, Emit(Measure(m, now, d, l, rs[0].gain, rs[0].radio).0, ImmRssi(now)), rs[1..]);
    }
  }

  /** A re-evaluation leaves the cache alone, and of the reception changes only when it ends. */
  lemma RecheckSame(m: Model, now: nat, d: nat, l: Loc, e: Env, scanning: bool)
    ensures var c := RxRecheck(m, now, d, l, e, scanning);
      !c.quit ==>
        && SameCache(l.dev.rec, c.l.dev.rec)
        && c.l.dev.rx == l.dev.rx.(req := l.dev.rx.req.(ab := c.l.dev.rx.req.ab), scanEnd := c.l.dev.rx.scanEnd)
  {
    hide ImmediateRssis;
    ImmediateSame(m, now, d, Emit(l, AbortAsked(now)), e.reply.immRssi);
  }

  /** The rate with which the errors of a microsecond are drawn is the one the channel and the modem
      give for the present air, even when the calculation is skipped. */
  lemma DrawnRateIsExact(m: Model, now: nat, d: nat, l: Loc, e: Env)
    requires TimeInvariant(m) && CoherentAt(m, d, l)
    ensures CoherentAt(m, d, DrawErrors(m, now, d, l, e))
    ensures var rx, el := l.dev.rx, ElAt(l.txl, l.dev.rx.txNbr);
      Due(rx.pace) && !rx.txLost && el.used.ongoing && el.tx.codingRate == rx.req.codingRate ==>
        DrawErrors(m, now, d, l, e).dev.rec.ber == FullBer(m, Active(l.txl.els), rx.req, rx.txNbr, d, now)
  {
    SkipIsExact(m, l.dev.rec, l.txl.ctr, Active(l.txl.els), l.dev.rx.req, l.dev.rx.txNbr, d, now);
  }

  lemma DrawReady(m: Model, now: nat, d: nat, l: Loc, e: Env)
    requires TimeInvariant(m) && ReadyAt(m, d, l)
    ensures ReadyAt(m, d, DrawErrors(m, now, d, l, e))
  {
    DrawKeepsSound(m, l.dev.rec, l.txl.ctr, Active(l.txl.els), l.dev.rx.req, l.dev.rx.txNbr, d, now);
    if !l.dev.rx.prelocked {
      DrawnRateIsExact(m, now, d, l, e);
    }
  }

  /** What a handler leaves in the cache of its own device. */
  ghost predicate CachedLoc(m: Model, d: nat, r: Loc)
  {
    r.halted || r.active <= 0 || Cached(m, r.txl, d, r.dev)
  }

  /** The list of transmissions may move on, but not unnoticed. */
  lemma ListKeepsCached(m: Model, l: TxL, k: TxL, d: nat, j: nat, dev: Dev)
    requires ListStep(l, k, d)
    ensures Sound(m, dev.rec, l.ctr, Active(l.els), j) ==> Sound(m, dev.rec, k.ctr, Active(k.els), j)
    ensures Cached(m, l, j, dev) ==> Cached(m, k, j, dev)
  {
  }

  lemma FoundCached(m: Model, now: nat, d: nat, l: Loc, e: Env)
    requires TimeInvariant(m) && SoundAt(m, d, l)
    ensures CachedLoc(m, d, FoundTx(m, now, d, l, e))
  {
    var rx := l.dev.rx;
    SynchedIsCoherent(m, l.dev.rec, l.txl.ctr, Active(l.txl.els), rx.req, ElAt(l.txl, rx.txNbr).tx, rx.txNbr, d, now);
  }

  lemma HandleNextCached(m: Model, now: nat, d: nat, l: Loc, q: Request)
    requires Fits(l, d) && SoundAt(m, d, l) && Quiet(l, d)
    ensures CachedLoc(m, d, HandleNext(m, now, d, l, q))
  {
    hide Sound, Active;
    var r := HandleNext(m, now, d, l, q);
    HandleNextCore(m, now, d, l, q);
    ListKeepsCached(m, l.txl, r.txl, d, d, l.dev);
  }

  lemma OfferCached(m: Model, now: nat, d: nat, l: Loc, e: Env)
    requires Fits(l, d) && ReadyAt(m, d, l) && Quiet(l, d)
    ensures CachedLoc(m, d, OfferPacket(m, now, d, l, e))
  {
    hide Sound, Active, HandleNext, AfterRssi;
    var rx := l.dev.rx;
    MeasureReady(m, now, d, l, rx.req.gain, rx.req.radio);
    var l1 := Measure(m, now, d, l, rx.req.gain, rx.req.radio).0;
    var l2 := Emit(SetRx(l1, rx.(biterrors := 0, errs := [])), AddressFound(now, rx.errs));
    if e.cont.RxStop? {
      HandleNextCached(m, now, d, Emit(l2, Stopped(now)), e.next);
    }
  }

  lemma SyncSampledCached(m: Model, now: nat, d: nat, l: Loc, e: Env)
    requires TimeInvariant(m) && Fits(l, d) && ReadyAt(m, d, l) && Quiet(l, d)
    ensures CachedLoc(m, d, SyncSampled(m, now, d, l, e))
  {
    hide Sound, Coherent, Active, OfferPacket;
    DrawReady(m, now, d, l, e);
    OfferCached(m, now, d, DrawErrors(m, now, d, l, e), e);
  }

  lemma SyncCached(m: Model, now: nat, d: nat, l: Loc, e: Env)
    requires TimeInvariant(m) && Fits(l, d) && Cached(m, l.txl, d, l.dev) && l.dev.ev.kind == RxSync && Quiet(l, d)
    ensures CachedLoc(m, d, Synchronized(m, now, d, l, e))
  {
    hide Sound, Coherent, Active, SyncFrom, PickAbort;
    var c := RxRecheck(m, now, d, l, e, true);
    RecheckReady(m, now, d, l, e, true);
    if !c.quit {
      SyncFromCached(m, now, d, c.l, e);
    }
  }

  lemma SyncFromCached(m: Model, now: nat, d: nat, l: Loc, e: Env)
    requires TimeInvariant(m) && Fits(l, d) && ReadyAt(m, d, l) && Quiet(l, d)
    ensures CachedLoc(m, d, SyncFrom(m, now, d, l, e))
  {
    hide Sound, Coherent, Active, SyncSampled, ScanEnded;
    SyncSampledCached(m, now, d, l, e);
    ScanEndedCached(m, now, d, l, e);
  }

  lemma ScanEndedCached(m: Model, now: nat, d: nat, l: Loc, e: Env)
    requires Fits(l, d) && SoundAt(m, d, l) && !l.txl.els[d].used.On() && !l.txl.els[d].packet
    ensures CachedLoc(m, d, ScanEnded(m, now, d, l, e))
  {
    hide Sound, Active, HandleNext, AfterRssi;
    var rx := l.dev.rx;
    MeasureReady(m, now, d, l, rx.req.gain, rx.req.radio);
    var l1 := if rx.req.ab.abort != now then Measure(m, now, d, l, rx.req.gain, rx.req.radio).0 else l;
    HandleNextCached(m, now, d, Emit(SetRx(l1, rx.(searching := false)), RxReply(now, NoSync, [])), e.next);
  }

  lemma PacketCached(m: Model, now: nat, d: nat, l: Loc, e: Env)
    requires TimeInvariant(m) && Fits(l, d) && Cached(m, l.txl, d, l.dev) && l.dev.ev.kind in {RxHeader, RxPayload}
    requires Quiet(l, d)
    ensures CachedLoc(m, d, HeaderReceived(m, now, d, l, e))
    ensures CachedLoc(m, d, PayloadReceived(m, now, d, l, e))
  {
    hide Sound, Coherent, Active, PickAbort, HeaderFrom, PayloadFrom;
    var c := RxRecheck(m, now, d, l, e, false);
    RecheckReady(m, now, d, l, e, false);
    if !c.quit {
      DrawReady(m, now, d, c.l, e);
      PacketFromCached(m, now, d, DrawErrors(m, now, d, c.l, e), e);
    }
  }

  lemma PacketFromCached(m: Model, now: nat, d: nat, l: Loc, e: Env)
    requires Fits(l, d) && ReadyAt(m, d, l) && Quiet(l, d)
    ensures CachedLoc(m, d, HeaderFrom(m, now, d, l, e))
    ensures CachedLoc(m, d, PayloadFrom(m, now, d, l, e))
  {
    hide Sound, Coherent, Active, HandleNext;
    HandleNextCached(m, now, d, Emit(l, RxReply(now, HeaderError, l.dev.rx.errs)), e.next);
    HandleNextCached(m, now, d, Emit(l, RxReply(now, ContentError, l.dev.rx.errs)), e.next);
    HandleNextCached(m, now, d, Emit(l, RxReply(now, RxOk, l.dev.rx.errs)), e.next);
  }

  lemma SearchCached(m: Model, now: nat, d: nat, l: Loc, e: Env)
    requires TimeInvariant(m) && Fits(l, d) && SoundAt(m, d, l)
    ensures CachedLoc(m, d, SearchStarted(m, now, d, l, e))
  {
    hide Sound, Coherent, Active, PickAbort, SearchFrom;
    var c := RxRecheck(m, now, d, l, e, true);
    RecheckReady(m, now, d, l, e, true);
    if !c.quit {
      SearchFromCached(m, now, d, c.l, e);
    }
  }

  lemma SearchFromCached(m: Model, now: nat, d: nat, l: Loc, e: Env)
    requires TimeInvariant(m) && Fits(l, d) && SoundAt(m, d, l)
    ensures CachedLoc(m, d, SearchFrom(m, now, d, l, e))
  {
    hide Sound, Coherent, Active, FoundTx;
    var was := l.dev.rx.prelocked;
    var rx := if was then PrelockChecked(now, l.txl, l.dev.rx) else l.dev.rx;
    var j := if was then rx.txNbr else FindFitting(now, l.txl, rx);
    if j >= 0 {
      FoundCached(m, now, d, SetRx(l, rx.(txNbr := j, searching := false)), e);
    }
  }

  lemma SearchReevalCached(m: Model, now: nat, d: nat, l: Loc, e: Env)
    requires Fits(l, d) && SoundAt(m, d, l) && !l.txl.els[d].used.On() && !l.txl.els[d].packet
    ensures CachedLoc(m, d, SearchReevaluated(m, now, d, l, e))
  {
    hide Sound, Coherent, Active, PickAbort, ScanEnded;
    var c := RxRecheck(m, now, d, l, e, true);
    RecheckReady(m, now, d, l, e, true);
    if !c.quit {
      ScanEndedCached(m, now, d, c.l, e);
    }
  }

  lemma CcaCached(m: Model, now: nat, d: nat, l: Loc, e: Env)
    requires Fits(l, d) && SoundAt(m, d, l) && Quiet(l, d) && l.dev.ev.kind == CcaMeas
    ensures CachedLoc(m, d, CcaMeasured(m, now, d, l, e))
  {
    hide Sound, Coherent, Active, PickAbort, AfterRssi, CcaSampled, HandleNext;
    var c := CcaRecheck(m, now, d, l, e);
    PickReady(m, now, d, l, e.reply);
    assert SoundAt(m, d, c.l);
    if !c.quit {
      var req := c.l.dev.cca.req;
      MeasureReady(m, now, d, c.l, req.gain, req.radio);
      var l1 := if now >= c.l.dev.cca.nextMeas then CcaSample(m, now, d, c.l) else c.l;
      assert SoundAt(m, d, l1) && Quiet(l1, d);
      HandleNextCached(m, now, d, Emit(l1, CcaReply(now, l1.dev.cca.done, l1.dev.cca.samples)), e.next);
    }
  }

  lemma RssiCached(m: Model, now: nat, d: nat, l: Loc, e: Env)
    requires Fits(l, d) && SoundAt(m, d, l) && Quiet(l, d)
    ensures CachedLoc(m, d, RssiMeasured(m, now, d, l, e))
  {
    hide Sound, Coherent, Active, AfterRssi, HandleNext;
    MeasureReady(m, now, d, l, l.dev.rssi.gain, l.dev.rssi.radio);
    var l1 := Measure(m, now, d, l, l.dev.rssi.gain, l.dev.rssi.radio).0;
    HandleNextCached(m, now, d, Emit(l1, RssiReply(now)), e.next);
  }

  lemma TxEndCached(m: Model, now: nat, d: nat, l: Loc, e: Env)
    requires Fits(l, d) && SoundAt(m, d, l) && l.dev.ev.kind == TxEnd && !l.dev.rx.searching
    ensures CachedLoc(m, d, TxEnded(m, now, d, l, e))
  {
    hide Sound, Active, HandleNext;
    ListOps(l.txl, d, NO_TX, false, NO_TX.ab);
    ListKeepsCached(m, l.txl, l.txl.Clear(d), d, d, l.dev);
    HandleNextCached(m, now, d, Emit(l.(txl := l.txl.Clear(d)), TxReply(now)), e.next);
  }

  lemma ReevalCached(m: Config, now: nat, d: nat, l: Loc, e: Env)
    requires Fits(l, d) && SoundAt(m.world, d, l)
    ensures CachedLoc(m.world, d, TxAbortReevaluated(m, now, d, l, e))
  {
    hide Sound, Active, PickAbort, TxSchedule;
    var p := PickAbort(m.world, now, d, l, e.reply);
    PickReady(m.world, now, d, l, e.reply);
    var ab := if p.ab.Some? then p.ab.value else NO_TX.ab;
    ListOps(l.txl, d, NO_TX, false, ab);
    ListKeepsCached(m.world, l.txl, l.txl.Clear(d), d, d, p.l.dev);
    ListKeepsCached(m.world, l.txl, l.txl.SetAbort(d, ab), d, d, p.l.dev);
    if p.ab.Some? {
      var k := p.l.(txl := p.l.txl.SetAbort(d, ab));
      assert TxSchedule(m, now, d, k) == k.(dev := k.dev.(ev := TxSchedule(m, now, d, k).dev.ev)) by {
        ScheduledEvent(m, now, d, k);
      }
    }
  }

  lemma ScheduledEvent(m: Config, now: nat, d: nat, l: Loc)
    requires Fits(l, d)
    ensures var r := TxSchedule(m, now, d, l); r == l.(dev := l.dev.(ev := r.dev.ev)) && TxOnKind(r.dev.ev.kind)
  {
  }

  lemma HandleCached(m: Config, now: nat, d: nat, l: Loc, e: Env)
    requires now < TIME_NEVER && Fits(l, d) && Core(l.txl.els[d], l.dev)
    requires TimeInvariant(m.world) && Cached(m.world, l.txl, d, l.dev)
    requires l.dev.ev.kind !in {NoEvent, TxStart, TxPacketStart}
    ensures CachedLoc(m.world, d, Handle(m, now, d, l, e))
  {
    hide Sound, Coherent, Active, HandleNext, TxAbortReevaluated, TxSchedule, TxEnded, CcaMeasured, RssiMeasured,
      FoundTx, Synchronized, HeaderReceived, PayloadReceived, SearchReevaluated, SearchStarted;
    match l.dev.ev.kind
    case WaitDone => HandleNextCached(m.world, now, d, Emit(l, WaitReply(now)), e.next);
    case TxEnd => TxEndCached(m.world, now, d, l, e);
    case RssiMeas => RssiCached(m.world, now, d, l, e);
    case CcaMeas => CcaCached(m.world, now, d, l, e);
    case RxFound => FoundCached(m.world, now, d, l, e);
    case RxSync => SyncCached(m.world, now, d, l, e);
    case RxHeader => PacketCached(m.world, now, d, l, e);
    case RxPayload => PacketCached(m.world, now, d, l, e);
    case RxSearchReeval => SearchReevalCached(m.world, now, d, l, e);
    case RxSearchStart => SearchCached(m.world, now, d, l, e);
    case TxAbortReeval => ReevalCached(m, now, d, l, e);
    case TxPacketEnd =>
      ListOps(l.txl, d, NO_TX, false, NO_TX.ab);
      ListKeepsCached(m.world, l.txl, l.txl.EndPacket(d), d, d, l.dev);
      ScheduledEvent(m, now, d, l.(txl := l.txl.EndPacket(d)));
  }

  /** Every event keeps the caches of all receptions coherent. */
  lemma StepCached(m: Config, s: State, e: Env)
    requires TimeInvariant(m.world) && Structured(s) && AtNext(s) && Running(m, s) && AllCached(m.world, s)
    ensures var r := Step(m, s, e); r.halted || r.active <= 0 || AllCached(m.world, r)
  {
    hide Dispatch, NewLoc, Coherent, Sound, IsGreatestOn, Live, ListStep;
    var d := Next(Entries(s));
    var r := NewLoc(m, s, d, e);
    StepStructured(m, s, e);
    NewLocCore(m, s, d, e);
    DispatchShape(m, s, d, e);
    NewLocCached(m, s, d, e);
    forall j: nat | j < |s.devs| && j != d
      ensures Cached(m.world, r.txl, j, Step(m, s, e).devs[j])
    {
      ListKeepsCached(m.world, s.txl, r.txl, d, j, s.devs[j]);
    }
  }

  lemma NewLocCached(m: Config, s: State, d: nat, e: Env)
    requires TimeInvariant(m.world) && Structured(s) && d < |s.devs| && s.now < TIME_NEVER
    requires Cached(m.world, s.txl, d, s.devs[d]) && s.devs[d].ev.kind != NoEvent
    ensures CachedLoc(m.world, d, NewLoc(m, s, d, e))
  {
    hide Sound, Coherent, Active, TxSchedule, TxStarted, Handle, IsGreatestOn, Live, ListStep;
    var l, k := Get(s, d), s.devs[d].ev.kind;
    assert Core(s.txl.els[d], s.devs[d]);
    if k == TxStart || k == TxPacketStart {
      var l1 := if k == TxStart then TxStarted(s.now, d, l) else l.(txl := l.txl.StartPacket(d));
      StartKeepsDev(s.now, d, l);
      ScheduledEvent(m, s.now, d, l1);
      NewLocCore(m, s, d, e);
      ListKeepsCached(m.world, s.txl, l1.txl, d, d, s.devs[d]);
    } else {
      HandleCached(m, s.now, d, l, e);
    }
  }

  lemma StartKeepsDev(now: nat, d: nat, l: Loc)
    requires Fits(l, d)
    ensures TxStarted(now, d, l).dev == l.dev
  {
  }

  // ---------------------------------------------------------------- the rate left behind

  lemma NextKeepsRec(m: Model, now: nat, d: nat, l: Loc, q: Request)
    requires Fits(l, d)
    ensures HandleNext(m, now, d, l, q).dev.rec == l.dev.rec
  {
  }

  /** After the errors have been drawn nothing in the same event touches the rate. */
  lemma OfferKeepsRate(m: Model, now: nat, d: nat, l: Loc, e: Env)
    requires Fits(l, d)
    ensures OfferPacket(m, now, d, l, e).dev.rec.ber == l.dev.rec.ber
  {
    hide HandleNext, Powers, Active, Goes, KeepsAligned;
    var rx := l.dev.rx;
    var l1 := Measure(m, now, d, l, rx.req.gain, rx.req.radio).0;
    var l2 := Emit(SetRx(l1, rx.(biterrors := 0, errs := [])), AddressFound(now, rx.errs));
    NextKeepsRec(m, now, d, Emit(l2, Stopped(now)), e.next);
  }

  lemma SyncKeepsRate(m: Model, now: nat, d: nat, l: Loc, e: Env)
    requires Fits(l, d)
    ensures SyncSampled(m, now, d, l, e).dev.rec.ber == DrawErrors(m, now, d, l, e).dev.rec.ber
  {
    hide OfferPacket, DrawErrors;
    OfferKeepsRate(m, now, d, DrawErrors(m, now, d, l, e), e);
  }

  lemma PacketKeepsRate(m: Model, now: nat, d: nat, l: Loc, e: Env)
    requires Fits(l, d)
    ensures HeaderFrom(m, now, d, l, e).dev.rec.ber == l.dev.rec.ber
    ensures PayloadFrom(m, now, d, l, e).dev.rec.ber == l.dev.rec.ber
  {
    hide HandleNext;
    NextKeepsRec(m, now, d, Emit(l, RxReply(now, HeaderError, l.dev.rx.errs)), e.next);
    NextKeepsRec(m, now, d, Emit(l, RxReply(now, ContentError, l.dev.rx.errs)), e.next);
    NextKeepsRec(m, now, d, Emit(l, RxReply(now, RxOk, l.dev.rx.errs)), e.next);
  }
}
