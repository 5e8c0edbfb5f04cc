/** The errors which receptions draw, and the transmissions they lose, over whole runs. */
module Sampling {
  import opened Types
  import opened FuncQueue
  import opened TxList
  import opened ChannelModem
  import opened Device
  import opened Phy
  import opened Invariant
  import opened Caching
  import opened Dialogue
  import opened Searches

  /** The packet the reception is locked to is in the air. */
  predicate IsOngoing(s: State, rx: RxStatus) { 0 <= rx.txNbr < |s.txl.els| && s.txl.els[rx.txNbr].used.ongoing }

  /** The end of the scan after the re-evaluation with which an event begins. */
  function ScanEndThen(now: nat, e: Env, rx: RxStatus): nat
  {
    if now < rx.req.ab.recheck || !e.reply.answer.NewAbort? || e.reply.answer.ab.abort >= rx.scanEnd then rx.scanEnd
    else Pred(e.reply.answer.ab.abort)
  }

  /** In the next event a reception is synchronizing, and still scanning. */
  predicate Synchronizes(s: State, e: Env)
    requires Sized(s)
  {
    var dev := s.devs[Next(Entries(s))];
    && dev.ev.kind == RxSync && Stays(s.now, e, dev.rx.req.ab)
    && dev.rx.syncStart <= s.now <= ScanEndThen(s.now, e, dev.rx)
  }

  /** In the next event a reception goes through one microsecond of its packet. */
  predicate Receives(s: State, e: Env)
    requires Sized(s)
  {
    var dev := s.devs[Next(Entries(s))];
    || (dev.ev.kind in {RxHeader, RxPayload} && Stays(s.now, e, dev.rx.req.ab))
    || (Synchronizes(s, e) && IsOngoing(s, dev.rx))
  }

  lemma RecheckedEnd(m: Model, now: nat, d: nat, l: Loc, e: Env)
    requires Stays(now, e, l.dev.rx.req.ab)
    ensures RxRecheck(m, now, d, l, e, true).l.dev.rx.scanEnd == ScanEndThen(now, e, l.dev.rx)
  {
    hide ImmediateRssis, Goes;
  }

  // ---------------------------------------------------------------- losing the transmission

  /** In every run, a synchronizing reception loses its packet exactly if that is not in the air any
      more, and searches again from the next microsecond on. */
  lemma LostIff(m: Config, qs: seq<Request>, es: seq<Env>, ss: seq<State>, k: nat)
    requires IsRun(m, qs, es, ss) && k < |es| && LoopGoes(m, ss[k], es[k], ss[k + 1]) && Synchronizes(ss[k], es[k])
    ensures var s, d := ss[k], Next(Entries(ss[k]));
      var was, dev := s.devs[d], ss[k + 1].devs[d];
      var lost := Snoc(RecheckedLog(s.now, es[k], was), SyncLost(s.now, true, was.rx.errs));
      && d < |ss[k + 1].devs|
      && (dev.log == lost <==> !IsOngoing(s, was.rx))
      && (dev.log == lost ==> dev.ev == Entry(s.now + 1, RxSearchStart))
  {
    hide LoopGoes, Handle, Entries, Next, IsGreatestOn, Live, Stays, ScanEndThen;
    OwnEvent(m, qs, es, ss, k);
    LostEvent(m, ss[k], Next(Entries(ss[k])), es[k]);
  }

  lemma LostEvent(m: Config, s: State, d: nat, e: Env)
    requires Sized(s) && d < |s.devs| && s.devs[d].ev.kind == RxSync && Stays(s.now, e, s.devs[d].rx.req.ab)
    requires s.devs[d].rx.syncStart <= s.now <= ScanEndThen(s.now, e, s.devs[d].rx)
    ensures var was, dev := s.devs[d], Handle(m, s.now, d, Get(s, d), e).dev;
      var lost := Snoc(RecheckedLog(s.now, e, was), SyncLost(s.now, true, was.rx.errs));
      && (dev.log == lost <==> !IsOngoing(s, was.rx))
      && (dev.log == lost ==> dev.ev == Entry(s.now + 1, RxSearchStart))
  {
    hide RxRecheck, SyncFrom, Stays, ScanEndThen, Goes, KeepsAligned;
    StaysIff(m.world, s.now, d, Get(s, d), e, true);
    RxRechecking(m.world, s.now, d, Get(s, d), e, true);
    RecheckedEnd(m.world, s.now, d, Get(s, d), e);
    LostFrom(m.world, s.now, d, RxRecheck(m.world, s.now, d, Get(s, d), e, true).l, e);
  }

  lemma LostFrom(m: Model, now: nat, d: nat, l: Loc, e: Env)
    requires Device.Fits(l, d) && l.dev.rx.syncStart <= now <= l.dev.rx.scanEnd
    ensures var dev, lost := SyncFrom(m, now, d, l, e).dev, Snoc(l.dev.log, SyncLost(now, true, l.dev.rx.errs));
      && (dev.log == lost <==> !ElAt(l.txl, l.dev.rx.txNbr).used.ongoing)
      && (dev.log == lost ==> dev.ev == Entry(now + 1, RxSearchStart))
  {
    hide SyncSampled, ScanEnded, Goes, KeepsAligned;
    if ElAt(l.txl, l.dev.rx.txNbr).used.ongoing {
      var ys := SampleReports(m, now, d, l, e);
      NotGone(l.dev.log, ys, now, l.dev.rx.errs);
    }
  }

  lemma NotGone(log: Log, ys: seq<Item>, now: nat, errs: seq<nat>)
    requires forall y :: y in ys && y.SyncLost? ==> !y.gone
    ensures Plus(log, ys) != Snoc(log, SyncLost(now, true, errs))
  {
    if ys == [] {
      LongerLog(log, SyncLost(now, true, errs));
    }
  }

  lemma LongerLog(log: Log, x: Item)
    ensures log != Snoc(log, x)
  {
    assert Size(Snoc(log, x)) == Size(log) + 1;
  }

  function Size(log: Log): nat { if log == Nil then 0 else Size(log.init) + 1 }

  // ---------------------------------------------------------------- the errors of a microsecond

  /** One of the messages reports these errors: of a synchronization which is lost, or found an address,
      or of a packet. */
  ghost predicate Reported(ys: seq<Item>, errs: seq<nat>)
  {
    exists y :: y in ys && (y.SyncLost? || y.AddressFound? || y.RxReply?) && y.errs == errs
  }

  /** The errors are reported, or kept for later. */
  ghost predicate KeptOrReported(rx: RxStatus, ys: seq<Item>, errs: seq<nat>, lost: bool)
  {
    (rx.errs == errs && rx.txLost == lost) || Reported(ys, errs)
  }

  /** The errors of the microsecond: those drawn, if samples are due in it. */
  function ErrorsNow(rx: RxStatus, e: Env): seq<nat> { rx.errs + [if rx.pace.usToNext <= 0 then e.draw else 0] }

  /** Samples were due when the packet was not in the air, now or before since the lock. */
  predicate LostNow(s: State, rx: RxStatus) { rx.txLost || (rx.pace.usToNext <= 0 && !IsOngoing(s, rx)) }

  lemma DrawnErrors(m: Model, now: nat, d: nat, l: Loc, e: Env)
    ensures var r := DrawErrors(m, now, d, l, e);
      && r.dev.rx.errs == ErrorsNow(l.dev.rx, e) && r.dev.log == l.dev.log
      && (r.dev.rx.txLost <==>
            l.dev.rx.txLost || (l.dev.rx.pace.usToNext <= 0 && !ElAt(l.txl, l.dev.rx.txNbr).used.ongoing))
  {
    hide AfterBitErrors, Active;
  }

  lemma FirstOf(x: Item, ys: seq<Item>, errs: seq<nat>)
    requires (x.SyncLost? || x.AddressFound? || x.RxReply?) && x.errs == errs && ys != [] && ys[0] == x
    ensures Reported(ys, errs)
  {
    assert x in ys;
  }

  lemma HeaderReports(m: Model, now: nat, d: nat, l: Loc, e: Env) returns (ys: seq<Item>)
    requires Device.Fits(l, d)
    ensures var dev := HeaderFrom(m, now, d, l, e).dev;
      dev.log == Plus(l.dev.log, ys) && KeptOrReported(dev.rx, ys, l.dev.rx.errs, l.dev.rx.txLost)
  {
    hide HandleNext, Reported, Goes, KeepsAligned, Heard, IsNextEvent;
    var rx := l.dev.rx;
    ys := [];
    if (now >= rx.headerEnd && rx.biterrors > rx.req.headerThreshold) || now >= rx.req.ab.abort {
      ys := FinishTalks(m, now, d, l, RxReply(now, HeaderError, rx.errs), e);
      FirstOf(RxReply(now, HeaderError, rx.errs), ys, rx.errs);
    }
  }

  lemma PayloadReports(m: Model, now: nat, d: nat, l: Loc, e: Env) returns (ys: seq<Item>)
    requires Device.Fits(l, d)
    ensures var dev := PayloadFrom(m, now, d, l, e).dev;
      dev.log == Plus(l.dev.log, ys) && KeptOrReported(dev.rx, ys, l.dev.rx.errs, l.dev.rx.txLost)
  {
    hide HandleNext, Reported, Goes, KeepsAligned, Heard, IsNextEvent;
    var rx := l.dev.rx;
    ys := [];
    if (now >= rx.payloadEnd && rx.biterrors > 0) || now >= rx.req.ab.abort {
      ys := FinishTalks(m, now, d, l, RxReply(now, ContentError, rx.errs), e);
      FirstOf(RxReply(now, ContentError, rx.errs), ys, rx.errs);
    } else if now >= rx.payloadEnd {
      ys := FinishTalks(m, now, d, l, RxReply(now, RxOk, rx.errs), e);
      FirstOf(RxReply(now, RxOk, rx.errs), ys, rx.errs);
    }
  }

  lemma OfferReports(m: Model, now: nat, d: nat, l: Loc, e: Env) returns (ys: seq<Item>)
    requires Device.Fits(l, d)
    ensures OfferPacket(m, now, d, l, e).dev.log == Plus(l.dev.log, ys) && Reported(ys, l.dev.rx.errs)
    ensures forall y :: y in ys ==> !y.SyncLost?
  {
    hide Decided, AfterRssi, Reported, Goes, KeepsAligned, Heard, IsNextEvent;
    var rx := l.dev.rx;
    var l1 := Measure(m, now, d, l, rx.req.gain, rx.req.radio).0;
    var l2 := SetRx(l1, rx.(biterrors := 0, errs := []));
    ys := DecidedTalks(m, now, d, l2, AddressFound(now, rx.errs), e);
    FirstOf(AddressFound(now, rx.errs), ys, rx.errs);
  }

  lemma SampleReports(m: Model, now: nat, d: nat, l: Loc, e: Env) returns (ys: seq<Item>)
    requires Device.Fits(l, d) && ElAt(l.txl, l.dev.rx.txNbr).used.ongoing
    ensures var dev := SyncSampled(m, now, d, l, e).dev;
      dev.log == Plus(l.dev.log, ys) && KeptOrReported(dev.rx, ys, ErrorsNow(l.dev.rx, e), l.dev.rx.txLost)
    ensures forall y :: y in ys && y.SyncLost? ==> !y.gone
  {
    hide OfferPacket, DrawErrors, Reported, Goes, KeepsAligned;
    DrawnErrors(m, now, d, l, e);
    var l1 := DrawErrors(m, now, d, l, e);
    var rx := l1.dev.rx;
    ys := [];
    if rx.biterrors > rx.req.syncThreshold {
      ys := [SyncLost(now, false, rx.errs)];
      PlusOne(l.dev.log, ys[0]);
      FirstOf(ys[0], ys, rx.errs);
    } else if now >= rx.syncEnd {
      ys := OfferReports(m, now, d, l1, e);
    }
  }

  lemma ReportedLater(us: seq<Item>, ys: seq<Item>, rx: RxStatus, errs: seq<nat>, lost: bool)
    ensures KeptOrReported(rx, ys, errs, lost) ==> KeptOrReported(rx, us + ys, errs, lost)
  {
  }

  /** What one event of a reception does to its errors, after its re-evaluation. */
  lemma EventReports(m: Config, s: State, d: nat, l: Loc, e: Env) returns (ys: seq<Item>)
    requires Sized(s) && d < |s.devs| && Device.Fits(l, d) && l.txl == s.txl
    requires s.devs[d].ev.kind == RxSync ==> l.dev.rx.syncStart <= s.now <= l.dev.rx.scanEnd && IsOngoing(s, l.dev.rx)
    requires ReceivingKind(s.devs[d].ev.kind)
    ensures var dev := AfterRecheck(m, s, d, l, e).dev;
      dev.log == Plus(l.dev.log, ys) && KeptOrReported(dev.rx, ys, ErrorsNow(l.dev.rx, e), LostNow(s, l.dev.rx))
  {
    hide SyncSampled, ScanEnded, HeaderFrom, PayloadFrom, DrawErrors, KeptOrReported, Goes, KeepsAligned;
    DrawnErrors(m.world, s.now, d, l, e);
    var l1 := DrawErrors(m.world, s.now, d, l, e);
    match s.devs[d].ev.kind
    case RxSync => ys := SampleReports(m.world, s.now, d, l, e);
    case RxHeader => ys := HeaderReports(m.world, s.now, d, l1, e);
    case _ => ys := PayloadReports(m.world, s.now, d, l1, e);
  }

  /** The event of a reception which goes on after its re-evaluation. */
  function AfterRecheck(m: Config, s: State, d: nat, l: Loc, e: Env): Loc
    requires Sized(s) && d < |s.devs| && Device.Fits(l, d)
  {
    match s.devs[d].ev.kind
    case RxSync => SyncFrom(m.world, s.now, d, l, e)
    case RxHeader => HeaderFrom(m.world, s.now, d, DrawErrors(m.world, s.now, d, l, e), e)
    case _ => PayloadFrom(m.world, s.now, d, DrawErrors(m.world, s.now, d, l, e), e)
  }

  /** In every run, a reception which goes through a microsecond adds to its errors those the random
      generator has drawn, if samples are due, and none otherwise; it keeps them, with whether the packet
      was lost meanwhile, or reports them in one of the messages `xs` of the event. */
  lemma ErrorsAreDrawn(m: Config, qs: seq<Request>, es: seq<Env>, ss: seq<State>, k: nat) returns (xs: seq<Item>)
    requires IsRun(m, qs, es, ss) && k < |es| && LoopGoes(m, ss[k], es[k], ss[k + 1]) && Receives(ss[k], es[k])
    ensures var s, d := ss[k], Next(Entries(ss[k]));
      var was, dev := s.devs[d], ss[k + 1].devs[d];
      && d < |ss[k + 1].devs| && dev.log == Plus(was.log, xs)
      && KeptOrReported(dev.rx, xs, ErrorsNow(was.rx, es[k]), LostNow(s, was.rx))
  {
    hide LoopGoes, Handle, KeptOrReported, Entries, Next, IsGreatestOn, Live, Stays, ScanEndThen;
    OwnEvent(m, qs, es, ss, k);
    xs := HandleReports(m, ss[k], Next(Entries(ss[k])), es[k]);
  }

  lemma HandleReports(m: Config, s: State, d: nat, e: Env) returns (xs: seq<Item>)
    requires Sized(s) && d < |s.devs| && ReceivingKind(s.devs[d].ev.kind) && Stays(s.now, e, s.devs[d].rx.req.ab)
    requires s.devs[d].ev.kind == RxSync ==>
      s.devs[d].rx.syncStart <= s.now <= ScanEndThen(s.now, e, s.devs[d].rx) && IsOngoing(s, s.devs[d].rx)
    ensures var was, dev := s.devs[d], Handle(m, s.now, d, Get(s, d), e).dev;
      dev.log == Plus(was.log, xs) && KeptOrReported(dev.rx, xs, ErrorsNow(was.rx, e), LostNow(s, was.rx))
  {
    hide RxRecheck, SyncFrom, HeaderFrom, PayloadFrom, DrawErrors, KeptOrReported, Stays, ScanEndThen, Goes,
      KeepsAligned;
    var scanning, was := s.devs[d].ev.kind == RxSync, s.devs[d];
    var l := RxRecheck(m.world, s.now, d, Get(s, d), e, scanning).l;
    StaysIff(m.world, s.now, d, Get(s, d), e, scanning);
    RxRechecking(m.world, s.now, d, Get(s, d), e, scanning);
    RecheckedEnd(m.world, s.now, d, Get(s, d), e);
    var us := if s.now < was.rx.req.ab.recheck then [] else Reevaluation(s.now, e);
    var ys := EventReports(m, s, d, l, e);
    xs := us + ys;
    PlusPlus(was.log, us, ys);
    ReportedLater(us, ys, Handle(m, s.now, d, Get(s, d), e).dev.rx, ErrorsNow(was.rx, e), LostNow(s, was.rx));
  }

  // ---------------------------------------------------------------- the rate left alone

  lemma DrawLeavesRate(m: Model, now: nat, d: nat, l: Loc, e: Env)
    ensures var rx, el := l.dev.rx, ElAt(l.txl, l.dev.rx.txNbr);
      !(rx.pace.usToNext <= 0 && !rx.txLost && el.used.ongoing && el.tx.codingRate == rx.req.codingRate) ==>
        DrawErrors(m, now, d, l, e).dev.rec == l.dev.rec
  {
  }

  lemma OfferLeavesCache(m: Model, now: nat, d: nat, l: Loc, e: Env)
    requires Device.Fits(l, d)
    ensures SameCache(l.dev.rec, OfferPacket(m, now, d, l, e).dev.rec)
  {
    hide HandleNext, Powers, Active, Goes, KeepsAligned;
    var rx := l.dev.rx;
    var l1 := Measure(m, now, d, l, rx.req.gain, rx.req.radio).0;
    var l2 := Emit(SetRx(l1, rx.(biterrors := 0, errs := [])), AddressFound(now, rx.errs));
    NextKeepsRec(m, now, d, Emit(l2, Stopped(now)), e.next);
  }

  lemma EventLeavesCache(m: Config, s: State, d: nat, l: Loc, e: Env)
    requires Sized(s) && d < |s.devs| && Device.Fits(l, d) && l.txl == s.txl && ReceivingKind(s.devs[d].ev.kind)
    requires s.devs[d].ev.kind == RxSync ==> l.dev.rx.syncStart <= s.now <= l.dev.rx.scanEnd && IsOngoing(s, l.dev.rx)
    requires !UsesModels(s, l.dev.rx)
    ensures SameCache(l.dev.rec, AfterRecheck(m, s, d, l, e).dev.rec)
  {
    hide ScanEnded, HandleNext, OfferPacket, DrawErrors, Goes, KeepsAligned;
    DrawLeavesRate(m.world, s.now, d, l, e);
    DrawnErrors(m.world, s.now, d, l, e);
    var l1 := DrawErrors(m.world, s.now, d, l, e);
    OfferLeavesCache(m.world, s.now, d, l1, e);
    NextKeepsRec(m.world, s.now, d, Emit(l1, RxReply(s.now, HeaderError, l1.dev.rx.errs)), e.next);
    NextKeepsRec(m.world, s.now, d, Emit(l1, RxReply(s.now, ContentError, l1.dev.rx.errs)), e.next);
    NextKeepsRec(m.world, s.now, d, Emit(l1, RxReply(s.now, RxOk, l1.dev.rx.errs)), e.next);
  }

  /** The errors of the microsecond are drawn with a rate of the models: samples are due, the packet is
      in the air and has never been lost, and it has the coding rate of the reception. */
  predicate UsesModels(s: State, rx: RxStatus)
  {
    rx.pace.usToNext <= 0 && !rx.txLost && IsOngoing(s, rx) && s.txl.els[rx.txNbr].tx.codingRate == rx.req.codingRate
  }

  lemma HandleLeavesCache(m: Config, s: State, d: nat, e: Env)
    requires Sized(s) && d < |s.devs| && ReceivingKind(s.devs[d].ev.kind) && Stays(s.now, e, s.devs[d].rx.req.ab)
    requires s.devs[d].ev.kind == RxSync ==>
      s.devs[d].rx.syncStart <= s.now <= ScanEndThen(s.now, e, s.devs[d].rx) && IsOngoing(s, s.devs[d].rx)
    requires !UsesModels(s, s.devs[d].rx)
    ensures SameCache(s.devs[d].rec, Handle(m, s.now, d, Get(s, d), e).dev.rec)
  {
    hide RxRecheck, SyncFrom, HeaderFrom, PayloadFrom, DrawErrors, Stays, ScanEndThen, Goes, KeepsAligned;
    var scanning := s.devs[d].ev.kind == RxSync;
    StaysIff(m.world, s.now, d, Get(s, d), e, scanning);
    RecheckedEnd(m.world, s.now, d, Get(s, d), e);
    RecheckSame(m.world, s.now, d, Get(s, d), e, scanning);
    EventLeavesCache(m, s, d, RxRecheck(m.world, s.now, d, Get(s, d), e, scanning).l, e);
  }

  /** In every run, a reception which does not draw errors with a rate of the models leaves its cached
      rate, and all it depends on, as it was. */
  lemma OthersLeaveTheRate(m: Config, qs: seq<Request>, es: seq<Env>, ss: seq<State>, k: nat)
    requires IsRun(m, qs, es, ss) && k < |es| && LoopGoes(m, ss[k], es[k], ss[k + 1]) && Receives(ss[k], es[k])
    requires !UsesModels(ss[k], ss[k].devs[Next(Entries(ss[k]))].rx)
    ensures var d := Next(Entries(ss[k]));
      d < |ss[k + 1].devs| && SameCache(ss[k].devs[d].rec, ss[k + 1].devs[d].rec)
  {
    hide LoopGoes, Handle, SameCache, UsesModels, Entries, Next, IsGreatestOn, Live, Stays, ScanEndThen;
    OwnEvent(m, qs, es, ss, k);
    HandleLeavesCache(m, ss[k], Next(Entries(ss[k])), es[k]);
  }
}
