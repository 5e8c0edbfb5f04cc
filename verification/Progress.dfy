/** The simulation comes to its end, if no device makes time stand still. */
module Progress {
  import opened Types
  import opened FuncQueue
  import opened TxList
  import opened ChannelModem
  import opened Requests
  import opened Device
  import opened Phy
  import opened Session
  import opened Invariant
  import opened Structure
  import opened Steps
  import opened Runs

  /** The device neither asks to be rechecked now, nor to wait until now. */
  predicate Moving(now: nat, e: Env)
  {
    && (e.reply.answer.NewAbort? ==> e.reply.answer.ab.recheck > now)
    && (e.next.Wait? ==> e.next.end > now)
  }

  // ---------------------------------------------------------------- the measure

  /** How many packet events of a transmission are still to come, at most. */
  function PacketEventsLeft(u: Txs): nat
  {
    if !u.started then 3 else if !u.ended then 2 else if !u.ongoing then 1 else 0
  }

  /** How much a transmitting device can still do in this microsecond. */
  function TxRank(now: nat, el: El, ev: Entry): nat
  {
    if ev.time != now then 0
    else if ev.kind == TxStart then 9
    else if TxOnKind(ev.kind) then 2 * PacketEventsLeft(el.used) + if ev.kind == TxAbortReeval then 2 else 1
    else 0
  }

  /** How much any other device can still do in this microsecond. */
  function RxRank(now: nat, ev: Entry): nat
  {
    if ev.time != now then 0
    else
      match ev.kind
      case RxSearchStart => 4
      case RxFound => 3
      case RxSync => 2
      case NoEvent => 0
      case TxStart => 0
      case TxPacketStart => 0
      case TxPacketEnd => 0
      case TxAbortReeval => 0
      case TxEnd => 0
      case _ => 1
  }

  function TxRanks(now: nat, els: seq<El>, devs: seq<Dev>): nat
    requires |els| == |devs|
  {
    if |devs| == 0 then 0
    else
      var n := |devs| - 1;
      TxRanks(now, els[..n], devs[..n]) + TxRank(now, els[n], devs[n].ev)
  }

  function RxRanks(now: nat, devs: seq<Dev>): nat
  {
    if |devs| == 0 then 0
    else
      var n := |devs| - 1;
      RxRanks(now, devs[..n]) + RxRank(now, devs[n].ev)
  }

  function TimeLeft(m: Config, s: State): nat { if s.now < m.simLength then m.simLength - s.now else 0 }

  /** The measure of `r` lies lexicographically below that of `s`. */
  predicate Below(m: Config, r: State, s: State)
    requires Sized(r) && Sized(s)
  {
    || TimeLeft(m, r) < TimeLeft(m, s)
    || (TimeLeft(m, r) == TimeLeft(m, s)
        && (|| TxRanks(r.now, r.txl.els, r.devs) < TxRanks(s.now, s.txl.els, s.devs)
            || (TxRanks(r.now, r.txl.els, r.devs) == TxRanks(s.now, s.txl.els, s.devs)
                && RxRanks(r.now, r.devs) < RxRanks(s.now, s.devs))))
  }

  lemma {:induction false} TxRanksChange(now: nat, els: seq<El>, devs: seq<Dev>, els': seq<El>, devs': seq<Dev>, d: nat)
    requires |els| == |devs| == |els'| == |devs'| && d < |devs|
    requires forall j :: 0 <= j < |devs| && j != d ==>
      TxRank(now, els'[j], devs'[j].ev) == TxRank(now, els[j], devs[j].ev)
    ensures TxRanks(now, els', devs') - TxRanks(now, els, devs)
            == TxRank(now, els'[d], devs'[d].ev) - TxRank(now, els[d], devs[d].ev)
  {
    var n := |devs| - 1;
    if d == n {
      TxRanksSame(now, els[..n], devs[..n], els'[..n], devs'[..n]);
    } else {
      TxRanksChange(now, els[..n], devs[..n], els'[..n], devs'[..n], d);
    }
  }

  lemma {:induction false} TxRanksSame(now: nat, els: seq<El>, devs: seq<Dev>, els': seq<El>, devs': seq<Dev>)
    requires |els| == |devs| == |els'| == |devs'|
    requires forall j :: 0 <= j < |devs| ==> TxRank(now, els'[j], devs'[j].ev) == TxRank(now, els[j], devs[j].ev)
    ensures TxRanks(now, els', devs') == TxRanks(now, els, devs)
  {
    if |devs| > 0 {
      var n := |devs| - 1;
      TxRanksSame(now, els[..n], devs[..n], els'[..n], devs'[..n]);
    }
  }

  lemma {:induction false} RxRanksChange(now: nat, devs: seq<Dev>, d: nat, dev: Dev)
    requires d < |devs|
    ensures RxRanks(now, devs[d := dev]) - RxRanks(now, devs) == RxRank(now, dev.ev) - RxRank(now, devs[d].ev)
  {
    var n := |devs| - 1;
    if d == n {
      assert devs[d := dev][..n] == devs[..n];
    } else {
      assert devs[d := dev][..n] == devs[..n][d := dev];
      RxRanksChange(now, devs[..n], d, dev);
    }
  }

  // ---------------------------------------------------------------- one device

  ghost predicate Done(r: Loc) { r.halted || r.active <= 0 }

  /** After its next request has been read, a device is quiet for the rest of the microsecond. */
  lemma NextIsLater(m: Model, now: nat, d: nat, l: Loc, e: Env)
    requires Fits(l, d) && now < TIME_NEVER && Moving(now, e)
    ensures var r := HandleNext(m, now, d, l, e.next); Done(r) || r.dev.ev.time > now
  {
  }

  lemma RecheckMoves(m: Model, now: nat, d: nat, l: Loc, e: Env, scanning: bool)
    requires Moving(now, e)
    ensures var c := RxRecheck(m, now, d, l, e, scanning); !c.quit ==> c.l.dev.rx.req.ab.recheck > now
  {
  }

  lemma ScanEndedLater(m: Model, now: nat, d: nat, l: Loc, e: Env)
    requires Fits(l, d) && now < TIME_NEVER && Moving(now, e)
    ensures var r := ScanEnded(m, now, d, l, e); Done(r) || r.dev.ev.time > now
  {
    var rx := l.dev.rx;
    var l1 := if rx.req.ab.abort != now then Measure(m, now, d, l, rx.req.gain, rx.req.radio).0 else l;
    NextIsLater(m, now, d, Emit(SetRx(l1, rx.(searching := false)), RxReply(now, NoSync, [])), e);
  }

  lemma SearchReevalLater(m: Model, now: nat, d: nat, l: Loc, e: Env)
    requires Fits(l, d) && now < TIME_NEVER && Moving(now, e)
    ensures var r := SearchReevaluated(m, now, d, l, e); Done(r) || r.dev.ev.time > now
  {
    var c := RxRecheck(m, now, d, l, e, true);
    RecheckMoves(m, now, d, l, e, true);
    if !c.quit {
      ScanEndedLater(m, now, d, c.l, e);
    }
  }

  lemma DecidedLater(m: Model, now: nat, d: nat, l: Loc, e: Env)
    requires Fits(l, d) && now < TIME_NEVER && Moving(now, e)
    ensures var r := Decided(m, now, d, l, e); Done(r) || r.dev.ev.time > now || r.dev.ev.kind in {RxHeader, RxPayload}
  {
    NextIsLater(m, now, d, Emit(l, Stopped(now)), e);
  }

  lemma SyncSampledLater(m: Model, now: nat, d: nat, l: Loc, e: Env)
    requires Fits(l, d) && now < TIME_NEVER && Moving(now, e)
    ensures var r := SyncSampled(m, now, d, l, e);
      Done(r) || r.dev.ev.time > now || r.dev.ev.kind in {RxHeader, RxPayload}
  {
    hide Decided;
    var l1 := DrawErrors(m, now, d, l, e);
    var rx := l1.dev.rx;
    var l2 := Measure(m, now, d, l1, rx.req.gain, rx.req.radio).0;
    DecidedLater(m, now, d, Emit(SetRx(l2, rx.(biterrors := 0, errs := [])), AddressFound(now, rx.errs)), e);
  }

  lemma SyncLater(m: Model, now: nat, d: nat, l: Loc, e: Env)
    requires Fits(l, d) && now < TIME_NEVER && Moving(now, e)
    ensures var r := Synchronized(m, now, d, l, e);
      Done(r) || r.dev.ev.time > now || r.dev.ev.kind in {RxHeader, RxPayload}
  {
    hide SyncSampled, ScanEnded;
    var c := RxRecheck(m, now, d, l, e, true);
    RecheckMoves(m, now, d, l, e, true);
    if !c.quit {
      ScanEndedLater(m, now, d, c.l, e);
      SyncSampledLater(m, now, d, c.l, e);
    }
  }

  lemma PacketLater(m: Model, now: nat, d: nat, l: Loc, e: Env)
    requires Fits(l, d) && now < TIME_NEVER && Moving(now, e)
    ensures var r := HeaderReceived(m, now, d, l, e); Done(r) || r.dev.ev.time > now
    ensures var r := PayloadReceived(m, now, d, l, e); Done(r) || r.dev.ev.time > now
  {
    hide HandleNext;
    var c := RxRecheck(m, now, d, l, e, false);
    if !c.quit {
      var l1 := DrawErrors(m, now, d, c.l, e);
      NextIsLater(m, now, d, Emit(l1, RxReply(now, HeaderError, l1.dev.rx.errs)), e);
      NextIsLater(m, now, d, Emit(l1, RxReply(now, ContentError, l1.dev.rx.errs)), e);
      NextIsLater(m, now, d, Emit(l1, RxReply(now, RxOk, l1.dev.rx.errs)), e);
    }
  }

  lemma CcaLater(m: Model, now: nat, d: nat, l: Loc, e: Env)
    requires Fits(l, d) && now < TIME_NEVER && Moving(now, e)
    requires now <= l.dev.cca.nextMeas && l.dev.cca.req.period > 0
    ensures var r := CcaMeasured(m, now, d, l, e); Done(r) || r.dev.ev.time > now
  {
    hide HandleNext;
    var c := CcaRecheck(m, now, d, l, e);
    if !c.quit {
      var l1 := if now >= c.l.dev.cca.nextMeas then CcaSample(m, now, d, c.l) else c.l;
      NextIsLater(m, now, d, Emit(l1, CcaReply(now, l1.dev.cca.done, l1.dev.cca.samples)), e);
    }
  }

  /** A handler outside of a transmission lowers the rank of its device. */
  lemma RxRankFalls(m: Config, now: nat, d: nat, l: Loc, e: Env)
    requires Fits(l, d) && now == l.dev.ev.time < TIME_NEVER && Moving(now, e) && Timed(m, now, l.txl, d, l.dev)
    requires !TxOnKind(l.dev.ev.kind) && l.dev.ev.kind !in {NoEvent, TxStart}
    ensures var r := Handle(m, now, d, l, e); Done(r) || RxRank(now, r.dev.ev) < RxRank(now, l.dev.ev)
  {
    hide ScanTimed, SyncTimed, LostBefore, CcaMeasured, FoundTx, Synchronized, PayloadReceived, Summarizes,
      StopsScan;
    match l.dev.ev.kind
    case WaitDone => NextIsLater(m.world, now, d, Emit(l, WaitReply(now)), e);
    case RssiMeas =>
      var l1 := Measure(m.world, now, d, l, l.dev.rssi.gain, l.dev.rssi.radio).0;
      NextIsLater(m.world, now, d, Emit(l1, RssiReply(now)), e);
    case CcaMeas => CcaLater(m.world, now, d, l, e);
    case RxFound =>
    case RxSync => SyncLater(m.world, now, d, l, e);
    case RxHeader => PacketLater(m.world, now, d, l, e);
    case RxPayload => PacketLater(m.world, now, d, l, e);
    case RxSearchReeval => SearchReevalLater(m.world, now, d, l, e);
    case RxSearchStart =>
  }

  lemma ReevalRank(m: Config, now: nat, d: nat, l: Loc, e: Env)
    requires Fits(l, d) && l.dev.ev == Entry(now, TxAbortReeval) && now < TIME_NEVER
    requires Timed(m, now, l.txl, d, l.dev) && Moving(now, e)
    ensures var r := TxAbortReevaluated(m, now, d, l, e);
      Done(r) || TxRank(now, r.txl.els[d], r.dev.ev) < TxRank(now, l.txl.els[d], l.dev.ev)
  {
    hide Goes, KeepsAligned, Timed;
  }

  lemma StartRank(m: Config, now: nat, d: nat, l: Loc)
    requires Fits(l, d) && l.dev.ev == Entry(now, TxStart) && now < TIME_NEVER
    ensures var r := TxSchedule(m, now, d, TxStarted(now, d, l));
      TxRank(now, r.txl.els[d], r.dev.ev) < TxRank(now, l.txl.els[d], l.dev.ev)
  {
    ScheduledKind(m, now, d, TxStarted(now, d, l));
  }

  lemma PacketRank(m: Config, now: nat, d: nat, l: Loc)
    requires Fits(l, d) && now == l.dev.ev.time < TIME_NEVER && Timed(m, now, l.txl, d, l.dev)
    ensures l.dev.ev.kind == TxPacketStart ==>
      var r := TxSchedule(m, now, d, l.(txl := l.txl.StartPacket(d)));
      TxRank(now, r.txl.els[d], r.dev.ev) < TxRank(now, l.txl.els[d], l.dev.ev)
    ensures l.dev.ev.kind == TxPacketEnd ==>
      var r := TxPacketEnded(m, now, d, l);
      TxRank(now, r.txl.els[d], r.dev.ev) < TxRank(now, l.txl.els[d], l.dev.ev)
  {
    hide CcaTimed, ScanTimed, SyncTimed, ReceiveTimed, LostBefore, TxSchedule;
    ScheduledKind(m, now, d, l.(txl := l.txl.StartPacket(d)));
    ScheduledKind(m, now, d, l.(txl := l.txl.EndPacket(d)));
  }

  lemma EndRank(m: Model, now: nat, d: nat, l: Loc, e: Env)
    requires Fits(l, d) && l.dev.ev == Entry(now, TxEnd) && now < TIME_NEVER && Moving(now, e)
    ensures var r := TxEnded(m, now, d, l, e);
      Done(r) || TxRank(now, r.txl.els[d], r.dev.ev) < TxRank(now, l.txl.els[d], l.dev.ev)
  {
    hide HandleNext;
    NextIsLater(m, now, d, Emit(l.(txl := l.txl.Clear(d)), TxReply(now)), e);
  }

  lemma HandledTx(m: Config, now: nat, d: nat, l: Loc, e: Env)
    requires Fits(l, d)
    ensures l.dev.ev.kind == TxEnd ==> Handle(m, now, d, l, e) == TxEnded(m.world, now, d, l, e)
    ensures l.dev.ev.kind == TxPacketEnd ==> Handle(m, now, d, l, e) == TxPacketEnded(m, now, d, l)
    ensures l.dev.ev.kind == TxAbortReeval ==> Handle(m, now, d, l, e) == TxAbortReevaluated(m, now, d, l, e)
  {
  }

  lemma AtItsTime(s: State, d: nat)
    requires Sized(s) && AtNext(s) && d == Next(Entries(s))
    ensures s.now == s.devs[d].ev.time
  {
  }

  /** An event of a transmission lowers the rank of its device. */
  lemma TxRankFalls(m: Config, s: State, d: nat, e: Env)
    requires Inv(m, s) && Running(m, s) && d == Next(Entries(s)) && Moving(s.now, e)
    requires TxOnKind(s.devs[d].ev.kind) || s.devs[d].ev.kind == TxStart
    ensures var r := NewLoc(m, s, d, e);
      Done(r) || TxRank(s.now, r.txl.els[d], r.dev.ev) < TxRank(s.now, s.txl.els[d], s.devs[d].ev)
  {
    hide Handle, TxAbortReevaluated, TxPacketEnded, TxSchedule, TxStarted, TxEnded, Timed, TxRank, IsGreatestOn, Live,
      Active, Core, Next, Entries;
    var l, k, now := Get(s, d), s.devs[d].ev.kind, s.now;
    assert Timed(m, now, s.txl, d, s.devs[d]);
    AtItsTime(s, d);
    HandledTx(m, now, d, l, e);
    if k == TxEnd {
      EndRank(m.world, now, d, l, e);
    } else if k == TxStart {
      StartRank(m, now, d, l);
    } else if k == TxAbortReeval {
      ReevalRank(m, now, d, l, e);
    } else {
      PacketRank(m, now, d, l);
    }
  }

  // ---------------------------------------------------------------- all devices

  /** Every event lowers the measure. */
  lemma StepBelow(m: Config, s: State, e: Env)
    requires Inv(m, s) && Running(m, s) && !Falls(m, s) && Moving(s.now, e)
    ensures var r := Step(m, s, e); r.halted || r.active <= 0 || Below(m, r, s)
  {
    hide Dispatch, Inv, Next, Entries;
    StepInv(m, s, e);
    DispatchBelow(m, s, e);
  }

  /** An event leaves the ranks of the other devices as they were. */
  lemma OthersRank(m: Config, s: State, d: nat, e: Env)
    requires Inv(m, s) && Running(m, s) && d == Next(Entries(s))
    ensures Sized(s)
    ensures var k, r := Dispatch(m, s, d, e), NewLoc(m, s, d, e);
      && k.now == s.now && k.active == r.active && k.halted == r.halted && k.txl == r.txl && k.devs[d] == r.dev
      && (forall j :: 0 <= j < |s.devs| && j != d ==>
            TxRank(s.now, k.txl.els[j], k.devs[j].ev) == TxRank(s.now, s.txl.els[j], s.devs[j].ev))
      && (TxOnKind(s.devs[d].ev.kind) || s.devs[d].ev.kind == TxStart || k.devs == s.devs[d := r.dev])
  {
    hide Dispatch, NewLoc, InTime, IsGreatestOn, Live, Active, Core, TxRank;
    StepStructured(m, s, e);
    assert Core(s.txl.els[d], s.devs[d]);
    NewLocCore(m, s, d, e);
    DispatchShape(m, s, d, e);
    forall j | 0 <= j < |s.devs| && j != d
      ensures TxRank(s.now, NewLoc(m, s, d, e).txl.els[j], Dispatch(m, s, d, e).devs[j].ev)
              == TxRank(s.now, s.txl.els[j], s.devs[j].ev)
    {
      SearchersRank(s.now, s.txl.els[j], s.devs[j].ev);
    }
  }

  lemma SearchersRank(now: nat, el: El, ev: Entry)
    ensures ev.kind == RxSearchReeval ==> TxRank(now, el, ev) == 0 == TxRank(now, el, Entry(now, RxFound))
  {
  }

  lemma DispatchBelow(m: Config, s: State, e: Env)
    requires Inv(m, s) && Running(m, s) && !Falls(m, s) && Moving(s.now, e)
    ensures var k := Dispatch(m, s, Next(Entries(s)), e);
      k.halted || k.active <= 0
      || TxRanks(s.now, k.txl.els, k.devs) < TxRanks(s.now, s.txl.els, s.devs)
      || (TxRanks(s.now, k.txl.els, k.devs) == TxRanks(s.now, s.txl.els, s.devs)
          && RxRanks(s.now, k.devs) < RxRanks(s.now, s.devs))
  {
    assert Sized(s);
    hide Dispatch, NewLoc, Structured, InTime, TxRank, RxRank;
    var d := Next(Entries(s));
    var k, r := Dispatch(m, s, d, e), NewLoc(m, s, d, e);
    OthersRank(m, s, d, e);
    if !k.halted && k.active > 0 {
      TxRanksChange(s.now, s.txl.els, s.devs, k.txl.els, k.devs, d);
      if TxOnKind(s.devs[d].ev.kind) || s.devs[d].ev.kind == TxStart {
        TxRankFalls(m, s, d, e);
      } else {
        OtherBelow(m, s, d, e);
        RxRanksChange(s.now, s.devs, d, r.dev);
      }
    }
  }

  lemma OtherBelow(m: Config, s: State, d: nat, e: Env)
    requires Inv(m, s) && Running(m, s) && d == Next(Entries(s)) && Moving(s.now, e)
    requires !TxOnKind(s.devs[d].ev.kind) && s.devs[d].ev.kind != TxStart
    ensures var r := NewLoc(m, s, d, e);
      Done(r) || (RxRank(s.now, r.dev.ev) < RxRank(s.now, s.devs[d].ev)
                  && TxRank(s.now, r.txl.els[d], r.dev.ev) == 0 == TxRank(s.now, s.txl.els[d], s.devs[d].ev))
  {
    var l := Get(s, d);
    hide Handle;
    assert Core(s.txl.els[d], s.devs[d]) && Timed(m, s.now, s.txl, d, s.devs[d]);
    RxRankFalls(m, s.now, d, l, e);
  }

  // ---------------------------------------------------------------- runs end

  lemma LoopBelow(m: Config, s: State, e: Env, r: State)
    requires LoopGoes(m, s, e, r) && Inv(m, s) && !Falls(m, s) && Moving(s.now, e)
    ensures Sized(r) && (r.halted || r.active <= 0 || Below(m, r, s))
  {
    hide Step;
    StepBelow(m, s, e);
  }

  /** Devices which let time move. */
  ghost predicate Drives(m: Config, o: State -> Env)
  {
    forall s: State :: Moving(s.now, o(s))
  }

  ghost predicate DrivenBy(o: State -> Env, es: seq<Env>, ss: seq<State>)
  {
    |ss| == |es| + 1 && forall k :: 0 <= k < |es| ==> es[k] == o(ss[k])
  }

  /** Every straight run whose devices let time move can be continued until the simulation length is
      reached, no device is left, a fatal error is raised, or the next event puts time back. There is
      no endless one. */
  lemma {:induction false} RunEnds(m: Config, qs: seq<Request>, o: State -> Env, es: seq<Env>, ss: seq<State>)
    returns (es': seq<Env>, ss': seq<State>)
    requires StraightRun(m, qs, es, ss) && DrivenBy(o, es, ss) && Drives(m, o) && Sized(ss[|es|])
    ensures StraightRun(m, qs, es', ss') && DrivenBy(o, es', ss') && es <= es' && ss <= ss'
    ensures Sized(ss'[|es'|]) && (!Running(m, ss'[|es'|]) || Falls(m, ss'[|es'|]))
    decreases TimeLeft(m, ss[|es|]), !ss[|es|].halted && ss[|es|].active > 0,
              TxRanks(ss[|es|].now, ss[|es|].txl.els, ss[|es|].devs), RxRanks(ss[|es|].now, ss[|es|].devs)
  {
    hide Step, Inv, Dispatch, Next, Entries, Falls;
    var n := |es|;
    var s := ss[n];
    if !Running(m, s) || Falls(m, s) {
      return es, ss;
    }
    var e := o(s);
    var r := Step(m, s, e);
    RunInv(m, qs, es, ss, n);
    assert LoopGoes(m, s, e, r);
    hide LoopGoes, Conforming, TxRanks, RxRanks, Start;
    LoopInv(m, s, e, r);
    LoopBelow(m, s, e, r);
    var es1, ss1 := es + [e], ss + [r];
    Extended(m, qs, es, ss, e, r);
    assert ss1[|es1|] == r;
    if !Running(m, r) {
      return es1, ss1;
    }
    es', ss' := RunEnds(m, qs, o, es1, ss1);
  }

  /** A run with one more event. */
  lemma Extended(m: Config, qs: seq<Request>, es: seq<Env>, ss: seq<State>, e: Env, r: State)
    requires IsRun(m, qs, es, ss) && LoopGoes(m, ss[|es|], e, r)
    ensures IsRun(m, qs, es + [e], ss + [r])
    ensures StraightRun(m, qs, es, ss) && Sized(ss[|es|]) && !Falls(m, ss[|es|]) ==>
      StraightRun(m, qs, es + [e], ss + [r])
  {
    hide LoopGoes, Falls;
    var es1, ss1 := es + [e], ss + [r];
    forall k | 0 <= k < |es1|
      ensures LoopGoes(m, ss1[k], es1[k], ss1[k + 1])
    {
      if k < |es| {
        assert LoopGoes(m, ss[k], es[k], ss[k + 1]);
      }
    }
    if StraightRun(m, qs, es, ss) && Sized(ss[|es|]) && !Falls(m, ss[|es|]) {
      forall k | 0 <= k < |es1|
        ensures GoesOn(m, ss1[k])
      {
        if k < |es| {
          assert es1[k] == es[k] && ss1[k] == ss[k];
        }
      }
    }
  }
}
