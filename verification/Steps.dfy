/** One iteration of the main loop keeps all devices in step with their sessions. */
module Steps {
  import opened Types
  import opened FuncQueue
  import opened TxList
  import opened ChannelModem
  import opened Device
  import opened Phy
  import opened Session
  import opened Invariant
  import opened Structure
  import opened Timing

  /** What holds even once the simulation has been ended by a device. */
  ghost predicate Conforming(m: Model, s: State)
  {
    forall d :: 0 <= d < |s.devs| ==> Conforms(m, s.devs[d].log) && s.now <= s.devs[d].ev.time
  }

  /** Everything that is kept while the simulation runs. */
  ghost predicate Inv(m: Config, s: State)
  {
    Structured(s) && InTime(m, s) && AtNext(s)
  }

  lemma TimedStarted(m: Config, s: State)
    requires InTime(m, s) && Structured(s)
    ensures PacketsStarted(s.txl, s.now)
  {
    forall j | 0 <= j < |s.devs| && s.txl.els[j].used.ongoing
      ensures s.txl.els[j].tx.startPacket <= s.now
    {
      assert Core(s.txl.els[j], s.devs[j]) && Timed(m, s.now, s.txl, j, s.devs[j]);
    }
  }

  lemma TimedConforms(m: Config, now: nat, txl: TxL, d: nat, dev: Dev)
    requires d < |txl.els| && Timed(m, now, txl, d, dev)
    ensures Conforms(m.world, dev.log)
  {
  }

  /** The device whose event is handled. */
  lemma HandleGood(m: Config, s: State, d: nat, e: Env)
    requires Inv(m, s) && d < |s.devs| && s.now == s.devs[d].ev.time < TIME_NEVER && !s.halted
    requires s.devs[d].ev.kind !in {NoEvent, TxStart, TxPacketStart}
    ensures Good(m, s.now, d, Handle(m, s.now, d, Get(s, d), e))
  {
    hide IsGreatestOn, Live, TxTimed, Good, PacketsStarted, SyncTimed, WaitFinished, TxEnded, CcaMeasured,
      RssiMeasured, FoundTx, Synchronized, HeaderReceived, PayloadReceived, SearchReevaluated, SearchStarted,
      TxAbortReevaluated, TxPacketEnded;
    var l, now := Get(s, d), s.now;
    TimedStarted(m, s);
    assert Timed(m, now, l.txl, d, l.dev) && Core(l.txl.els[d], l.dev);
    match l.dev.ev.kind
    case WaitDone => WaitGood(m, now, d, l, e);
    case TxEnd => TxEndGood(m, now, d, l, e);
    case TxPacketEnd => TxPacketEndGood(m, now, d, l);
    case CcaMeas => CcaGood(m, now, d, l, e);
    case RssiMeas => RssiGood(m, now, d, l, e);
    case RxFound => FoundGood(m, now, d, l, e);
    case RxSync => SyncGood(m, now, d, l, e);
    case RxHeader => HeaderGood(m, now, d, l, e);
    case RxPayload => PayloadGood(m, now, d, l, e);
    case TxAbortReeval => TxAbortReevalGood(m, now, d, l, e);
    case RxSearchReeval => SearchReevalGood(m, now, d, l, e);
    case RxSearchStart => SearchStartGood(m, now, d, l, e);
  }

  /** The events after which a device may start a new transmission keep the parameters of the
      packet a receiver has just been activated for. */
  ghost predicate KeepsFound(s: State, d: nat, txl: TxL)
    requires Sized(s) && d < |s.devs| == |txl.els|
  {
    (exists j :: 0 <= j < |s.devs| && s.devs[j].ev.kind == RxFound && s.devs[j].rx.txNbr == d) ==>
      txl.els[d].tx == s.txl.els[d].tx.(ab := txl.els[d].tx.ab)
  }

  /** At the loop head nothing pending at this time has a higher priority than the chosen event. */
  lemma ChosenFirst(s: State, j: nat)
    requires Sized(s) && AtNext(s) && j < |s.devs|
    ensures s.now <= s.devs[j].ev.time
    ensures s.devs[j].ev.time == s.now ==>
      s.devs[j].ev.kind.Index() <= s.devs[Next(Entries(s))].ev.kind.Index()
  {
    NextIsLeast(Entries(s), j);
  }

  /** If receivers wait for the chosen device, it is in the middle of a transmission. */
  lemma FoundFirst(m: Config, s: State, d: nat, j: nat)
    requires Inv(m, s) && d == Next(Entries(s)) && j < |s.devs|
    requires s.devs[j].ev.kind == RxFound && s.devs[j].rx.txNbr == d
    ensures s.devs[d].ev.kind in {TxAbortReeval, TxPacketStart, NoEvent}
  {
    assert Timed(m, s.now, s.txl, j, s.devs[j]) && FoundTxAlive(s, j);
    ChosenFirst(s, j);
  }

  lemma OtherTimed(m: Config, s: State, d: nat, txl: TxL, j: nat)
    requires InTime(m, s) && d < |s.devs| && j < |s.devs| && j != d
    requires ListStep(s.txl, txl, d) && KeepsFound(s, d, txl)
    ensures Timed(m, s.now, txl, j, s.devs[j])
  {
    hide CcaTimed, ScanTimed, SyncTimed, ReceiveTimed, TxTimed, LostBefore, IsGreatestOn, Active;
    assert Timed(m, s.now, s.txl, j, s.devs[j]);
    var dev := s.devs[j];
    if dev.ev.kind == RxFound && dev.rx.txNbr != d {
      assert txl.els[dev.rx.txNbr] == s.txl.els[dev.rx.txNbr];
    }
  }

  /** Time moves on to the next event without disturbing anybody. */
  lemma AdvanceTimed(m: Config, now: nat, later: nat, txl: TxL, d: nat, dev: Dev)
    requires d < |txl.els| && Timed(m, now, txl, d, dev) && now <= later <= dev.ev.time
    ensures Timed(m, later, txl, d, dev)
  {
    hide CcaTimed, TxTimed, LostBefore, ScanTimed, SyncTimed, ReceiveTimed, HeaderErrors, PayloadStart, PayloadEnd;
    var p := Parse(m.world, dev.log);
    if dev.ev.kind == CcaMeas {
      AdvanceCca(m.world, now, later, dev.cca, p.c, p.scanEnd, dev.ev.time);
    } else if TxOnKind(dev.ev.kind) {
      AdvanceTx(m, now, later, txl.els[d].used, txl.els[d].tx, dev.ev);
    } else if p.Scanning? || p.Syncing? {
      AdvanceLost(p.r, p.lost, now, later);
    }
  }

  lemma AdvanceCca(m: Model, now: nat, later: nat, cca: CcaStatus, c: CcaReq, scanEnd: nat, t: nat)
    requires CcaTimed(m, now, cca, c, scanEnd, t) && now <= later
    ensures CcaTimed(m, later, cca, c, scanEnd, t)
  {
  }

  lemma AdvanceTx(m: Config, now: nat, later: nat, u: Txs, t: TxReq, ev: Entry)
    requires TxTimed(m, now, u, t, ev) && now <= later
    ensures TxTimed(m, later, u, t, ev)
  {
  }

  lemma AdvanceLost(r: RxReq, lost: set<(nat, nat)>, now: nat, later: nat)
    requires now <= later
    ensures LostBefore(r, lost, now) ==> LostBefore(r, lost, later)
  {
  }

  /** All devices after an event, before time moves on. */
  ghost predicate Settled(m: Config, s: State)
  {
    && Sized(s)
    && (forall d :: 0 <= d < |s.devs| ==> Conforms(m.world, s.devs[d].log) && s.now <= s.devs[d].ev.time)
    && (s.active > 0 ==> InTime(m, s))
  }

  lemma AdvanceSettled(m: Config, s: State)
    requires Settled(m, s)
    ensures var r := Advance(s);
      AtNext(r) && s.now <= r.now && Conforming(m.world, r) && (r.active > 0 ==> InTime(m, r))
  {
    var r := Advance(s);
    assert Entries(r) == Entries(s);
    forall d: nat | d < |s.devs|
      ensures r.now <= r.devs[d].ev.time
      ensures r.active > 0 ==> Timed(m, r.now, r.txl, d, r.devs[d])
    {
      NextIsLeast(Entries(s), d);
      if r.active > 0 {
        AdvanceTimed(m, s.now, r.now, s.txl, d, s.devs[d]);
      }
    }
  }

  /** One device handled, the others as they were. */
  lemma PutSettled(m: Config, s: State, d: nat, r: Loc)
    requires Inv(m, s) && d == Next(Entries(s)) && Fits(r, d) && ListStep(s.txl, r.txl, d)
    requires Good(m, s.now, d, r) && !r.halted
    requires KeepsFound(s, d, r.txl)
    requires s.devs[d].ev.kind in {TxAbortReeval, TxPacketStart} ==>
      TxOnKind(r.dev.ev.kind) || r.dev.ev.kind == NoEvent || r.active <= 0
    requires s.devs[d].ev.kind != NoEvent && (r.active > 0 ==> r.dev.ev.kind != RxFound)
    ensures Settled(m, Put(s, d, r))
  {
    hide CcaTimed, ScanTimed, SyncTimed, ReceiveTimed, LostBefore, TxTimed, IsGreatestOn, Live, Active, Entries,
      Next;
    var k := Put(s, d, r);
    forall j: nat | j < |s.devs|
      ensures Conforms(m.world, k.devs[j].log) && k.now <= k.devs[j].ev.time
      ensures k.active > 0 ==> Timed(m, k.now, k.txl, j, k.devs[j]) && FoundTxAlive(k, j)
    {
      if j != d {
        OtherTimed(m, s, d, r.txl, j);
        TimedConforms(m, s.now, s.txl, j, s.devs[j]);
        assert FoundTxAlive(s, j);
        if s.devs[j].ev.kind == RxFound && s.devs[j].rx.txNbr == d {
          FoundFirst(m, s, d, j);
        }
      }
    }
  }

  /** A searching receiver which fits a packet starting now. */
  lemma ActivatedTimed(m: Config, s: State, d: nat, txl: TxL, j: nat)
    requires Inv(m, s) && d < |s.devs| && j < |s.devs| && j != d
    requires ListStep(s.txl, txl, d) && txl.els[d].tx == s.txl.els[d].tx
    requires s.txl.els[d].tx.startPacket <= s.now
    ensures Timed(m, s.now, txl, j, Activated(s.now, s.txl.els[d].tx, d, s.devs[j]))
  {
    assert Timed(m, s.now, s.txl, j, s.devs[j]) && Core(s.txl.els[j], s.devs[j]);
    OtherTimed(m, s, d, txl, j);
  }

  /** Another device, when device `d` starts a transmission or a packet. */
  lemma StartOther(m: Config, s: State, d: nat, r: Loc, activate: bool, j: nat)
    requires Inv(m, s) && d == Next(Entries(s)) && s.devs[d].ev.kind in {TxStart, TxPacketStart}
    requires Fits(r, d) && ListStep(s.txl, r.txl, d) && r.txl.els[d].tx == s.txl.els[d].tx
    requires activate ==> s.txl.els[d].tx.startPacket <= s.now
    requires j < |s.devs| && j != d
    ensures var dev := if activate then Activated(s.now, s.txl.els[d].tx, d, s.devs[j]) else s.devs[j];
      && Timed(m, s.now, r.txl, j, dev) && Conforms(m.world, dev.log) && s.now <= dev.ev.time
      && (dev.ev.kind == RxFound && dev.rx.txNbr != d ==> dev == s.devs[j])
      && (dev.ev.kind == NoEvent <==> s.devs[j].ev.kind == NoEvent)
      && (TxOnKind(dev.ev.kind) <==> TxOnKind(s.devs[j].ev.kind))
  {
    hide CcaTimed, ScanTimed, SyncTimed, ReceiveTimed, LostBefore, InTime, Entries, Next, Match;
    var dev := if activate then Activated(s.now, s.txl.els[d].tx, d, s.devs[j]) else s.devs[j];
    assert Core(s.txl.els[j], s.devs[j]);
    if activate {
      ActivatedTimed(m, s, d, r.txl, j);
    } else {
      OtherTimed(m, s, d, r.txl, j);
    }
    TimedConforms(m, s.now, r.txl, j, dev);
  }

  /** The two events which start a packet, or a transmission: `r` is the new state of the device. */
  ghost predicate Starting(m: Config, s: State, d: nat, r: Loc, activate: bool)
  {
    && Inv(m, s) && d == Next(Entries(s)) && s.devs[d].ev.kind in {TxStart, TxPacketStart}
    && Fits(r, d) && ListStep(s.txl, r.txl, d) && Good(m, s.now, d, r) && !r.halted && r.active > 0
    && TxOnKind(r.dev.ev.kind) && r.txl.els[d].tx == s.txl.els[d].tx
    && (activate ==> s.txl.els[d].tx.startPacket <= s.now)
  }

  function Started(s: State, d: nat, r: Loc, activate: bool): (k: State)
    requires Sized(s) && d < |s.devs| == |r.txl.els| && Fits(r, d)
    ensures Sized(k) && |k.devs| == |s.devs|
  {
    Put(if activate then ActivateAll(s, s.txl.els[d].tx, d) else s, d, r)
  }

  lemma StartTimed(m: Config, s: State, d: nat, r: Loc, activate: bool, j: nat)
    requires Starting(m, s, d, r, activate) && j < |s.devs|
    ensures var k := Started(s, d, r, activate);
      Timed(m, k.now, k.txl, j, k.devs[j]) && Conforms(m.world, k.devs[j].log) && k.now <= k.devs[j].ev.time
  {
    hide Timed, Conforms, ListStep, Match, Entries, Next;
    if j != d {
      StartOther(m, s, d, r, activate, j);
    }
  }

  lemma StartFound(m: Config, s: State, d: nat, r: Loc, activate: bool, j: nat)
    requires Starting(m, s, d, r, activate) && j < |s.devs|
    ensures FoundTxAlive(Started(s, d, r, activate), j)
  {
    hide CcaTimed, ScanTimed, SyncTimed, ReceiveTimed, LostBefore, TxTimed, Timed, Conforms, Entries, Next, Match;
    var k := Started(s, d, r, activate);
    if j != d && k.devs[j].ev.kind == RxFound && k.devs[j].rx.txNbr != d {
      StartOther(m, s, d, r, activate, j);
      var i := k.devs[j].rx.txNbr;
      assert FoundTxAlive(s, j);
      StartOther(m, s, d, r, activate, i);
    }
  }

  lemma StartSettled(m: Config, s: State, d: nat, r: Loc, activate: bool)
    requires Starting(m, s, d, r, activate)
    ensures Settled(m, Started(s, d, r, activate))
  {
    forall j: nat | j < |s.devs|
      ensures var k := Started(s, d, r, activate);
        Timed(m, k.now, k.txl, j, k.devs[j]) && Conforms(m.world, k.devs[j].log) && k.now <= k.devs[j].ev.time
    {
      StartTimed(m, s, d, r, activate, j);
    }
    forall j: nat | j < |s.devs|
      ensures FoundTxAlive(Started(s, d, r, activate), j)
    {
      StartFound(m, s, d, r, activate, j);
    }
  }

  lemma TxStartSettled(m: Config, s: State, d: nat)
    requires Inv(m, s) && Running(m, s) && d == Next(Entries(s)) && s.devs[d].ev.kind == TxStart
    ensures Settled(m, TxStartEvent(m, s, d))
  {
    hide Settled, TxSchedule, IsGreatestOn, Live, Active, Timed;
    var l := Get(s, d);
    assert Core(s.txl.els[d], s.devs[d]) && Timed(m, s.now, s.txl, d, s.devs[d]);
    var r := TxSchedule(m, s.now, d, TxStarted(s.now, d, l));
    StartEvents(m, s, d);
    TxStartGood(m, s.now, d, l);
    TxStartCore(m, s.now, d, l);
    ScheduledKind(m, s.now, d, TxStarted(s.now, d, l));
    StartSettled(m, s, d, r, s.now >= s.txl.els[d].tx.startPacket);
  }

  lemma PacketDue(m: Config, now: nat, txl: TxL, d: nat, dev: Dev)
    requires d < |txl.els| && Timed(m, now, txl, d, dev) && dev.ev == Entry(now, TxPacketStart)
    ensures txl.els[d].tx.startPacket <= now
  {
  }

  lemma TxPacketStartSettled(m: Config, s: State, d: nat)
    requires Inv(m, s) && Running(m, s) && d == Next(Entries(s)) && s.devs[d].ev.kind == TxPacketStart && !Falls(m, s)
    ensures Settled(m, TxPacketStartEvent(m, s, d))
  {
    hide Settled, TxSchedule, IsGreatestOn, Live, Active, Timed;
    var l := Get(s, d);
    assert Core(s.txl.els[d], s.devs[d]) && Timed(m, s.now, s.txl, d, s.devs[d]);
    PacketDue(m, s.now, s.txl, d, s.devs[d]);
    var l1 := l.(txl := l.txl.StartPacket(d));
    var r := TxSchedule(m, s.now, d, l1);
    StartEvents(m, s, d);
    TxPacketStartGood(m, s.now, d, l);
    TxPacketStartCore(m, s.now, d, l);
    ScheduledKind(m, s.now, d, l1);
    StartSettled(m, s, d, r, true);
  }

  lemma DispatchSettled(m: Config, s: State, e: Env)
    requires Inv(m, s) && Running(m, s) && !Falls(m, s)
    ensures var r := Dispatch(m, s, Next(Entries(s)), e); r.halted || Settled(m, r)
  {
    hide Handle, Settled, InTime, IsGreatestOn, Live, TxStartEvent, TxPacketStartEvent, Timed, ListStep, Conforms,
      Entries, Next, Falls;
    var d := Next(Entries(s));
    var k := s.devs[d].ev.kind;
    assert Core(s.txl.els[d], s.devs[d]);
    if k == TxStart {
      TxStartSettled(m, s, d);
    } else if k == TxPacketStart {
      TxPacketStartSettled(m, s, d);
    } else {
      HandleGood(m, s, d, e);
      HandleFrame(m, s, d, e);
      var r := Handle(m, s.now, d, Get(s, d), e);
      if !r.halted {
        PutSettled(m, s, d, r);
      }
    }
  }

  lemma HandleFrame(m: Config, s: State, d: nat, e: Env)
    requires Inv(m, s) && Running(m, s) && d == Next(Entries(s))
    requires s.devs[d].ev.kind !in {NoEvent, TxStart, TxPacketStart}
    ensures var r := Handle(m, s.now, d, Get(s, d), e);
      && ListStep(s.txl, r.txl, d)
      && KeepsFound(s, d, r.txl)
      && (s.devs[d].ev.kind == TxAbortReeval && !r.halted && r.active > 0 ==>
            TxOnKind(r.dev.ev.kind) || r.dev.ev.kind == NoEvent)
      && (!r.halted && r.active > 0 ==> r.dev.ev.kind != RxFound)
  {
    hide TxAbortReevaluated, WaitFinished, TxEnded, TxPacketEnded, CcaMeasured, RssiMeasured, FoundTx,
      Synchronized, HeaderReceived, PayloadReceived, SearchReevaluated, SearchStarted, IsGreatestOn, Live, Timed,
      Active, Core, ListStep, Entries, Next;
    var l, k := Get(s, d), s.devs[d].ev.kind;
    var r := Handle(m, s.now, d, l, e);
    assert Core(s.txl.els[d], s.devs[d]);
    if exists j :: 0 <= j < |s.devs| && s.devs[j].ev.kind == RxFound && s.devs[j].rx.txNbr == d {
      var j :| 0 <= j < |s.devs| && s.devs[j].ev.kind == RxFound && s.devs[j].rx.txNbr == d;
      FoundFirst(m, s, d, j);
    }
    HandleCore(m, s.now, d, l, e);
    ReevalKeeps(m, s.now, d, l, e);
  }

  lemma ReevalKeeps(m: Config, now: nat, d: nat, l: Loc, e: Env)
    requires Fits(l, d)
    ensures var t := TxAbortReevaluated(m, now, d, l, e).txl.els[d].tx; t == l.txl.els[d].tx.(ab := t.ab)
  {
  }

  /** The main loop: time never runs backwards, the sessions keep conforming, and unless the
      simulation is over everything is ready for the next event. */
  lemma StepInv(m: Config, s: State, e: Env)
    requires Inv(m, s) && Running(m, s) && !Falls(m, s)
    ensures var r := Step(m, s, e);
      r.halted || (s.now <= r.now && Conforming(m.world, r) && (r.active > 0 ==> Inv(m, r)))
  {
    hide Dispatch, Settled, Timed, Conforming;
    StepStructured(m, s, e);
    DispatchShape(m, s, Next(Entries(s)), e);
    DispatchSettled(m, s, e);
    var k := Dispatch(m, s, Next(Entries(s)), e);
    if !k.halted {
      AdvanceSettled(m, k);
    }
  }
}
