/** A prelocked reception which draws its errors with the rate of an earlier one. */
module Prelock {
  import opened Types
  import opened FuncQueue
  import opened TxList
  import opened ErrorCalc
  import opened ChannelModem
  import opened Device
  import opened Phy

  /** A modem for which a gain above 0 dB makes all the difference. */
  const MODEM := Model(
    (air: Air, tx: int, rx: nat, i: nat, t: nat) => 0.0,
    (air: Air, tx: int, rx: nat, t: nat) => 0.0,
    (rx: nat, radio: Radio, p: seq<Option<real>>, air: Air, tx: int) =>
      if |p| > 0 && p[0].Some? then p[0].value else 0.0,
    (rx: nat, radio: Radio, p: seq<Option<real>>, air: Air, tx: int) => 0.0,
    (snr: real, isi: real) => snr,
    (rx: nat, params: ModemParams, snr: real) => if snr > 0.0 then 1 else 0,
    (rx: nat, params: ModemParams, snr: real, t: TxReq) => 0,
    (rx: nat, radio: Radio, power: real) => 0,
    (rssi: int) => 0,
    0)

  const NO_ABORT := Abort(TIME_NEVER, TIME_NEVER)
  const SENT := TxReq(10, 1000, 10, 1000, NO_ABORT, NO_RADIO, 0.0, 0, 0, 0)
  const FIRST_RX := RxReq(10, 100, NO_ABORT, NO_RADIO, 0.0, 0, 0, 0, 0, 0, 0, 1000000, false, 0, [0])
  const SECOND_RX := RxReq(11, 100, NO_ABORT, NO_RADIO, 1.0, 0, 2, 0, 1, 0, 0, 1000000, true, 0, [0])

  /** Synchronized without errors, the device stops the first reception for the second one. */
  const ANSWER := Env(RxV2(SECOND_RX), AbortReply([], StopAll), RxStop, true, 0)

  ghost predicate TwoDevices(s: State, now: nat, tx: Entry, rx: Entry)
  {
    && Sized(s) && |s.devs| == 2 && s.now == now && s.active == 2 && !s.halted
    && s.devs[0].ev == tx && s.devs[1].ev == rx
    && s.txl.els[0].tx == SENT && s.txl.els[1] == NO_EL
    && !s.devs[0].rx.searching && !s.devs[1].rx.searching
  }

  ghost predicate InAir(s: State)
    requires Sized(s) && |s.devs| == 2
  {
    s.txl.els[0].used == Txs(true, true, true, false) && s.txl.ctr == 1 && s.txl.maxTx == 0
  }

  lemma AtStart()
    ensures var s := Start(MODEM, [TxV2(SENT), RxV2(FIRST_RX)]);
      && TwoDevices(s, 10, Entry(10, TxStart), Entry(10, RxSearchStart))
      && s.devs[1].rx == NewRx(NO_RX, FIRST_RX, Calc(1, 1, 0)) && s.devs[1].rec == NO_REC
      && s.txl.els[0].used == TXS_OFF && s.txl.ctr == 0 && s.txl.maxTx == -1
  {
    var qs := [TxV2(SENT), RxV2(FIRST_RX)];
    var b0 := Booted(MODEM, qs, 0);
    assert b0 == Initial(2);
    var b1 := Booted(MODEM, qs, 1);
    assert b1 == Put(b0, 0, HandleNext(MODEM, 0, 0, Get(b0, 0), TxV2(SENT)));
    var b2 := Booted(MODEM, qs, 2);
    assert b2 == Put(b1, 1, HandleNext(MODEM, 0, 1, Get(b1, 1), RxV2(FIRST_RX)));
    ChosenOfTwo(b2);
  }

  /** The choice between two devices. */
  lemma ChosenOfTwo(s: State)
    requires Sized(s) && |s.devs| == 2
    ensures Next(Entries(s)) == if Before(s.devs[1].ev, 1, s.devs[0].ev, 0) then 1 else 0
  {
    var q := Entries(s);
    if Before(q[1], 1, q[0], 0) {
      NextIsUnique(q, 1);
    } else {
      NextIsUnique(q, 0);
    }
  }

  /** What one event of a device, which leaves the other one alone, makes of the two. */
  lemma OneEvent(m: Config, s: State, e: Env)
    requires Sized(s) && |s.devs| == 2 && !s.devs[0].rx.searching && !s.devs[1].rx.searching
    ensures var d := Next(Entries(s));
      s.devs[d].ev.kind !in {TxStart, TxPacketStart} ==>
        Step(m, s, e) == Advance(Put(s, d, Handle(m, s.now, d, Get(s, d), e)))
  {
  }

  /** The transmission starts. */
  lemma Started(m: Config, s: State, e: Env)
    requires TwoDevices(s, 10, Entry(10, TxStart), Entry(10, RxSearchStart))
    requires s.txl.els[0].used == TXS_OFF && s.txl.ctr == 0 && s.txl.maxTx == -1
    ensures var r := Step(m, s, e);
      && TwoDevices(r, 10, Entry(1000, TxEnd), Entry(10, RxSearchStart)) && InAir(r)
      && r.devs[1] == s.devs[1]
  {
    ChosenOfTwo(s);
    var k := TxStartEvent(m, s, 0);
    assert k.devs[1] == s.devs[1];
    ChosenOfTwo(k);
  }

  /** The first reception locks to it. */
  lemma FirstLock(m: Config, s: State)
    requires m.world == MODEM && InTheAir(s, 10, RxSearchStart)
    requires s.devs[1].rx == NewRx(NO_RX, FIRST_RX, Calc(1, 1, 0)) && s.devs[1].rec == NO_REC
    ensures var r := Step(m, s, ANSWER);
      && InTheAir(r, 10, RxSync) && FirstRate(r.devs[1].rec)
      && r.devs[1].rx.req == FIRST_RX && !r.devs[1].rx.prelocked && r.devs[1].rx.txNbr == 0
      && r.devs[1].rx.scanEnd == 109 && r.devs[1].rx.syncStart == 10 == r.devs[1].rx.syncEnd
      && r.devs[1].rx.biterrors == 0 && r.devs[1].rx.pace == Calc(1, 1, 0) && !r.devs[1].rx.txLost
  {
    hide Synchronized, Entries, Next;
    ChosenOfTwo(s);
    OneEvent(m, s, ANSWER);
    var rx := s.devs[1].rx;
    FirstFits(10, s.txl, rx);
    var l := Get(s, 1);
    var r := SearchFrom(MODEM, 10, 1, l, ANSWER);
    assert r == FoundTx(MODEM, 10, 1, SetRx(l, rx.(txNbr := 0, searching := false)), ANSWER);
    ChosenOfTwo(Put(s, 1, r));
  }

  ghost predicate InTheAir(s: State, now: nat, k: Kind)
  {
    TwoDevices(s, now, Entry(1000, TxEnd), Entry(now, k)) && InAir(s)
  }

  /** The rate of the first reception, up to date. */
  predicate FirstRate(rec: Rec)
  {
    rec.lastTxCtr == 1 && rec.rxCtr == rec.lastRxCtr && rec.ber == 0
  }

  lemma FirstFits(now: nat, txl: TxL, rx: RxStatus)
    requires |txl.els| == 2 && txl.maxTx == 0 && txl.els[0].used.ongoing && Match(now, txl.els[0].tx, rx)
    ensures FindFitting(now, txl, rx) == 0
  {
  }

  /** The first reception is stopped as soon as it has found the address. */
  lemma FirstStopped(m: Config, s: State)
    requires m.world == MODEM && InTheAir(s, 10, RxSync) && FirstRate(s.devs[1].rec)
    requires s.devs[1].rx.req == FIRST_RX && !s.devs[1].rx.prelocked && s.devs[1].rx.txNbr == 0
    requires s.devs[1].rx.scanEnd == 109 && s.devs[1].rx.syncStart == 10 == s.devs[1].rx.syncEnd
    requires s.devs[1].rx.biterrors == 0 && s.devs[1].rx.pace == Calc(1, 1, 0) && !s.devs[1].rx.txLost
    ensures var r := Step(m, s, ANSWER);
      && InTheAir(r, 11, RxSearchStart) && FirstRate(r.devs[1].rec)
      && r.devs[1].rx.req == SECOND_RX && r.devs[1].rx.prelocked && r.devs[1].rx.txNbr == 0
      && r.devs[1].rx.scanEnd == 110 && r.devs[1].rx.pace == Calc(1, 1, 0)
  {
    ChosenOfTwo(s);
    OneEvent(m, s, ANSWER);
    var l := Get(s, 1);
    var l1 := DrawErrors(MODEM, 10, 1, l, ANSWER);
    assert FirstRate(l1.dev.rec);
    var r := SyncSampled(MODEM, 10, 1, l, ANSWER);
    assert r == OfferPacket(MODEM, 10, 1, l1, ANSWER);
    ChosenOfTwo(Put(s, 1, r));
  }

  /** The second one goes on with the same transmission. */
  lemma SecondLock(m: Config, s: State)
    requires m.world == MODEM && InTheAir(s, 11, RxSearchStart) && FirstRate(s.devs[1].rec)
    requires s.devs[1].rx.req == SECOND_RX && s.devs[1].rx.prelocked && s.devs[1].rx.txNbr == 0
    requires s.devs[1].rx.scanEnd == 110 && s.devs[1].rx.pace == Calc(1, 1, 0)
    ensures var r := Step(m, s, ANSWER);
      && InTheAir(r, 11, RxSync) && FirstRate(r.devs[1].rec)
      && r.devs[1].rx.req == SECOND_RX && r.devs[1].rx.prelocked && r.devs[1].rx.txNbr == 0
      && r.devs[1].rx.scanEnd == 110 && r.devs[1].rx.syncStart == 11
      && r.devs[1].rx.pace == Calc(1, 1, 0) && !r.devs[1].rx.txLost
  {
    ChosenOfTwo(s);
    OneEvent(m, s, ANSWER);
    var l := Get(s, 1);
    var r := SearchFrom(MODEM, 11, 1, l, ANSWER);
    assert r == FoundTx(MODEM, 11, 1, SetRx(l, l.dev.rx.(txNbr := 0, searching := false)), ANSWER);
    ChosenOfTwo(Put(s, 1, r));
  }

  /** What the modem says of the second reception. */
  lemma SecondRate(s: State)
    requires TwoDevices(s, 11, Entry(1000, TxEnd), Entry(11, RxSync)) && InAir(s)
    ensures FullBer(MODEM, Active(s.txl.els), SECOND_RX, 0, 1, 11) == 1
  {
    var air := Active(s.txl.els);
    var p := Powers(MODEM, air, 1.0, 0, 1, 11);
    assert air[0] == Some(SENT.(ab := NO_TX.ab)) && p[0] == Some(1.0);
  }

  /** A run in which a prelocked reception, with a gain of its own, draws the errors of a microsecond
      with the rate of the reception before it: the modem gives rate 1 for it, and it uses rate 0. */
  lemma RateCanBeStale(m: Config)
    requires m.world == MODEM && m.simLength > 11
    ensures var s0 := Start(MODEM, [TxV2(SENT), RxV2(FIRST_RX)]);
      var s1 := Step(m, s0, ANSWER);
      var s2 := Step(m, s1, ANSWER);
      var s3 := Step(m, s2, ANSWER);
      var s4 := Step(m, s3, ANSWER);
      && Running(m, s0) && Running(m, s1) && Running(m, s2) && Running(m, s3) && Running(m, s4)
      && Next(Entries(s4)) == 1 && s4.devs[1].ev == Entry(11, RxSync) && Due(s4.devs[1].rx.pace)
      && DrawErrors(MODEM, 11, 1, Get(s4, 1), ANSWER).dev.rec.ber == 0
      && FullBer(MODEM, Active(s4.txl.els), s4.devs[1].rx.req, s4.devs[1].rx.txNbr, 1, 11) == 1
  {
    hide Step, Start, Recalculated, FullBer;
    var s0 := Start(MODEM, [TxV2(SENT), RxV2(FIRST_RX)]);
    AtStart();
    var s1 := Step(m, s0, ANSWER);
    Started(m, s0, ANSWER);
    var s2 := Step(m, s1, ANSWER);
    FirstLock(m, s1);
    var s3 := Step(m, s2, ANSWER);
    FirstStopped(m, s2);
    var s4 := Step(m, s3, ANSWER);
    SecondLock(m, s3);
    ChosenOfTwo(s4);
    SecondRate(s4);
  }
}
