/** The invariants of the Phy. */
module Invariant {
  import opened Types
  import opened FuncQueue
  import opened TxList
  import opened ErrorCalc
  import opened ChannelModem
  import opened Requests
  import opened Device
  import opened Phy
  import opened Session

  // ---------------------------------------------------------------- structure

  predicate TailKind(k: Kind) { k in {TxEnd, WaitDone} }

  /** How the four structures agree on one device. */
  predicate Core(el: El, dev: Dev)
  {
    var k := dev.ev.kind;
    && (el.used.On() <==> TxOnKind(k))
    && (dev.rx.searching <==> k == RxSearchReeval)
    && (el.packet <==> (TxOnKind(k) || k == TxStart) && el.tx.size > 0)
    && dev.ev.time <= TIME_NEVER
    && (k == NoEvent ==> dev.ev.time == TIME_NEVER)
  }

  /** The number of devices with a pending event. */
  function Live(devs: seq<Dev>): nat
  {
    if |devs| == 0 then 0
    else Live(devs[..|devs| - 1]) + (if devs[|devs| - 1].ev.kind == NoEvent then 0 else 1)
  }

  /** The cross-structure invariant, which holds for every transmission, aligned or not. */
  ghost predicate Structured(s: State)
  {
    && Sized(s)
    && (forall d :: 0 <= d < |s.devs| ==> Core(s.txl.els[d], s.devs[d]))
    && IsGreatestOn(s.txl.els, s.txl.maxTx)
    && s.active == Live(s.devs)
  }

  // ---------------------------------------------------------------- time

  ghost predicate TxShape(t: TxReq)
  {
    && t.startTx < t.endTx && t.startPacket < t.endTx && t.startPacket < t.endPacket
    && t.startTx <= t.ab.abort && t.startTx <= t.ab.recheck
  }

  /** How the state bits of a transmission in the air go together: a packet which has started and is
      not ongoing has ended, and only the written schedule starts it again after its end. */
  predicate TxBits(m: Config, u: Txs)
  {
    && u.noise && (u.ongoing ==> u.started) && (u.ended ==> u.started) && (u.started && !u.ongoing ==> u.ended)
    && (m.documented ==> !(u.ongoing && u.ended))
  }

  /** Neither the start nor the end of the packet is due before `time`. */
  predicate BeforePacketEvents(u: Txs, t: TxReq, time: nat)
  {
    (!u.started ==> time <= t.startPacket) && (u.ongoing && !u.ended ==> time <= t.endPacket)
  }

  /** The pending event of a transmission. The written schedule puts packet events at the end of the
      transmission. */
  predicate TxEvent(m: Config, u: Txs, t: TxReq, ev: Entry)
  {
    if ev.kind == TxAbortReeval then ev.time == t.ab.recheck && BeforePacketEvents(u, t, ev.time)
    else if ev.kind == TxEnd then ev.time == TxStop(t) < t.ab.recheck && BeforePacketEvents(u, t, ev.time)
    else if ev.kind == TxPacketStart then
      && t.startPacket <= ev.time && !u.ongoing
      && (if m.documented then !u.started && ev.time == t.startPacket <= t.ab.recheck else ev.time == TxStop(t))
    else
      && u.ongoing && !u.ended
      && (if m.documented then ev.time <= t.ab.recheck
          else ev.time == TxStop(t) && t.endPacket < TxStop(t) && t.endPacket < t.ab.recheck)
  }

  /** A transmission in the air, whose next event is `ev`. */
  ghost predicate TxTimed(m: Config, now: nat, u: Txs, t: TxReq, ev: Entry)
  {
    && TxShape(t) && TxBits(m, u) && TxEvent(m, u, t, ev)
    && t.startTx <= now && ev.time <= TxStop(t)
    && (u.started ==> t.startPacket <= now) && (u.ended && !m.documented ==> t.endPacket < now)
    && (u.started && !u.ongoing && !m.documented ==> ev.kind == TxPacketStart)
    && (Aligned(t) ==> u.ongoing && !u.ended && ev.kind in {TxAbortReeval, TxEnd})
  }

  /** After this event of a transmission the written schedule goes back in time: a packet is started
      at the end of the transmission, which lies after the recheck time, and the recheck is due no
      later than the end of the packet, or the packet has ended before. */
  predicate FallsFrom(m: Config, u: Txs, t: TxReq, ev: Entry)
  {
    && !m.documented && ev.kind == TxPacketStart
    && t.ab.recheck < TxStop(t) && (u.ended || t.ab.recheck <= t.endPacket)
  }

  /** The next event puts time back. */
  predicate Falls(m: Config, s: State)
    requires Sized(s)
  {
    var d := Next(Entries(s));
    FallsFrom(m, s.txl.els[d].used, s.txl.els[d].tx, s.devs[d].ev)
  }

  ghost predicate RxShape(r: RxReq)
  {
    r.start >= 1 && r.truncation <= SyncLength(r)
  }

  /** Every lost packet started too long before `t` to be found again. */
  ghost predicate LostBefore(r: RxReq, lost: set<(nat, nat)>, t: nat)
  {
    forall x :: x in lost ==> x.1 + r.truncation < t
  }

  /** What holds of a reception which is still scanning, whose next event is at `t`. */
  ghost predicate ScanTimed(rx: RxStatus, r: RxReq, scanEnd: nat, t: nat)
  {
    && r == rx.req && RxShape(r) && scanEnd == rx.scanEnd
    && scanEnd <= r.ab.abort
    && t <= scanEnd + 1 && t <= r.ab.recheck + 1
  }

  /** The sampling pattern of a reception has gone on for `k` microseconds since the request, and all
      samples due in them have been taken. */
  ghost predicate Paced(rx: RxStatus, k: nat)
  {
    var c := CalcOf(rx.req.errorRate);
    c.Some? && rx.pace == Ticks(c.value, k) && rx.taken == Samples(c.value, k)
  }

  /** These microseconds are the ones reported, and the ones since the lock or the address. */
  ghost predicate Pacing(p: Proto, dev: Dev)
  {
    Paced(dev.rx, Drawn(dev.log) + if p.Scanning? then 0 else |dev.rx.errs|)
  }

  ghost predicate SyncTimed(rx: RxStatus, p: Proto, t: nat)
    requires p.Syncing?
  {
    && p.tx == rx.txNbr
    && rx.syncStart == SyncStart(p.r, p.sp) && rx.syncEnd == SyncEnd(p.r, p.sp)
    && rx.headerEnd == rx.syncEnd + p.r.header && rx.payloadEnd == p.ep
    && rx.biterrors == Sum(rx.errs) <= p.r.syncThreshold
    && t <= rx.syncEnd
    && (if t <= rx.syncStart then rx.errs == [] && t <= p.r.ab.recheck else |rx.errs| == t - rx.syncStart)
  }

  /** What holds of an accepted reception, whose next event is at `t`. */
  ghost predicate ReceiveTimed(rx: RxStatus, p: Proto, t: nat)
    requires p.Receiving?
  {
    && p.r == rx.req
    && rx.headerEnd == HeaderEnd(p.r, p.found) && rx.payloadEnd == p.ep
    && First(p.r, p.found) <= t && |rx.errs| == t - First(p.r, p.found)
    && rx.biterrors == Sum(rx.errs)
    && t <= p.r.ab.recheck + 1 && t <= AbortEnd(p.r, p.found)
  }

  ghost predicate CcaTimed(m: Model, now: nat, cca: CcaStatus, c: CcaReq, scanEnd: nat, t: nat)
  {
    && c == cca.req && scanEnd == cca.scanEnd && c.period > 0 && c.start >= 1
    && c.start <= t <= c.ab.recheck && t <= cca.nextMeas
    && cca.nextMeas == MeasTime(c, |cca.samples|)
    && c.start <= scanEnd + 1
    && (|cca.samples| == 0 ==> t == c.start)
    && (|cca.samples| > 0 ==> c.start <= now && t == Min(cca.nextMeas, Min(scanEnd, c.ab.recheck)))
    && (|cca.samples| > 0 ==> MeasTime(c, |cca.samples| - 1) <= now)
    && (forall k :: 0 <= k < |cca.samples| ==> cca.samples[k].at == MeasTime(c, k))
    && (forall k :: 0 <= k < |cca.samples| ==> !StopsScan(m, c, cca.samples[k]))
    && Summarizes(m, c, cca.done, cca.samples)
  }

  /** A transmission a reception can be for: of its frequency, modulation and one of its addresses. */
  predicate SameChannel(t: TxReq, r: RxReq)
  {
    t.radio.freq == r.radio.freq && t.radio.family == r.radio.family && t.address in r.addresses
  }

  /** A device against the messages of its session, at time `now`. */
  ghost predicate Timed(m: Config, now: nat, txl: TxL, d: nat, dev: Dev)
    requires d < |txl.els|
  {
    var p := Parse(m.world, dev.log);
    var rx, ev, el := dev.rx, dev.ev, txl.els[d];
    && now <= ev.time && rx.txNbr >= -1
    && match ev.kind {
         case NoEvent => p.Gone? && p.at <= now
         case WaitDone => p == Waiting(ev.time)
         case RssiMeas => p == Measuring(ev.time)
         case TxStart => p == Sending(el.tx) && TxShape(el.tx) && ev.time == el.tx.startTx
         case TxAbortReeval => p == Sending(el.tx) && TxTimed(m, now, el.used, el.tx, ev)
         case TxPacketStart => p == Sending(el.tx) && TxTimed(m, now, el.used, el.tx, ev)
         case TxPacketEnd => p == Sending(el.tx) && TxTimed(m, now, el.used, el.tx, ev)
         case TxEnd => p == Sending(el.tx) && TxTimed(m, now, el.used, el.tx, ev)
         case RxSearchStart =>
           && p.Scanning? && Pacing(p, dev) && ScanTimed(rx, p.r, p.scanEnd, ev.time)
           && p.r.start <= ev.time && LostBefore(p.r, p.lost, ev.time)
         case RxSearchReeval =>
           && p.Scanning? && Pacing(p, dev) && ScanTimed(rx, p.r, p.scanEnd, ev.time)
           && p.r.start <= now && LostBefore(p.r, p.lost, now) && !rx.prelocked
           && ev.time == Min(rx.scanEnd + 1, rx.req.ab.recheck)
         case RxFound =>
           && p.Scanning? && Pacing(p, dev) && ScanTimed(rx, p.r, p.scanEnd, ev.time) && ev.time <= p.r.ab.recheck
           && p.r.start <= now && LostBefore(p.r, p.lost, now) && !rx.prelocked
           && now == ev.time && 0 <= rx.txNbr < |txl.els| && rx.txNbr != d
           && SameChannel(txl.els[rx.txNbr].tx, rx.req)
           && txl.els[rx.txNbr].tx.startPacket <= now <= txl.els[rx.txNbr].tx.startPacket + rx.req.truncation
         case RxSync =>
           && p.Syncing? && Pacing(p, dev) && ScanTimed(rx, p.r, p.scanEnd, ev.time) && SyncTimed(rx, p, ev.time)
           && p.r.start <= now && LostBefore(p.r, p.lost, now) && rx.txNbr != d
         case RxHeader =>
           && p.Receiving? && Pacing(p, dev) && ReceiveTimed(rx, p, ev.time)
           && p.r.header > 0 && ev.time <= rx.headerEnd
         case RxPayload =>
           && p.Receiving? && Pacing(p, dev) && ReceiveTimed(rx, p, ev.time)
           && PayloadStart(p.r, p.found) <= ev.time <= PayloadEnd(p.r, p.found, p.ep)
           && (p.r.header > 0 ==> HeaderErrors(p.r, p.found, rx.errs) <= p.r.headerThreshold)
         case CcaMeas =>
           p.Assessing? && CcaTimed(m.world, now, dev.cca, p.c, p.scanEnd, ev.time)
       }
  }

  /** A receiver was activated by a transmission which is still there, or whose device has left. */
  ghost predicate FoundTxAlive(s: State, d: nat)
    requires Sized(s) && d < |s.devs|
  {
    s.devs[d].ev.kind == RxFound ==>
      var j := s.devs[d].rx.txNbr;
      0 <= j < |s.devs| && (TxOnKind(s.devs[j].ev.kind) || s.devs[j].ev.kind == NoEvent)
  }

  ghost predicate InTime(m: Config, s: State)
  {
    && Sized(s)
    && (forall d :: 0 <= d < |s.devs| ==> Timed(m, s.now, s.txl, d, s.devs[d]))
    && (forall d :: 0 <= d < |s.devs| ==> FoundTxAlive(s, d))
  }

  // ---------------------------------------------------------------- the rate cache

  predicate ReceivingKind(k: Kind) { k in {RxSync, RxHeader, RxPayload} }

  /** The cache of a device is sound, and that of a reception which was not prelocked is its own. */
  ghost predicate Cached(m: Model, txl: TxL, d: nat, dev: Dev)
  {
    && Sound(m, dev.rec, txl.ctr, Active(txl.els), d)
    && (ReceivingKind(dev.ev.kind) && !dev.rx.prelocked ==>
          Coherent(m, dev.rec, txl.ctr, Active(txl.els), dev.rx.req, dev.rx.txNbr, d))
  }

  ghost predicate AllCached(m: Model, s: State)
  {
    forall d :: 0 <= d < |s.devs| ==> Cached(m, s.txl, d, s.devs[d])
  }
}
