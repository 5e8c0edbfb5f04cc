/** The state machine of one device interface: the event handlers of p2G4_main.c, each as a
    function on the part of the Phy it can touch. */
module Device {
  import opened Types
  import opened FuncQueue
  import opened TxList
  import opened ErrorCalc
  import opened ChannelModem
  import opened Requests

  /** A reception. `errs` is the history of the bit errors drawn since the lock (while
      synchronizing) or since the address was found (afterwards), and `taken` the number of samples
      they were drawn from since the request. */
  datatype RxStatus = RxStatus(
    req: RxReq, prelocked: bool, scanEnd: nat, syncStart: nat, syncEnd: nat, headerEnd: nat, payloadEnd: nat,
    txNbr: int, biterrors: nat, searching: bool, pace: Calc, txLost: bool, taken: nat, errs: seq<nat>)

  /** A CCA scan. `samples` is the history of its measurements. */
  datatype CcaStatus = CcaStatus(
    req: CcaReq, scanEnd: nat, nextMeas: nat, done: CcaDone, samples: seq<Sample>)

  /** Everything kept for one device but its transmission. */
  datatype Dev = Dev(ev: Entry, rx: RxStatus, cca: CcaStatus, rssi: RssiReq, rec: Rec, log: Log)

  /** A simulation: the channel and modem models, its length, and whether transmissions follow the
      documented schedule instead of the written one. */
  datatype Config = Config(world: Model, simLength: Time, documented: bool)

  /** What the handler of one device works on: that device, the shared list of transmissions, the
      number of active devices, and whether a fatal error has been raised. */
  datatype Loc = Loc(dev: Dev, txl: TxL, active: int, halted: bool)

  predicate Fits(l: Loc, d: nat)
  {
    d < |l.txl.els| && -1 <= l.txl.maxTx < |l.txl.els|
  }

  predicate SameSize(l: Loc, k: Loc) { |l.txl.els| == |k.txl.els| }

  /** The next event of a device which is not transmitting: not the found state, which only another
      one's packet start can cause; and a transmission starts later. */
  predicate Apart(now: nat, ev: Entry)
  {
    ev.kind != RxFound && !TxOnKind(ev.kind) && (ev.kind == TxStart ==> ev.time > now)
  }

  /** What handlers do at time `now`: the messages of the device go on, all with this time, and its
      event stays or is one of a device which is not transmitting. */
  ghost predicate Follows(now: nat, l: Loc, r: Loc)
  {
    (r.dev.ev == l.dev.ev || Apart(now, r.dev.ev)) && Goes(now, l, r)
  }

  ghost predicate AllAligned(els: seq<El>) { forall i :: 0 <= i < |els| ==> Aligned(els[i].tx) }

  /** Only an aligned request can follow, so that aligned transmissions stay among themselves. */
  ghost predicate KeepsAligned(l: Loc, r: Loc, q: Request)
  {
    AllAligned(l.txl.els) && AlignedRequest(q) ==> AllAligned(r.txl.els)
  }

  ghost predicate Goes(now: nat, l: Loc, r: Loc)
  {
    forall base: Log {:trigger Continues(base, r.dev.log, now, now)} ::
      Continues(base, l.dev.log, now, now) ==> Continues(base, r.dev.log, now, now)
  }

  const NO_RADIO := Radio(0, 0, 0)
  const NO_RX_REQ := RxReq(0, 0, Abort(0, 0), NO_RADIO, 0.0, 0, 0, 0, 0, 0, 0, 0, false, 0, [])
  const NO_RX := RxStatus(NO_RX_REQ, false, 0, 0, 0, 0, 0, 0, 0, false, Calc(0, 0, 0), false, 0, [])
  const NO_CCA_REQ := CcaReq(0, 0, 0, Abort(0, 0), NO_RADIO, 0.0, 0, 0, 0)
  const NO_CCA := CcaStatus(NO_CCA_REQ, 0, 0, CcaDone(0, 0, false, false, 0), [])
  const NO_DEV := Dev(NO_ENTRY, NO_RX, NO_CCA, RssiReq(0, NO_RADIO, 0.0), NO_REC, Nil)

  // ---------------------------------------------------------------- small steps

  function Emit(l: Loc, x: Item): Loc { l.(dev := l.dev.(log := Snoc(l.dev.log, x))) }

  function Add(l: Loc, t: nat, k: Kind): Loc { l.(dev := l.dev.(ev := Entry(t, k))) }

  function Remove(l: Loc): Loc { l.(dev := l.dev.(ev := NO_ENTRY)) }

  function Fail(l: Loc): Loc { l.(halted := true) }

  function SetRx(l: Loc, rx: RxStatus): Loc { l.(dev := l.dev.(rx := rx)) }

  function SetCca(l: Loc, cca: CcaStatus): Loc { l.(dev := l.dev.(cca := cca)) }

  /** The list element of a device number which may also be "none". */
  function ElAt(txl: TxL, j: int): El
  {
    if 0 <= j < |txl.els| then txl.els[j] else NO_EL
  }

  /** An RSSI measurement: the receiver state it leaves, and its result. */
  function Measure(m: Model, now: nat, d: nat, l: Loc, gain: real, radio: Radio): (Loc, int)
  {
    var (rec, rssi) := AfterRssi(m, l.dev.rec, Active(l.txl.els), gain, radio, d, now);
    (l.(dev := l.dev.(rec := rec)), rssi)
  }

  // ---------------------------------------------------------------- abort re-evaluation

  /** The outcome of asking the device for its abort times: None if it left or ended the
      simulation, or if its answer was fatal. */
  datatype Picked = Picked(l: Loc, ab: Option<Abort>)

  function ImmediateRssis(m: Model, now: nat, d: nat, l: Loc, rs: seq<RssiReq>): (r: Loc)
    ensures r == l.(dev := l.dev.(rec := r.dev.rec, log := r.dev.log)) && Goes(now, l, r)
    decreases |rs|
  {
    if rs == [] then l
    else
      var l1 := Measure(m, now, d, l, rs[0].gain, rs[0].radio).0;
      ImmediateRssis(m, now, d, Emit(l1, ImmRssi(now)), rs[1..])
  }

  /** What follows the answer of the device. */
  function AnswerAbort(now: nat, l: Loc, answer: AbortAnswer): (p: Picked)
    ensures p.l.txl == l.txl && p.l.dev == l.dev.(log := p.l.dev.log) && Goes(now, l, p.l)
  {
    match answer
    case Leave => Picked(Emit(l.(active := l.active - 1), Left(now)), None)
    case StopAll => Picked(Emit(l.(active := 0), Ended(now)), None)
    case Garbage(_) => Picked(Emit(l.(active := 0), Ended(now)), None)
    case NewAbort(ab) =>
      var l1 := Emit(l, AbortSet(now, ab));
      if PassedAbort(now, ab) then Picked(Fail(l1), None) else Picked(l1, Some(ab))
  }

  /** pick_and_validate_abort. */
  function PickAbort(m: Model, now: nat, d: nat, l: Loc, r: AbortReply): (p: Picked)
    ensures p.l.txl == l.txl && p.l.dev == l.dev.(rec := p.l.dev.rec, log := p.l.dev.log) && Goes(now, l, p.l)
  {
    AnswerAbort(now, ImmediateRssis(m, now, d, Emit(l, AbortAsked(now)), r.immRssi), r.answer)
  }

  // ---------------------------------------------------------------- the next request

  function PrepareTx(now: nat, d: nat, l: Loc, t: TxReq): Loc
    requires Fits(l, d)
  {
    if !TxAccepted(now, t) then Fail(l)
    else Add(l.(txl := l.txl.Register(d, t, t.size > 0)), t.startTx, TxStart)
  }

  function NewRx(was: RxStatus, r: RxReq, pace: Calc): RxStatus
  {
    was.(req := r, prelocked := r.prelocked, scanEnd := ScanEndOf(r), syncEnd := 0, headerEnd := 0, payloadEnd := 0,
          txNbr := if r.prelocked then was.txNbr else -1, biterrors := 0, pace := pace, txLost := false,
          taken := 0, errs := [])
  }

  function PrepareRx(now: nat, l: Loc, r: RxReq): Loc
  {
    if !RxAccepted(now, r) then Fail(l)
    else Add(SetRx(l, NewRx(l.dev.rx, r, CalcOf(r.errorRate).value)), r.start, RxSearchStart)
  }

  function NewCca(m: Model, c: CcaReq): CcaStatus
  {
    CcaStatus(c, Pred(c.start + c.scanDuration), c.start, CcaDone(m.rssiMin, m.rssiMin, false, false, 0), [])
  }

  function PrepareCca(m: Model, now: nat, l: Loc, c: CcaReq): Loc
  {
    if !CcaAccepted(now, c) then Fail(l)
    else Add(SetCca(l, NewCca(m, c)), c.start, CcaMeas)
  }

  /** The events with which a request begins, or none if the device has left. */
  predicate FirstKind(k: Kind) { k in {NoEvent, WaitDone, TxStart, RssiMeas, RxSearchStart, CcaMeas} }

  /** p2G4_handle_next_request. */
  function HandleNext(m: Model, now: nat, d: nat, l: Loc, q: Request): (r: Loc)
    requires Fits(l, d)
    ensures Fits(r, d) && SameSize(l, r) && Follows(now, l, r)
    ensures KeepsAligned(l, r, q)
    ensures r.halted || r.active == 0 || FirstKind(r.dev.ev.kind)
    ensures r.halted || r.active == 0 || r.dev.ev.kind in {NoEvent, WaitDone} || r.dev.ev.time > now
  {
    var l1 := Emit(l, Asked(now, q));
    match q
    case Disconnect => Remove(Emit(l.(active := l.active - 1), Left(now)))
    case Terminate => Emit(l.(active := 0), Ended(now))
    case Wait(end) => var l2 := Add(l1, end, WaitDone); if now > end then Fail(l2) else l2
    case Tx(t) => PrepareTx(now, d, l1, MapTxV1(t))
    case TxV2(t) => PrepareTx(now, d, l1, t)
    case Rssi(r) => if now >= r.at then Fail(l1) else Add(l1.(dev := l1.dev.(rssi := r)), r.at, RssiMeas)
    case Rx(r) => PrepareRx(now, l1, MapRxV1(r))
    case RxV2(r) => if RxV2Accepted(r) then PrepareRx(now, l1, r) else Fail(l1)
    case CcaScan(c) => PrepareCca(m, now, l1, c)
    case Unknown(_) => Fail(l)
  }

  // ---------------------------------------------------------------- transmissions

  /** tx_schedule_next_event. With `intended`, the schedule of the activity diagram: a packet
      start is pending until the packet has started, and packet events happen at their own time,
      or now if that has passed; otherwise, the schedule as written. */
  function TxNextEvent(intended: bool, now: nat, u: Txs, t: TxReq): Entry
  {
    var notStarted := if intended then !u.started else !u.ongoing;
    var packetStart := if notStarted then t.startPacket else TIME_NEVER;
    var packetEnd := if notStarted || u.ended then TIME_NEVER else t.endPacket;
    var end := TxStop(t);
    var next := Min(Min(packetStart, end), packetEnd);
    var packetEvent := if intended then (if next < now then now else next) else end;
    if next >= t.ab.recheck then Entry(t.ab.recheck, TxAbortReeval)
    else if next == packetStart then Entry(packetEvent, TxPacketStart)
    else if next == end then Entry(end, TxEnd)
    else Entry(packetEvent, TxPacketEnd)
  }

  function TxSchedule(m: Config, now: nat, d: nat, l: Loc): Loc
    requires Fits(l, d)
  {
    var el := l.txl.els[d];
    l.(dev := l.dev.(ev := TxNextEvent(m.documented, now, el.used, el.tx)))
  }

  /** f_tx_start, but for the activation of receivers and the next event. */
  function TxStarted(now: nat, d: nat, l: Loc): (r: Loc)
    requires Fits(l, d)
    ensures Fits(r, d) && SameSize(l, r) && Follows(now, l, r)
  {
    var txl := l.txl.StartTx(d);
    l.(txl := if now >= txl.els[d].tx.startPacket then txl.StartPacket(d) else txl)
  }

  function TxAbortReevaluated(m: Config, now: nat, d: nat, l: Loc, e: Env): (r: Loc)
    requires Fits(l, d)
    ensures Fits(r, d) && SameSize(l, r) && Goes(now, l, r)
    ensures KeepsAligned(l, r, e.next)
    ensures TxOnKind(r.dev.ev.kind) || r.dev.ev.kind == NoEvent
  {
    var p := PickAbort(m.world, now, d, l, e.reply);
    match p.ab
    case None => Remove(p.l.(txl := p.l.txl.Clear(d)))
    case Some(ab) => TxSchedule(m, now, d, p.l.(txl := p.l.txl.SetAbort(d, ab)))
  }

  function TxPacketEnded(m: Config, now: nat, d: nat, l: Loc): (r: Loc)
    requires Fits(l, d)
    ensures Fits(r, d) && SameSize(l, r) && Goes(now, l, r)
    ensures TxOnKind(r.dev.ev.kind) || r.dev.ev.kind == NoEvent
  {
    TxSchedule(m, now, d, l.(txl := l.txl.EndPacket(d)))
  }

  function TxEnded(m: Model, now: nat, d: nat, l: Loc, e: Env): (r: Loc)
    requires Fits(l, d)
    ensures Fits(r, d) && SameSize(l, r) && Follows(now, l, r)
    ensures KeepsAligned(l, r, e.next)
  {
    HandleNext(m, now, d, Emit(l.(txl := l.txl.Clear(d)), TxReply(now)), e.next)
  }

  // ---------------------------------------------------------------- waits and RSSI

  function WaitFinished(m: Model, now: nat, d: nat, l: Loc, e: Env): (r: Loc)
    requires Fits(l, d)
    ensures Fits(r, d) && SameSize(l, r) && Follows(now, l, r)
    ensures KeepsAligned(l, r, e.next)
  {
    HandleNext(m, now, d, Emit(l, WaitReply(now)), e.next)
  }

  function RssiMeasured(m: Model, now: nat, d: nat, l: Loc, e: Env): (r: Loc)
    requires Fits(l, d)
    ensures Fits(r, d) && SameSize(l, r) && Follows(now, l, r)
    ensures KeepsAligned(l, r, e.next)
  {
    var l1 := Measure(m, now, d, l, l.dev.rssi.gain, l.dev.rssi.radio).0;
    HandleNext(m, now, d, Emit(l1, RssiReply(now)), e.next)
  }

  // ---------------------------------------------------------------- receptions

  /** Unsigned 64-bit now - sp. */
  function Chopped(now: nat, sp: Time): nat
  {
    if now >= sp then now - sp else now + TIME_NEVER + 1 - sp
  }

  /** tx_and_rx_match. */
  predicate Match(now: nat, t: TxReq, rx: RxStatus)
  {
    && t.radio.freq == rx.req.radio.freq && t.radio.family == rx.req.radio.family
    && Chopped(now, t.startPacket) <= rx.req.truncation
    && t.address in rx.req.addresses
  }

  /** find_fitting_tx. */
  function FindFitting(now: nat, txl: TxL, rx: RxStatus): (j: int)
    requires -1 <= txl.maxTx < |txl.els|
    ensures -1 <= j < |txl.els|
    ensures j >= 0 ==> txl.els[j].used.ongoing && Match(now, txl.els[j].tx, rx)
  {
    FindLeast(txl.els, txl.maxTx + 1, (el: El) => el.used.ongoing && Match(now, el.tx, rx))
  }

  /** rx_enqueue_search_reeval. */
  function EnqueueSearch(l: Loc): Loc
  {
    var rx := l.dev.rx;
    Add(SetRx(l, rx.(searching := true)), Min(rx.scanEnd + 1, rx.req.ab.recheck), RxSearchReeval)
  }

  datatype Rechecked = Rechecked(l: Loc, quit: bool)

  /** rx_possible_abort_recheck. */
  function RxRecheck(m: Model, now: nat, d: nat, l: Loc, e: Env, scanning: bool): (c: Rechecked)
    ensures c.l.txl == l.txl && c.l.dev.ev == l.dev.ev && c.l.dev.rx.searching == l.dev.rx.searching
    ensures Goes(now, l, c.l)
    ensures !c.quit ==> c.l.active == l.active && c.l.halted == l.halted
  {
    if now < l.dev.rx.req.ab.recheck then Rechecked(l, false)
    else
      var p := PickAbort(m, now, d, l, e.reply);
      match p.ab
      case None => Rechecked(p.l, true)
      case Some(ab) =>
        var rx := p.l.dev.rx;
        var cut := if scanning then CutScan(rx.scanEnd, ab.abort) else rx.scanEnd;
        Rechecked(SetRx(p.l, rx.(req := rx.req.(ab := ab), scanEnd := cut)), false)
  }

  /** prelock_check: the reception as it leaves it. */
  function PrelockChecked(now: nat, txl: TxL, rx: RxStatus): RxStatus
  {
    if rx.txNbr == -1 then rx.(prelocked := false)
    else if !ElAt(txl, rx.txNbr).used.ongoing then rx.(prelocked := false, txNbr := -1)
    else if now > ElAt(txl, rx.txNbr).tx.startPacket + rx.req.truncation then rx.(prelocked := false, txNbr := -1)
    else rx
  }

  /** f_rx_found. */
  function FoundTx(m: Model, now: nat, d: nat, l: Loc, e: Env): (r: Loc)
    ensures r.txl == l.txl && r.active == l.active && r.halted == l.halted
    ensures r.dev.ev.kind in {RxSync, RxSearchReeval} && r.dev.ev.time <= TIME_NEVER && Goes(now, l, r)
    ensures r.dev.rx.searching == if r.dev.ev.kind == RxSync then l.dev.rx.searching else true
  {
    var rx := l.dev.rx;
    var t := ElAt(l.txl, rx.txNbr).tx;
    var l1 := if rx.prelocked then l
              else l.(dev := l.dev.(rec := AfterSyncCheck(m, l.dev.rec, l.txl.ctr, Active(l.txl.els), rx.req, t,
                                                          rx.txNbr, d, now)));
    if rx.prelocked || e.synched then Lock(l1, now, t) else EnqueueSearch(l1)
  }

  function WithLock(rx: RxStatus, t: TxReq): RxStatus
  {
    var syncEnd := t.startPacket + SyncLength(rx.req);
    rx.(syncEnd := syncEnd, headerEnd := syncEnd + rx.req.header, payloadEnd := t.endPacket, biterrors := 0,
        syncStart := t.startPacket + rx.req.truncation, txLost := false, errs := [])
  }

  function Lock(l: Loc, now: nat, t: TxReq): Loc
  {
    var rx := WithLock(l.dev.rx, t);
    var l1 := Emit(SetRx(l, rx), Locked(now, if rx.txNbr < 0 then 0 else rx.txNbr, t.startPacket, t.endPacket));
    Add(l1, Min(Min(rx.syncStart, rx.req.ab.recheck), rx.scanEnd + 1), RxSync)
  }

  /** The search for a transmission which can still be caught. */
  function SearchFrom(m: Model, now: nat, d: nat, l: Loc, e: Env): (r: Loc)
    requires Fits(l, d)
    ensures r.txl == l.txl && r.active == l.active && r.halted == l.halted
    ensures r.dev.ev.kind in {RxSync, RxSearchReeval} && r.dev.ev.time <= TIME_NEVER && Goes(now, l, r)
    ensures !l.dev.rx.searching ==> (r.dev.rx.searching <==> r.dev.ev.kind == RxSearchReeval)
  {
    var was := l.dev.rx.prelocked;
    var rx := if was then PrelockChecked(now, l.txl, l.dev.rx) else l.dev.rx;
    var j := if was then rx.txNbr else FindFitting(now, l.txl, rx);
    if j >= 0 then FoundTx(m, now, d, SetRx(l, rx.(txNbr := j, searching := false)), e)
    else EnqueueSearch(SetRx(l, rx))
  }

  /** f_rx_search_start. */
  function SearchStarted(m: Model, now: nat, d: nat, l: Loc, e: Env): (r: Loc)
    requires Fits(l, d)
    ensures Fits(r, d) && SameSize(l, r) && Follows(now, l, r)
    ensures KeepsAligned(l, r, e.next)
  {
    var c := RxRecheck(m, now, d, l, e, true);
    if c.quit then Remove(SetRx(c.l, c.l.dev.rx.(searching := false)))
    else SearchFrom(m, now, d, c.l, e)
  }

  /** rx_scan_ended. */
  function ScanEnded(m: Model, now: nat, d: nat, l: Loc, e: Env): (r: Loc)
    requires Fits(l, d)
    ensures Fits(r, d) && SameSize(l, r) && Follows(now, l, r)
    ensures KeepsAligned(l, r, e.next)
  {
    var rx := l.dev.rx;
    var l1 := if rx.req.ab.abort != now then Measure(m, now, d, l, rx.req.gain, rx.req.radio).0 else l;
    HandleNext(m, now, d, Emit(SetRx(l1, rx.(searching := false)), RxReply(now, NoSync, [])), e.next)
  }

  /** f_rx_search_reeval. */
  function SearchReevaluated(m: Model, now: nat, d: nat, l: Loc, e: Env): (r: Loc)
    requires Fits(l, d)
    ensures Fits(r, d) && SameSize(l, r) && Follows(now, l, r)
    ensures KeepsAligned(l, r, e.next)
  {
    var c := RxRecheck(m, now, d, l, e, true);
    if c.quit then Remove(SetRx(c.l, c.l.dev.rx.(searching := false)))
    else if now > c.l.dev.rx.scanEnd then ScanEnded(m, now, d, c.l, e)
    else EnqueueSearch(c.l)
  }

  /** rx_bit_error_calc, and the accumulation of its result. */
  function DrawErrors(m: Model, now: nat, d: nat, l: Loc, e: Env): (r: Loc)
    ensures r.txl == l.txl && r.active == l.active && r.halted == l.halted
    ensures r.dev == l.dev.(rec := r.dev.rec, rx := l.dev.rx.(pace := r.dev.rx.pace, txLost := r.dev.rx.txLost,
                            biterrors := r.dev.rx.biterrors, taken := r.dev.rx.taken, errs := r.dev.rx.errs))
  {
    var rx := l.dev.rx;
    var el := ElAt(l.txl, rx.txNbr);
    if !Due(rx.pace) then SetRx(l, rx.(pace := Tick(rx.pace), errs := rx.errs + [0]))
    else
      var lost := rx.txLost || !el.used.ongoing;
      var rec := if lost || el.tx.codingRate != rx.req.codingRate then l.dev.rec
                 else AfterBitErrors(m, l.dev.rec, l.txl.ctr, Active(l.txl.els), rx.req, rx.txNbr, d, now);
      l.(dev := l.dev.(rec := rec,
         rx := rx.(pace := Tick(rx.pace), txLost := lost, biterrors := rx.biterrors + e.draw,
                   taken := rx.taken + rx.pace.errorsPerCalc, errs := rx.errs + [e.draw])))
  }

  /** One microsecond of the synchronization. */
  function SyncSampled(m: Model, now: nat, d: nat, l: Loc, e: Env): (r: Loc)
    requires Fits(l, d)
    ensures Fits(r, d) && SameSize(l, r) && Follows(now, l, r)
    ensures KeepsAligned(l, r, e.next)
  {
    var l1 := DrawErrors(m, now, d, l, e);
    var rx := l1.dev.rx;
    if rx.biterrors > rx.req.syncThreshold then Add(Emit(l1, SyncLost(now, false, rx.errs)), now + 1, RxSearchStart)
    else if now >= rx.syncEnd then OfferPacket(m, now, d, l1, e)
    else Add(l1, now + 1, RxSync)
  }

  /** f_rx_sync, after the possible re-evaluation of the abort. */
  function SyncFrom(m: Model, now: nat, d: nat, l: Loc, e: Env): (r: Loc)
    requires Fits(l, d)
    ensures Fits(r, d) && SameSize(l, r) && Follows(now, l, r)
    ensures KeepsAligned(l, r, e.next)
  {
    var rx := l.dev.rx;
    if now > rx.scanEnd then ScanEnded(m, now, d, l, e)
    else if now < rx.syncStart then
      Add(l, Min(Min(rx.syncStart, rx.req.ab.recheck), rx.scanEnd + 1), RxSync)
    else if !ElAt(l.txl, rx.txNbr).used.ongoing then
      Add(Emit(l, SyncLost(now, true, rx.errs)), now + 1, RxSearchStart)
    else SyncSampled(m, now, d, l, e)
  }

  /** f_rx_sync. */
  function Synchronized(m: Model, now: nat, d: nat, l: Loc, e: Env): (r: Loc)
    requires Fits(l, d)
    ensures Fits(r, d) && SameSize(l, r) && Follows(now, l, r)
    ensures KeepsAligned(l, r, e.next)
  {
    var c := RxRecheck(m, now, d, l, e, true);
    if c.quit then Remove(c.l) else SyncFrom(m, now, d, c.l, e)
  }

  /** The address has been found: the device decides if the reception goes on. */
  function OfferPacket(m: Model, now: nat, d: nat, l: Loc, e: Env): (r: Loc)
    requires Fits(l, d)
    ensures Fits(r, d) && SameSize(l, r) && Follows(now, l, r)
    ensures KeepsAligned(l, r, e.next)
  {
    var rx := l.dev.rx;
    var l1 := Measure(m, now, d, l, rx.req.gain, rx.req.radio).0;
    Decided(m, now, d, Emit(SetRx(l1, rx.(biterrors := 0, errs := [])), AddressFound(now, rx.errs)), e)
  }

  /** The answer of the device to an address-found message. */
  function Decided(m: Model, now: nat, d: nat, l: Loc, e: Env): (r: Loc)
    requires Fits(l, d)
    ensures Fits(r, d) && SameSize(l, r) && Follows(now, l, r)
    ensures KeepsAligned(l, r, e.next)
  {
    match e.cont
    case ContLeave => Remove(Emit(l.(active := l.active - 1), Left(now)))
    case ContStopAll => Emit(l.(active := 0), Ended(now))
    case ContUnknown(_) => Fail(l)
    case RxStop => HandleNext(m, now, d, Emit(l, Stopped(now)), e.next)
    case Cont => Accepted(now, Emit(l, Continued(now)))
    case ContV2(ab) =>
      var l1 := Emit(SetRx(l, l.dev.rx.(req := l.dev.rx.req.(ab := ab))), ContinuedV2(now, ab));
      if PassedAbort(now, ab) then Fail(l1) else Accepted(now, l1)
  }

  function Delta(r: RxReq): nat { if r.preamble == 0 then 0 else 1 }

  function Accepted(now: nat, l: Loc): Loc
  {
    var r := l.dev.rx.req;
    Add(l, now + Delta(r), if r.header == 0 then RxPayload else RxHeader)
  }

  /** The reception is over: respond, and read the next request. */
  function RxFinished(m: Model, now: nat, d: nat, l: Loc, e: Env, result: RxResult): (r: Loc)
    requires Fits(l, d)
    ensures Fits(r, d) && SameSize(l, r) && Follows(now, l, r)
    ensures KeepsAligned(l, r, e.next)
  {
    HandleNext(m, now, d, Emit(l, RxReply(now, result, l.dev.rx.errs)), e.next)
  }

  /** f_rx_header, once the errors of the microsecond are known. */
  function HeaderFrom(m: Model, now: nat, d: nat, l: Loc, e: Env): (r: Loc)
    requires Fits(l, d)
    ensures Fits(r, d) && SameSize(l, r) && Follows(now, l, r)
    ensures KeepsAligned(l, r, e.next)
  {
    var rx := l.dev.rx;
    if (now >= rx.headerEnd && rx.biterrors > rx.req.headerThreshold) || now >= rx.req.ab.abort then
      RxFinished(m, now, d, l, e, HeaderError)
    else if now >= rx.headerEnd then Add(l, now + 1, RxPayload)
    else Add(l, now + 1, RxHeader)
  }

  /** f_rx_header. */
  function HeaderReceived(m: Model, now: nat, d: nat, l: Loc, e: Env): (r: Loc)
    requires Fits(l, d)
    ensures Fits(r, d) && SameSize(l, r) && Follows(now, l, r)
    ensures KeepsAligned(l, r, e.next)
  {
    var c := RxRecheck(m, now, d, l, e, false);
    if c.quit then Remove(c.l) else HeaderFrom(m, now, d, DrawErrors(m, now, d, c.l, e), e)
  }

  /** f_rx_payload, once the errors of the microsecond are known. */
  function PayloadFrom(m: Model, now: nat, d: nat, l: Loc, e: Env): (r: Loc)
    requires Fits(l, d)
    ensures Fits(r, d) && SameSize(l, r) && Follows(now, l, r)
    ensures KeepsAligned(l, r, e.next)
  {
    var rx := l.dev.rx;
    if (now >= rx.payloadEnd && rx.biterrors > 0) || now >= rx.req.ab.abort then
      RxFinished(m, now, d, l, e, ContentError)
    else if now >= rx.payloadEnd then RxFinished(m, now, d, l, e, RxOk)
    else Add(l, now + 1, RxPayload)
  }

  /** f_rx_payload. */
  function PayloadReceived(m: Model, now: nat, d: nat, l: Loc, e: Env): (r: Loc)
    requires Fits(l, d)
    ensures Fits(r, d) && SameSize(l, r) && Follows(now, l, r)
    ensures KeepsAligned(l, r, e.next)
  {
    var c := RxRecheck(m, now, d, l, e, false);
    if c.quit then Remove(c.l) else PayloadFrom(m, now, d, DrawErrors(m, now, d, c.l, e), e)
  }

  // ---------------------------------------------------------------- CCA

  predicate CcaMatch(el: El, c: CcaReq)
  {
    el.used.On() && el.tx.radio.freq == c.radio.freq && el.tx.radio.family == c.radio.family
  }

  /** find_fitting_tx_cca. */
  function FindFittingCca(txl: TxL, c: CcaReq): (j: int)
    requires -1 <= txl.maxTx < |txl.els|
    ensures -1 <= j < |txl.els|
  {
    FindLeast(txl.els, txl.maxTx + 1, (el: El) => CcaMatch(el, c))
  }

  /** The effect of one measurement on the scan. */
  function CcaSampled(m: Model, cca: CcaStatus, s: Sample): CcaStatus
  {
    var c := cca.req;
    var done := cca.done;
    var done1 := done.(
      rssiMax := Max(done.rssiMax, s.rssi),
      over := done.over || OverRssi(c, s),
      modPower := if s.compatible then Max(done.modPower, m.dBm(s.rssi)) else done.modPower,
      modFound := done.modFound || OverMod(m, c, s),
      nMeas := done.nMeas + 1);
    cca.(done := done1, scanEnd := if StopsScan(m, c, s) then s.at else cca.scanEnd,
         nextMeas := cca.nextMeas + c.period, samples := cca.samples + [s])
  }

  /** The re-evaluation of the abort at the head of f_cca_meas. */
  function CcaRecheck(m: Model, now: nat, d: nat, l: Loc, e: Env): (c: Rechecked)
    ensures c.l.txl == l.txl && Goes(now, l, c.l)
  {
    if now < l.dev.cca.req.ab.recheck then Rechecked(l, false)
    else
      var p := PickAbort(m, now, d, l, e.reply);
      match p.ab
      case None => Rechecked(p.l, true)
      case Some(ab) =>
        var cca := p.l.dev.cca;
        Rechecked(SetCca(p.l, cca.(req := cca.req.(ab := ab), scanEnd := Min(ab.abort, cca.scanEnd))), false)
  }

  function CcaSample(m: Model, now: nat, d: nat, l: Loc): (r: Loc)
    requires Fits(l, d)
    ensures r.txl == l.txl
  {
    var req := l.dev.cca.req;
    var (l1, rssi) := Measure(m, now, d, l, req.gain, req.radio);
    SetCca(l1, CcaSampled(m, l1.dev.cca, Sample(now, rssi, FindFittingCca(l.txl, req) >= 0)))
  }

  /** f_cca_meas, after the possible measurement. */
  function CcaFrom(m: Model, now: nat, d: nat, l: Loc, e: Env): (r: Loc)
    requires Fits(l, d)
    ensures Fits(r, d) && SameSize(l, r) && Follows(now, l, r)
    ensures KeepsAligned(l, r, e.next)
  {
    var cca := l.dev.cca;
    if now >= cca.scanEnd then HandleNext(m, now, d, Emit(l, CcaReply(now, cca.done, cca.samples)), e.next)
    else Add(l, Min(cca.nextMeas, Min(cca.scanEnd, cca.req.ab.recheck)), CcaMeas)
  }

  /** f_cca_meas. */
  function CcaMeasured(m: Model, now: nat, d: nat, l: Loc, e: Env): (r: Loc)
    requires Fits(l, d)
    ensures Fits(r, d) && SameSize(l, r) && Follows(now, l, r)
    ensures KeepsAligned(l, r, e.next)
  {
    var c := CcaRecheck(m, now, d, l, e);
    if c.quit then Remove(c.l)
    else CcaFrom(m, now, d, if now >= c.l.dev.cca.nextMeas then CcaSample(m, now, d, c.l) else c.l, e)
  }
}
