/** What a conforming session promises its device, in terms of the messages alone. */
module SessionLaws {
  import opened Types
  import opened ErrorCalc
  import opened ChannelModem
  import opened Requests
  import opened Session

  // ---------------------------------------------------------------- reading a log

  /** The request under way, or the last one. */
  function LastAsked(log: Log): Request
  {
    match log
    case Nil => Disconnect
    case Snoc(l, x) => if x.Asked? then x.q else LastAsked(l)
  }

  function TxAsked(q: Request): Option<TxReq>
  {
    if q.Tx? then Some(MapTxV1(q.txV1)) else if q.TxV2? then Some(q.tx) else None
  }

  function RxAsked(q: Request): Option<RxReq>
  {
    if q.Rx? then Some(MapRxV1(q.rxV1)) else if q.RxV2? then Some(q.rx) else None
  }

  function AbortOf(q: Request): Abort
  {
    if TxAsked(q).Some? then TxAsked(q).value.ab
    else if RxAsked(q).Some? then RxAsked(q).value.ab
    else if q.CcaScan? then q.cca.ab
    else Abort(0, 0)
  }

  /** The abort times last agreed on. */
  function LastAbort(log: Log): Abort
  {
    match log
    case Nil => Abort(0, 0)
    case Snoc(l, x) =>
      match x
      case Asked(_, q) => AbortOf(q)
      case AbortSet(_, ab) => ab
      case ContinuedV2(_, ab) => ab
      case _ => LastAbort(l)
  }

  /** The last microsecond of the scan asked for. */
  function FirstScanEnd(q: Request): nat
  {
    if RxAsked(q).Some? then ScanEndOf(RxAsked(q).value)
    else if q.CcaScan? then Pred(q.cca.start + q.cca.scanDuration)
    else 0
  }

  /** The last microsecond of the scan under way, after all new abort times. */
  function LastScanEnd(log: Log): nat
  {
    match log
    case Nil => 0
    case Snoc(l, x) =>
      match x
      case Asked(_, q) => FirstScanEnd(q)
      case AbortSet(_, ab) =>
        if ab.abort >= LastScanEnd(l) then LastScanEnd(l)
        else if LastAsked(l).CcaScan? then ab.abort
        else Pred(ab.abort)
      case _ => LastScanEnd(l)
  }

  /** When the packet started to which a reception has last locked. */
  function LockedStart(log: Log): nat
  {
    match log
    case Nil => 0
    case Snoc(l, x) => if x.Locked? then x.sp else LockedStart(l)
  }

  /** And when it ends. */
  function LockedEnd(log: Log): nat
  {
    match log
    case Nil => 0
    case Snoc(l, x) => if x.Locked? then x.ep else LockedEnd(l)
  }

  /** When the device was last told that an address was found. */
  function FoundAt(log: Log): nat
  {
    match log
    case Nil => 0
    case Snoc(l, x) => if x.AddressFound? then x.t else FoundAt(l)
  }

  /** Since the request under way, new abort times have been agreed on. */
  predicate HasNewAbort(log: Log)
  {
    match log
    case Nil => false
    case Snoc(l, x) => !x.Asked? && (x.AbortSet? || x.ContinuedV2? || HasNewAbort(l))
  }

  /** Since the request under way, the device has been told that an address was found. */
  predicate ToldFound(log: Log)
  {
    match log
    case Nil => false
    case Snoc(l, x) => !x.Asked? && (x.AddressFound? || ToldFound(l))
  }

  /** Since the request under way, the device has accepted a packet. */
  predicate HasAccepted(log: Log)
  {
    match log
    case Nil => false
    case Snoc(l, x) => !x.Asked? && (x.Continued? || x.ContinuedV2? || HasAccepted(l))
  }

  /** Since the request under way, the reception has locked to this packet. */
  predicate WasLocked(log: Log, tx: nat, sp: nat)
  {
    match log
    case Nil => false
    case Snoc(l, x) => !x.Asked? && ((x.Locked? && x.tx == tx && x.sp == sp) || WasLocked(l, tx, sp))
  }

  /** Since the request under way, the device has stopped a reception. */
  predicate HasStopped(log: Log)
  {
    match log
    case Nil => false
    case Snoc(l, x) => !x.Asked? && (x.Stopped? || HasStopped(l))
  }

  // ---------------------------------------------------------------- the state of the session

  ghost predicate ScanTracked(r: RxReq, e: nat, q: Request, ab: Abort)
  {
    && RxAsked(q).Some? && r == RxAsked(q).value.(ab := ab)
    && 1 <= r.start <= e + 1 && e <= ab.abort && e <= ScanEndOf(RxAsked(q).value)
    && r.truncation <= SyncLength(r)
  }

  ghost predicate FoundTracked(r: RxReq, found: nat, q: Request, ab: Abort)
  {
    && RxAsked(q).Some? && r == RxAsked(q).value.(ab := ab)
    && 1 <= r.start <= found <= ab.abort && found <= ScanEndOf(RxAsked(q).value)
  }

  /** The state of a session belongs to the last request and the last abort times. */
  ghost predicate Tracked(p: Proto, q: Request, ab: Abort)
  {
    match p
    case Idle => true
    case Waiting(end) => q.Wait? && q.end == end
    case Measuring(at) => q.Rssi? && q.rssi.at == at
    case Sending(t) => TxAsked(q).Some? && t == TxAsked(q).value.(ab := ab)
    case Scanning(r, e, _) => ScanTracked(r, e, q, ab)
    case Syncing(r, e, _, _, sp, _) => ScanTracked(r, e, q, ab) && r.start <= SyncEnd(r, sp)
    case Offered(r, found, _) => FoundTracked(r, found, q, ab)
    case Receiving(r, found, _) => FoundTracked(r, found, q, ab)
    case Assessing(c, e) => q.CcaScan? && c == q.cca.(ab := ab) && 1 <= c.start <= ab.abort && c.stop <= 3
    case Replying(was, at) => !was.Replying? && !was.Gone? && Tracked(was, q, ab) && AskOk(was, at)
    case Gone(_, _) => true
    case Bad => false
  }

  lemma TrackedAbort(p: Proto, q: Request, was: Abort, t: nat, ab: Abort)
    requires Tracked(p, q, was) && AskOk(p, t) && WithAbort(p, t, ab) != Bad
    ensures Tracked(WithAbort(p, t, ab), q, ab)
  {
  }

  lemma OpenedTracked(t: nat, q: Request)
    requires Opened(t, q) != Bad
    ensures Tracked(Opened(t, q), q, AbortOf(q))
  {
  }

  lemma ReceptionTracked(m: Model, p: Proto, x: Item, q: Request, ab: Abort)
    requires Tracked(p, q, ab) && After(m, p, x) != Bad
    requires x.Locked? || x.SyncLost? || x.AddressFound? || x.Continued?
    ensures Tracked(After(m, p, x), q, ab)
  {
    hide LossOk, ScanEndOf;
  }

  lemma ContinuedTracked(m: Model, p: Proto, x: Item, q: Request, was: Abort)
    requires Tracked(p, q, was) && After(m, p, x) != Bad && x.ContinuedV2?
    ensures Tracked(After(m, p, x), q, x.ab)
  {
    hide ScanEndOf;
  }

  lemma {:induction false} LogTracked(m: Model, log: Log)
    requires Conforms(m, log)
    ensures Tracked(Parse(m, log), LastAsked(log), LastAbort(log))
  {
    hide CcaOk, VerdictOk, LossOk, FoundOk, Opened, WithAbort, ScanTracked, FoundTracked;
    if log != Nil {
      var l, x := log.init, log.last;
      LogTracked(m, l);
      var p := Parse(m, l);
      if x.Asked? {
        OpenedTracked(x.t, x.q);
      } else if x.AbortSet? {
        TrackedAbort(p.was, LastAsked(l), LastAbort(l), x.t, x.ab);
      } else if x.ContinuedV2? {
        ContinuedTracked(m, p, x, LastAsked(l), LastAbort(l));
      } else if x.Locked? || x.SyncLost? || x.AddressFound? || x.Continued? {
        ReceptionTracked(m, p, x, LastAsked(l), LastAbort(l));
      }
    }
  }

  ghost predicate EndTracked(p: Proto, q: Request, e: nat)
  {
    && (p.Scanning? || p.Syncing? ==> RxAsked(q).Some? && p.scanEnd == e)
    && (p.Assessing? ==> q.CcaScan? && p.scanEnd == e)
    && (p.Replying? ==> !p.was.Replying? && EndTracked(p.was, q, e))
  }

  lemma OpenedEnd(t: nat, q: Request)
    ensures EndTracked(Opened(t, q), q, FirstScanEnd(q))
  {
    hide ScanEndOf;
  }

  lemma AbortEndTracked(p: Proto, q: Request, e: nat, t: nat, ab: Abort)
    requires EndTracked(p, q, e) && !p.Replying?
    ensures EndTracked(WithAbort(p, t, ab), q, if q.CcaScan? then Min(ab.abort, e) else CutScan(e, ab.abort))
  {
    hide CutScan;
  }

  lemma {:induction false} LogEndTracked(m: Model, log: Log)
    requires Conforms(m, log)
    ensures EndTracked(Parse(m, log), LastAsked(log), LastScanEnd(log))
  {
    hide CcaOk, VerdictOk, LossOk, FoundOk, Opened, WithAbort, AskOk;
    if log != Nil {
      var l, x := log.init, log.last;
      Asking(Parse(m, l), x.t);
      LogEndTracked(m, l);
      if x.Asked? {
        OpenedEnd(x.t, x.q);
      } else if x.AbortSet? {
        AbortEndTracked(Parse(m, l).was, LastAsked(l), LastScanEnd(l), x.t, x.ab);
      }
    }
  }

  lemma Asking(p: Proto, t: nat)
    ensures AskOk(p, t) ==> p != Bad && !p.Replying?
  {
  }

  /** Whether an address was found, and a packet accepted, is part of the state of the session. */
  ghost predicate Announced(p: Proto, found: bool, accepted: bool)
  {
    && (p.Scanning? || p.Syncing? ==> !found && !accepted)
    && (p.Offered? ==> found && !accepted)
    && (p.Receiving? ==> found && accepted)
    && (p.Replying? ==> !p.was.Replying? && Announced(p.was, found, accepted))
  }

  lemma {:induction false} LogAnnounced(m: Model, log: Log)
    requires Conforms(m, log)
    ensures Announced(Parse(m, log), ToldFound(log), HasAccepted(log))
  {
    hide CcaOk, VerdictOk, LossOk, FoundOk, Opened, WithAbort;
    if log != Nil {
      var l, x := log.init, log.last;
      LogAnnounced(m, l);
      if x.Asked? {
        OpenedAnnounced(x.t, x.q);
      } else if x.AbortSet? {
        AbortAnnounced(Parse(m, l).was, ToldFound(l), HasAccepted(l), x.t, x.ab);
      }
    }
  }

  lemma OpenedAnnounced(t: nat, q: Request)
    ensures Announced(Opened(t, q), false, false)
  {
  }

  lemma AbortAnnounced(p: Proto, found: bool, accepted: bool, t: nat, ab: Abort)
    requires Announced(p, found, accepted) && !p.Replying?
    ensures Announced(WithAbort(p, t, ab), found, accepted)
  {
  }

  /** The packet of a reception, and when its address was found, are those of its last messages. */
  ghost predicate Placed(p: Proto, sp: nat, ep: nat, found: nat)
  {
    && (p.Syncing? ==> p.sp == sp && p.ep == ep)
    && (p.Offered? || p.Receiving? ==> p.found == found && p.ep == ep)
    && (p.Replying? ==> !p.was.Replying? && Placed(p.was, sp, ep, found))
  }

  lemma {:induction false} LogPlaced(m: Model, log: Log)
    requires Conforms(m, log)
    ensures Placed(Parse(m, log), LockedStart(log), LockedEnd(log), FoundAt(log))
  {
    hide CcaOk, VerdictOk, LossOk, FoundOk, Opened, WithAbort, AskOk;
    if log != Nil {
      var l, x := log.init, log.last;
      Asking(Parse(m, l), x.t);
      LogPlaced(m, l);
      if x.Asked? {
        OpenedPlaced(x.t, x.q, LockedStart(l), LockedEnd(l), FoundAt(l));
      } else if x.AbortSet? {
        AbortPlaced(Parse(m, l).was, LockedStart(l), LockedEnd(l), FoundAt(l), x.t, x.ab);
      }
    }
  }

  lemma OpenedPlaced(t: nat, q: Request, sp: nat, ep: nat, found: nat)
    ensures Placed(Opened(t, q), sp, ep, found)
  {
  }

  lemma AbortPlaced(p: Proto, sp: nat, ep: nat, found: nat, t: nat, ab: Abort)
    requires Placed(p, sp, ep, found) && !p.Replying?
    ensures Placed(WithAbort(p, t, ab), sp, ep, found)
  {
  }

  lemma {:induction false} NoNewAbort(log: Log)
    requires !HasNewAbort(log)
    ensures LastAbort(log) == AbortOf(LastAsked(log)) && LastScanEnd(log) == FirstScanEnd(LastAsked(log))
  {
    hide AbortOf, FirstScanEnd;
    if log == Nil {
      NothingAsked();
    } else if !log.last.Asked? {
      NoNewAbort(log.init);
    }
  }

  lemma NothingAsked()
    ensures AbortOf(Disconnect) == Abort(0, 0) && FirstScanEnd(Disconnect) == 0
  {
  }

  /** New abort times cut a CCA scan. */
  lemma {:induction false} NewAbortCuts(m: Model, log: Log)
    requires Conforms(m, log) && LastAsked(log).CcaScan? && HasNewAbort(log)
    ensures LastScanEnd(log) <= LastAbort(log).abort
  {
    hide CcaOk, VerdictOk, LossOk, FoundOk, Opened, WithAbort, ScanTracked;
    var l, x := log.init, log.last;
    if x.ContinuedV2? {
      LogTracked(m, l);
    } else if !x.AbortSet? {
      NewAbortCuts(m, l);
    }
  }

  // ---------------------------------------------------------------- laws

  predicate Finishes(x: Item)
  {
    x.WaitReply? || x.TxReply? || x.RssiReply? || x.CcaReply? || x.RxReply? || x.Stopped?
  }

  /** A request is read only when the one before it has been finished. */
  lemma FinishedFirst(m: Model, log: Log, t: nat, q: Request)
    requires Conforms(m, Snoc(log, Asked(t, q)))
    ensures log == Nil || Finishes(log.last)
  {
    assert Parse(m, log).Idle?;
  }

  /** Abort times which lie in the future, and not before the start. */
  predicate AbortInTime(t: nat, ab: Abort, start: nat)
  {
    t < ab.abort && t < ab.recheck && start <= ab.abort && start <= ab.recheck
  }

  /** The requests a device may make at time `t`: nothing which has passed, or has no duration, or is
      outside of what the simulator supports. */
  predicate Acceptable(t: nat, q: Request)
  {
    match q
    case Wait(end) => t <= end
    case Tx(x) => t < x.start < x.end && AbortInTime(t, x.ab, x.start)
    case TxV2(x) =>
      && t < x.startTx < x.endTx && x.startPacket < x.endTx && x.startPacket < x.endPacket
      && AbortInTime(t, x.ab, x.startTx)
    case Rssi(x) => t < x.at
    case Rx(x) => t < x.start && AbortInTime(t, x.ab, x.start) && CalcOf(x.bps).Some?
    case RxV2(x) =>
      && t < x.start && AbortInTime(t, x.ab, x.start) && CalcOf(x.errorRate).Some?
      && |x.addresses| <= 16 && x.respType == 0
      && (x.truncation == 0 || x.truncation < x.preamble)
    case CcaScan(x) => t < x.start && AbortInTime(t, x.ab, x.start) && x.period > 0 && x.stop <= 3
    case _ => false
  }

  /** After a session has been idle, exactly the acceptable requests go on with it. */
  lemma AcceptedIff(m: Model, log: Log, t: nat, q: Request)
    requires Parse(m, log) == Idle
    ensures Conforms(m, Snoc(log, Asked(t, q))) <==> Acceptable(t, q)
  {
    hide CalcOf, ScanEndOf;
  }

  /** Version 1 requests are version 2 ones of the same times, radio, power or gain, lengths, thresholds
      and rate, with no coding, for one address, with nothing truncated and without prelock. */
  lemma VersionOne(x: TxV1, r: RxV1)
    ensures TxAsked(Tx(x)) == Some(TxReq(
      startTx := x.start, endTx := x.end, startPacket := x.start, endPacket := x.end, ab := x.ab,
      radio := x.radio, power := x.power, address := x.address, codingRate := 0, size := x.size))
    ensures RxAsked(Rx(r)) == Some(RxReq(
      start := r.start, scanDuration := r.scanDuration, ab := r.ab, radio := r.radio, gain := r.gain,
      codingRate := 0, preamble := r.preamble, header := r.header, truncation := 0,
      syncThreshold := r.syncThreshold, headerThreshold := r.headerThreshold, errorRate := r.bps,
      prelocked := false, respType := 0, addresses := [r.address]))
  {
  }

  /** New abort times which have passed end the session. */
  lemma AbortsAreInTime(m: Model, log: Log, x: Item)
    requires Conforms(m, Snoc(log, x)) && (x.AbortSet? || x.ContinuedV2?)
    ensures x.t <= x.ab.abort && x.t <= x.ab.recheck
  {
  }

  /** A reception ends without synchronization exactly if no address was found, and with any other
      verdict only for a packet which the device has accepted. */
  lemma VerdictsAreAnnounced(m: Model, log: Log, t: nat, result: RxResult, errs: seq<nat>)
    requires Conforms(m, Snoc(log, RxReply(t, result, errs)))
    ensures result.NoSync? <==> !ToldFound(log)
    ensures result.NoSync? <==> !HasAccepted(log)
  {
    LogAnnounced(m, log);
  }

  /** No reply comes before its time: waits and measurements end exactly when asked, transmissions
      at the earlier of their end and their last abort time, the others not before their start. */
  lemma RepliesAreDue(m: Model, log: Log, x: Item)
    requires Conforms(m, Snoc(log, x))
    ensures x.WaitReply? ==> LastAsked(log).Wait? && LastAsked(log).end == x.t
    ensures x.RssiReply? ==> LastAsked(log).Rssi? && LastAsked(log).rssi.at == x.t
    ensures x.TxReply? ==>
      var t := TxAsked(LastAsked(log));
      t.Some? && t.value.startTx <= x.t == Min(t.value.endTx, LastAbort(log).abort)
    ensures x.CcaReply? ==> LastAsked(log).CcaScan? && LastAsked(log).cca.start <= x.t
    ensures x.RxReply? ==> RxAsked(LastAsked(log)).Some? && RxAsked(LastAsked(log)).value.start <= x.t
  {
    hide Summarizes, StopsScan, LossOk, FoundOk;
    LogTracked(m, log);
  }

  /** A reception ends at most one microsecond after its last abort time; without synchronization,
      exactly one after the end of its scan, which is not later than asked for. */
  lemma ReceptionsEnd(m: Model, log: Log, t: nat, result: RxResult, errs: seq<nat>)
    requires Conforms(m, Snoc(log, RxReply(t, result, errs)))
    ensures t <= LastAbort(log).abort + 1
    ensures result.NoSync? ==>
      && RxAsked(LastAsked(log)).Some?
      && t == LastScanEnd(log) + 1 && LastScanEnd(log) <= ScanEndOf(RxAsked(LastAsked(log)).value)
  {
    hide VerdictOk, LossOk, FoundOk, CcaOk, ScanEndOf;
    LogTracked(m, log);
    LogEndTracked(m, log);
    if !result.NoSync? {
      VerdictInTime(m, Parse(m, log), t, result, errs);
    }
  }

  lemma VerdictInTime(m: Model, p: Proto, t: nat, result: RxResult, errs: seq<nat>)
    requires p.Receiving? && VerdictOk(p.r, p.found, p.ep, t, result, errs) && p.found <= p.r.ab.abort
    ensures t <= p.r.ab.abort + 1
  {
    hide HeaderErrors, Sum;
  }

  /** Reaching a recheck time leads to a request for new abort times, at that time, or one microsecond
      later for a reception: no other message of a transmission, a reception or a scan comes after
      it. */
  lemma RechecksAreAsked(m: Model, log: Log, x: Item)
    requires Conforms(m, Snoc(log, x))
    ensures x.TxReply? ==> x.t < LastAbort(log).recheck
    ensures x.CcaReply? || x.RxReply? || x.AddressFound? ==> x.t <= LastAbort(log).recheck
    ensures x.AbortAsked? ==>
      LastAbort(log).recheck <= x.t <= LastAbort(log).recheck + if RxAsked(LastAsked(log)).Some? then 1 else 0
  {
    hide CcaOk, VerdictOk, FoundOk;
    LogTracked(m, log);
  }

  /** An address is found no later than the abort time in force and the end of the scan. */
  lemma AddressesInTime(m: Model, log: Log, t: nat, errs: seq<nat>)
    requires Conforms(m, Snoc(log, AddressFound(t, errs)))
    ensures RxAsked(LastAsked(log)).Some?
    ensures RxAsked(LastAsked(log)).value.start <= t <= ScanEndOf(RxAsked(LastAsked(log)).value)
    ensures t <= LastAbort(log).abort
  {
    LogTracked(m, log);
  }

  /** A scan ends with the time asked for, but before an abort time which comes earlier; and it is
      never over before it starts. */
  lemma ScanEnds(t: nat, r: RxReq)
    requires RxAccepted(t, r)
    ensures var e := if r.scanDuration == UINT32_MAX then TIME_NEVER - 1 else r.start + r.scanDuration - 1;
      && ScanEndOf(r) == (if e <= r.ab.abort then e else r.ab.abort - 1)
      && r.start <= ScanEndOf(r) + 1
  {
  }

  /** Re-evaluations only ever shorten a scan. */
  lemma ScanNeverGrows(m: Model, log: Log, t: nat, ab: Abort)
    requires Conforms(m, Snoc(log, AbortSet(t, ab)))
    requires RxAsked(LastAsked(log)).Some? || LastAsked(log).CcaScan?
    ensures LastScanEnd(Snoc(log, AbortSet(t, ab))) <= LastScanEnd(log)
  {
    hide ScanTracked, FoundTracked, WithAbort, AskOk;
    LogTracked(m, log);
    AbortIsLater(Parse(m, log).was, LastAsked(log), LastAbort(log), t, ab);
  }

  lemma AbortIsLater(p: Proto, q: Request, was: Abort, t: nat, ab: Abort)
    requires Tracked(p, q, was) && AskOk(p, t) && WithAbort(p, t, ab) != Bad
    ensures RxAsked(q).Some? || q.CcaScan? ==> 1 <= ab.abort
  {
  }

  /** A reception which still looks for a packet knows those it has locked to. */
  ghost predicate KnownLock(p: Proto, tx: nat, sp: nat)
  {
    && (p.Scanning? ==> (tx, sp) in p.lost)
    && (p.Syncing? ==> (tx, sp) in p.lost || (tx == p.tx && sp == p.sp))
    && (p.Replying? ==> !p.was.Replying? && KnownLock(p.was, tx, sp))
  }

  lemma {:induction false} LocksAreKnown(m: Model, log: Log, tx: nat, sp: nat)
    requires Conforms(m, log) && WasLocked(log, tx, sp)
    ensures KnownLock(Parse(m, log), tx, sp)
  {
    hide CcaOk, VerdictOk, LossOk, FoundOk, Opened, WithAbort, AskOk;
    var l, x := log.init, log.last;
    Asking(Parse(m, l), x.t);
    if WasLocked(l, tx, sp) {
      LocksAreKnown(m, l, tx, sp);
      if x.AbortSet? {
        AbortKnown(Parse(m, l).was, tx, sp, x.t, x.ab);
      }
    }
  }

  lemma AbortKnown(p: Proto, tx: nat, sp: nat, t: nat, ab: Abort)
    requires KnownLock(p, tx, sp) && !p.Replying?
    ensures KnownLock(WithAbort(p, t, ab), tx, sp)
  {
  }

  /** A reception never locks to the same packet twice, so not to one it lost either. */
  lemma NeverTwice(m: Model, log: Log, t: nat, tx: nat, sp: nat, ep: nat)
    requires Conforms(m, Snoc(log, Locked(t, tx, sp, ep)))
    ensures !WasLocked(log, tx, sp)
  {
    if WasLocked(log, tx, sp) {
      LocksAreKnown(m, log, tx, sp);
    }
  }

  lemma {:induction false} SumPrefix(errs: seq<nat>, k: nat)
    requires k <= |errs|
    ensures Sum(errs[..k]) <= Sum(errs)
  {
    if k < |errs| {
      SumPrefix(errs[..|errs| - 1], k);
      assert errs[..|errs| - 1][..k] == errs[..k];
    } else {
      assert errs[..k] == errs;
    }
  }

  /** The accepted reception under way: its request with the last abort times. */
  function Accepted(log: Log): RxReq
    requires RxAsked(LastAsked(log)).Some?
  {
    RxAsked(LastAsked(log)).value.(ab := LastAbort(log))
  }

  /** The first microsecond of an accepted packet in which errors are drawn. */
  function FirstAfter(log: Log): nat
    requires RxAsked(LastAsked(log)).Some?
  {
    FoundAt(log) + if Accepted(log).preamble == 0 then 0 else 1
  }

  /** The last microsecond of its header. */
  function LastOfHeader(log: Log): nat
    requires RxAsked(LastAsked(log)).Some?
  {
    FoundAt(log) + Accepted(log).header
  }

  /** The microsecond in which its payload is judged: its end, or the first after the header. */
  function LastOfPacket(log: Log): int
    requires RxAsked(LastAsked(log)).Some?
  {
    Max(LockedEnd(log), if Accepted(log).header == 0 then FirstAfter(log) else LastOfHeader(log) + 1)
  }

  /** The microsecond in which the abort time ends the reception. */
  function AbortedAt(log: Log): int
    requires RxAsked(LastAsked(log)).Some?
  {
    Max(LastAbort(log).abort, FirstAfter(log))
  }

  lemma SameTimes(m: Model, log: Log, t: nat, result: RxResult, errs: seq<nat>)
    requires Conforms(m, Snoc(log, RxReply(t, result, errs))) && !result.NoSync?
    ensures RxAsked(LastAsked(log)).Some?
    ensures var r, found, ep := Accepted(log), FoundAt(log), LockedEnd(log);
      && VerdictOk(r, found, ep, t, result, errs) && First(r, found) == FirstAfter(log)
      && HeaderEnd(r, found) == LastOfHeader(log) && PayloadEnd(r, found, ep) == LastOfPacket(log)
      && AbortEnd(r, found) == AbortedAt(log)
  {
    hide VerdictOk, First, HeaderEnd, PayloadEnd, AbortEnd, FirstAfter, LastOfHeader, LastOfPacket, AbortedAt;
    AcceptedIs(m, log, t, result, errs);
    TimesAre(log);
  }

  lemma AcceptedIs(m: Model, log: Log, t: nat, result: RxResult, errs: seq<nat>)
    requires Conforms(m, Snoc(log, RxReply(t, result, errs))) && !result.NoSync?
    ensures RxAsked(LastAsked(log)).Some?
    ensures VerdictOk(Accepted(log), FoundAt(log), LockedEnd(log), t, result, errs)
  {
    hide VerdictOk, FoundOk, LossOk, CcaOk, ScanTracked, LastAbort, LockedStart, LockedEnd, FoundAt;
    LogTracked(m, log);
    LogPlaced(m, log);
  }

  lemma TimesAre(log: Log)
    requires RxAsked(LastAsked(log)).Some?
    ensures var r, found, ep := Accepted(log), FoundAt(log), LockedEnd(log);
      && First(r, found) == FirstAfter(log) && HeaderEnd(r, found) == LastOfHeader(log)
      && PayloadEnd(r, found, ep) == LastOfPacket(log) && AbortEnd(r, found) == AbortedAt(log)
  {
    hide LastAsked, LockedEnd, FoundAt, LastAbort, RxAsked;
  }

  /** A packet is received correctly exactly if no error was drawn since its address was found, and
      no abort time came up to its end; then the reception ends with the packet. */
  lemma CorrectIff(m: Model, log: Log, t: nat, result: RxResult, errs: seq<nat>)
    requires Conforms(m, Snoc(log, RxReply(t, result, errs))) && !result.NoSync?
    ensures RxAsked(LastAsked(log)).Some?
    ensures result.RxOk? <==> Sum(errs) == 0 && t == LastOfPacket(log) < AbortedAt(log)
  {
    hide VerdictOk, PayloadEnd, AbortEnd, Sum, LastOfPacket, AbortedAt;
    SameTimes(m, log, t, result, errs);
    CorrectVerdict(Accepted(log), FoundAt(log), LockedEnd(log), t, result, errs);
  }

  lemma CorrectVerdict(r: RxReq, found: nat, ep: nat, t: nat, result: RxResult, errs: seq<nat>)
    requires VerdictOk(r, found, ep, t, result, errs)
    ensures result.RxOk? <==> Sum(errs) == 0 && t == PayloadEnd(r, found, ep) < AbortEnd(r, found)
  {
    var k := HeaderEnd(r, found) - First(r, found) + 1;
    if 0 <= k <= |errs| {
      SumPrefix(errs, k);
    }
  }

  /** A reception fails in its header, up to the last microsecond of it, because it is aborted, or there
      with more errors than its threshold, which any other has not; and it fails in its payload because
      it is aborted, or at its end with an error. */
  lemma FailuresAre(m: Model, log: Log, t: nat, result: RxResult, errs: seq<nat>)
    requires Conforms(m, Snoc(log, RxReply(t, result, errs))) && !result.NoSync?
    ensures RxAsked(LastAsked(log)).Some? && t <= AbortedAt(log)
    ensures result.HeaderError? <==> Accepted(log).header > 0 && t <= LastOfHeader(log)
    ensures result.HeaderError? ==>
      t == AbortedAt(log) || (t == LastOfHeader(log) && Sum(errs) > Accepted(log).headerThreshold)
    ensures Accepted(log).header > 0 && !result.HeaderError? ==>
      var k := LastOfHeader(log) - FirstAfter(log) + 1;
      0 <= k <= |errs| && Sum(errs[..k]) <= Accepted(log).headerThreshold
    ensures result.ContentError? ==> t == AbortedAt(log) || (t == LastOfPacket(log) && Sum(errs) > 0)
  {
    hide VerdictOk, PayloadEnd, AbortEnd, Sum, LastOfPacket, AbortedAt, LastOfHeader, FirstAfter, HeaderErrors;
    SameTimes(m, log, t, result, errs);
    FailedVerdict(Accepted(log), FoundAt(log), LockedEnd(log), t, result, errs);
  }

  lemma FailedVerdict(r: RxReq, found: nat, ep: nat, t: nat, result: RxResult, errs: seq<nat>)
    requires VerdictOk(r, found, ep, t, result, errs)
    ensures t <= AbortEnd(r, found)
    ensures result.HeaderError? <==> r.header > 0 && t <= HeaderEnd(r, found)
    ensures result.HeaderError? ==>
      t == AbortEnd(r, found) || (t == HeaderEnd(r, found) && Sum(errs) > r.headerThreshold)
    ensures r.header > 0 && !result.HeaderError? ==>
      var k := HeaderEnd(r, found) - First(r, found) + 1;
      0 <= k <= |errs| && Sum(errs[..k]) <= r.headerThreshold
    ensures result.ContentError? ==> t == AbortEnd(r, found) || (t == PayloadEnd(r, found, ep) && Sum(errs) > 0)
  {
    hide Sum;
    assert errs[..|errs|] == errs;
  }

  /** A synchronization is lost, unless its transmission is, with the first microsecond whose errors make
      more than the threshold; and an address is found if they never do. */
  lemma LossesExceed(m: Model, log: Log, x: Item)
    requires Conforms(m, Snoc(log, x)) && (x.SyncLost? || x.AddressFound?)
    ensures RxAsked(LastAsked(log)).Some?
    ensures var r := RxAsked(LastAsked(log)).value;
      && (x.AddressFound? ==> Sum(x.errs) <= r.syncThreshold)
      && (x.SyncLost? && x.gone ==> Sum(x.errs) <= r.syncThreshold && |x.errs| == x.t - LockedStart(log) - r.truncation)
      && (x.SyncLost? && !x.gone ==>
            && |x.errs| == x.t - LockedStart(log) - r.truncation + 1
            && Sum(x.errs[..|x.errs| - 1]) <= r.syncThreshold < Sum(x.errs))
  {
    hide Verdict, CcaOk, Sum;
    LogTracked(m, log);
    LogPlaced(m, log);
  }

  lemma {:induction false} StoppedIsIdle(m: Model, log: Log)
    requires Conforms(m, log) && HasStopped(log)
    ensures Parse(m, log).Idle? || Parse(m, log).Gone?
  {
    hide CcaOk, VerdictOk, LossOk, FoundOk;
    if HasStopped(log.init) {
      StoppedIsIdle(m, log.init);
    }
  }

  /** A reception which the device has stopped gets no reply. */
  lemma NoReplyAfterStop(m: Model, log: Log, t: nat, result: RxResult, errs: seq<nat>)
    requires Conforms(m, Snoc(log, RxReply(t, result, errs)))
    ensures !HasStopped(log)
  {
    if HasStopped(log) {
      StoppedIsIdle(m, log);
    }
  }

  /** Errors are drawn once in each microsecond: from the start of the synchronization to the end of
      the address, and, if the preamble is not empty, from the microsecond after that to the
      verdict. */
  lemma OneSamplePerMicrosecond(m: Model, log: Log, x: Item)
    requires Conforms(m, Snoc(log, x))
    ensures x.AddressFound? || (x.RxReply? && !x.result.NoSync?) ==> RxAsked(LastAsked(log)).Some?
    ensures x.AddressFound? ==>
      var r, sp := RxAsked(LastAsked(log)).value, LockedStart(log);
      x.t == SyncEnd(r, sp) && |x.errs| == x.t - SyncStart(r, sp) + 1
    ensures x.RxReply? && !x.result.NoSync? ==>
      var r := RxAsked(LastAsked(log)).value;
      |x.errs| == x.t - FoundAt(log) + if r.preamble == 0 then 1 else 0
  {
    hide Verdict, CcaOk, LossOk;
    LogTracked(m, log);
    LogPlaced(m, log);
  }

  predicate Loud(c: CcaReq, s: Sample) { s.rssi >= c.rssiThreshold }

  predicate Modulated(m: Model, c: CcaReq, s: Sample) { s.compatible && m.dBm(s.rssi) >= c.modThreshold }

  /** A scan which looks for any signal (2 or 3) ends with a loud measurement, one which looks for
      modulated signals (1 or 3) with a modulated one. */
  predicate EndsScan(m: Model, c: CcaReq, s: Sample)
  {
    ((c.stop == 2 || c.stop == 3) && Loud(c, s)) || ((c.stop == 1 || c.stop == 3) && Modulated(m, c, s))
  }

  lemma EndingIsStopping(m: Model, c: CcaReq, s: Sample)
    requires c.stop <= 3
    ensures StopsScan(m, c, s) <==> EndsScan(m, c, s)
  {
  }

  /** The greatest RSSI of these measurements, but at least the least one there is. */
  ghost predicate IsLoudest(m: Model, samples: seq<Sample>, max: int)
  {
    && m.rssiMin <= max && (forall s :: s in samples ==> s.rssi <= max)
    && (max == m.rssiMin || exists s :: s in samples && s.rssi == max)
  }

  /** The same of the powers of those which found a compatible signal. */
  ghost predicate IsStrongest(m: Model, samples: seq<Sample>, max: int)
  {
    && m.rssiMin <= max && (forall s :: s in samples && s.compatible ==> m.dBm(s.rssi) <= max)
    && (max == m.rssiMin || exists s :: s in samples && s.compatible && m.dBm(s.rssi) == max)
  }

  /** What a scan with this request, answered at `t`, has measured, and what it answers. */
  ghost predicate AreResults(m: Model, c: CcaReq, scanEnd: nat, t: nat, done: CcaDone, samples: seq<Sample>)
  {
    && c.period > 0 && c.start <= t <= Max(c.start, scanEnd)
    && done.nMeas == |samples| == (t - c.start) / c.period + 1
    && (forall k :: 0 <= k < |samples| ==> samples[k].at == c.start + k * c.period)
    && (forall k :: 0 <= k < |samples| - 1 ==> !EndsScan(m, c, samples[k]))
    && (var last := samples[|samples| - 1];
        t == if EndsScan(m, c, last) then last.at else Max(c.start, scanEnd))
    && (done.over <==> exists s :: s in samples && Loud(c, s))
    && (done.modFound <==> exists s :: s in samples && Modulated(m, c, s))
    && IsLoudest(m, samples, done.rssiMax) && IsStrongest(m, samples, done.modPower)
  }

  /** A CCA scan has measured at its start and after every period up to its end, which is the first
      measurement which ends it, or else the end of the scan, and never later than that; and its
      flags and maxima are exactly those of its measurements. */
  lemma ScanResults(m: Model, log: Log, t: nat, done: CcaDone, samples: seq<Sample>)
    requires Conforms(m, Snoc(log, CcaReply(t, done, samples)))
    ensures LastAsked(log).CcaScan? && AreResults(m, LastAsked(log).cca, LastScanEnd(log), t, done, samples)
  {
    hide CcaOk, AreResults;
    LogTracked(m, log);
    LogEndTracked(m, log);
    var c, p := LastAsked(log).cca, Parse(m, log);
    SameResults(m, c, p.c.ab, p.scanEnd, t, done, samples);
    ResultsAre(m, c, p.scanEnd, t, done, samples);
  }

  lemma ResultsAre(m: Model, c: CcaReq, scanEnd: nat, t: nat, done: CcaDone, samples: seq<Sample>)
    requires CcaOk(m, c, scanEnd, t, done, samples) && c.stop <= 3
    requires forall k :: 0 <= k < |samples| ==> MeasTime(c, k) == c.start + k * c.period
    ensures AreResults(m, c, scanEnd, t, done, samples)
  {
    hide StopsScan, EndsScan, IsLoudest, IsStrongest, Loud, Modulated;
    forall k | 0 <= k < |samples|
      ensures StopsScan(m, c, samples[k]) <==> EndsScan(m, c, samples[k])
    {
      EndingIsStopping(m, c, samples[k]);
    }
    SummaryIs(m, c, done, samples);
  }

  lemma SummaryIs(m: Model, c: CcaReq, done: CcaDone, samples: seq<Sample>)
    requires Summarizes(m, c, done, samples)
    ensures done.over <==> exists s :: s in samples && Loud(c, s)
    ensures done.modFound <==> exists s :: s in samples && Modulated(m, c, s)
    ensures IsLoudest(m, samples, done.rssiMax)
    ensures IsStrongest(m, samples, done.modPower)
  {
    assert forall s :: (OverRssi(c, s) <==> Loud(c, s)) && (OverMod(m, c, s) <==> Modulated(m, c, s));
  }

  lemma SameResults(m: Model, c: CcaReq, ab: Abort, scanEnd: nat, t: nat, done: CcaDone, samples: seq<Sample>)
    requires CcaOk(m, c.(ab := ab), scanEnd, t, done, samples)
    ensures CcaOk(m, c, scanEnd, t, done, samples)
    ensures forall k :: 0 <= k < |samples| ==> MeasTime(c, k) == c.start + k * c.period
  {
    var d := c.(ab := ab);
    forall k | 0 <= k < |samples|
      ensures MeasTime(c, k) == MeasTime(d, k) && (StopsScan(m, c, samples[k]) <==> StopsScan(m, d, samples[k]))
    {
    }
    forall s
      ensures (OverRssi(c, s) <==> OverRssi(d, s)) && (OverMod(m, c, s) <==> OverMod(m, d, s))
    {
    }
  }

  /** A CCA scan ends by its last abort time if that was agreed on while it ran. It ends by the one it
      was requested with if and only if the scan asked for does, or a measurement stops it in time:
      that abort time never cuts it. */
  lemma ScanEndsByAbortIff(m: Model, log: Log, t: nat, done: CcaDone, samples: seq<Sample>)
    requires Conforms(m, Snoc(log, CcaReply(t, done, samples)))
    ensures LastAsked(log).CcaScan? && |samples| > 0
    ensures var c, last := LastAsked(log).cca, samples[|samples| - 1];
      t <= LastAbort(log).abort <==>
        || HasNewAbort(log)
        || Pred(c.start + c.scanDuration) <= c.ab.abort
        || (EndsScan(m, c, last) && last.at <= c.ab.abort)
  {
    hide EndsScan, Summarizes, VerdictOk, FoundOk, LossOk, CcaOk, IsLoudest, IsStrongest, Loud, Modulated;
    LogTracked(m, log);
    ScanResults(m, log, t, done, samples);
    if HasNewAbort(log) {
      NewAbortCuts(m, log);
    } else {
      NoNewAbort(log);
    }
  }
}
