/** The protocol of a device session, stated on its messages alone. */
module Session {
  import opened Types
  import opened ChannelModem
  import opened Requests

  /** Where a session is. The request of a reception, a transmission or a CCA scan is kept with its
      latest abort times; `lost` holds the packets a reception has lost the synchronization to. */
  datatype Proto =
    | Idle
    | Waiting(end: nat)
    | Sending(t: TxReq)
    | Measuring(at: nat)
    | Scanning(r: RxReq, scanEnd: nat, lost: set<(nat, nat)>)
    | Syncing(r: RxReq, scanEnd: nat, lost: set<(nat, nat)>, tx: nat, sp: nat, ep: nat)
    | Offered(r: RxReq, found: nat, ep: nat)
    | Receiving(r: RxReq, found: nat, ep: nat)
    | Assessing(c: CcaReq, scanEnd: nat)
    | Replying(was: Proto, at: nat)
    | Gone(was: Proto, at: nat)
    | Bad

  function Sum(s: seq<nat>): nat
  {
    if |s| == 0 then 0 else Sum(s[..|s| - 1]) + s[|s| - 1]
  }

  // ---------------------------------------------------------------- receptions

  function SyncStart(r: RxReq, sp: nat): nat { sp + r.truncation }

  /** The last microsecond of the address. */
  function SyncEnd(r: RxReq, sp: nat): nat { if r.preamble == 0 then sp else sp + r.preamble - 1 }

  /** When the first error sample of an accepted packet is due. */
  function First(r: RxReq, found: nat): nat { if r.preamble == 0 then found else found + 1 }

  function HeaderEnd(r: RxReq, found: nat): nat { found + r.header }

  function PayloadStart(r: RxReq, found: nat): nat
  {
    if r.header == 0 then First(r, found) else HeaderEnd(r, found) + 1
  }

  /** When the payload is judged, for a packet which ends at `ep`. */
  function PayloadEnd(r: RxReq, found: nat, ep: nat): nat
  {
    if ep > PayloadStart(r, found) then ep else PayloadStart(r, found)
  }

  /** The synchronization is lost at the first microsecond in which the running sum of the errors
      exceeds the threshold, or before if the transmission is gone. */
  ghost predicate LossOk(r: RxReq, scanEnd: nat, sp: nat, t: nat, gone: bool, errs: seq<nat>)
  {
    && SyncStart(r, sp) <= t <= SyncEnd(r, sp) && t <= scanEnd
    && (gone ==> |errs| == t - SyncStart(r, sp) && Sum(errs) <= r.syncThreshold)
    && (!gone ==> |errs| == t - SyncStart(r, sp) + 1
                  && Sum(errs[..|errs| - 1]) <= r.syncThreshold < Sum(errs))
  }

  /** The address is found in its last microsecond, inside the scan, after one error sample for
      each microsecond which together stay within the threshold. */
  ghost predicate FoundOk(r: RxReq, scanEnd: nat, sp: nat, t: nat, errs: seq<nat>)
  {
    && t == SyncEnd(r, sp) && t <= scanEnd <= r.ab.abort
    && |errs| == t - SyncStart(r, sp) + 1
    && Sum(errs) <= r.syncThreshold
  }

  /** The errors of the header part of the samples. */
  function HeaderErrors(r: RxReq, found: nat, errs: seq<nat>): nat
  {
    var k := HeaderEnd(r, found) - First(r, found) + 1;
    if 0 <= k <= |errs| then Sum(errs[..k]) else 0
  }

  /** When the abort time ends an accepted reception: errors are still drawn once. */
  function AbortEnd(r: RxReq, found: nat): nat
  {
    if r.ab.abort > First(r, found) then r.ab.abort else First(r, found)
  }

  /** The verdict of an accepted reception, and its time, given the errors of its header and of all
      of it: the header is judged only in its last microsecond, the payload only in its own last
      one, unless the abort time comes before, or at the same time. */
  function Verdict(r: RxReq, found: nat, ep: nat, headerErrors: nat, errors: nat): (RxResult, nat)
  {
    var abort := AbortEnd(r, found);
    if r.header > 0 && abort <= HeaderEnd(r, found) then (HeaderError, abort)
    else if r.header > 0 && headerErrors > r.headerThreshold then (HeaderError, HeaderEnd(r, found))
    else if abort <= PayloadEnd(r, found, ep) then (ContentError, abort)
    else if errors > 0 then (ContentError, PayloadEnd(r, found, ep))
    else (RxOk, PayloadEnd(r, found, ep))
  }

  /** A reception ends at `t` with the verdict on the samples drawn, one in each microsecond. */
  ghost predicate VerdictOk(r: RxReq, found: nat, ep: nat, t: nat, result: RxResult, errs: seq<nat>)
  {
    && |errs| == t - First(r, found) + 1
    && (result, t) == Verdict(r, found, ep, HeaderErrors(r, found, errs), Sum(errs))
  }

  /** The microseconds for which errors have been reported since the request under way. */
  function Drawn(log: Log): nat
  {
    match log
    case Nil => 0
    case Snoc(l, x) =>
      match x
      case Asked(_, _) => 0
      case SyncLost(_, _, errs) => Drawn(l) + |errs|
      case AddressFound(_, errs) => Drawn(l) + |errs|
      case _ => Drawn(l)
  }

  // ---------------------------------------------------------------- CCA

  /** When measurement k of a scan is due. */
  function MeasTime(c: CcaReq, k: nat): nat { c.start + k * c.period }

  /** A scan ending at `t`, not after `scanEnd`, has measured exactly at start, start + period, ... up
      to t; its result is the maximum, or the existence, over these samples; and no sample but the
      last could have stopped it. */
  ghost predicate CcaOk(m: Model, c: CcaReq, scanEnd: nat, t: nat, done: CcaDone, samples: seq<Sample>)
  {
    && c.period > 0 && c.start <= t <= Max(c.start, scanEnd)
    && |samples| == (t - c.start) / c.period + 1 == done.nMeas
    && (forall k :: 0 <= k < |samples| ==> samples[k].at == MeasTime(c, k))
    && (forall k :: 0 <= k < |samples| - 1 ==> !StopsScan(m, c, samples[k]))
    && (if StopsScan(m, c, samples[|samples| - 1]) then t == samples[|samples| - 1].at
        else t == Max(c.start, scanEnd))
    && Summarizes(m, c, done, samples)
  }

  /** The running results are those of the samples. */
  ghost predicate Summarizes(m: Model, c: CcaReq, done: CcaDone, samples: seq<Sample>)
  {
    && done.nMeas == |samples|
    && (forall s :: s in samples ==> s.rssi <= done.rssiMax)
    && (done.rssiMax == m.rssiMin || exists s :: s in samples && s.rssi == done.rssiMax)
    && done.rssiMax >= m.rssiMin
    && (forall s :: s in samples && s.compatible ==> m.dBm(s.rssi) <= done.modPower)
    && (done.modPower == m.rssiMin || exists s :: s in samples && s.compatible && m.dBm(s.rssi) == done.modPower)
    && done.modPower >= m.rssiMin
    && (done.over <==> exists s :: s in samples && OverRssi(c, s))
    && (done.modFound <==> exists s :: s in samples && OverMod(m, c, s))
  }

  // ---------------------------------------------------------------- the automaton

  ghost function Opened(t: nat, q: Request): Proto
  {
    match q
    case Wait(end) => if t <= end then Waiting(end) else Bad
    case Tx(v1) => if TxAccepted(t, MapTxV1(v1)) then Sending(MapTxV1(v1)) else Bad
    case TxV2(tx) => if TxAccepted(t, tx) then Sending(tx) else Bad
    case Rssi(r) => if t < r.at then Measuring(r.at) else Bad
    case Rx(v1) => if RxAccepted(t, MapRxV1(v1)) then Scanning(MapRxV1(v1), ScanEndOf(MapRxV1(v1)), {}) else Bad
    case RxV2(r) => if RxV2Accepted(r) && RxAccepted(t, r) then Scanning(r, ScanEndOf(r), {}) else Bad
    case CcaScan(c) => if CcaAccepted(t, c) then Assessing(c, Pred(c.start + c.scanDuration)) else Bad
    case _ => Bad
  }

  /** The new abort times, which must not have passed, in force. */
  ghost function WithAbort(p: Proto, t: nat, ab: Abort): Proto
  {
    if PassedAbort(t, ab) then Bad
    else match p
      case Sending(tx) => Sending(tx.(ab := ab))
      case Scanning(r, e, lost) => Scanning(r.(ab := ab), CutScan(e, ab.abort), lost)
      case Syncing(r, e, lost, j, sp, ep) => Syncing(r.(ab := ab), CutScan(e, ab.abort), lost, j, sp, ep)
      case Receiving(r, f, ep) => Receiving(r.(ab := ab), f, ep)
      case Assessing(c, e) => Assessing(c.(ab := ab), Min(ab.abort, e))
      case _ => Bad
  }

  /** The abort times are asked for again when the recheck time comes; a reception may be one
      microsecond late. */
  ghost predicate AskOk(p: Proto, t: nat)
  {
    match p
    case Sending(tx) => tx.startTx <= t == tx.ab.recheck <= TxStop(tx)
    case Scanning(r, e, _) => r.start <= t <= e + 1 && r.ab.recheck <= t <= r.ab.recheck + 1
    case Syncing(r, e, _, _, _, _) => r.start <= t <= e + 1 && r.ab.recheck <= t <= r.ab.recheck + 1
    case Receiving(r, f, _) => f <= t && r.ab.recheck <= t <= r.ab.recheck + 1
    case Assessing(c, _) => c.start <= t == c.ab.recheck
    case _ => false
  }

  ghost function Ok(c: bool, p: Proto): Proto { if c then p else Bad }

  /** One message, or milestone, of the session. After the recheck time nothing comes but the
      re-evaluation. */
  ghost function After(m: Model, p: Proto, x: Item): Proto
  {
    match x
    case Asked(t, q) => if p.Idle? then Opened(t, q) else Bad
    case WaitReply(t) => Ok(p.Waiting? && t == p.end, Idle)
    case TxReply(t) => Ok(p.Sending? && p.t.startTx <= t == TxStop(p.t) < p.t.ab.recheck, Idle)
    case RssiReply(t) => Ok(p.Measuring? && t == p.at, Idle)
    case CcaReply(t, done, samples) =>
      Ok(p.Assessing? && t <= p.c.ab.recheck && CcaOk(m, p.c, p.scanEnd, t, done, samples), Idle)
    case Locked(t, j, sp, ep) =>
      if p.Scanning? && p.r.start <= t <= p.scanEnd + 1 && t <= p.r.ab.recheck && sp <= t <= SyncStart(p.r, sp)
         && (j, sp) !in p.lost
      then Syncing(p.r, p.scanEnd, p.lost, j, sp, ep) else Bad
    case SyncLost(t, gone, errs) =>
      if p.Syncing? && t <= p.r.ab.recheck && LossOk(p.r, p.scanEnd, p.sp, t, gone, errs)
      then Scanning(p.r, p.scanEnd, p.lost + {(p.tx, p.sp)}) else Bad
    case AddressFound(t, errs) =>
      if p.Syncing? && t <= p.r.ab.recheck && FoundOk(p.r, p.scanEnd, p.sp, t, errs)
      then Offered(p.r, t, p.ep) else Bad
    case Continued(t) => if p.Offered? && t == p.found then Receiving(p.r, p.found, p.ep) else Bad
    case ContinuedV2(t, ab) =>
      if p.Offered? && t == p.found && !PassedAbort(t, ab) then Receiving(p.r.(ab := ab), p.found, p.ep) else Bad
    case Stopped(t) => Ok(p.Offered? && t == p.found, Idle)
    case RxReply(t, result, errs) =>
      if result.NoSync? then Ok((p.Scanning? || p.Syncing?) && t == p.scanEnd + 1 && t <= p.r.ab.recheck, Idle)
      else Ok(p.Receiving? && t <= p.r.ab.recheck && VerdictOk(p.r, p.found, p.ep, t, result, errs), Idle)
    case AbortAsked(t) => if AskOk(p, t) then Replying(p, t) else Bad
    case ImmRssi(t) => Ok(p.Replying? && t == p.at, p)
    case AbortSet(t, ab) => if p.Replying? && t == p.at then WithAbort(p.was, t, ab) else Bad
    case Left(t) => LeaveFrom(p, t)
    case Ended(t) => LeaveFrom(p, t)
  }

  /** A device may leave, or end the simulation, only when it is being asked something. */
  ghost function LeaveFrom(p: Proto, t: nat): Proto
  {
    if p.Idle? then Gone(Idle, t)
    else if p.Offered? && t == p.found then Gone(p, t)
    else if p.Replying? && t == p.at then Gone(p.was, t)
    else Bad
  }

  ghost function Parse(m: Model, log: Log): Proto
  {
    match log
    case Nil => Idle
    case Snoc(l, x) => After(m, Parse(m, l), x)
  }

  ghost predicate Conforms(m: Model, log: Log) { Parse(m, log) != Bad }

  // ---------------------------------------------------------------- transmissions in the air

  /** A transmission which has been answered covers time `t`. */
  ghost predicate Sent(m: Model, log: Log, t: nat)
  {
    match log
    case Nil => false
    case Snoc(l, x) =>
      Sent(m, l, t) || (x.TxReply? && Parse(m, l).Sending? && Parse(m, l).t.startTx <= t <= TxStop(Parse(m, l).t))
  }

  ghost predicate Covers(p: Proto, t: nat) { p.Sending? && p.t.startTx <= t <= TxStop(p.t) }

  /** According to its messages, the device is transmitting at time `t`: an answered transmission
      covers it, or the one under way does; a transmission during which the device left ends right
      before that. */
  ghost predicate OnAir(m: Model, log: Log, t: nat)
  {
    var p := Parse(m, log);
    || Sent(m, log, t)
    || Covers(p, t)
    || (p.Replying? && Covers(p.was, t))
    || (p.Gone? && p.was.Sending? && p.was.t.startTx <= t < p.at)
  }

  /** The device left, or ended the simulation, at time `t` in the middle of a transmission. */
  ghost predicate DroppedAt(m: Model, log: Log, t: nat)
  {
    var p := Parse(m, log);
    p.Gone? && p.was.Sending? && p.at == t
  }
}
