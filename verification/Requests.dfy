/** What the Phy demands of requests and abort times, and the times which follow from them. */
module Requests {
  import opened Types
  import opened ErrorCalc
  import opened ChannelModem

  predicate PassedAbort(now: nat, ab: Abort) { now > ab.abort || now > ab.recheck }

  /** check_valid_abort: the abort times of a new request are fatal. */
  predicate BadAbort(now: nat, ab: Abort, start: nat)
  {
    now >= ab.abort || now >= ab.recheck || start > ab.abort || start > ab.recheck
  }

  function TxStop(t: TxReq): nat { Min(t.endTx, t.ab.abort) }

  predicate TxAccepted(now: nat, t: TxReq)
  {
    && now < t.startTx < t.endTx
    && t.startPacket < t.endTx && t.startPacket < t.endPacket
    && !BadAbort(now, t.ab, t.startTx)
  }

  predicate RxAccepted(now: nat, r: RxReq)
  {
    && now < r.start && !BadAbort(now, r.ab, r.start)
    && CalcOf(r.errorRate).Some?
  }

  /** The checks made only on version 2 receptions. */
  predicate RxV2Accepted(r: RxReq)
  {
    && |r.addresses| <= MAX_ADDRESSES && r.respType == 0
    && !(r.preamble > 0 && r.truncation >= r.preamble)
    && !(r.truncation > r.preamble)
  }

  predicate CcaAccepted(now: nat, c: CcaReq)
  {
    now < c.start && !BadAbort(now, c.ab, c.start) && c.period > 0 && c.stop <= 3
  }

  function CutScan(scanEnd: nat, abort: nat): nat
  {
    if abort < scanEnd then Pred(abort) else scanEnd
  }

  /** The last microsecond of a reception window. */
  function ScanEndOf(r: RxReq): nat
  {
    var e := if r.scanDuration < UINT32_MAX then Pred(r.start + r.scanDuration) else TIME_NEVER - 1;
    CutScan(e, r.ab.abort)
  }

  /** From the start of the packet to the last microsecond of the address. */
  function SyncLength(r: RxReq): nat { if r.preamble > 0 then r.preamble - 1 else 0 }

  predicate OverRssi(c: CcaReq, s: Sample) { s.rssi >= c.rssiThreshold }

  predicate OverMod(m: Model, c: CcaReq, s: Sample) { s.compatible && m.dBm(s.rssi) >= c.modThreshold }

  predicate StopsScan(m: Model, c: CcaReq, s: Sample)
  {
    (c.stop / 2 % 2 == 1 && OverRssi(c, s)) || (c.stop % 2 == 1 && OverMod(m, c, s))
  }
}
