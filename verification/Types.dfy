/** Values exchanged between the Phy and the devices: times, event kinds, requests, answers and
    the per-device session log. */
module Types {

  datatype Option<+T> = None | Some(value: T)

  const TIME_NEVER: nat := 0xFFFF_FFFF_FFFF_FFFF
  const UINT32_MAX: nat := 0xFFFF_FFFF
  const MAX_ADDRESSES: nat := 16

  /** What a 64-bit bs_time_t field of a request can hold. */
  type Time = t: nat | t <= TIME_NEVER

  type Uint32 = n: nat | n <= UINT32_MAX

  /** Preamble, header and truncation lengths, in microseconds: small enough for an int. */
  type Duration = n: nat | n < 0x8000_0000

  function Min(a: nat, b: nat): nat { if a < b then a else b }

  function Max(a: int, b: int): int { if a > b then a else b }

  /** Unsigned 64-bit t - 1. */
  function Pred(t: nat): nat { if t == 0 then TIME_NEVER else t - 1 }

  // ---------------------------------------------------------------- events

  /** The event kinds of f_index_t, from the lowest to the highest priority. */
  datatype Kind =
    | NoEvent | WaitDone | TxEnd | TxPacketEnd | CcaMeas | RssiMeas | RxFound | RxSync | RxHeader
    | RxPayload | TxAbortReeval | TxPacketStart | RxSearchReeval | RxSearchStart | TxStart
  {
    /** The numeric value of the enumerator. */
    function Index(): nat
    {
      match this
      case NoEvent => 0 case WaitDone => 1 case TxEnd => 2 case TxPacketEnd => 3 case CcaMeas => 4
      case RssiMeas => 5 case RxFound => 6 case RxSync => 7 case RxHeader => 8 case RxPayload => 9
      case TxAbortReeval => 10 case TxPacketStart => 11 case RxSearchReeval => 12
      case RxSearchStart => 13 case TxStart => 14
    }
  }

  /** The kinds of events of a transmission which is in the air. */
  predicate TxOnKind(k: Kind) { k in {TxAbortReeval, TxPacketStart, TxPacketEnd, TxEnd} }

  // ---------------------------------------------------------------- requests

  datatype Abort = Abort(abort: Time, recheck: Time)

  /** Radio parameters; `family` is the modulation masked with P2G4_MOD_SIMILAR_MASK. */
  datatype Radio = Radio(freq: int, modulation: nat, family: nat)

  datatype ModemParams = ModemParams(modulation: nat, freq: int, codingRate: nat)

  datatype TxReq = TxReq(
    startTx: Time, endTx: Time, startPacket: Time, endPacket: Time, ab: Abort,
    radio: Radio, power: real, address: nat, codingRate: nat, size: nat)

  datatype TxV1 = TxV1(
    start: Time, end: Time, ab: Abort, radio: Radio, power: real, address: nat, size: nat)

  datatype RxReq = RxReq(
    start: Time, scanDuration: Uint32, ab: Abort, radio: Radio, gain: real, codingRate: nat,
    preamble: Duration, header: Duration, truncation: Duration, syncThreshold: nat, headerThreshold: nat,
    errorRate: Uint32, prelocked: bool, respType: nat, addresses: seq<nat>)

  datatype RxV1 = RxV1(
    start: Time, scanDuration: Uint32, ab: Abort, radio: Radio, gain: real, preamble: Duration,
    header: Duration, syncThreshold: nat, headerThreshold: nat, bps: Uint32, address: nat)

  datatype CcaReq = CcaReq(
    start: Time, scanDuration: Uint32, period: Uint32, ab: Abort, radio: Radio, gain: real,
    rssiThreshold: int, modThreshold: int, stop: nat)

  datatype RssiReq = RssiReq(at: Time, radio: Radio, gain: real)

  /** What a device may send when it is asked for its next request. */
  datatype Request =
    | Disconnect
    | Terminate
    | Wait(end: Time)
    | Tx(txV1: TxV1)
    | TxV2(tx: TxReq)
    | Rssi(rssi: RssiReq)
    | Rx(rxV1: RxV1)
    | RxV2(rx: RxReq)
    | CcaScan(cca: CcaReq)
    | Unknown(header: nat)

  /** How a device ends an abort re-evaluation. */
  datatype AbortAnswer = NewAbort(ab: Abort) | Leave | StopAll | Garbage(header: nat)

  /** The messages of one abort re-evaluation: some immediate RSSI requests, then the answer. */
  datatype AbortReply = AbortReply(immRssi: seq<RssiReq>, answer: AbortAnswer)

  /** What a device may answer to an address-found message. */
  datatype ContReply = ContLeave | ContStopAll | Cont | ContV2(ab: Abort) | RxStop | ContUnknown(header: nat)

  /** Everything one event handler may read from its device and from the random generator. */
  datatype Env = Env(next: Request, reply: AbortReply, cont: ContReply, synched: bool, draw: nat)

  /** The version 1 transmission request, as a version 2 one. */
  function MapTxV1(t: TxV1): TxReq
  {
    TxReq(t.start, t.end, t.start, t.end, t.ab, t.radio, t.power, t.address, 0, t.size)
  }

  /** The version 1 reception request, as a version 2 one. */
  function MapRxV1(r: RxV1): RxReq
  {
    RxReq(r.start, r.scanDuration, r.ab, r.radio, r.gain, 0, r.preamble, r.header, 0,
          r.syncThreshold, r.headerThreshold, r.bps, false, 0, [r.address])
  }

  /** The transmission carries its packet over its whole duration. */
  predicate Aligned(t: TxReq)
  {
    t.startPacket <= t.startTx && t.endPacket >= t.endTx
  }

  predicate AlignedRequest(q: Request) { q.TxV2? ==> Aligned(q.tx) }

  // ---------------------------------------------------------------- receptions and CCA results

  datatype RxResult = NoSync | HeaderError | ContentError | RxOk

  /** One measurement of a CCA scan: when, its RSSI, and whether a compatible signal was on air. */
  datatype Sample = Sample(at: nat, rssi: int, compatible: bool)

  datatype CcaDone = CcaDone(rssiMax: int, modPower: int, over: bool, modFound: bool, nMeas: nat)

  // ---------------------------------------------------------------- the session log

  /** Messages of one device session, with two internal milestones of a reception (Locked and
      SyncLost). `errs` lists the bit errors drawn in each microsecond since the lock. */
  datatype Item =
    | Asked(t: nat, q: Request)
    | WaitReply(t: nat)
    | TxReply(t: nat)
    | RssiReply(t: nat)
    | CcaReply(t: nat, done: CcaDone, samples: seq<Sample>)
    | Locked(t: nat, tx: nat, sp: nat, ep: nat)
    | SyncLost(t: nat, gone: bool, errs: seq<nat>)
    | AddressFound(t: nat, errs: seq<nat>)
    | Continued(t: nat)
    | ContinuedV2(t: nat, ab: Abort)
    | Stopped(t: nat)
    | RxReply(t: nat, result: RxResult, errs: seq<nat>)
    | AbortAsked(t: nat)
    | ImmRssi(t: nat)
    | AbortSet(t: nat, ab: Abort)
    | Left(t: nat)
    | Ended(t: nat)

  datatype Log = Nil | Snoc(init: Log, last: Item)

  /** `k` continues `l` with entries whose times lie in from..to. */
  ghost predicate Continues(l: Log, k: Log, from: nat, to: nat)
  {
    l == k || (k.Snoc? && from <= k.last.t <= to && Continues(l, k.init, from, to))
  }
}
