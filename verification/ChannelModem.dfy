/** The wrapper around the channel and modem models, and its cache of bit error rates. */
module ChannelModem {
  import opened Types

  /** The parameters of the active transmissions, by device. */
  type Air = seq<Option<TxReq>>

  /** The loaded channel and modem models, as functions of what they are given. Transmitter -1
      stands for "no desired transmitter". */
  datatype Model = Model(
    att: (Air, int, nat, nat, nat) -> real,
    isi: (Air, int, nat, nat) -> real,
    analogSnr: (nat, Radio, seq<Option<real>>, Air, int) -> real,
    analogPower: (nat, Radio, seq<Option<real>>, Air, int) -> real,
    combine: (real, real) -> real,
    ber: (nat, ModemParams, real) -> nat,
    sync: (nat, ModemParams, real, TxReq) -> nat,
    rssi: (nat, Radio, real) -> int,
    dBm: int -> int,
    rssiMin: int)

  /** The state of one receiver, but for its power array, which is rewritten for every active
      transmitter before each use. `basis` is a history of the last calculation of the rate. */
  datatype Rec = Rec(
    lastTxCtr: nat, lastRxCtr: nat, rxCtr: nat,
    snrIsi: real, snrAnalog: real, rssiPower: real, snrTotal: real, ber: nat, syncProb: nat,
    basis: Option<Basis>)

  /** The reception and the transmitter which a rate was calculated for. */
  datatype Basis = Basis(r: RxReq, tx: int)

  const NO_REC := Rec(0, 0, 0, 0.0, 0.0, 0.0, 0.0, 0, 0, None)

  function ModemOf(r: RxReq): ModemParams { ModemParams(r.radio.modulation, r.radio.freq, r.codingRate) }

  /** The power received from each active transmitter. */
  function Powers(m: Model, air: Air, gain: real, tx: int, rx: nat, now: nat): (p: seq<Option<real>>)
    ensures |p| == |air|
  {
    seq(|air|, i requires 0 <= i < |air| =>
      if air[i].Some? then Some(air[i].value.power - m.att(air, tx, rx, i, now) + gain) else None)
  }

  /** What a receiver gets from every active device: the power transmitted plus the gain, less the
      attenuation; and nothing from the others. */
  ghost predicate ArePowers(m: Model, air: Air, gain: real, tx: int, rx: nat, now: nat, p: seq<Option<real>>)
  {
    && |p| == |air|
    && forall i :: 0 <= i < |air| ==>
         && (p[i].Some? <==> air[i].Some?)
         && (air[i].Some? ==> p[i].value + m.att(air, tx, rx, i, now) == air[i].value.power + gain)
  }

  lemma PowersReceived(m: Model, air: Air, gain: real, tx: int, rx: nat, now: nat, p: seq<Option<real>>)
    ensures p == Powers(m, air, gain, tx, rx, now) <==> ArePowers(m, air, gain, tx, rx, now, p)
  {
    if ArePowers(m, air, gain, tx, rx, now, p) {
      assert forall i :: 0 <= i < |air| ==> p[i] == Powers(m, air, gain, tx, rx, now)[i];
    }
  }

  /** Less attenuation, or more gain, never means less power. */
  lemma PowersAreMonotone(m: Model, n: Model, air: Air, gain: real, more: real, tx: int, rx: nat, now: nat, i: nat)
    requires i < |air| && air[i].Some? && gain <= more
    requires n.att(air, tx, rx, i, now) <= m.att(air, tx, rx, i, now)
    ensures Powers(m, air, gain, tx, rx, now)[i].value <= Powers(n, air, more, tx, rx, now)[i].value
  {
  }

  /** All the analog figures, computed anew. */
  function Recalculated(m: Model, rec: Rec, air: Air, r: RxReq, tx: int, rx: nat, now: nat): Rec
  {
    var p := Powers(m, air, r.gain, tx, rx, now);
    var isi := m.isi(air, tx, rx, now);
    var snr := m.analogSnr(rx, r.radio, p, air, tx);
    var total := m.combine(snr, isi);
    rec.(snrIsi := isi, snrAnalog := snr, rssiPower := m.analogPower(rx, r.radio, p, air, tx),
         snrTotal := total, ber := m.ber(rx, ModemOf(r), total), basis := Some(Basis(r, tx)))
  }

  /** The bit error rate the models give for the air as it is now. */
  function FullBer(m: Model, air: Air, r: RxReq, tx: int, rx: nat, now: nat): nat
  {
    Recalculated(m, NO_REC, air, r, tx, rx, now).ber
  }

  /** chm_bit_errors: recalculates only if the counters moved. The rate it then draws with is the
      `ber` of the result. */
  function AfterBitErrors(m: Model, rec: Rec, ctr: nat, air: Air, r: RxReq, tx: int, rx: nat, now: nat): Rec
  {
    if rec.rxCtr != rec.lastRxCtr || rec.lastTxCtr != ctr then
      Recalculated(m, rec.(lastTxCtr := ctr, lastRxCtr := rec.rxCtr), air, r, tx, rx, now)
    else rec
  }

  /** chm_is_packet_synched: always recalculates, and opens a new reception in the cache. */
  function AfterSyncCheck(m: Model, rec: Rec, ctr: nat, air: Air, r: RxReq, t: TxReq, tx: int, rx: nat, now: nat): Rec
  {
    var anew := Recalculated(m, rec.(lastTxCtr := ctr, rxCtr := rec.rxCtr + 1, lastRxCtr := rec.rxCtr + 1),
                               air, r, tx, rx, now);
    anew.(syncProb := m.sync(rx, ModemOf(r), anew.snrTotal, t))
  }

  /** chm_RSSImeas: overwrites the analog figures, not the rates. */
  function AfterRssi(m: Model, rec: Rec, air: Air, gain: real, radio: Radio, rx: nat, now: nat): (Rec, int)
  {
    var p := Powers(m, air, gain, -1, rx, now);
    var power := m.analogPower(rx, radio, p, air, -1);
    (rec.(snrIsi := m.isi(air, -1, rx, now), snrAnalog := m.analogSnr(rx, radio, p, air, -1), rssiPower := power),
     m.rssi(rx, radio, power))
  }

  // ---------------------------------------------------------------- what the models are asked

  /** The signal to noise ratio of a desired transmitter: the analog one, with the interference, both
      for the powers received with the gain and the radio of the reception. */
  function SnrOf(m: Model, air: Air, p: seq<Option<real>>, radio: Radio, tx: int, rx: nat, now: nat): real
  {
    m.combine(m.analogSnr(rx, radio, p, air, tx), m.isi(air, tx, rx, now))
  }

  /** The rate of a reception is that of its modulation, frequency and coding rate at this ratio. */
  lemma RateOfModels(m: Model, air: Air, r: RxReq, tx: int, rx: nat, now: nat, p: seq<Option<real>>)
    requires ArePowers(m, air, r.gain, tx, rx, now, p)
    ensures FullBer(m, air, r, tx, rx, now) ==
            m.ber(rx, ModemParams(r.radio.modulation, r.radio.freq, r.codingRate),
                  SnrOf(m, air, p, r.radio, tx, rx, now))
  {
    PowersReceived(m, air, r.gain, tx, rx, now, p);
  }

  /** And so is the probability of its synchronization. */
  lemma SyncOfModels(m: Model, rec: Rec, ctr: nat, air: Air, r: RxReq, t: TxReq, tx: int, rx: nat, now: nat,
                     p: seq<Option<real>>)
    requires ArePowers(m, air, r.gain, tx, rx, now, p)
    ensures AfterSyncCheck(m, rec, ctr, air, r, t, tx, rx, now).syncProb ==
            m.sync(rx, ModemParams(r.radio.modulation, r.radio.freq, r.codingRate),
                   SnrOf(m, air, p, r.radio, tx, rx, now), t)
  {
    PowersReceived(m, air, r.gain, tx, rx, now, p);
  }

  /** An RSSI measurement sees all powers received with its own gain and radio, and no desired
      transmitter. */
  lemma RssiOfModels(m: Model, rec: Rec, air: Air, gain: real, radio: Radio, rx: nat, now: nat, p: seq<Option<real>>)
    requires ArePowers(m, air, gain, -1, rx, now, p)
    ensures AfterRssi(m, rec, air, gain, radio, rx, now).1 == m.rssi(rx, radio, m.analogPower(rx, radio, p, air, -1))
  {
    PowersReceived(m, air, gain, -1, rx, now, p);
  }

  // ---------------------------------------------------------------- the cache

  /** Fading does not change by itself, only with the set of transmissions. */
  ghost predicate TimeInvariant(m: Model)
  {
    && (forall air: Air, tx: int, rx: nat, i: nat, t: nat, u: nat ::
          m.att(air, tx, rx, i, t) == m.att(air, tx, rx, i, u))
    && (forall air: Air, tx: int, rx: nat, t: nat, u: nat :: m.isi(air, tx, rx, t) == m.isi(air, tx, rx, u))
  }

  lemma FullBerTimeless(m: Model, air: Air, r: RxReq, tx: int, rx: nat, t: nat, u: nat)
    requires TimeInvariant(m)
    ensures FullBer(m, air, r, tx, rx, t) == FullBer(m, air, r, tx, rx, u)
  {
    var p, q := Powers(m, air, r.gain, tx, rx, t), Powers(m, air, r.gain, tx, rx, u);
    forall i | 0 <= i < |air|
      ensures p[i] == q[i]
    {
      if air[i].Some? {
        assert m.att(air, tx, rx, i, t) == m.att(air, tx, rx, i, u);
      }
    }
    assert p == q;
    assert m.isi(air, tx, rx, t) == m.isi(air, tx, rx, u);
  }

  /** The rate of one reception is that of another. */
  predicate SameRate(b: Option<Basis>, r: RxReq, tx: int)
  {
    && b.Some? && b.value.tx == tx && b.value.r.gain == r.gain && b.value.r.radio == r.radio
    && b.value.r.codingRate == r.codingRate
  }

  lemma SameRateSameBer(m: Model, air: Air, b: Option<Basis>, r: RxReq, tx: int, rx: nat, now: nat)
    requires SameRate(b, r, tx)
    ensures FullBer(m, air, b.value.r, b.value.tx, rx, now) == FullBer(m, air, r, tx, rx, now)
  {
  }

  /** The cache holds what it claims to: if no transmission started or ended since its last use, its
      rate is the one of its basis in the present air; and it has been used if it has a basis. */
  ghost predicate Sound(m: Model, rec: Rec, ctr: nat, air: Air, rx: nat)
  {
    && rec.rxCtr == rec.lastRxCtr
    && rec.lastTxCtr <= ctr
    && (rec.basis == None ==> rec.lastTxCtr == 0)
    && (rec.lastTxCtr == ctr && rec.basis.Some? ==>
          rec.ber == FullBer(m, air, rec.basis.value.r, rec.basis.value.tx, rx, 0))
  }

  /** And it is usable for this reception: if it is not about to be recalculated, it was calculated
      with the same parameters. */
  ghost predicate Coherent(m: Model, rec: Rec, ctr: nat, air: Air, r: RxReq, tx: int, rx: nat)
  {
    Sound(m, rec, ctr, air, rx) && (rec.lastTxCtr == ctr ==> SameRate(rec.basis, r, tx))
  }

  /** On a coherent cache the rate which is used, whether by the skipping or the recalculating
      path, is the one a full recalculation gives now; and the cache stays coherent. */
  lemma SkipIsExact(m: Model, rec: Rec, ctr: nat, air: Air, r: RxReq, tx: int, rx: nat, now: nat)
    requires TimeInvariant(m) && Coherent(m, rec, ctr, air, r, tx, rx)
    ensures AfterBitErrors(m, rec, ctr, air, r, tx, rx, now).ber == FullBer(m, air, r, tx, rx, now)
    ensures Coherent(m, AfterBitErrors(m, rec, ctr, air, r, tx, rx, now), ctr, air, r, tx, rx)
  {
    FullBerTimeless(m, air, r, tx, rx, now, 0);
    if rec.lastTxCtr == ctr {
      SameRateSameBer(m, air, rec.basis, r, tx, rx, 0);
    }
  }

  /** On any sound cache, the rate which is used is the one of this reception if a transmission has
      started or ended since the last use, and otherwise that of the basis, in the present air. */
  lemma RateUsed(m: Model, rec: Rec, ctr: nat, air: Air, r: RxReq, tx: int, rx: nat, now: nat)
    requires TimeInvariant(m) && Sound(m, rec, ctr, air, rx) && (rec.lastTxCtr != ctr || rec.basis.Some?)
    ensures AfterBitErrors(m, rec, ctr, air, r, tx, rx, now).ber ==
            if rec.lastTxCtr != ctr then FullBer(m, air, r, tx, rx, now)
            else FullBer(m, air, rec.basis.value.r, rec.basis.value.tx, rx, now)
  {
    if rec.lastTxCtr == ctr {
      FullBerTimeless(m, air, rec.basis.value.r, rec.basis.value.tx, rx, now, 0);
    }
  }

  /** The abort times of a reception do not matter. */
  lemma RateWithoutAbort(m: Model, air: Air, r: RxReq, ab: Abort, tx: int, rx: nat, now: nat)
    ensures FullBer(m, air, r.(ab := ab), tx, rx, now) == FullBer(m, air, r, tx, rx, now)
  {
  }

  /** Drawing errors keeps any cache sound, even one which is used for another reception. */
  lemma DrawKeepsSound(m: Model, rec: Rec, ctr: nat, air: Air, r: RxReq, tx: int, rx: nat, now: nat)
    requires TimeInvariant(m) && Sound(m, rec, ctr, air, rx)
    ensures Sound(m, AfterBitErrors(m, rec, ctr, air, r, tx, rx, now), ctr, air, rx)
  {
    FullBerTimeless(m, air, r, tx, rx, now, 0);
  }

  /** A synchronization check makes the cache coherent, whatever it held. */
  lemma SynchedIsCoherent(m: Model, rec: Rec, ctr: nat, air: Air, r: RxReq, t: TxReq, tx: int, rx: nat, now: nat)
    requires TimeInvariant(m)
    ensures Coherent(m, AfterSyncCheck(m, rec, ctr, air, r, t, tx, rx, now), ctr, air, r, tx, rx)
  {
    FullBerTimeless(m, air, r, tx, rx, now, 0);
  }

  /** RSSI measurements, with any parameters, never damage the cache. */
  lemma RssiKeepsCoherent(m: Model, rec: Rec, ctr: nat, air: Air, r: RxReq, tx: int, rx: nat,
                          gain: real, radio: Radio, now: nat)
    requires Sound(m, rec, ctr, air, rx)
    ensures Sound(m, AfterRssi(m, rec, air, gain, radio, rx, now).0, ctr, air, rx)
    ensures Coherent(m, rec, ctr, air, r, tx, rx) ==>
      Coherent(m, AfterRssi(m, rec, air, gain, radio, rx, now).0, ctr, air, r, tx, rx)
  {
  }

  // ---------------------------------------------------------------- the receivers in memory

  /** What the modem looks at in a power array: the entries of the active transmitters. The others
      hold whatever was there before. */
  function Seen(air: Air, pow: seq<real>): (p: seq<Option<real>>)
    requires |pow| == |air|
    ensures |p| == |air|
  {
    seq(|air|, i requires 0 <= i < |air| => if air[i].Some? && i < |pow| then Some(pow[i]) else None)
  }

  class Receivers {
    const m: Model
    const rec: array<Rec>
    const pow: array<seq<real>>

    ghost predicate Valid()
      reads pow
    {
      rec.Length == pow.Length && forall i :: 0 <= i < pow.Length ==> |pow[i]| == pow.Length
    }

    constructor (m: Model, n: nat)
      ensures Valid() && this.m == m && fresh(rec) && fresh(pow) && rec[..] == seq(n, i => NO_REC)
    {
      this.m := m;
      rec := new Rec[n](i => NO_REC);
      pow := new seq<real>[n](i => seq(n, j => 0.0));
    }

    /** The loop over all transmitters, which overwrites the powers of the active ones. */
    method CalculateRxPower(air: Air, gain: real, tx: int, rx: nat, now: nat)
      requires Valid() && rx < pow.Length == |air|
      modifies pow
      ensures Valid() && pow[..] == old(pow[..])[rx := pow[rx]]
      ensures forall i :: 0 <= i < |air| && air[i] == None ==> pow[rx][i] == old(pow[rx][i])
      ensures forall i :: 0 <= i < |air| && air[i].Some? ==>
        pow[rx][i] + m.att(air, tx, rx, i, now) == air[i].value.power + gain
      ensures Seen(air, pow[rx]) == Powers(m, air, gain, tx, rx, now)
    {
      for i := 0 to |air|
        invariant Valid() && pow[..] == old(pow[..])[rx := pow[rx]]
        invariant forall j :: 0 <= j < |air| && (air[j] == None || i <= j) ==> pow[rx][j] == old(pow[rx][j])
        invariant forall j :: 0 <= j < i && air[j].Some? ==> Some(pow[rx][j]) == Powers(m, air, gain, tx, rx, now)[j]
      {
        if air[i].Some? {
          pow[rx] := pow[rx][i := air[i].value.power - m.att(air, tx, rx, i, now) + gain];
        }
      }
    }

    method Recalculate(air: Air, r: RxReq, tx: int, rx: nat, now: nat)
      requires Valid() && rx < pow.Length == |air|
      modifies rec, pow
      ensures Valid() && rec[..] == old(rec[..])[rx := Recalculated(m, old(rec[rx]), air, r, tx, rx, now)]
    {
      CalculateRxPower(air, r.gain, tx, rx, now);
      var p := Seen(air, pow[rx]);
      rec[rx] := rec[rx].(snrIsi := m.isi(air, tx, rx, now));
      rec[rx] := rec[rx].(snrAnalog := m.analogSnr(rx, r.radio, p, air, tx),
                          rssiPower := m.analogPower(rx, r.radio, p, air, tx));
      rec[rx] := rec[rx].(snrTotal := m.combine(rec[rx].snrAnalog, rec[rx].snrIsi));
      rec[rx] := rec[rx].(ber := m.ber(rx, ModemOf(r), rec[rx].snrTotal), basis := Some(Basis(r, tx)));
    }

    method BitErrors(ctr: nat, air: Air, r: RxReq, tx: int, rx: nat, now: nat) returns (ber: nat)
      requires Valid() && rx < pow.Length == |air|
      modifies rec, pow
      ensures Valid() && rec[..] == old(rec[..])[rx := AfterBitErrors(m, old(rec[rx]), ctr, air, r, tx, rx, now)]
      ensures ber == rec[rx].ber
    {
      if rec[rx].rxCtr != rec[rx].lastRxCtr || rec[rx].lastTxCtr != ctr {
        rec[rx] := rec[rx].(lastTxCtr := ctr, lastRxCtr := rec[rx].rxCtr);
        Recalculate(air, r, tx, rx, now);
      }
      ber := rec[rx].ber;
    }

    method IsPacketSynched(ctr: nat, air: Air, r: RxReq, t: TxReq, tx: int, rx: nat, now: nat) returns (prob: nat)
      requires Valid() && rx < pow.Length == |air|
      modifies rec, pow
      ensures Valid() && rec[..] == old(rec[..])[rx := AfterSyncCheck(m, old(rec[rx]), ctr, air, r, t, tx, rx, now)]
      ensures prob == rec[rx].syncProb
    {
      rec[rx] := rec[rx].(lastTxCtr := ctr, rxCtr := rec[rx].rxCtr + 1, lastRxCtr := rec[rx].rxCtr + 1);
      Recalculate(air, r, tx, rx, now);
      rec[rx] := rec[rx].(syncProb := m.sync(rx, ModemOf(r), rec[rx].snrTotal, t));
      prob := rec[rx].syncProb;
    }

    method MeasureRssi(air: Air, gain: real, radio: Radio, rx: nat, now: nat) returns (rssi: int)
      requires Valid() && rx < pow.Length == |air|
      modifies rec, pow
      ensures Valid() && rec[..] == old(rec[..])[rx := AfterRssi(m, old(rec[rx]), air, gain, radio, rx, now).0]
      ensures rssi == AfterRssi(m, old(rec[rx]), air, gain, radio, rx, now).1
    {
      CalculateRxPower(air, gain, -1, rx, now);
      var p := Seen(air, pow[rx]);
      rec[rx] := rec[rx].(snrIsi := m.isi(air, -1, rx, now));
      rec[rx] := rec[rx].(snrAnalog := m.analogSnr(rx, radio, p, air, -1),
                          rssiPower := m.analogPower(rx, radio, p, air, -1));
      rssi := m.rssi(rx, radio, rec[rx].rssiPower);
    }
  }
}
