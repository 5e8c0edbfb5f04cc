/** The list of current and future transmissions, one element per device. */
module TxList {
  import opened Types

  /** The TXS_* bits of one device. */
  datatype Txs = Txs(noise: bool, ongoing: bool, started: bool, ended: bool)
  {
    /** The bitmask is not TXS_OFF. */
    predicate On() { noise || ongoing || started || ended }
  }

  const TXS_OFF := Txs(false, false, false, false)
  const TXS_NOISE := Txs(true, false, false, false)

  const NO_TX := TxReq(0, 0, 0, 0, Abort(0, 0), Radio(0, 0, 0), 0.0, 0, 0, 0)

  /** State bits, parameters, and whether a packet buffer is held. */
  datatype El = El(used: Txs, tx: TxReq, packet: bool)

  const NO_EL := El(TXS_OFF, NO_TX, false)

  datatype TxL = TxL(ctr: nat, maxTx: int, els: seq<El>)
  {
    // The operations of the list, as functions of its value.

    function Register(d: nat, tx: TxReq, packet: bool): TxL
      requires d < |els|
    {
      this.(els := els[d := El(TXS_OFF, tx, packet)])
    }

    function StartTx(d: nat): TxL
      requires d < |els|
    {
      TxL(ctr + 1, Max(maxTx, d), els[d := els[d].(used := TXS_NOISE)])
    }

    function StartPacket(d: nat): TxL
      requires d < |els|
    {
      this.(els := els[d := els[d].(used := els[d].used.(ongoing := true, started := true))])
    }

    function EndPacket(d: nat): TxL
      requires d < |els|
    {
      this.(els := els[d := els[d].(used := els[d].used.(ongoing := false, ended := true))])
    }

    /** The downward search for the greatest transmitting device starts from the old one. */
    function Clear(d: nat): TxL
      requires d < |els| && -1 <= maxTx < |els|
    {
      var cleared := els[d := els[d].(used := TXS_OFF, packet := false)];
      TxL(ctr + 1, GreatestOn(cleared, maxTx + 1), cleared)
    }

    /** An abort re-evaluation replaces the abort times in place. */
    function SetAbort(d: nat, ab: Abort): TxL
      requires d < |els|
    {
      this.(els := els[d := els[d].(tx := els[d].tx.(ab := ab))])
    }
  }

  function Create(n: nat): TxL { TxL(0, -1, seq(n, i => NO_EL)) }

  /** What the receivers can depend on: the parameters, without the abort times, of every device
      which is transmitting. */
  function Active(els: seq<El>): (a: seq<Option<TxReq>>)
    ensures |a| == |els|
  {
    seq(|els|, i requires 0 <= i < |els| =>
      if els[i].used.On() then Some(els[i].tx.(ab := NO_TX.ab)) else None)
  }

  /** These are the devices with any state bit set, and all their parameters but the abort times. */
  lemma ActiveAre(els: seq<El>, i: nat)
    requires i < |els|
    ensures var u, a := els[i].used, Active(els)[i];
      && (a.Some? <==> u.noise || u.ongoing || u.started || u.ended)
      && (a.Some? ==> exists ab :: a.value == els[i].tx.(ab := ab))
  {
    if els[i].used.On() {
      assert Active(els)[i].value == els[i].tx.(ab := NO_TX.ab);
    }
  }

  /** `m` is the greatest transmitting device, or -1 if there is none. */
  ghost predicate IsGreatestOn(els: seq<El>, m: int)
  {
    && -1 <= m < |els|
    && (m >= 0 ==> els[m].used.On())
    && forall i :: m < i < |els| ==> !els[i].used.On()
  }

  /** Downward search from device k - 1. */
  function GreatestOn(els: seq<El>, k: nat): (m: int)
    requires k <= |els|
    ensures -1 <= m < k
    ensures m >= 0 ==> els[m].used.On()
    ensures forall i :: m < i < k ==> !els[i].used.On()
  {
    if k == 0 then -1 else if els[k - 1].used.On() then k - 1 else GreatestOn(els, k - 1)
  }

  /** The least device below `k` which satisfies `p`, or -1. */
  function FindLeast(els: seq<El>, k: nat, p: El -> bool): (r: int)
    requires k <= |els|
    ensures -1 <= r < k
    ensures r >= 0 ==> p(els[r]) && forall i :: 0 <= i < r ==> !p(els[i])
    ensures r < 0 ==> forall i :: 0 <= i < k ==> !p(els[i])
  {
    if k == 0 then -1
    else
      var r := FindLeast(els, k - 1, p);
      if r >= 0 then r else if p(els[k - 1]) then k - 1 else -1
  }

  // ---------------------------------------------------------------- properties

  /** Every operation keeps max_tx_nbr exact, whatever device it is applied to (a register only
      when that device is not transmitting). */
  lemma GreatestKept(l: TxL, d: nat, tx: TxReq, packet: bool, ab: Abort)
    requires d < |l.els| && IsGreatestOn(l.els, l.maxTx)
    ensures !l.els[d].used.On() ==> IsGreatestOn(l.Register(d, tx, packet).els, l.maxTx)
    ensures var s := l.StartTx(d); IsGreatestOn(s.els, s.maxTx)
    ensures l.els[d].used.On() ==> IsGreatestOn(l.StartPacket(d).els, l.maxTx)
    ensures l.els[d].used.On() ==> IsGreatestOn(l.EndPacket(d).els, l.maxTx)
    ensures IsGreatestOn(l.SetAbort(d, ab).els, l.maxTx)
    ensures var c := l.Clear(d); IsGreatestOn(c.els, c.maxTx)
  {
    var c := l.Clear(d);
    assert forall i :: l.maxTx < i < |c.els| ==> !c.els[i].used.On();
  }

  /** A search bounded by the greatest transmitting device misses nothing: it returns the same
      device as a search over all of them. */
  lemma BoundedSearch(els: seq<El>, m: int, k: nat, p: El -> bool)
    requires IsGreatestOn(els, m) && m < k <= |els|
    requires forall i :: 0 <= i < |els| && p(els[i]) ==> els[i].used.On()
    ensures FindLeast(els, m + 1, p) == FindLeast(els, k, p)
  {
  }

  /** As long as the counter stands still, so does everything a receiver can depend on; only a
      start or an end moves it, always upwards. */
  lemma CounterGuardsActive(l: TxL, d: nat, tx: TxReq, packet: bool, ab: Abort)
    requires d < |l.els| && -1 <= l.maxTx < |l.els|
    ensures !l.els[d].used.On() ==> Active(l.Register(d, tx, packet).els) == Active(l.els)
    ensures l.els[d].used.On() ==> Active(l.StartPacket(d).els) == Active(l.els)
    ensures l.els[d].used.On() ==> Active(l.EndPacket(d).els) == Active(l.els)
    ensures Active(l.SetAbort(d, ab).els) == Active(l.els)
    ensures l.StartTx(d).ctr > l.ctr && l.Clear(d).ctr > l.ctr
  {
    assert Active(l.SetAbort(d, ab).els) == Active(l.els);
    if l.els[d].used.On() {
      assert Active(l.StartPacket(d).els) == Active(l.els);
      assert Active(l.EndPacket(d).els) == Active(l.els);
    } else {
      assert Active(l.Register(d, tx, packet).els) == Active(l.els);
    }
  }

  // ---------------------------------------------------------------- the list in memory

  datatype TxEl = TxEl(tx: TxReq, packet: bool)

  class List {
    const used: array<Txs>
    const list: array<TxEl>
    var ctr: nat
    var maxTx: int

    ghost predicate Valid()
      reads this
    {
      used.Length == list.Length && -1 <= maxTx < used.Length
    }

    function Els(): (s: seq<El>)
      requires used.Length == list.Length
      reads used, list
    {
      seq(used.Length, i requires 0 <= i < used.Length && used.Length == list.Length reads used, list =>
        El(used[i], list[i].tx, list[i].packet))
    }

    function View(): (l: TxL)
      requires used.Length == list.Length
      reads this, used, list
    {
      TxL(ctr, maxTx, Els())
    }

    constructor (n: nat)
      ensures Valid() && fresh(used) && fresh(list) && used.Length == n
      ensures View() == Create(n)
    {
      used := new Txs[n](i => TXS_OFF);
      list := new TxEl[n](i => TxEl(NO_TX, false));
      ctr := 0;
      maxTx := -1;
      new;
      assert Els() == Create(n).els;
    }

    method Register(d: nat, tx: TxReq, packet: bool)
      requires Valid() && d < used.Length
      modifies used, list
      ensures Valid() && View() == old(View()).Register(d, tx, packet)
    {
      used[d] := TXS_OFF;
      list[d] := TxEl(tx, packet);
      assert Els() == old(Els())[d := El(TXS_OFF, tx, packet)];
    }

    method StartTx(d: nat)
      requires Valid() && d < used.Length
      modifies this, used
      ensures Valid() && View() == old(View()).StartTx(d)
    {
      used[d] := TXS_NOISE;
      ctr := ctr + 1;
      maxTx := Max(maxTx, d);
      assert Els() == old(Els())[d := old(Els())[d].(used := TXS_NOISE)];
    }

    method StartPacket(d: nat)
      requires Valid() && d < used.Length
      modifies used
      ensures Valid() && View() == old(View()).StartPacket(d)
    {
      used[d] := used[d].(ongoing := true, started := true);
      assert Els() == old(View()).StartPacket(d).els;
    }

    method EndPacket(d: nat)
      requires Valid() && d < used.Length
      modifies used
      ensures Valid() && View() == old(View()).EndPacket(d)
    {
      used[d] := used[d].(ended := true);
      used[d] := used[d].(ongoing := false);
      assert Els() == old(View()).EndPacket(d).els;
    }

    method SetAbort(d: nat, ab: Abort)
      requires Valid() && d < used.Length
      modifies list
      ensures Valid() && View() == old(View()).SetAbort(d, ab)
    {
      list[d] := list[d].(tx := list[d].tx.(ab := ab));
      assert Els() == old(View()).SetAbort(d, ab).els;
    }

    /** The transmission of `d` is over: the search for the new greatest transmitting device runs
        downwards from the old one. */
    method Clear(d: nat)
      requires Valid() && d < used.Length
      modifies this, used, list
      ensures Valid() && View() == old(View()).Clear(d)
    {
      used[d] := TXS_OFF;
      if list[d].packet {
        list[d] := list[d].(packet := false);
      }
      ctr := ctr + 1;
      ghost var els := old(Els())[d := old(Els())[d].(used := TXS_OFF, packet := false)];
      assert Els() == els;
      var i := maxTx;
      while i >= 0
        invariant -1 <= i <= maxTx == old(maxTx)
        invariant GreatestOn(els, maxTx + 1) == GreatestOn(els, i + 1)
      {
        if used[i].On() {
          assert els[i].used.On();
          maxTx := i;
          return;
        }
        assert !els[i].used.On();
        i := i - 1;
      }
      maxTx := -1;
    }
  }
}
