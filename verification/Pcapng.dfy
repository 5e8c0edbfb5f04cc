/** Writing merged traces as a pcapng file. */
module Pcapng {
  import opened Types
  import opened Merging

  /** The longest stretch of a packet which is written. */
  const SNAPLEN: nat := 512

  const TWO_32: nat := 0x1_0000_0000

  // ---------------------------------------------------------------- little-endian numbers

  function U16(n: nat): (b: seq<Byte>)
    requires n < 0x1_0000
    ensures |b| == 2
  {
    [n % 0x100, n / 0x100]
  }

  function U32(n: nat): (b: seq<Byte>)
    requires n < TWO_32
    ensures |b| == 4
  {
    [n % 0x100, n / 0x100 % 0x100, n / 0x100 / 0x100 % 0x100, n / 0x100 / 0x100 / 0x100]
  }

  function Number(b0: nat, b1: nat, b2: nat, b3: nat): nat
  {
    b0 + 0x100 * b1 + 0x1_0000 * b2 + 0x100_0000 * b3
  }

  lemma NumberOfBytes(n: nat)
    requires n < TWO_32
    ensures Number(n % 0x100, n / 0x100 % 0x100, n / 0x100 / 0x100 % 0x100, n / 0x100 / 0x100 / 0x100) == n
  {
  }

  /** The number at position `i`. */
  function Get32(b: seq<Byte>, i: nat): nat
    requires i + 4 <= |b|
  {
    Number(b[i], b[i + 1], b[i + 2], b[i + 3])
  }

  lemma Got32(a: seq<Byte>, n: nat, c: seq<Byte>)
    requires n < TWO_32
    ensures Get32(a + U32(n) + c, |a|) == n
  {
    hide Number;
    NumberOfBytes(n);
    var b := a + U32(n) + c;
    assert b[|a|] == U32(n)[0] && b[|a| + 1] == U32(n)[1] && b[|a| + 2] == U32(n)[2] && b[|a| + 3] == U32(n)[3];
  }

  function Get16(b: seq<Byte>, i: nat): nat
    requires i + 2 <= |b|
  {
    Number(b[i], b[i + 1], 0, 0)
  }

  function Zeroes(k: nat): (b: seq<Byte>)
    ensures |b| == k
  {
    seq(k, i => 0)
  }

  // ---------------------------------------------------------------- blocks

  /** A block: its type and what stands between its two length fields. */
  datatype Block = Block(kind: nat, body: seq<Byte>)

  predicate Fits(x: Block) { x.kind < TWO_32 && |x.body| % 4 == 0 && |x.body| + 12 < TWO_32 }

  function Framed(x: Block): (b: seq<Byte>)
    requires Fits(x)
    ensures |b| == |x.body| + 12
  {
    U32(x.kind) + U32(|x.body| + 12) + x.body + U32(|x.body| + 12)
  }

  function FramedAll(xs: seq<Block>): seq<Byte>
    requires forall x :: x in xs ==> Fits(x)
  {
    if xs == [] then [] else Framed(xs[0]) + FramedAll(xs[1..])
  }

  /** A reader of blocks, which trusts nothing but the lengths, and checks them. */
  function ReadBlocks(b: seq<Byte>): Option<seq<Block>>
    decreases |b|
  {
    if b == [] then Some([])
    else if |b| < 12 then None
    else
      var n := Get32(b, 4);
      if n < 12 || n % 4 != 0 || n > |b| || Get32(b, n - 4) != n then None
      else
        var rest := ReadBlocks(b[n..]);
        if rest == None then None else Some([Block(Get32(b, 0), b[8..n - 4])] + rest.value)
  }

  lemma ReadFramed(x: Block, rest: seq<Byte>)
    requires Fits(x)
    ensures ReadBlocks(Framed(x) + rest) ==
            (var r := ReadBlocks(rest); if r == None then None else Some([x] + r.value))
  {
    hide U32, Get32;
    var n := |x.body| + 12;
    var b := Framed(x) + rest;
    assert b == [] + U32(x.kind) + (U32(n) + x.body + U32(n) + rest);
    Got32([], x.kind, U32(n) + x.body + U32(n) + rest);
    assert b == U32(x.kind) + U32(n) + (x.body + U32(n) + rest);
    Got32(U32(x.kind), n, x.body + U32(n) + rest);
    assert b == (U32(x.kind) + U32(n) + x.body) + U32(n) + rest;
    Got32(U32(x.kind) + U32(n) + x.body, n, rest);
    assert b[8..n - 4] == x.body;
    assert b[n..] == rest;
  }

  /** Framed blocks are read back, one by one. */
  lemma {:induction false} ReadAll(xs: seq<Block>)
    requires forall x :: x in xs ==> Fits(x)
    ensures ReadBlocks(FramedAll(xs)) == Some(xs)
  {
    hide Framed, Fits;
    if xs != [] {
      ReadFramed(xs[0], FramedAll(xs[1..]));
      ReadAll(xs[1..]);
      assert [xs[0]] + xs[1..] == xs;
    }
  }

  // ---------------------------------------------------------------- packets

  datatype Link = Ble(channel: nat, address: nat) | Ieee154(sfd: nat)

  /** A packet of the file: its time, what precedes its payload, its length, and its payload as far
      as it was captured. */
  datatype Packet = Packet(ts: nat, link: Link, origLen: nat, payload: seq<Byte>)

  const BLE_HEADER: nat := 14
  const IEEE_HEADER: nat := 5

  predicate ValidLink(l: Link)
  {
    match l
    case Ble(channel, address) => channel < 0x100 && address < TWO_32
    case Ieee154(sfd) => sfd < 0x100
  }

  function LinkBytes(l: Link): (b: seq<Byte>)
    requires ValidLink(l)
    ensures |b| == if l.Ble? then BLE_HEADER else IEEE_HEADER
  {
    match l
    case Ble(channel, address) => [channel, 0, 0, 0] + U32(0) + U16(0) + U32(address)
    case Ieee154(sfd) => U32(0) + [sfd]
  }

  predicate ValidPacket(p: Packet)
  {
    && p.ts < TWO_32 * TWO_32 && p.origLen < TWO_32
    && ValidLink(p.link) && |p.payload| + |LinkBytes(p.link)| <= SNAPLEN
  }

  function Padding(n: nat): nat { (4 - n % 4) % 4 }

  function EpbHeader(p: Packet, included: nat): (b: seq<Byte>)
    requires p.ts < TWO_32 * TWO_32 && p.origLen < TWO_32 && included < TWO_32
    ensures |b| == 20
  {
    U32(if p.link.Ble? then 0 else 1) + U32(p.ts / TWO_32) + U32(p.ts % TWO_32) + U32(included) + U32(p.origLen)
  }

  /** The Enhanced Packet Block of a packet. */
  function EpbOf(p: Packet): (x: Block)
    requires ValidPacket(p)
    ensures Fits(x)
  {
    var data := LinkBytes(p.link) + p.payload;
    Block(6, EpbHeader(p, |data|) + data + Zeroes(Padding(|data|)))
  }

  /** What the interface of a packet says of it: the layout of the data, how much of a packet is
      captured at most, and the power of ten of the fraction of a second which times count. */
  datatype Face = Face(link: nat, snaplen: nat, resolution: nat)

  const LINKTYPE_BLUETOOTH_LE_LL_WITH_PHDR: nat := 256
  const LINKTYPE_IEEE802_15_4_NONASK_PHY: nat := 215

  /** A reader of packet data. */
  function ReadLink(link: nat, data: seq<Byte>): Option<(Link, seq<Byte>)>
  {
    if link == LINKTYPE_BLUETOOTH_LE_LL_WITH_PHDR && |data| >= 14 && data[1..10] == Zeroes(9) then
      Some((Ble(data[0], Get32(data, 10)), data[14..]))
    else if link == LINKTYPE_IEEE802_15_4_NONASK_PHY && |data| >= 5 && data[..4] == Zeroes(4) then
      Some((Ieee154(data[4]), data[5..]))
    else None
  }

  /** A reader of Enhanced Packet Blocks, given the interfaces, for times in microseconds. */
  function ReadEpb(x: Block, faces: seq<Face>): Option<Packet>
  {
    if x.kind != 6 || |x.body| < 20 then None
    else
      var i, n := Get32(x.body, 0), Get32(x.body, 12);
      if i >= |faces| || faces[i].resolution != 6 || n > faces[i].snaplen then None
      else if 20 + n + Padding(n) != |x.body| || x.body[20 + n..] != Zeroes(Padding(n)) then None
      else
        var link := ReadLink(faces[i].link, x.body[20..20 + n]);
        if link == None then None
        else Some(Packet(Get32(x.body, 4) * TWO_32 + Get32(x.body, 8), link.value.0, Get32(x.body, 16), link.value.1))
  }

  lemma ReadLinkBytes(l: Link, payload: seq<Byte>)
    requires ValidLink(l)
    ensures ReadLink(if l.Ble? then 256 else 215, LinkBytes(l) + payload) == Some((l, payload))
  {
    hide Get32;
    var data := LinkBytes(l) + payload;
    assert U32(0) == Zeroes(4) && U16(0) == Zeroes(2);
    if l.Ble? {
      var start: seq<Byte> := [l.channel, 0, 0, 0] + U32(0) + U16(0);
      assert data == start + U32(l.address) + payload;
      Got32(start, l.address, payload);
      assert data[1..10] == Zeroes(9);
    } else {
      assert data[..4] == U32(0);
    }
  }

  lemma ReadHeader(p: Packet, included: nat, rest: seq<Byte>)
    requires p.ts < TWO_32 * TWO_32 && p.origLen < TWO_32 && included < TWO_32
    ensures var b := EpbHeader(p, included) + rest;
      && Get32(b, 0) == (if p.link.Ble? then 0 else 1)
      && Get32(b, 4) * TWO_32 + Get32(b, 8) == p.ts
      && Get32(b, 12) == included && Get32(b, 16) == p.origLen
  {
    hide U32, Get32;
    var i := if p.link.Ble? then 0 else 1;
    var a, b, c, d, e := U32(i), U32(p.ts / TWO_32), U32(p.ts % TWO_32), U32(included), U32(p.origLen);
    var all := EpbHeader(p, included) + rest;
    assert all == [] + a + (b + c + d + e + rest);
    Got32([], i, b + c + d + e + rest);
    assert all == a + b + (c + d + e + rest);
    Got32(a, p.ts / TWO_32, c + d + e + rest);
    assert all == (a + b) + c + (d + e + rest);
    Got32(a + b, p.ts % TWO_32, d + e + rest);
    assert all == (a + b + c) + d + (e + rest);
    Got32(a + b + c, included, e + rest);
    assert all == (a + b + c + d) + e + rest;
    Got32(a + b + c + d, p.origLen, rest);
  }

  /** The interfaces of the file: Bluetooth Low Energy and IEEE 802.15.4, with microseconds. */
  const FACES: seq<Face> := [Face(256, 512, 6), Face(215, 512, 6)]

  /** A packet is read back as it was written. */
  lemma ReadPacket(p: Packet)
    requires ValidPacket(p)
    ensures ReadEpb(EpbOf(p), FACES) == Some(p)
  {
    hide Get32, EpbHeader, LinkBytes, ReadLink, U32;
    var data := LinkBytes(p.link) + p.payload;
    var n := |data|;
    var body := EpbOf(p).body;
    assert body == EpbHeader(p, n) + (data + Zeroes(Padding(n)));
    ReadHeader(p, n, data + Zeroes(Padding(n)));
    assert body[20..20 + n] == data;
    assert body[20 + n..] == Zeroes(Padding(n));
    ReadLinkBytes(p.link, p.payload);
  }

  // ---------------------------------------------------------------- from rows to packets

  /** What becomes of one row: nothing if it has no packet, a packet, or an exception, raised after
      some bytes of the block have been written. */
  datatype Outcome = Skipped | Written(p: Packet) | Raised(part: seq<Byte>)

  predicate InBand(freq: real) { 1.0 <= freq < 81.0 || 2401.0 <= freq < 2481.0 }

  function Channel(freq: real): nat
    requires InBand(freq)
  {
    if freq < 81.0 then ((freq - 1.0) / 2.0).Floor else ((freq - 2401.0) / 2.0).Floor
  }

  const IEEE_MODULATION: int := 256

  /** The first 28 bytes of a block. */
  function EpbStart(p: Packet, included: nat): (b: seq<Byte>)
    requires p.ts < TWO_32 * TWO_32 && p.origLen < TWO_32 && included <= SNAPLEN
    ensures |b| == 28
  {
    U32(6) + U32(included + Padding(included) + 32) + EpbHeader(p, included)
  }

  /** A block, in the pieces in which it is written. */
  lemma FramedPieces(p: Packet, q: Packet)
    requires ValidPacket(p) && q.ts == p.ts && q.origLen == p.origLen && q.link.Ble? == p.link.Ble?
    ensures var data := LinkBytes(p.link) + p.payload;
      Framed(EpbOf(p)) == EpbStart(q, |data|) + data + Zeroes(Padding(|data|)) + U32(|data| + Padding(|data|) + 32)
  {
    hide U32, LinkBytes, Zeroes;
    var data := LinkBytes(p.link) + p.payload;
    var n := |data|;
    var header, zeroes := EpbHeader(p, n), Zeroes(Padding(n));
    assert EpbHeader(q, n) == header;
    var len := U32(n + Padding(n) + 32);
    assert |header + data + zeroes| + 12 == n + Padding(n) + 32;
    assert U32(6) + len + (header + data + zeroes) + len == U32(6) + len + header + data + zeroes + len;
  }

  function OutcomeOf(r: Row, base: int): (o: Outcome)
    ensures o.Written? ==> ValidPacket(o.p)
  {
    if r.size == 0 then Skipped
    else if !InBand(r.freq) then Raised([])
    else
      var payload := if r.packet == None then [0] else r.packet.value;
      var ble := r.modulation != IEEE_MODULATION;
      var header := if ble then BLE_HEADER else IEEE_HEADER;
      var orig := |payload| + header;
      var included := Min(orig, SNAPLEN);
      var ts := base + r.start;
      if ts < 0 || ts >= TWO_32 * TWO_32 || orig >= TWO_32 then Raised([])
      else if r.address < 0 || r.address >= (if ble then TWO_32 else 0x100) then
        Raised(EpbStart(Packet(ts, if ble then Ble(0, 0) else Ieee154(0), orig, []), included))
      else
        Written(Packet(ts, if ble then Ble(Channel(r.freq), r.address) else Ieee154(r.address), orig,
                       payload[..included - header]))
  }

  /** The packet of a row; one which is broken is replaced by a zero. */
  function Payload(r: Row): seq<Byte> { if r.packet == None then [0] else r.packet.value }

  /** The lower edge of the band of a frequency, in MHz; channels are 2 MHz wide. */
  function BandEdge(freq: real): real { if freq < 81.0 then 1.0 else 2401.0 }

  /** A row is skipped if its packet is empty; and it raises an exception if its frequency is in no
      band, or its time, its length or its address does not fit its field. */
  lemma RowFails(r: Row, base: int)
    ensures OutcomeOf(r, base).Skipped? <==> r.size == 0
    ensures OutcomeOf(r, base).Raised? <==>
      && r.size != 0
      && (|| !(1.0 <= r.freq < 81.0 || 2401.0 <= r.freq < 2481.0)
          || !(0 <= base + r.start < 0x1_0000_0000_0000_0000)
          || !(|Payload(r)| + (if r.modulation == 256 then 5 else 14) < 0x1_0000_0000)
          || !(0 <= r.address < if r.modulation == 256 then 0x100 else 0x1_0000_0000))
  {
  }

  /** Otherwise its packet has its time, kind, address and channel, and as much of its payload as there
      is room for. */
  lemma RowIsWritten(r: Row, base: int)
    requires OutcomeOf(r, base).Written?
    ensures var p := OutcomeOf(r, base).p;
      && p.ts == base + r.start
      && (if r.modulation == 256 then p.link == Ieee154(r.address)
          else && p.link.Ble? && p.link.address == r.address
               && 2.0 * p.link.channel as real <= r.freq - BandEdge(r.freq) < 2.0 * p.link.channel as real + 2.0)
      && p.origLen == |Payload(r)| + (if r.modulation == 256 then 5 else 14)
      && p.payload <= Payload(r)
      && |p.payload| == Min(|Payload(r)|, if r.modulation == 256 then 507 else 498)
  {
  }

  /** An exception over the address of a row comes after the first 28 bytes of its block, any other
      before. */
  lemma RowIsCut(r: Row, base: int)
    requires OutcomeOf(r, base).Raised?
    ensures var fits := OutcomeOf(r.(address := 0), base);
      OutcomeOf(r, base).part == if fits.Written? then Framed(EpbOf(fits.p))[..28] else []
  {
    hide U32, LinkBytes, Channel;
    var fits := OutcomeOf(r.(address := 0), base);
    if fits.Written? {
      var p := fits.p;
      var data := LinkBytes(p.link) + p.payload;
      assert |data| == Min(p.origLen, SNAPLEN);
      FramedPieces(p, Packet(p.ts, if p.link.Ble? then Ble(0, 0) else Ieee154(0), p.origLen, []));
    }
  }

  /** The bytes written for the merged rows, and whether an exception has cut them short. */
  function Output(ms: seq<Tagged>, base: int): (seq<Byte>, bool)
  {
    if ms == [] then ([], false)
    else
      var rest := Output(ms[1..], base);
      match OutcomeOf(ms[0].row, base)
      case Skipped => rest
      case Raised(part) => (part, true)
      case Written(p) => (Framed(EpbOf(p)) + rest.0, rest.1)
  }

  /** The packets of the merged rows. */
  function Packets(ms: seq<Tagged>, base: int): (ps: seq<Packet>)
    ensures forall p :: p in ps ==> ValidPacket(p)
  {
    if ms == [] then []
    else
      var o := OutcomeOf(ms[0].row, base);
      (if o.Written? then [o.p] else []) + Packets(ms[1..], base)
  }

  /** One packet more at the head. */
  lemma PacketsMore(ms: seq<Tagged>, base: int)
    requires ms != []
    ensures var o, rest := OutcomeOf(ms[0].row, base), Packets(ms[1..], base);
      Packets(ms, base) == if o.Written? then [o.p] + rest else rest
  {
    hide OutcomeOf;
    assert [] + Packets(ms[1..], base) == Packets(ms[1..], base);
  }

  lemma BlocksMore(p: Packet, ps: seq<Packet>)
    requires ValidPacket(p) && forall q :: q in ps ==> ValidPacket(q)
    ensures FramedAll(BlocksOf([p] + ps)) == Framed(EpbOf(p)) + FramedAll(BlocksOf(ps))
  {
    hide Framed, EpbOf, ValidPacket, Fits;
    assert ([p] + ps)[1..] == ps;
    assert BlocksOf([p] + ps) == [EpbOf(p)] + BlocksOf(ps);
    assert ([EpbOf(p)] + BlocksOf(ps))[1..] == BlocksOf(ps);
  }

  lemma CutAtOnce(ms: seq<Tagged>, base: int)
    requires ms != [] && OutcomeOf(ms[0].row, base).Raised?
    ensures Output(ms, base) == (FramedAll(BlocksOf(Packets(ms[..0], base))) + OutcomeOf(ms[0].row, base).part, true)
  {
    hide OutcomeOf;
    assert Packets(ms[..0], base) == [] && BlocksOf([]) == [] && FramedAll([]) == [];
    assert [] + OutcomeOf(ms[0].row, base).part == OutcomeOf(ms[0].row, base).part;
  }

  lemma CutLater(ms: seq<Tagged>, base: int, head: seq<Byte>, part: seq<Byte>)
    requires ms != [] && Output(ms[1..], base) == (head + part, true) && !OutcomeOf(ms[0].row, base).Raised?
    ensures var o := OutcomeOf(ms[0].row, base);
      Output(ms, base) == ((if o.Written? then Framed(EpbOf(o.p)) + head else head) + part, true)
  {
    hide OutcomeOf, Framed, EpbOf;
    var o := OutcomeOf(ms[0].row, base);
    if o.Written? {
      assert Framed(EpbOf(o.p)) + (head + part) == Framed(EpbOf(o.p)) + head + part;
    }
  }

  lemma {:induction false} OutputIsBlocks(ms: seq<Tagged>, base: int)
    requires !Output(ms, base).1
    ensures Output(ms, base).0 == FramedAll(BlocksOf(Packets(ms, base)))
  {
    hide Framed, EpbOf, OutcomeOf, BlocksOf, FramedAll;
    if ms == [] {
      NoBlocks();
    } else {
      var o := OutcomeOf(ms[0].row, base);
      OutputIsBlocks(ms[1..], base);
      PacketsMore(ms, base);
      if o.Written? {
        BlocksMore(o.p, Packets(ms[1..], base));
      }
    }
  }

  lemma NoBlocks()
    ensures BlocksOf([]) == [] && FramedAll([]) == []
  {
  }

  /** The output stops in the row which raises the first exception, with all blocks before it. */
  lemma {:induction false} OutputIsCut(ms: seq<Tagged>, base: int, k: nat)
    requires k < |ms| && OutcomeOf(ms[k].row, base).Raised?
    requires forall i :: 0 <= i < k ==> !OutcomeOf(ms[i].row, base).Raised?
    ensures Output(ms, base) ==
            (FramedAll(BlocksOf(Packets(ms[..k], base))) + OutcomeOf(ms[k].row, base).part, true)
    decreases |ms|
  {
    hide Framed, EpbOf, OutcomeOf, Output, Packets, BlocksOf, FramedAll, ValidPacket, Fits;
    if k == 0 {
      CutAtOnce(ms, base);
    } else {
      var rest, o := ms[1..], OutcomeOf(ms[0].row, base);
      assert rest[k - 1] == ms[k] && forall i :: 0 <= i < k - 1 ==> rest[i] == ms[i + 1];
      OutputIsCut(rest, base, k - 1);
      assert rest[..k - 1] == ms[..k][1..] && ms[..k][0] == ms[0];
      var ps := Packets(rest[..k - 1], base);
      CutLater(ms, base, FramedAll(BlocksOf(ps)), OutcomeOf(ms[k].row, base).part);
      PacketsMore(ms[..k], base);
      if o.Written? {
        BlocksMore(o.p, ps);
      }
    }
  }

  /** The number of packets among the first k rows. */
  function Tally(ms: seq<Tagged>, base: int, k: nat): nat
    requires k <= |ms|
  {
    if k == 0 then 0 else Tally(ms, base, k - 1) + if OutcomeOf(ms[k - 1].row, base).Written? then 1 else 0
  }

  lemma {:induction false} TallyRest(ms: seq<Tagged>, base: int, k: nat)
    requires 0 < k <= |ms|
    ensures Tally(ms, base, k) == (if OutcomeOf(ms[0].row, base).Written? then 1 else 0) + Tally(ms[1..], base, k - 1)
  {
    hide OutcomeOf;
    if k > 1 {
      TallyRest(ms, base, k - 1);
      assert ms[1..][k - 2] == ms[k - 1];
    }
  }

  /** The packets are those of all rows which have one, in their order. */
  lemma {:induction false} PacketsAre(ms: seq<Tagged>, base: int, k: nat)
    requires k <= |ms|
    ensures |Packets(ms, base)| == Tally(ms, base, |ms|) >= Tally(ms, base, k)
    ensures k < |ms| && OutcomeOf(ms[k].row, base).Written? ==>
      && Tally(ms, base, k) < |Packets(ms, base)|
      && Packets(ms, base)[Tally(ms, base, k)] == OutcomeOf(ms[k].row, base).p
    decreases |ms|
  {
    hide OutcomeOf, Packets, Tally, ValidPacket;
    if ms == [] {
      NoPackets(base);
    } else {
      PacketsMore(ms, base);
      TallyRest(ms, base, |ms|);
      if k == 0 {
        NoTally(ms, base);
        PacketsAre(ms[1..], base, 0);
      } else {
        TallyRest(ms, base, k);
        PacketsAre(ms[1..], base, k - 1);
        assert k < |ms| ==> ms[1..][k - 1] == ms[k];
      }
    }
  }

  lemma NoPackets(base: int)
    ensures Packets([], base) == [] && Tally([], base, 0) == 0
  {
  }

  lemma NoTally(ms: seq<Tagged>, base: int)
    ensures Tally(ms, base, 0) == 0
  {
  }

  function BlocksOf(ps: seq<Packet>): (xs: seq<Block>)
    requires forall p :: p in ps ==> ValidPacket(p)
    ensures |xs| == |ps| && forall x :: x in xs ==> Fits(x)
  {
    if ps == [] then [] else [EpbOf(ps[0])] + BlocksOf(ps[1..])
  }

  /** Something is written for every row up to the first one which raises an exception. */
  lemma {:induction false} RaisedIff(ms: seq<Tagged>, base: int)
    ensures Output(ms, base).1 <==> exists k :: 0 <= k < |ms| && OutcomeOf(ms[k].row, base).Raised?
  {
    hide OutcomeOf, Framed, EpbOf;
    if ms != [] {
      RaisedIff(ms[1..], base);
      if exists k :: 0 <= k < |ms[1..]| && OutcomeOf(ms[1..][k].row, base).Raised? {
        var k :| 0 <= k < |ms[1..]| && OutcomeOf(ms[1..][k].row, base).Raised?;
        assert OutcomeOf(ms[k + 1].row, base).Raised?;
      }
      if exists k :: 0 < k < |ms| && OutcomeOf(ms[k].row, base).Raised? {
        var k :| 0 < k < |ms| && OutcomeOf(ms[k].row, base).Raised?;
        assert OutcomeOf(ms[1..][k - 1].row, base).Raised?;
      }
    }
  }

  // ---------------------------------------------------------------- the file

  /** The Section Header Block. */
  function SectionHeader(): (x: Block)
    ensures Fits(x)
  {
    Block(0x0a0d_0d0a, U32(0x1a2b_3c4d) + U16(1) + U16(0) + seq(8, i => 0xff))
  }

  /** The Interface Description Block of a link type, with microsecond resolution. */
  function Interface(link: nat): (x: Block)
    requires link < 0x1_0000
    ensures Fits(x)
  {
    Block(1, U16(link) + U16(0) + U32(SNAPLEN) + U16(9) + U16(1) + U32(6) + U16(0) + U16(0))
  }

  function Prologue(): (xs: seq<Block>)
    ensures |xs| == 3 && forall x :: x in xs ==> Fits(x)
  {
    [SectionHeader(), Interface(256), Interface(215)]
  }

  /** A reader of Section Header Blocks: little-endian, version 1.0, of unspecified length. */
  predicate ReadSection(x: Block)
  {
    && x.kind == 0x0a0d_0d0a && |x.body| == 16 && Get32(x.body, 0) == 0x1a2b_3c4d
    && Get16(x.body, 4) == 1 && Get16(x.body, 6) == 0
    && forall i :: 8 <= i < 16 ==> x.body[i] == 0xff
  }

  /** A reader of the options of an interface: the one of the time resolution is number 9. */
  function ReadResolution(b: seq<Byte>): Option<nat>
    decreases |b|
  {
    if b == [] then Some(6)
    else if |b| < 4 then None
    else
      var code, n := Get16(b, 0), Get16(b, 2);
      if code == 0 then Some(6)
      else if 4 + n + Padding(n) > |b| then None
      else if code != 9 then ReadResolution(b[4 + n + Padding(n)..])
      else if n != 1 then None
      else Some(b[4])
  }

  /** A reader of Interface Description Blocks. */
  function ReadFace(x: Block): Option<Face>
  {
    if x.kind != 1 || |x.body| < 8 then None
    else
      var resolution := ReadResolution(x.body[8..]);
      if resolution == None then None
      else Some(Face(Get16(x.body, 0), Get32(x.body, 4), resolution.value))
  }

  /** A reader of interfaces and packets in any order. */
  function ReadSectionBody(xs: seq<Block>, faces: seq<Face>): Option<seq<Packet>>
    decreases |xs|
  {
    if xs == [] then Some([])
    else if xs[0].kind == 1 then
      var face := ReadFace(xs[0]);
      if face == None then None else ReadSectionBody(xs[1..], faces + [face.value])
    else
      var p, rest := ReadEpb(xs[0], faces), ReadSectionBody(xs[1..], faces);
      if p == None || rest == None then None else Some([p.value] + rest.value)
  }

  /** A reader of whole files, which knows the format but not this program. */
  function ReadFile(b: seq<Byte>): Option<seq<Packet>>
  {
    var xs := ReadBlocks(b);
    if xs == None || xs.value == [] || !ReadSection(xs.value[0]) then None
    else ReadSectionBody(xs.value[1..], [])
  }

  lemma {:induction false} ReadAllPackets(ps: seq<Packet>)
    requires forall p :: p in ps ==> ValidPacket(p)
    ensures ReadSectionBody(BlocksOf(ps), FACES) == Some(ps)
  {
    hide EpbOf, ReadEpb, ReadFace, ValidPacket, Fits;
    if ps != [] {
      ReadPacket(ps[0]);
      PacketKind(ps[0]);
      ReadAllPackets(ps[1..]);
      assert BlocksOf(ps)[1..] == BlocksOf(ps[1..]);
      assert [ps[0]] + ps[1..] == ps;
    }
  }

  lemma PacketKind(p: Packet)
    requires ValidPacket(p)
    ensures EpbOf(p).kind == 6
  {
  }

  lemma ReadHeaderBlock()
    ensures ReadSection(SectionHeader())
  {
    var rest: seq<Byte> := seq(8, i => 0xff);
    var b := SectionHeader().body;
    assert b == [] + U32(0x1a2b_3c4d) + (U16(1) + U16(0) + rest);
    Got32([], 0x1a2b_3c4d, U16(1) + U16(0) + rest);
    assert b[4..] == U16(1) + U16(0) + rest;
    assert b[4] == b[4..][0] && b[5] == b[4..][1] && b[6] == b[4..][2] && b[7] == b[4..][3];
    forall i | 8 <= i < 16
      ensures b[i] == 0xff
    {
      assert b[i] == b[4..][i - 4];
    }
  }

  lemma ReadInterface(link: nat)
    requires link < 0x1_0000
    ensures ReadFace(Interface(link)) == Some(Face(link, 512, 6))
  {
    hide U32, Get32;
    var b := Interface(link).body;
    var options := U16(9) + U16(1) + U32(6) + U16(0) + U16(0);
    assert b == (U16(link) + U16(0)) + U32(512) + options;
    Got32(U16(link) + U16(0), 512, options);
    assert b[0] == U16(link)[0] && b[1] == U16(link)[1];
    assert b[8..] == options;
    assert options[0] == 9 && options[1] == 0 && options[2] == 1 && options[3] == 0;
    SixIs();
    assert options[4] == U32(6)[0];
  }

  lemma SixIs()
    ensures U32(6)[0] == 6
  {
  }

  lemma {:induction false} FramedConcat(xs: seq<Block>, ys: seq<Block>)
    requires (forall x :: x in xs ==> Fits(x)) && (forall y :: y in ys ==> Fits(y))
    ensures FramedAll(xs + ys) == FramedAll(xs) + FramedAll(ys)
  {
    hide Framed, Fits;
    if xs == [] {
      assert xs + ys == ys;
    } else {
      assert (xs + ys)[1..] == xs[1..] + ys;
      FramedConcat(xs[1..], ys);
    }
  }

  lemma ReadPrologue(xs: seq<Block>)
    ensures ReadSection((Prologue() + xs)[0])
    ensures ReadSectionBody((Prologue() + xs)[1..], []) == ReadSectionBody(xs, FACES)
  {
    hide SectionHeader, Interface, ReadFace, ReadSection, ReadEpb;
    ReadHeaderBlock();
    ReadInterface(256);
    ReadInterface(215);
    InterfaceKind(256);
    InterfaceKind(215);
    var ys := (Prologue() + xs)[1..];
    assert ys == [Interface(256)] + ([Interface(215)] + xs);
    assert ys[1..] == [Interface(215)] + xs && ys[1..][1..] == xs;
    assert ReadSectionBody(ys, []) == ReadSectionBody(ys[1..], [] + [FACES[0]]);
    assert ReadSectionBody(ys[1..], [FACES[0]]) == ReadSectionBody(xs, [FACES[0]] + [FACES[1]]);
    assert [] + [FACES[0]] == [FACES[0]] && [FACES[0]] + [FACES[1]] == FACES;
  }

  lemma InterfaceKind(link: nat)
    requires link < 0x1_0000
    ensures Interface(link).kind == 1
  {
  }

  /** The whole file reads back as the packets of the merged rows. */
  lemma ReadsBack(ms: seq<Tagged>, base: int)
    requires !Output(ms, base).1
    ensures ReadFile(FramedAll(Prologue()) + Output(ms, base).0) == Some(Packets(ms, base))
  {
    hide FramedAll, Output, ReadBlocks, SectionHeader, Interface, Fits, ReadSection, ReadSectionBody;
    var ps := Packets(ms, base);
    var xs := Prologue() + BlocksOf(ps);
    OutputIsBlocks(ms, base);
    FramedConcat(Prologue(), BlocksOf(ps));
    ReadAll(xs);
    ReadPrologue(BlocksOf(ps));
    ReadAllPackets(ps);
  }

  // ---------------------------------------------------------------- the program

  /** The rows still to come: those which have been read ahead, and those in the files. */
  function Pending(rows: seq<Option<Row>>, files: seq<Lines>): (fs: seq<seq<Row>>)
    requires |rows| == |files|
    ensures |fs| == |rows|
  {
    seq(|rows|, i requires 0 <= i < |rows| =>
      if i < |files| && rows[i].Some? then [rows[i].value] + Rows(files[i]) else [])
  }

  function AllRows(inputs: seq<Lines>): (fs: seq<seq<Row>>)
    ensures |fs| == |inputs|
  {
    seq(|inputs|, i requires 0 <= i < |inputs| => Rows(inputs[i]))
  }

  /** The first of the earliest rows read ahead, or -1 if there is none. */
  ghost predicate IsEarliest(rows: seq<Option<Row>>, n: nat, k: int)
    requires n <= |rows|
  {
    if k == -1 then forall j :: 0 <= j < n ==> rows[j] == None
    else
      && 0 <= k < n && rows[k].Some?
      && forall j :: 0 <= j < n && rows[j].Some? ==>
           rows[k].value.start <= rows[j].value.start && (j < k ==> rows[k].value.start < rows[j].value.start)
  }

  lemma EarliestIsMin(rows: seq<Option<Row>>, files: seq<Lines>, k: int)
    requires |rows| == |files| && IsEarliest(rows, |rows|, k)
    ensures k == MinFile(Pending(rows, files))
  {
    hide Rows;
    var fs := Pending(rows, files);
    assert forall j :: 0 <= j < |rows| ==> (fs[j] == [] <==> rows[j] == None);
    assert forall j :: 0 <= j < |rows| && rows[j].Some? ==> fs[j][0] == rows[j].value;
    if k >= 0 {
      MinIsUnique(fs, k);
    }
  }

  /** The index of the earliest row read ahead, or -1. */
  method EarliestRow(rows: array<Option<Row>>, ghost files: seq<Lines>) returns (minIdx: int)
    requires rows.Length == |files|
    ensures -1 <= minIdx < rows.Length && minIdx == MinFile(Pending(rows[..], files))
  {
    var minTs: Option<int> := None;
    minIdx := -1;
    for i := 0 to rows.Length
      invariant IsEarliest(rows[..], i, minIdx)
      invariant minTs == (if minIdx == -1 then None else Some(rows[minIdx].value.start))
    {
      if rows[i].Some? {
        var ts := rows[i].value.start;
        if minTs == None || ts < minTs.value {
          minTs := Some(ts);
          minIdx := i;
        }
      }
    }
    EarliestIsMin(rows[..], files, minIdx);
  }

  /** next(file, None). */
  method NextRow(files: array<Lines>, i: nat) returns (row: Option<Row>)
    requires i < files.Length
    modifies files
    ensures var f := old(files[i]);
      && row == (if f == [] then None else f[0])
      && files[..] == old(files[..])[i := if f == [] then f else f[1..]]
  {
    if files[i] == [] {
      return None;
    }
    row := files[i][0];
    files[i] := files[i][1..];
  }

  method WriteEpbStart(ble: bool, ts: nat, included: nat, orig: nat) returns (out: seq<Byte>)
    requires ts / TWO_32 < TWO_32 && orig < TWO_32 && included <= SNAPLEN
    ensures out == EpbStart(Packet(ts, if ble then Ble(0, 0) else Ieee154(0), orig, []), included)
  {
    var padding := (4 - included % 4) % 4;
    var blockLen := 28 + included + padding + 4;
    out := U32(6) + U32(blockLen) + U32(if ble then 0 else 1) + U32(ts / TWO_32) + U32(ts % TWO_32)
           + U32(included) + U32(orig);
    assert out == U32(6) + U32(blockLen) + (U32(if ble then 0 else 1) + U32(ts / TWO_32) + U32(ts % TWO_32)
                                            + U32(included) + U32(orig));
  }

  method WriteData(link: Link, payload: seq<Byte>, included: nat) returns (out: seq<Byte>)
    requires ValidLink(link) && (if link.Ble? then 14 else 5) <= included <= |payload| + if link.Ble? then 14 else 5
    ensures out == LinkBytes(link) + payload[..included - |LinkBytes(link)|]
  {
    if link.Ble? {
      out := [link.channel, 0, 0, 0] + U32(0) + U16(0) + U32(link.address);
      out := out + payload[..included - 14];
    } else {
      out := U32(0) + [link.sfd];
      out := out + payload[..included - 5];
    }
  }

  /** Writing one row: a block, piece by piece, or nothing, or an exception on the way. */
  method WriteRow(row: Row, base: int) returns (out: seq<Byte>, raised: bool)
    ensures match OutcomeOf(row, base)
            case Skipped => out == [] && !raised
            case Raised(part) => out == part && raised
            case Written(p) => out == Framed(EpbOf(p)) && !raised
  {
    hide U32, EpbStart, EpbOf, Framed, LinkBytes;
    out, raised := [], false;
    if row.size == 0 {
      return;
    }
    var ble := row.modulation != IEEE_MODULATION;
    var channel;
    if row.freq >= 1.0 && row.freq < 81.0 {
      channel := ((row.freq - 1.0) / 2.0).Floor;
    } else if row.freq >= 2401.0 && row.freq < 2481.0 {
      channel := ((row.freq - 2401.0) / 2.0).Floor;
    } else {
      return [], true;
    }
    var payload: seq<Byte> := [0];
    if row.packet.Some? {
      payload := row.packet.value;
    }
    var orig := |payload| + if ble then 14 else 5;
    var included := Min(orig, SNAPLEN);
    var padding := (4 - included % 4) % 4;
    var ts := base + row.start;
    if ts < 0 || ts / TWO_32 >= TWO_32 || orig >= TWO_32 {
      return [], true;
    }
    out := WriteEpbStart(ble, ts, included, orig);
    if row.address < 0 || row.address >= (if ble then TWO_32 else 0x100) {
      return out, true;
    }
    var link := if ble then Ble(channel, row.address) else Ieee154(row.address);
    var data := WriteData(link, payload, included);
    FramedPieces(Packet(ts, link, orig, payload[..included - if ble then 14 else 5]),
                 Packet(ts, if ble then Ble(0, 0) else Ieee154(0), orig, []));
    out := out + data + Zeroes(padding) + U32(28 + included + padding + 4);
  }

  /** The rows read ahead when the first row of every file has been. */
  lemma FirstRows(inputs: seq<Lines>, rows: seq<Option<Row>>, files: seq<Lines>)
    requires |inputs| == |rows| == |files|
    requires forall i :: 0 <= i < |inputs| ==>
      && rows[i] == (if inputs[i] == [] then None else inputs[i][0])
      && files[i] == (if inputs[i] == [] then [] else inputs[i][1..])
    ensures Pending(rows, files) == AllRows(inputs)
  {
    forall i | 0 <= i < |inputs|
      ensures Pending(rows, files)[i] == Rows(inputs[i])
    {
    }
  }

  /** The first row of every file. */
  method ReadAhead(ghost inputs: seq<Lines>, files: array<Lines>) returns (rows: array<Option<Row>>)
    requires files[..] == inputs
    modifies files
    ensures fresh(rows) && rows.Length == files.Length && Pending(rows[..], files[..]) == AllRows(inputs)
  {
    var n := files.Length;
    rows := new Option<Row>[n](i => None);
    for i := 0 to n
      invariant forall j :: i <= j < n ==> files[j] == inputs[j]
      invariant forall j :: 0 <= j < i ==>
        && rows[j] == (if inputs[j] == [] then None else inputs[j][0])
        && files[j] == (if inputs[j] == [] then [] else inputs[j][1..])
    {
      ghost var before := files[..];
      rows[i] := NextRow(files, i);
      assert forall j :: 0 <= j < n && j != i ==> files[..][j] == before[j];
    }
    FirstRows(inputs, rows[..], files[..]);
  }

  /** Replacing the earliest row by the next one of its file. */
  lemma NextRows(rows: seq<Option<Row>>, files: seq<Lines>, rows': seq<Option<Row>>, files': seq<Lines>)
    requires |rows| == |files|
    requires var i := MinFile(Pending(rows, files));
      && i >= 0
      && rows' == rows[i := if files[i] == [] then None else files[i][0]]
      && files' == files[i := if files[i] == [] then [] else files[i][1..]]
    ensures rows[MinFile(Pending(rows, files))].Some?
    ensures Pending(rows', files') == Taken(Pending(rows, files))
    ensures Merge(Pending(rows, files)) ==
            [Tagged(MinFile(Pending(rows, files)), rows[MinFile(Pending(rows, files))].value)]
            + Merge(Pending(rows', files'))
  {
    var i := MinFile(Pending(rows, files));
    assert Pending(rows, files)[i] != [];
    forall j | 0 <= j < |rows|
      ensures Pending(rows', files')[j] == Taken(Pending(rows, files))[j]
    {
    }
  }

  /** One more row of the output. */
  lemma OutputStep(x: Tagged, ms: seq<Tagged>, base: int)
    ensures var o, rest := OutcomeOf(x.row, base), Output(ms, base);
      Output([x] + ms, base) ==
      match o {
        case Skipped => rest
        case Raised(part) => (part, true)
        case Written(p) => (Framed(EpbOf(p)) + rest.0, rest.1)
      }
  {
    assert ([x] + ms)[1..] == ms;
  }

  /** Taking the earliest of the rows read ahead. */
  method TakeEarliest(rows: array<Option<Row>>, files: array<Lines>) returns (row: Option<Row>, ghost file: nat)
    requires rows.Length == files.Length
    modifies rows, files
    ensures var ms, rest := old(Merge(Pending(rows[..], files[..]))), Merge(Pending(rows[..], files[..]));
      if row == None then ms == []
      else ms == [Tagged(file, row.value)] + rest
           && Total(Pending(rows[..], files[..])) < old(Total(Pending(rows[..], files[..])))
  {
    hide Merge, Total, Pending, Rows;
    var i := EarliestRow(rows, files[..]);
    file := 0;
    if i == -1 {
      NothingLeft(Pending(rows[..], files[..]));
      return None, 0;
    }
    ghost var rows0, files0 := rows[..], files[..];
    row := rows[i];
    file := i;
    rows[i] := NextRow(files, i);
    NextRows(rows0, files0, rows[..], files[..]);
  }

  lemma NothingLeft(fs: seq<seq<Row>>)
    requires MinFile(fs) == -1
    ensures Merge(fs) == []
  {
  }

  /** The program: the prologue, and then the merged rows. If no exception is raised, the file reads
      back as the packets of the merged rows. */
  method Write(inputs: seq<Lines>, base: int) returns (out: seq<Byte>, raised: bool)
    ensures var (bytes, cut) := Output(Merge(AllRows(inputs)), base);
      out == FramedAll(Prologue()) + bytes && raised == cut
    ensures !raised ==> ReadFile(out) == Some(Packets(Merge(AllRows(inputs)), base))
  {
    hide OutcomeOf, Framed, EpbOf, ReadFile, Prologue, FramedAll, Merge, Pending, Total, AllRows;
    ghost var all := Merge(AllRows(inputs));
    out := FramedAll(Prologue());
    ghost var prologue := out;
    raised := false;
    var n := |inputs|;
    var files := new Lines[n](i requires 0 <= i < n => inputs[i]);
    assert files[..] == inputs;
    var rows := ReadAhead(inputs, files);
    ghost var rest := all;
    while true
      invariant rest == Merge(Pending(rows[..], files[..]))
      invariant prologue + Output(all, base).0 == out + Output(rest, base).0
      invariant !raised && Output(all, base).1 == Output(rest, base).1
      decreases Total(Pending(rows[..], files[..]))
    {
      var row;
      ghost var file;
      row, file := TakeEarliest(rows, files);
      if row == None {
        break;
      }
      rest := Merge(Pending(rows[..], files[..]));
      OutputStep(Tagged(file, row.value), rest, base);
      var bytes;
      bytes, raised := WriteRow(row.value, base);
      out := out + bytes;
      if raised {
        return;
      }
    }
    ReadsBack(all, base);
  }
}
