/** The whole Phy: all the device interfaces, the event loop, and its runs. */
module Phy {
  import opened Types
  import opened FuncQueue
  import opened TxList
  import opened ChannelModem
  import opened Device

  datatype State = State(now: nat, active: int, halted: bool, txl: TxL, devs: seq<Dev>)

  predicate Sized(s: State)
  {
    |s.devs| == |s.txl.els| > 0 && -1 <= s.txl.maxTx < |s.devs|
  }

  function Entries(s: State): (q: seq<Entry>)
    ensures |q| == |s.devs|
  {
    seq(|s.devs|, i requires 0 <= i < |s.devs| => s.devs[i].ev)
  }

  function Get(s: State, d: nat): (l: Loc)
    requires Sized(s) && d < |s.devs|
    ensures Fits(l, d)
  {
    Loc(s.devs[d], s.txl, s.active, s.halted)
  }

  function Put(s: State, d: nat, l: Loc): (r: State)
    requires Sized(s) && d < |s.devs| && Fits(l, d) && |l.txl.els| == |s.devs|
    ensures Sized(r) && |r.devs| == |s.devs|
  {
    State(s.now, l.active, l.halted, l.txl, s.devs[d := l.dev])
  }

  // ---------------------------------------------------------------- the events

  /** What the start of a packet does to one other device. */
  function Activated(now: nat, t: TxReq, tx: nat, dev: Dev): Dev
  {
    if dev.rx.searching && Match(now, t, dev.rx) then
      dev.(rx := dev.rx.(txNbr := tx, searching := false), ev := Entry(now, RxFound))
    else dev
  }

  /** find_and_activate_rx. */
  function ActivateAll(s: State, t: TxReq, tx: nat): (r: State)
    requires Sized(s)
    ensures Sized(r) && |r.devs| == |s.devs|
  {
    s.(devs := seq(|s.devs|, i requires 0 <= i < |s.devs| => Activated(s.now, t, tx, s.devs[i])))
  }

  /** f_tx_start. */
  function TxStartEvent(m: Config, s: State, d: nat): (r: State)
    requires Sized(s) && d < |s.devs|
    ensures Sized(r) && |r.devs| == |s.devs|
  {
    var t := s.txl.els[d].tx;
    var s1 := Put(s, d, TxStarted(s.now, d, Get(s, d)));
    var s2 := if s.now >= t.startPacket then ActivateAll(s1, t, d) else s1;
    Put(s2, d, TxSchedule(m, s.now, d, Get(s2, d)))
  }

  /** f_tx_packet_start. */
  function TxPacketStartEvent(m: Config, s: State, d: nat): (r: State)
    requires Sized(s) && d < |s.devs|
    ensures Sized(r) && |r.devs| == |s.devs|
  {
    var t := s.txl.els[d].tx;
    var s1 := ActivateAll(s.(txl := s.txl.StartPacket(d)), t, d);
    Put(s1, d, TxSchedule(m, s.now, d, Get(s1, d)))
  }

  /** The handlers which touch no other device. */
  function Handle(m: Config, now: nat, d: nat, l: Loc, e: Env): (r: Loc)
    requires Fits(l, d)
    ensures Fits(r, d) && SameSize(l, r) && Goes(now, l, r)
    ensures KeepsAligned(l, r, e.next)
    ensures r.dev.ev == l.dev.ev || Apart(now, r.dev.ev) || (TxOnKind(l.dev.ev.kind) && TxOnKind(r.dev.ev.kind))
  {
    match l.dev.ev.kind
    case WaitDone => WaitFinished(m.world, now, d, l, e)
    case TxEnd => TxEnded(m.world, now, d, l, e)
    case TxPacketEnd => TxPacketEnded(m, now, d, l)
    case CcaMeas => CcaMeasured(m.world, now, d, l, e)
    case RssiMeas => RssiMeasured(m.world, now, d, l, e)
    case RxFound => FoundTx(m.world, now, d, l, e)
    case RxSync => Synchronized(m.world, now, d, l, e)
    case RxHeader => HeaderReceived(m.world, now, d, l, e)
    case RxPayload => PayloadReceived(m.world, now, d, l, e)
    case TxAbortReeval => TxAbortReevaluated(m, now, d, l, e)
    case RxSearchReeval => SearchReevaluated(m.world, now, d, l, e)
    case RxSearchStart => SearchStarted(m.world, now, d, l, e)
    case _ => Fail(l)
  }

  /** fq_call_next: an event without a registered handler (NoEvent) is a crash. */
  function Dispatch(m: Config, s: State, d: nat, e: Env): (r: State)
    requires Sized(s) && d < |s.devs|
    ensures Sized(r) && |r.devs| == |s.devs|
  {
    match s.devs[d].ev.kind
    case TxStart => TxStartEvent(m, s, d)
    case TxPacketStart => TxPacketStartEvent(m, s, d)
    case _ => Put(s, d, Handle(m, s.now, d, Get(s, d), e))
  }

  /** fq_find_next and the new current time. */
  function Advance(s: State): (r: State)
    requires Sized(s)
    ensures Sized(r) && |r.devs| == |s.devs|
  {
    s.(now := s.devs[Next(Entries(s))].ev.time)
  }

  /** The condition of the main loop. */
  predicate Running(m: Config, s: State)
  {
    !s.halted && s.active > 0 && s.now < m.simLength
  }

  /** One iteration of the main loop. */
  function Step(m: Config, s: State, e: Env): (r: State)
    requires Sized(s)
    ensures Sized(r) && |r.devs| == |s.devs|
  {
    Advance(Dispatch(m, s, Next(Entries(s)), e))
  }

  // ---------------------------------------------------------------- start and runs

  function Initial(n: nat): State
  {
    State(0, n, false, Create(n), seq(n, i => NO_DEV))
  }

  /** The state after the first k devices have been asked for their first request. */
  function Booted(m: Model, qs: seq<Request>, k: nat): (s: State)
    requires 0 < |qs| && k <= |qs|
    ensures Sized(s) && |s.devs| == |qs|
  {
    if k == 0 then Initial(|qs|)
    else
      var s := Booted(m, qs, k - 1);
      if s.active > 0 && !s.halted then Put(s, k - 1, HandleNext(m, s.now, k - 1, Get(s, k - 1), qs[k - 1]))
      else s
  }

  /** The state at the head of the main loop, the first time. */
  function Start(m: Model, qs: seq<Request>): (s: State)
    requires 0 < |qs|
    ensures Sized(s) && |s.devs| == |qs|
  {
    Advance(Booted(m, qs, |qs|))
  }

  /** The main loop goes on from `s`, and one iteration leads to `r`. */
  ghost predicate LoopGoes(m: Config, s: State, e: Env, r: State)
  {
    Sized(s) && Running(m, s) && r == Step(m, s, e)
  }

  /** The states at the loop head, given the first requests and what each event reads. */
  ghost predicate IsRun(m: Config, qs: seq<Request>, es: seq<Env>, ss: seq<State>)
  {
    && 0 < |qs|
    && |ss| == |es| + 1
    && ss[0] == Start(m.world, qs)
    && forall k {:trigger es[k]} :: 0 <= k < |es| ==> LoopGoes(m, ss[k], es[k], ss[k + 1])
  }
}
