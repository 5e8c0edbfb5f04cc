/** The simulator as the program keeps it: arrays which the event handlers update in place. Every
    method is proved against the function of the same handler in Device and Phy. */
module Machine {
  import opened Types
  import opened FuncQueue
  import opened TxList
  import opened ErrorCalc
  import opened ChannelModem
  import opened Requests
  import opened Device
  import opened Phy
  import opened Invariant
  import opened Steps
  import opened Runs
  import opened Progress
  import opened Schedule

  /** Everything but what the handler of device `d` may touch. */
  datatype Rest = Rest(now: nat, devs: seq<Dev>)

  function Around(s: State, d: nat): Rest
    requires d < |s.devs|
  {
    Rest(s.now, s.devs[d := NO_DEV])
  }

  lemma PutInto(s: State, r: State, d: nat)
    requires Sized(s) && Sized(r) && d < |s.devs| == |r.devs| && Around(s, d) == Around(r, d)
    ensures r == Put(s, d, Get(r, d))
  {
    assert r.devs == s.devs[d := NO_DEV][d := r.devs[d]] == s.devs[d := r.devs[d]] by {
      assert r.devs == r.devs[d := NO_DEV][d := r.devs[d]];
    }
  }

  /** Once the simulation is over, nobody else is asked for a first request. */
  lemma {:induction false} BootedOver(m: Model, qs: seq<Request>, k: nat, n: nat)
    requires 0 < |qs| && k <= n <= |qs|
    requires k == n || Booted(m, qs, k).active <= 0 || Booted(m, qs, k).halted
    ensures Booted(m, qs, n) == Booted(m, qs, k)
  {
    hide HandleNext, Put, Get, Initial;
    if k < n {
      BootedOver(m, qs, k, n - 1);
    }
  }

  /** A run of devices which answer event number k at time t with o(k, t). */
  ghost predicate AnsweredRun(m: Config, qs: seq<Request>, o: (nat, nat) -> Env, es: seq<Env>, ss: seq<State>)
  {
    && IsRun(m, qs, es, ss)
    && forall k :: 0 <= k < |es| ==> es[k] == o(k, ss[k].now)
  }

  /** Devices which make only legal requests, and let time move. */
  ghost predicate Answers(m: Config, o: (nat, nat) -> Env)
  {
    forall k: nat, t: nat {:trigger o(k, t)} :: Legal(m, o(k, t).next) && Moving(t, o(k, t))
  }

  lemma RunBegins(m: Config, qs: seq<Request>, o: (nat, nat) -> Env)
    requires 0 < |qs|
    ensures AnsweredRun(m, qs, o, [], [Start(m.world, qs)])
  {
  }

  /** One more event of a run. */
  lemma RunGoesOn(m: Config, qs: seq<Request>, o: (nat, nat) -> Env, es: seq<Env>, ss: seq<State>, e: Env, r: State)
    requires AnsweredRun(m, qs, o, es, ss) && e == o(|es|, ss[|es|].now)
    requires Sized(ss[|es|]) && Running(m, ss[|es|]) && r == Step(m, ss[|es|], e)
    ensures AnsweredRun(m, qs, o, es + [e], ss + [r])
  {
    hide Step, Start;
    assert LoopGoes(m, ss[|es|], e, r);
    hide LoopGoes;
    Extended(m, qs, es, ss, e, r);
  }

  lemma RunGoesDown(m: Config, qs: seq<Request>, o: (nat, nat) -> Env, es: seq<Env>, ss: seq<State>, e: Env, r: State)
    requires AnsweredRun(m, qs, o, es, ss) && Answers(m, o) && e == o(|es|, ss[|es|].now)
    requires forall q :: q in qs ==> Legal(m, q)
    requires Sized(ss[|es|]) && Running(m, ss[|es|]) && r == Step(m, ss[|es|], e)
    ensures !Running(m, r) || Below(m, r, ss[|es|])
  {
    assert |ss| == |es| + 1;
    hide Step, Inv, Below, Falls, IsRun, Legal;
    var s := ss[|es|];
    assert LegalRun(m, qs, es, ss);
    LegalIsStraight(m, qs, es, ss);
    RunInv(m, qs, es, ss, |es|);
    LegalNeverFalls(m, qs, es, ss, |es|);
    assert LoopGoes(m, s, e, r);
    LoopBelow(m, s, e, r);
  }

  class Simulation {
    const m: Config
    const n: nat
    const queue: Queue
    const txl: List
    const receivers: Receivers
    const rx: array<RxStatus>
    const cca: array<CcaStatus>
    const rssi: array<RssiReq>
    var now: nat
    var active: int
    var halted: bool
    ghost var log: seq<Log>

    ghost function Repr(): set<object>
    {
      {this, queue, queue.time, queue.kind, txl, txl.used, txl.list, receivers.rec, receivers.pow, rx, cca, rssi}
    }

    /** The program follows the Tx schedule as written. */
    ghost predicate Valid()
      reads Repr()
    {
      && n > 0 && !m.documented && receivers.m == m.world
      && queue.Valid() && queue.time.Length == n
      && txl.Valid() && txl.used.Length == n
      && receivers.Valid() && receivers.rec.Length == rx.Length == cca.Length == rssi.Length == |log| == n
    }

    ghost function DevOf(d: nat): Dev
      requires Valid() && d < n
      reads Repr()
    {
      Dev(Entry(queue.time[d], queue.kind[d]), rx[d], cca[d], rssi[d], receivers.rec[d], log[d])
    }

    ghost function View(): (s: State)
      requires Valid()
      reads Repr()
      ensures Sized(s) && |s.devs| == n && s.now == now && s.active == active && s.halted == halted
    {
      State(now, active, halted, txl.View(), seq(n, i requires 0 <= i < n && Valid() reads Repr() => DevOf(i)))
    }

    ghost function LocOf(d: nat): (l: Loc)
      requires Valid() && d < n
      reads Repr()
      ensures Fits(l, d)
    {
      Loc(DevOf(d), txl.View(), active, halted)
    }

    ghost function Others(d: nat): (r: Rest)
      requires Valid() && d < n
      reads Repr()
      ensures r.now == now
    {
      Around(View(), d)
    }

    constructor (m: Config, n: nat)
      requires n > 0 && !m.documented
      ensures Valid() && this.m == m && fresh(Repr())
      ensures View() == Initial(n)
    {
      this.m := m;
      this.n := n;
      queue := new Queue(n);
      txl := new List(n);
      receivers := new Receivers(m.world, n);
      rx := new RxStatus[n](i => NO_RX);
      cca := new CcaStatus[n](i => NO_CCA);
      rssi := new RssiReq[n](i => NO_DEV.rssi);
      now := 0;
      active := n;
      halted := false;
      log := seq(n, i => Nil);
      new;
      assert Valid() && fresh(Repr());
      hide *;
      NewView();
    }

    lemma NewView()
      requires Valid() && txl.View() == Create(n) && queue.Entries() == seq(n, i => NO_ENTRY)
      requires receivers.rec[..] == seq(n, i => NO_REC) && log == seq(n, i => Nil)
      requires forall i :: 0 <= i < n ==> rx[i] == NO_RX && cca[i] == NO_CCA && rssi[i] == NO_DEV.rssi
      requires now == 0 && active == n && !halted
      ensures View() == Initial(n)
    {
      forall i | 0 <= i < n
        ensures DevOf(i) == NO_DEV
      {
        assert queue.Entries()[i] == NO_ENTRY;
        assert receivers.rec[..][i] == NO_REC;
      }
      assert View().devs == Initial(n).devs;
    }

    // -------------------------------------------------------------- one field at a time

    method AddEvent(t: nat, k: Kind, d: nat)
      requires Valid() && d < n
      modifies queue.time, queue.kind
      ensures Valid() && LocOf(d) == Add(old(LocOf(d)), t, k) && Others(d) == old(Others(d))
    {
      ghost var q := queue.Entries();
      queue.Add(t, k, d);
      forall i | 0 <= i < n && i != d
        ensures DevOf(i) == old(DevOf(i))
      {
        assert queue.Entries()[i] == q[i];
      }
      assert queue.Entries()[d] == Entry(t, k);
      assert Others(d).devs == old(Others(d)).devs;
    }

    method RemoveEvent(d: nat)
      requires Valid() && d < n
      modifies queue.time, queue.kind
      ensures Valid() && LocOf(d) == Remove(old(LocOf(d))) && Others(d) == old(Others(d))
    {
      ghost var q := queue.Entries();
      queue.Remove(d);
      forall i | 0 <= i < n && i != d
        ensures DevOf(i) == old(DevOf(i))
      {
        assert queue.Entries()[i] == q[i];
      }
      assert queue.Entries()[d] == NO_ENTRY;
      assert Others(d).devs == old(Others(d)).devs;
    }

    method PutRx(d: nat, status: RxStatus)
      requires Valid() && d < n
      modifies rx
      ensures Valid() && LocOf(d) == SetRx(old(LocOf(d)), status) && Others(d) == old(Others(d))
      ensures rx[d] == status
    {
      rx[d] := status;
      assert Others(d).devs == old(Others(d)).devs;
    }

    method PutCca(d: nat, status: CcaStatus)
      requires Valid() && d < n
      modifies cca
      ensures Valid() && LocOf(d) == SetCca(old(LocOf(d)), status) && Others(d) == old(Others(d))
    {
      cca[d] := status;
      assert Others(d).devs == old(Others(d)).devs;
    }

    method PutRssi(d: nat, r: RssiReq)
      requires Valid() && d < n
      modifies rssi
      ensures Valid() && LocOf(d) == old(LocOf(d)).(dev := old(LocOf(d)).dev.(rssi := r))
      ensures Others(d) == old(Others(d))
    {
      rssi[d] := r;
      assert Others(d).devs == old(Others(d)).devs;
    }

    /** A message to or from the device, or a milestone of its reception. */
    ghost method Record(d: nat, x: Item)
      requires Valid() && d < n
      modifies this`log
      ensures Valid() && LocOf(d) == Emit(old(LocOf(d)), x) && Others(d) == old(Others(d))
    {
      log := log[d := Snoc(log[d], x)];
      assert Others(d).devs == old(Others(d)).devs;
    }

    /** bs_trace_error: the simulation is over. */
    method Error(d: nat)
      requires Valid() && d < n
      modifies this`halted
      ensures Valid() && LocOf(d) == Fail(old(LocOf(d))) && Others(d) == old(Others(d))
    {
      halted := true;
      assert Others(d).devs == old(Others(d)).devs;
    }

    method SetActive(d: nat, k: int)
      requires Valid() && d < n
      modifies this`active
      ensures Valid() && LocOf(d) == old(LocOf(d)).(active := k) && Others(d) == old(Others(d))
    {
      active := k;
      assert Others(d).devs == old(Others(d)).devs;
    }

    /** chm_RSSImeas. */
    method MeasureRssi(d: nat, gain: real, radio: Radio) returns (r: int)
      requires Valid() && d < n
      modifies receivers.rec, receivers.pow
      ensures Valid() && Others(d) == old(Others(d))
      ensures (LocOf(d), r) == Measure(m.world, now, d, old(LocOf(d)), gain, radio)
    {
      ghost var rec := receivers.rec[..];
      r := receivers.MeasureRssi(Active(txl.Els()), gain, radio, d, now);
      forall i | 0 <= i < n && i != d
        ensures DevOf(i) == old(DevOf(i))
      {
        assert receivers.rec[..][i] == rec[i];
      }
      assert receivers.rec[..][d] == receivers.rec[d];
      assert Others(d).devs == old(Others(d)).devs;
    }

    // -------------------------------------------------------------- abort re-evaluation

    method PickAbort(d: nat, reply: AbortReply) returns (ab: Option<Abort>)
      requires Valid() && d < n
      modifies Repr()
      ensures Valid() && Others(d) == old(Others(d))
      ensures Picked(LocOf(d), ab) == Device.PickAbort(m.world, now, d, old(LocOf(d)), reply)
    {
      hide Others;
      Record(d, AbortAsked(now));
      ghost var l := LocOf(d);
      var i := 0;
      while i < |reply.immRssi|
        invariant Valid() && Others(d) == old(Others(d)) && i <= |reply.immRssi|
        invariant ImmediateRssis(m.world, now, d, LocOf(d), reply.immRssi[i..])
                  == ImmediateRssis(m.world, now, d, l, reply.immRssi)
      {
        ghost var rest := reply.immRssi[i..];
        assert rest[0] == reply.immRssi[i] && rest[1..] == reply.immRssi[i + 1..];
        var _ := MeasureRssi(d, reply.immRssi[i].gain, reply.immRssi[i].radio);
        Record(d, ImmRssi(now));
        i := i + 1;
      }
      ab := TakeAnswer(d, reply.answer);
    }

    /** pick_abort_tail, and what may come instead of new abort times. */
    method TakeAnswer(d: nat, answer: AbortAnswer) returns (ab: Option<Abort>)
      requires Valid() && d < n
      modifies Repr()
      ensures Valid() && Others(d) == old(Others(d))
      ensures Picked(LocOf(d), ab) == AnswerAbort(now, old(LocOf(d)), answer)
    {
      hide Others;
      ab := None;
      match answer
      case Leave =>
        SetActive(d, active - 1);
        Record(d, Left(now));
      case StopAll =>
        SetActive(d, 0);
        Record(d, Ended(now));
      case Garbage(_) =>
        SetActive(d, 0);
        Record(d, Ended(now));
      case NewAbort(a) =>
        Record(d, AbortSet(now, a));
        if now > a.abort {
          Error(d);
        } else if now > a.recheck {
          Error(d);
        } else {
          ab := Some(a);
        }
    }

    // -------------------------------------------------------------- the next request

    /** check_valid_abort: whether the abort times are acceptable. */
    method CheckAbort(ab: Abort, start: nat) returns (ok: bool)
      ensures ok <==> !BadAbort(now, ab, start)
    {
      ok := true;
      if now >= ab.abort {
        ok := false;
      }
      if now >= ab.recheck {
        ok := false;
      }
      if start > ab.abort {
        ok := false;
      }
      if start > ab.recheck {
        ok := false;
      }
    }

    method PrepareTx(d: nat, t: TxReq)
      requires Valid() && d < n
      modifies Repr()
      ensures Valid() && Others(d) == old(Others(d))
      ensures LocOf(d) == Device.PrepareTx(now, d, old(LocOf(d)), t)
    {
      hide Others;
      var abortOk := CheckAbort(t.ab, t.startTx);
      if now >= t.startTx || t.startTx >= t.endTx || t.startPacket >= t.endTx || t.startPacket >= t.endPacket
        || !abortOk {
        Error(d);
        return;
      }
      RegisterTx(d, t);
      AddEvent(t.startTx, TxStart, d);
    }

    method RegisterTx(d: nat, t: TxReq)
      requires Valid() && d < n
      modifies txl.used, txl.list
      ensures Valid() && Others(d) == old(Others(d))
      ensures LocOf(d) == old(LocOf(d)).(txl := old(LocOf(d)).txl.Register(d, t, t.size > 0))
    {
      txl.Register(d, t, t.size > 0);
      assert Others(d).devs == old(Others(d)).devs;
    }

    method PrepareRx(d: nat, r: RxReq)
      requires Valid() && d < n
      modifies Repr()
      ensures Valid() && Others(d) == old(Others(d))
      ensures LocOf(d) == Device.PrepareRx(now, old(LocOf(d)), r)
    {
      hide Others;
      var abortOk := CheckAbort(r.ab, r.start);
      var pace := SetRate(r.errorRate);
      if now >= r.start || !abortOk || pace == None {
        Error(d);
        return;
      }
      var scanEnd := if r.scanDuration < UINT32_MAX then Pred(r.start + r.scanDuration) else TIME_NEVER - 1;
      if r.ab.abort < scanEnd {
        scanEnd := Pred(r.ab.abort);
      }
      var was := rx[d];
      var txNbr := was.txNbr;
      if !r.prelocked {
        txNbr := -1;
      }
      PutRx(d, was.(req := r, prelocked := r.prelocked, scanEnd := scanEnd, syncEnd := 0, headerEnd := 0,
                    payloadEnd := 0, txNbr := txNbr, biterrors := 0, pace := pace.value, txLost := false,
                    taken := 0, errs := []));
      AddEvent(r.start, RxSearchStart, d);
    }

    method PrepareCca(d: nat, c: CcaReq)
      requires Valid() && d < n
      modifies Repr()
      ensures Valid() && Others(d) == old(Others(d))
      ensures LocOf(d) == Device.PrepareCca(m.world, now, old(LocOf(d)), c)
    {
      hide Others;
      var abortOk := CheckAbort(c.ab, c.start);
      if now >= c.start || !abortOk || c.period == 0 || c.stop > 3 {
        Error(d);
        return;
      }
      PutCca(d, CcaStatus(c, Pred(c.start + c.scanDuration), c.start,
                          CcaDone(m.world.rssiMin, m.world.rssiMin, false, false, 0), []));
      AddEvent(c.start, CcaMeas, d);
    }

    method PrepareWait(d: nat, end: Time)
      requires Valid() && d < n
      modifies Repr()
      ensures Valid() && Others(d) == old(Others(d))
      ensures var l := Add(old(LocOf(d)), end, WaitDone); LocOf(d) == if now > end then Fail(l) else l
    {
      hide Others;
      AddEvent(end, WaitDone, d);
      if now > end {
        Error(d);
      }
    }

    method PrepareRssi(d: nat, r: RssiReq)
      requires Valid() && d < n
      modifies Repr()
      ensures Valid() && Others(d) == old(Others(d))
      ensures var l := old(LocOf(d));
        LocOf(d) == if now >= r.at then Fail(l) else Add(l.(dev := l.dev.(rssi := r)), r.at, RssiMeas)
    {
      hide Others;
      if now >= r.at {
        Error(d);
        return;
      }
      PutRssi(d, r);
      AddEvent(r.at, RssiMeas, d);
    }

    /** The checks made only on version 2 receptions, and then those of all. */
    method PrepareRxV2(d: nat, r: RxReq)
      requires Valid() && d < n
      modifies Repr()
      ensures Valid() && Others(d) == old(Others(d))
      ensures var l := old(LocOf(d));
        LocOf(d) == if RxV2Accepted(r) then Device.PrepareRx(now, l, r) else Fail(l)
    {
      hide Others, Device.PrepareRx;
      if |r.addresses| > MAX_ADDRESSES || r.respType != 0 {
        Error(d);
      } else if (r.preamble > 0 && r.truncation >= r.preamble) || r.truncation > r.preamble {
        Error(d);
      } else {
        PrepareRx(d, r);
      }
    }

    /** p2G4_handle_next_request. */
    method HandleNextRequest(d: nat, q: Request)
      requires Valid() && d < n
      modifies Repr()
      ensures Valid() && Others(d) == old(Others(d))
      ensures LocOf(d) == HandleNext(m.world, now, d, old(LocOf(d)), q)
    {
      hide Others, Device.PrepareTx, Device.PrepareRx, Device.PrepareCca, RxV2Accepted, Goes, Follows, KeepsAligned;
      match q
      case Disconnect =>
        SetActive(d, active - 1);
        Record(d, Left(now));
        RemoveEvent(d);
      case Terminate =>
        SetActive(d, 0);
        Record(d, Ended(now));
      case Wait(end) =>
        Record(d, Asked(now, q));
        PrepareWait(d, end);
      case Tx(t) =>
        Record(d, Asked(now, q));
        PrepareTx(d, MapTxV1(t));
      case TxV2(t) =>
        Record(d, Asked(now, q));
        PrepareTx(d, t);
      case Rssi(r) =>
        Record(d, Asked(now, q));
        PrepareRssi(d, r);
      case Rx(r) =>
        Record(d, Asked(now, q));
        PrepareRx(d, MapRxV1(r));
      case RxV2(r) =>
        Record(d, Asked(now, q));
        PrepareRxV2(d, r);
      case CcaScan(c) =>
        Record(d, Asked(now, q));
        PrepareCca(d, c);
      case Unknown(_) =>
        Error(d);
    }

    // -------------------------------------------------------------- transmissions

    method StartTx(d: nat)
      requires Valid() && d < n
      modifies txl, txl.used
      ensures Valid() && Others(d) == old(Others(d))
      ensures LocOf(d) == old(LocOf(d)).(txl := old(LocOf(d)).txl.StartTx(d))
    {
      txl.StartTx(d);
      assert Others(d).devs == old(Others(d)).devs;
    }

    method StartPacket(d: nat)
      requires Valid() && d < n
      modifies txl.used
      ensures Valid() && Others(d) == old(Others(d))
      ensures LocOf(d) == old(LocOf(d)).(txl := old(LocOf(d)).txl.StartPacket(d))
    {
      txl.StartPacket(d);
      assert Others(d).devs == old(Others(d)).devs;
    }

    method EndPacket(d: nat)
      requires Valid() && d < n
      modifies txl.used
      ensures Valid() && Others(d) == old(Others(d))
      ensures LocOf(d) == old(LocOf(d)).(txl := old(LocOf(d)).txl.EndPacket(d))
    {
      txl.EndPacket(d);
      assert Others(d).devs == old(Others(d)).devs;
    }

    method SetTxAbort(d: nat, ab: Abort)
      requires Valid() && d < n
      modifies txl.list
      ensures Valid() && Others(d) == old(Others(d))
      ensures LocOf(d) == old(LocOf(d)).(txl := old(LocOf(d)).txl.SetAbort(d, ab))
    {
      txl.SetAbort(d, ab);
      assert Others(d).devs == old(Others(d)).devs;
    }

    method ClearTx(d: nat)
      requires Valid() && d < n
      modifies txl, txl.used, txl.list
      ensures Valid() && Others(d) == old(Others(d))
      ensures LocOf(d) == old(LocOf(d)).(txl := old(LocOf(d)).txl.Clear(d))
    {
      txl.Clear(d);
      assert Others(d).devs == old(Others(d)).devs;
    }

    /** tx_schedule_next_event. */
    method ScheduleNextEvent(d: nat)
      requires Valid() && d < n
      modifies Repr()
      ensures Valid() && Others(d) == old(Others(d))
      ensures LocOf(d) == TxSchedule(m, now, d, old(LocOf(d)))
    {
      hide Others;
      var u, t := txl.used[d], txl.list[d].tx;
      assert LocOf(d).txl.els[d].used == u && LocOf(d).txl.els[d].tx == t;
      var packetStart, packetEnd := TIME_NEVER, TIME_NEVER;
      if !u.ongoing {
        packetStart := t.startPacket;
      } else if !u.ended {
        packetEnd := t.endPacket;
      }
      var end := Min(t.endTx, t.ab.abort);
      var next := Min(Min(packetStart, end), packetEnd);
      if next >= t.ab.recheck {
        AddEvent(t.ab.recheck, TxAbortReeval, d);
      } else if next == packetStart {
        AddEvent(end, TxPacketStart, d);
      } else if next == end {
        AddEvent(end, TxEnd, d);
      } else {
        AddEvent(end, TxPacketEnd, d);
      }
    }

    /** f_tx_abort_reeval. */
    method OnTxAbortReeval(d: nat, e: Env)
      requires Valid() && d < n
      modifies Repr()
      ensures Valid() && Others(d) == old(Others(d))
      ensures LocOf(d) == TxAbortReevaluated(m, now, d, old(LocOf(d)), e)
    {
      hide Others;
      var ab := PickAbort(d, e.reply);
      if ab == None {
        ClearTx(d);
        RemoveEvent(d);
        return;
      }
      SetTxAbort(d, ab.value);
      ScheduleNextEvent(d);
    }

    /** f_tx_packet_end. */
    method OnTxPacketEnd(d: nat)
      requires Valid() && d < n
      modifies Repr()
      ensures Valid() && Others(d) == old(Others(d))
      ensures LocOf(d) == TxPacketEnded(m, now, d, old(LocOf(d)))
    {
      hide Others;
      EndPacket(d);
      ScheduleNextEvent(d);
    }

    /** f_tx_end. */
    method OnTxEnd(d: nat, e: Env)
      requires Valid() && d < n
      modifies Repr()
      ensures Valid() && Others(d) == old(Others(d))
      ensures LocOf(d) == TxEnded(m.world, now, d, old(LocOf(d)), e)
    {
      hide Others;
      ClearTx(d);
      Record(d, TxReply(now));
      HandleNextRequest(d, e.next);
    }

    // -------------------------------------------------------------- waits and RSSI

    /** f_wait_done. */
    method OnWaitDone(d: nat, e: Env)
      requires Valid() && d < n
      modifies Repr()
      ensures Valid() && Others(d) == old(Others(d))
      ensures LocOf(d) == WaitFinished(m.world, now, d, old(LocOf(d)), e)
    {
      hide Others;
      Record(d, WaitReply(now));
      HandleNextRequest(d, e.next);
    }

    /** f_RSSI_meas. */
    method OnRssiMeas(d: nat, e: Env)
      requires Valid() && d < n
      modifies Repr()
      ensures Valid() && Others(d) == old(Others(d))
      ensures LocOf(d) == RssiMeasured(m.world, now, d, old(LocOf(d)), e)
    {
      hide Others;
      var _ := MeasureRssi(d, rssi[d].gain, rssi[d].radio);
      Record(d, RssiReply(now));
      HandleNextRequest(d, e.next);
    }

    // -------------------------------------------------------------- receptions

    /** find_fitting_tx: an upward search below the greatest transmitting device. */
    method FindFittingTx(status: RxStatus) returns (j: int)
      requires Valid()
      ensures j == FindFitting(now, txl.View(), status)
    {
      ghost var els := txl.View().els;
      for i := 0 to txl.maxTx + 1
        invariant forall k :: 0 <= k < i ==> !(els[k].used.ongoing && Match(now, els[k].tx, status))
      {
        assert els[i].used == txl.used[i] && els[i].tx == txl.list[i].tx;
        if txl.used[i].ongoing && Match(now, txl.list[i].tx, status) {
          return i;
        }
      }
      return -1;
    }

    /** rx_enqueue_search_reeval. */
    method EnqueueSearchReeval(d: nat)
      requires Valid() && d < n
      modifies Repr()
      ensures Valid() && Others(d) == old(Others(d))
      ensures LocOf(d) == EnqueueSearch(old(LocOf(d)))
    {
      hide Others;
      PutRx(d, rx[d].(searching := true));
      AddEvent(Min(rx[d].scanEnd + 1, rx[d].req.ab.recheck), RxSearchReeval, d);
    }

    /** rx_possible_abort_recheck. */
    method RxPossibleRecheck(d: nat, e: Env, scanning: bool) returns (quit: bool)
      requires Valid() && d < n
      modifies Repr()
      ensures Valid() && Others(d) == old(Others(d))
      ensures Rechecked(LocOf(d), quit) == RxRecheck(m.world, now, d, old(LocOf(d)), e, scanning)
    {
      hide Others;
      quit := false;
      if now >= rx[d].req.ab.recheck {
        var ab := PickAbort(d, e.reply);
        if ab == None {
          return true;
        }
        PutRx(d, rx[d].(req := rx[d].req.(ab := ab.value)));
        if scanning && rx[d].req.ab.abort < rx[d].scanEnd {
          PutRx(d, rx[d].(scanEnd := Pred(rx[d].req.ab.abort)));
        }
      }
    }

    /** prelock_check. */
    method PrelockCheck(d: nat) returns (j: int)
      requires Valid() && d < n
      modifies Repr()
      ensures Valid() && Others(d) == old(Others(d))
      ensures LocOf(d) == SetRx(old(LocOf(d)), PrelockChecked(now, txl.View(), old(rx[d])))
      ensures j == rx[d].txNbr
    {
      hide Others;
      var i := rx[d].txNbr;
      if i == -1 {
        PutRx(d, rx[d].(prelocked := false));
      } else {
        var el := ElAt(txl.View(), i);
        if !el.used.ongoing {
          PutRx(d, rx[d].(prelocked := false, txNbr := -1));
        } else if now > el.tx.startPacket + rx[d].req.truncation {
          PutRx(d, rx[d].(prelocked := false, txNbr := -1));
        }
      }
      j := rx[d].txNbr;
    }

    /** f_rx_search_start. */
    method OnRxSearchStart(d: nat, e: Env)
      requires Valid() && d < n
      modifies Repr()
      ensures Valid() && Others(d) == old(Others(d))
      ensures LocOf(d) == SearchStarted(m.world, now, d, old(LocOf(d)), e)
    {
      hide Others;
      var quit := RxPossibleRecheck(d, e, true);
      if quit {
        PutRx(d, rx[d].(searching := false));
        RemoveEvent(d);
        return;
      }
      Search(d, e);
    }

    /** The search for a transmission which can still be caught. */
    method Search(d: nat, e: Env)
      requires Valid() && d < n
      modifies Repr()
      ensures Valid() && Others(d) == old(Others(d))
      ensures LocOf(d) == SearchFrom(m.world, now, d, old(LocOf(d)), e)
    {
      hide Others, FindFitting, PrelockChecked, FoundTx, EnqueueSearch;
      var j;
      if rx[d].prelocked {
        j := PrelockCheck(d);
      } else {
        j := FindFittingTx(rx[d]);
      }
      if j >= 0 {
        PutRx(d, rx[d].(txNbr := j, searching := false));
        OnRxFound(d, e);
        return;
      }
      EnqueueSearchReeval(d);
    }

    /** rx_scan_ended. */
    method RxScanEnded(d: nat, e: Env)
      requires Valid() && d < n
      modifies Repr()
      ensures Valid() && Others(d) == old(Others(d))
      ensures LocOf(d) == ScanEnded(m.world, now, d, old(LocOf(d)), e)
    {
      hide Others;
      if rx[d].req.ab.abort != now {
        var _ := MeasureRssi(d, rx[d].req.gain, rx[d].req.radio);
      }
      PutRx(d, rx[d].(searching := false));
      Record(d, RxReply(now, NoSync, []));
      HandleNextRequest(d, e.next);
    }

    /** f_rx_search_reeval. */
    method OnRxSearchReeval(d: nat, e: Env)
      requires Valid() && d < n
      modifies Repr()
      ensures Valid() && Others(d) == old(Others(d))
      ensures LocOf(d) == SearchReevaluated(m.world, now, d, old(LocOf(d)), e)
    {
      hide Others;
      var quit := RxPossibleRecheck(d, e, true);
      if quit {
        PutRx(d, rx[d].(searching := false));
        RemoveEvent(d);
        return;
      }
      if now > rx[d].scanEnd {
        RxScanEnded(d, e);
        return;
      }
      EnqueueSearchReeval(d);
    }

    /** chm_is_packet_synched. */
    method IsPacketSynched(d: nat)
      requires Valid() && d < n
      modifies receivers.rec, receivers.pow
      ensures Valid() && Others(d) == old(Others(d))
      ensures var l, rx := old(LocOf(d)), rx[d];
        LocOf(d) == l.(dev := l.dev.(rec := AfterSyncCheck(m.world, l.dev.rec, l.txl.ctr, Active(l.txl.els), rx.req,
                                                          ElAt(l.txl, rx.txNbr).tx, rx.txNbr, d, now)))
    {
      ghost var rec := receivers.rec[..];
      var t := ElAt(txl.View(), rx[d].txNbr).tx;
      var _ := receivers.IsPacketSynched(txl.ctr, Active(txl.Els()), rx[d].req, t, rx[d].txNbr, d, now);
      forall i | 0 <= i < n && i != d
        ensures DevOf(i) == old(DevOf(i))
      {
        assert receivers.rec[..][i] == rec[i];
      }
      assert receivers.rec[..][d] == receivers.rec[d];
      assert Others(d).devs == old(Others(d)).devs;
    }

    /** f_rx_found. */
    method OnRxFound(d: nat, e: Env)
      requires Valid() && d < n
      modifies Repr()
      ensures Valid() && Others(d) == old(Others(d))
      ensures LocOf(d) == FoundTx(m.world, now, d, old(LocOf(d)), e)
    {
      hide Others, AfterSyncCheck, Lock, EnqueueSearch, Active;
      var synched := rx[d].prelocked;
      if !synched {
        IsPacketSynched(d);
        synched := e.synched;
      }
      if synched {
        LockTo(d, ElAt(txl.View(), rx[d].txNbr).tx);
        return;
      }
      EnqueueSearchReeval(d);
    }

    method LockTo(d: nat, t: TxReq)
      requires Valid() && d < n
      modifies Repr()
      ensures Valid() && Others(d) == old(Others(d))
      ensures LocOf(d) == Lock(old(LocOf(d)), now, t)
    {
      hide Others;
      var syncEnd := t.startPacket + Max(rx[d].req.preamble - 1, 0);
      var status := rx[d].(syncEnd := syncEnd, headerEnd := syncEnd + rx[d].req.header, payloadEnd := t.endPacket,
                           biterrors := 0, syncStart := t.startPacket + rx[d].req.truncation, txLost := false,
                           errs := []);
      assert status == WithLock(rx[d], t);
      hide WithLock;
      PutRx(d, status);
      Record(d, Locked(now, if rx[d].txNbr < 0 then 0 else rx[d].txNbr, t.startPacket, t.endPacket));
      var next := Min(rx[d].syncStart, rx[d].req.ab.recheck);
      AddEvent(Min(next, rx[d].scanEnd + 1), RxSync, d);
    }

    /** chm_bit_errors: the rate with which the errors are drawn. */
    method BitErrorRate(d: nat)
      requires Valid() && d < n
      modifies receivers.rec, receivers.pow
      ensures Valid() && Others(d) == old(Others(d))
      ensures var l, rx := old(LocOf(d)), rx[d];
        LocOf(d) == l.(dev := l.dev.(rec := AfterBitErrors(m.world, l.dev.rec, l.txl.ctr, Active(l.txl.els), rx.req,
                                                          rx.txNbr, d, now)))
    {
      ghost var rec := receivers.rec[..];
      var _ := receivers.BitErrors(txl.ctr, Active(txl.Els()), rx[d].req, rx[d].txNbr, d, now);
      forall i | 0 <= i < n && i != d
        ensures DevOf(i) == old(DevOf(i))
      {
        assert receivers.rec[..][i] == rec[i];
      }
      assert receivers.rec[..][d] == receivers.rec[d];
      assert Others(d).devs == old(Others(d)).devs;
    }

    /** The error rate of this microsecond, unless the transmission is, or has been, lost. */
    method RateErrors(d: nat)
      requires Valid() && d < n
      modifies Repr()
      ensures Valid() && Others(d) == old(Others(d))
      ensures var l := old(LocOf(d));
        var el := ElAt(l.txl, l.dev.rx.txNbr);
        var lost := l.dev.rx.txLost || !el.used.ongoing;
        LocOf(d) == l.(dev := l.dev.(rx := l.dev.rx.(txLost := lost),
          rec := if lost || el.tx.codingRate != l.dev.rx.req.codingRate then l.dev.rec
                 else AfterBitErrors(m.world, l.dev.rec, l.txl.ctr, Active(l.txl.els), l.dev.rx.req,
                                     l.dev.rx.txNbr, d, now)))
    {
      hide Others, AfterBitErrors, Active;
      var el := ElAt(txl.View(), rx[d].txNbr);
      if !el.used.ongoing {
        PutRx(d, rx[d].(txLost := true));
      }
      if !rx[d].txLost && el.tx.codingRate == rx[d].req.codingRate {
        BitErrorRate(d);
      }
    }

    /** rx_bit_error_calc, and the accumulation of its result. */
    method BitErrorCalc(d: nat, e: Env)
      requires Valid() && d < n
      modifies Repr()
      ensures Valid() && Others(d) == old(Others(d))
      ensures LocOf(d) == DrawErrors(m.world, now, d, old(LocOf(d)), e)
    {
      hide Others, AfterBitErrors, Active;
      var errors, samples := 0, 0;
      var wait := rx[d].pace.usToNext - 1;
      if rx[d].pace.usToNext <= 0 {
        RateErrors(d);
        errors, samples := e.draw, rx[d].pace.errorsPerCalc;
        wait := rx[d].pace.usPerCalc - 1;
      }
      PutRx(d, rx[d].(pace := rx[d].pace.(usToNext := wait), biterrors := rx[d].biterrors + errors,
                      taken := rx[d].taken + samples, errs := rx[d].errs + [errors]));
    }

    /** f_rx_sync. */
    method OnRxSync(d: nat, e: Env)
      requires Valid() && d < n
      modifies Repr()
      ensures Valid() && Others(d) == old(Others(d))
      ensures LocOf(d) == Synchronized(m.world, now, d, old(LocOf(d)), e)
    {
      hide Others, RxRecheck, SyncFrom;
      var quit := RxPossibleRecheck(d, e, true);
      if quit {
        RemoveEvent(d);
        return;
      }
      SyncMicrosecond(d, e);
    }

    /** One event of the synchronization, after the possible re-evaluation of the abort. */
    method SyncMicrosecond(d: nat, e: Env)
      requires Valid() && d < n
      modifies Repr()
      ensures Valid() && Others(d) == old(Others(d))
      ensures LocOf(d) == SyncFrom(m.world, now, d, old(LocOf(d)), e)
    {
      hide Others, SyncSampled, ScanEnded;
      if now > rx[d].scanEnd {
        RxScanEnded(d, e);
        return;
      }
      if now < rx[d].syncStart {
        var next := Min(rx[d].syncStart, rx[d].req.ab.recheck);
        AddEvent(Min(next, rx[d].scanEnd + 1), RxSync, d);
        return;
      }
      if !ElAt(txl.View(), rx[d].txNbr).used.ongoing {
        Record(d, SyncLost(now, true, rx[d].errs));
        AddEvent(now + 1, RxSearchStart, d);
        return;
      }
      SyncSample(d, e);
    }

    /** One microsecond of the synchronization in which errors may be drawn. */
    method SyncSample(d: nat, e: Env)
      requires Valid() && d < n
      modifies Repr()
      ensures Valid() && Others(d) == old(Others(d))
      ensures LocOf(d) == SyncSampled(m.world, now, d, old(LocOf(d)), e)
    {
      hide Others, DrawErrors, OfferPacket;
      BitErrorCalc(d, e);
      if rx[d].biterrors > rx[d].req.syncThreshold {
        Record(d, SyncLost(now, false, rx[d].errs));
        AddEvent(now + 1, RxSearchStart, d);
        return;
      }
      if now >= rx[d].syncEnd {
        SyncDone(d, e);
      } else {
        AddEvent(now + 1, RxSync, d);
      }
    }

    /** The address has been found: the device decides whether the reception goes on. */
    method SyncDone(d: nat, e: Env)
      requires Valid() && d < n
      modifies Repr()
      ensures Valid() && Others(d) == old(Others(d))
      ensures LocOf(d) == OfferPacket(m.world, now, d, old(LocOf(d)), e)
    {
      hide Others, AfterRssi, Decided;
      var _ := MeasureRssi(d, rx[d].req.gain, rx[d].req.radio);
      ghost var errs := rx[d].errs;
      PutRx(d, rx[d].(biterrors := 0, errs := []));
      Record(d, AddressFound(now, errs));
      TakeDecision(d, e);
    }

    /** The answer of the device to an address-found message. */
    method TakeDecision(d: nat, e: Env)
      requires Valid() && d < n
      modifies Repr()
      ensures Valid() && Others(d) == old(Others(d))
      ensures LocOf(d) == Decided(m.world, now, d, old(LocOf(d)), e)
    {
      hide Others, HandleNext, Accepted;
      match e.cont
      case ContLeave =>
        SetActive(d, active - 1);
        Record(d, Left(now));
        RemoveEvent(d);
      case ContStopAll =>
        SetActive(d, 0);
        Record(d, Ended(now));
      case ContUnknown(_) =>
        Error(d);
      case RxStop =>
        Record(d, Stopped(now));
        HandleNextRequest(d, e.next);
      case Cont =>
        Record(d, Continued(now));
        Continue(d);
      case ContV2(ab) =>
        PutRx(d, rx[d].(req := rx[d].req.(ab := ab)));
        Record(d, ContinuedV2(now, ab));
        if now > ab.abort || now > ab.recheck {
          Error(d);
        } else {
          Continue(d);
        }
    }

    method Continue(d: nat)
      requires Valid() && d < n
      modifies Repr()
      ensures Valid() && Others(d) == old(Others(d))
      ensures LocOf(d) == Accepted(now, old(LocOf(d)))
    {
      hide Others;
      var delta := 1;
      if rx[d].req.preamble == 0 {
        delta := 0;
      }
      if rx[d].req.header == 0 {
        AddEvent(now + delta, RxPayload, d);
      } else {
        AddEvent(now + delta, RxHeader, d);
      }
    }

    /** The reception is over: respond, and read the next request. */
    method RespondDone(d: nat, e: Env, result: RxResult)
      requires Valid() && d < n
      modifies Repr()
      ensures Valid() && Others(d) == old(Others(d))
      ensures LocOf(d) == RxFinished(m.world, now, d, old(LocOf(d)), e, result)
    {
      hide Others;
      Record(d, RxReply(now, result, rx[d].errs));
      HandleNextRequest(d, e.next);
    }

    /** f_rx_header. */
    method OnRxHeader(d: nat, e: Env)
      requires Valid() && d < n
      modifies Repr()
      ensures Valid() && Others(d) == old(Others(d))
      ensures LocOf(d) == HeaderReceived(m.world, now, d, old(LocOf(d)), e)
    {
      hide Others, RxRecheck, HeaderFrom, DrawErrors;
      var quit := RxPossibleRecheck(d, e, false);
      if quit {
        RemoveEvent(d);
        return;
      }
      BitErrorCalc(d, e);
      HeaderVerdict(d, e);
    }

    /** What follows from the errors of a header so far. */
    method HeaderVerdict(d: nat, e: Env)
      requires Valid() && d < n
      modifies Repr()
      ensures Valid() && Others(d) == old(Others(d))
      ensures LocOf(d) == HeaderFrom(m.world, now, d, old(LocOf(d)), e)
    {
      hide Others, RxFinished;
      if (now >= rx[d].headerEnd && rx[d].biterrors > rx[d].req.headerThreshold) || now >= rx[d].req.ab.abort {
        RespondDone(d, e, HeaderError);
      } else if now >= rx[d].headerEnd {
        AddEvent(now + 1, RxPayload, d);
      } else {
        AddEvent(now + 1, RxHeader, d);
      }
    }

    /** f_rx_payload. */
    method OnRxPayload(d: nat, e: Env)
      requires Valid() && d < n
      modifies Repr()
      ensures Valid() && Others(d) == old(Others(d))
      ensures LocOf(d) == PayloadReceived(m.world, now, d, old(LocOf(d)), e)
    {
      hide Others, RxRecheck, PayloadFrom, DrawErrors;
      var quit := RxPossibleRecheck(d, e, false);
      if quit {
        RemoveEvent(d);
        return;
      }
      BitErrorCalc(d, e);
      PayloadVerdict(d, e);
    }

    /** What follows from the errors of a packet so far. */
    method PayloadVerdict(d: nat, e: Env)
      requires Valid() && d < n
      modifies Repr()
      ensures Valid() && Others(d) == old(Others(d))
      ensures LocOf(d) == PayloadFrom(m.world, now, d, old(LocOf(d)), e)
    {
      hide Others, RxFinished;
      if (now >= rx[d].payloadEnd && rx[d].biterrors > 0) || now >= rx[d].req.ab.abort {
        RespondDone(d, e, ContentError);
      } else if now >= rx[d].payloadEnd {
        RespondDone(d, e, RxOk);
      } else {
        AddEvent(now + 1, RxPayload, d);
      }
    }

    // -------------------------------------------------------------- CCA

    /** find_fitting_tx_cca. */
    method FindFittingTxCca(c: CcaReq) returns (j: int)
      requires Valid()
      ensures j == FindFittingCca(txl.View(), c)
    {
      ghost var els := txl.View().els;
      for i := 0 to txl.maxTx + 1
        invariant forall k :: 0 <= k < i ==> !CcaMatch(els[k], c)
      {
        assert els[i].used == txl.used[i] && els[i].tx == txl.list[i].tx;
        if txl.used[i].On() {
          var radio := txl.list[i].tx.radio;
          if radio.freq == c.radio.freq && radio.family == c.radio.family {
            return i;
          }
        }
      }
      return -1;
    }

    /** One measurement of a scan. */
    method Sense(d: nat)
      requires Valid() && d < n
      modifies Repr()
      ensures Valid() && Others(d) == old(Others(d))
      ensures LocOf(d) == CcaSample(m.world, now, d, old(LocOf(d)))
    {
      hide Others, CcaSampled, AfterRssi, FindFittingCca, Active, CcaMatch;
      var c := cca[d].req;
      var r := MeasureRssi(d, c.gain, c.radio);
      var j := FindFittingTxCca(c);
      Sensed(d, r, j);
    }

    /** What a measurement changes in the scan; `j` is a compatible transmission, or -1. */
    method Sensed(d: nat, r: int, j: int)
      requires Valid() && d < n
      modifies cca
      ensures Valid() && Others(d) == old(Others(d))
      ensures LocOf(d) == SetCca(old(LocOf(d)), CcaSampled(m.world, old(cca[d]), Sample(now, r, j >= 0)))
    {
      hide Others;
      var c := cca[d].req;
      var scan := cca[d];
      var done := scan.done.(rssiMax := Max(scan.done.rssiMax, r));
      if r >= c.rssiThreshold {
        done := done.(over := true);
        if c.stop / 2 % 2 == 1 {
          scan := scan.(scanEnd := now);
        }
      }
      if j >= 0 {
        var power := m.world.dBm(r);
        done := done.(modPower := Max(done.modPower, power));
        if power >= c.modThreshold {
          done := done.(modFound := true);
          if c.stop % 2 == 1 {
            scan := scan.(scanEnd := now);
          }
        }
      }
      scan := scan.(done := done.(nMeas := done.nMeas + 1), nextMeas := scan.nextMeas + c.period,
                    samples := scan.samples + [Sample(now, r, j >= 0)]);
      assert scan == CcaSampled(m.world, cca[d], Sample(now, r, j >= 0));
      hide CcaSampled;
      PutCca(d, scan);
    }

    method CcaPossibleRecheck(d: nat, e: Env) returns (quit: bool)
      requires Valid() && d < n
      modifies Repr()
      ensures Valid() && Others(d) == old(Others(d))
      ensures Rechecked(LocOf(d), quit) == CcaRecheck(m.world, now, d, old(LocOf(d)), e)
    {
      hide Others;
      quit := false;
      if now >= cca[d].req.ab.recheck {
        var ab := PickAbort(d, e.reply);
        if ab == None {
          return true;
        }
        PutCca(d, cca[d].(req := cca[d].req.(ab := ab.value)));
        if ab.value.abort < cca[d].scanEnd {
          PutCca(d, cca[d].(scanEnd := ab.value.abort));
        }
      }
    }

    /** f_cca_meas. */
    method OnCcaMeas(d: nat, e: Env)
      requires Valid() && d < n
      modifies Repr()
      ensures Valid() && Others(d) == old(Others(d))
      ensures LocOf(d) == CcaMeasured(m.world, now, d, old(LocOf(d)), e)
    {
      hide Others, CcaRecheck, CcaSample;
      var quit := CcaPossibleRecheck(d, e);
      if quit {
        RemoveEvent(d);
        return;
      }
      if now >= cca[d].nextMeas {
        Sense(d);
      }
      if now >= cca[d].scanEnd {
        Record(d, CcaReply(now, cca[d].done, cca[d].samples));
        HandleNextRequest(d, e.next);
        return;
      }
      var next := Min(cca[d].scanEnd, cca[d].req.ab.recheck);
      AddEvent(Min(cca[d].nextMeas, next), CcaMeas, d);
    }

    // -------------------------------------------------------------- the events which start a packet

    /** find_and_activate_rx. */
    method FindAndActivateRx(t: TxReq, tx: nat)
      requires Valid() && tx < n
      modifies rx, queue.time, queue.kind
      ensures Valid() && View() == ActivateAll(old(View()), t, tx)
    {
      for i := 0 to n
        invariant Valid()
        invariant forall j :: 0 <= j < i ==> DevOf(j) == Activated(now, t, tx, old(DevOf(j)))
        invariant forall j :: i <= j < n ==> DevOf(j) == old(DevOf(j))
      {
        label before:
        ghost var others := Others(i);
        if rx[i].searching && Match(now, t, rx[i]) {
          PutRx(i, rx[i].(txNbr := tx, searching := false));
          AddEvent(now, RxFound, i);
        }
        forall j | 0 <= j < n && j != i
          ensures DevOf(j) == old@before(DevOf(j))
        {
          assert Others(i).devs[j] == others.devs[j];
        }
      }
      assert View().devs == ActivateAll(old(View()), t, tx).devs;
    }

    /** f_tx_start. */
    method OnTxStart(d: nat)
      requires Valid() && d < n
      modifies Repr()
      ensures Valid() && View() == TxStartEvent(m, old(View()), d)
    {
      hide TxSchedule, ActivateAll, Goes, KeepsAligned;
      ghost var s := View();
      var t := txl.list[d].tx;
      assert s.txl.els[d].tx == t;
      StartTx(d);
      if now >= t.startPacket {
        StartPacket(d);
        PutInto(s, View(), d);
        FindAndActivateRx(t, d);
      } else {
        PutInto(s, View(), d);
      }
      ghost var k := View();
      ScheduleNextEvent(d);
      PutInto(k, View(), d);
    }

    /** f_tx_packet_start. */
    method OnTxPacketStart(d: nat)
      requires Valid() && d < n
      modifies Repr()
      ensures Valid() && View() == TxPacketStartEvent(m, old(View()), d)
    {
      hide TxSchedule, ActivateAll;
      ghost var s := View();
      var t := txl.list[d].tx;
      assert s.txl.els[d].tx == t;
      StartPacket(d);
      PutInto(s, View(), d);
      assert View() == s.(txl := s.txl.StartPacket(d));
      FindAndActivateRx(t, d);
      ghost var k := View();
      ScheduleNextEvent(d);
      PutInto(k, View(), d);
    }

    // -------------------------------------------------------------- the main loop

    /** The handlers which touch no other device. */
    method CallOwn(d: nat, e: Env)
      requires Valid() && d < n && queue.kind[d] !in {Kind.TxStart, Kind.TxPacketStart}
      modifies Repr()
      ensures Valid() && Others(d) == old(Others(d))
      ensures LocOf(d) == Handle(m, now, d, old(LocOf(d)), e)
    {
      hide Others, TxAbortReevaluated, WaitFinished, TxEnded, TxPacketEnded, CcaMeasured, RssiMeasured, FoundTx,
        Synchronized,
        HeaderReceived, PayloadReceived, SearchReevaluated, SearchStarted;
      match queue.kind[d]
      case WaitDone => OnWaitDone(d, e);
      case TxEnd => OnTxEnd(d, e);
      case TxPacketEnd => OnTxPacketEnd(d);
      case CcaMeas => OnCcaMeas(d, e);
      case RssiMeas => OnRssiMeas(d, e);
      case RxFound => OnRxFound(d, e);
      case RxSync => OnRxSync(d, e);
      case RxHeader => OnRxHeader(d, e);
      case RxPayload => OnRxPayload(d, e);
      case TxAbortReeval => OnTxAbortReeval(d, e);
      case RxSearchReeval => OnRxSearchReeval(d, e);
      case RxSearchStart => OnRxSearchStart(d, e);
      case NoEvent => Error(d);
    }

    method CallOwnEvent(d: nat, e: Env)
      requires Valid() && d < n && queue.kind[d] !in {Kind.TxStart, Kind.TxPacketStart}
      modifies Repr()
      ensures Valid() && View() == Put(old(View()), d, Handle(m, old(now), d, Get(old(View()), d), e))
    {
      hide Handle;
      ghost var s := View();
      CallOwn(d, e);
      PutInto(s, View(), d);
    }

    /** fq_call_next. */
    method CallNext(e: Env)
      requires Valid()
      modifies Repr()
      ensures Valid() && View() == Dispatch(m, old(View()), old(queue.nextD), e)
    {
      hide Handle, TxStartEvent, TxPacketStartEvent, Put, Get;
      var d := queue.nextD;
      match queue.kind[d]
      case TxStart => OnTxStart(d);
      case TxPacketStart => OnTxPacketStart(d);
      case _ => CallOwnEvent(d, e);
    }

    /** fq_find_next and fq_get_next_time. */
    method FindNext()
      requires Valid()
      modifies queue, this`now
      ensures Valid() && View() == Advance(old(View())) && queue.nextD == Next(Entries(View()))
    {
      hide CcaTimed, ScanTimed, SyncTimed, ReceiveTimed, LostBefore, Next;
      ghost var s := View();
      assert queue.Entries() == Entries(s);
      queue.FindNext();
      now := queue.NextTime();
      assert View().devs == s.devs;
      assert Entries(View()) == Entries(s);
    }

    method FirstRequest(d: nat, q: Request)
      requires Valid() && d < n
      modifies Repr()
      ensures Valid() && View() == Put(old(View()), d, HandleNext(m.world, old(now), d, Get(old(View()), d), q))
    {
      hide HandleNext;
      ghost var s := View();
      HandleNextRequest(d, q);
      PutInto(s, View(), d);
    }

    /** The first request of every device, until the simulation is over. */
    method FirstRequests(qs: seq<Request>)
      requires Valid() && View() == Initial(n) && |qs| == n
      modifies Repr()
      ensures Valid() && View() == Booted(m.world, qs, n)
    {
      hide HandleNext, View, Put, Get, Initial;
      var d := 0;
      while d < n && active > 0 && !halted
        invariant Valid() && d <= n && View() == Booted(m.world, qs, d)
      {
        FirstRequest(d, qs[d]);
        d := d + 1;
      }
      BootedOver(m.world, qs, d, n);
    }

    /** From the first requests to the head of the main loop. */
    method Begin(qs: seq<Request>)
      requires Valid() && View() == Initial(n) && |qs| == n
      modifies Repr()
      ensures Valid() && View() == Start(m.world, qs) && queue.nextD == Next(Entries(View()))
    {
      hide View, Initial, Booted, Advance, Next;
      FirstRequests(qs);
      FindNext();
    }

    /** One iteration of the main loop. */
    method NextEvent(e: Env)
      requires Valid() && queue.nextD == Next(Entries(View()))
      modifies Repr()
      ensures Valid() && View() == Step(m, old(View()), e) && queue.nextD == Next(Entries(View()))
    {
      hide View, Dispatch, Advance, Next;
      CallNext(e);
      FindNext();
    }

    /** The main program, for at most so many events: the first requests, and then the events one by
        one, until the devices have left, the simulated time is over, or an error is raised. Whatever
        the devices answer, it follows a run of the model. */
    method RunFor(qs: seq<Request>, o: (nat, nat) -> Env, limit: nat)
      returns (k: nat, ghost es: seq<Env>, ghost ss: seq<State>)
      requires Valid() && View() == Initial(n) && |qs| == n
      modifies Repr()
      ensures Valid() && |ss| == |es| + 1 && AnsweredRun(m, qs, o, es, ss) && ss[|es|] == View()
      ensures k == |es| <= limit && (k < limit ==> halted || active <= 0 || now >= m.simLength)
    {
      hide View, Step, Start, Initial, Next, Entries, AnsweredRun;
      Begin(qs);
      RunBegins(m, qs, o);
      es, ss := [], [View()];
      k := 0;
      while k < limit && active > 0 && !halted && now < m.simLength
        invariant Valid() && k == |es| == |ss| - 1 <= limit && AnsweredRun(m, qs, o, es, ss) && ss[|es|] == View()
        invariant queue.nextD == Next(Entries(View()))
      {
        var e := o(k, now);
        NextEvent(e);
        RunGoesOn(m, qs, o, es, ss, e, View());
        es, ss := es + [e], ss + [View()];
        k := k + 1;
      }
    }

    /** The main program. With devices which make legal requests and let time move, it ends. */
    method Run(qs: seq<Request>, o: (nat, nat) -> Env) returns (ghost es: seq<Env>, ghost ss: seq<State>)
      requires Valid() && View() == Initial(n) && |qs| == n
      requires (forall q :: q in qs ==> Legal(m, q)) && Answers(m, o)
      modifies Repr()
      ensures Valid() && (halted || active <= 0 || now >= m.simLength)
      ensures |ss| == |es| + 1 && AnsweredRun(m, qs, o, es, ss) && ss[|es|] == View()
    {
      hide View, Step, Start, Initial, TxRanks, RxRanks, TimeLeft, Next, Entries, AnsweredRun, Answers, Legal;
      Begin(qs);
      RunBegins(m, qs, o);
      es, ss := [], [View()];
      var k := 0;
      while active > 0 && !halted && now < m.simLength
        invariant Valid() && k == |es| == |ss| - 1 && AnsweredRun(m, qs, o, es, ss) && ss[|es|] == View()
        invariant queue.nextD == Next(Entries(View()))
        decreases Running(m, View()), TimeLeft(m, View()),
                  TxRanks(now, View().txl.els, View().devs), RxRanks(now, View().devs)
      {
        ghost var s := View();
        var e := o(k, now);
        NextEvent(e);
        RunGoesOn(m, qs, o, es, ss, e, View());
        RunGoesDown(m, qs, o, es, ss, e, View());
        es, ss := es + [e], ss + [View()];
        k := k + 1;
      }
    }
  }
}
