/** Every handler keeps its device in step with the messages of its session, and schedules nothing
    in the past. */
module Timing {
  import opened Types
  import opened FuncQueue
  import opened TxList
  import opened ErrorCalc
  import opened ChannelModem
  import opened Requests
  import opened Device
  import opened Session
  import opened Invariant

  /** What a handler leaves behind: unless a fatal error was raised, the messages conform, the next
      event is not in the past and, unless the simulation has been ended, fits them. */
  ghost predicate Good(m: Config, now: nat, d: nat, r: Loc)
    requires Fits(r, d)
  {
    r.halted
    || (Conforms(m.world, r.dev.log) && now <= r.dev.ev.time && (r.active > 0 ==> Timed(m, now, r.txl, d, r.dev)))
  }

  /** A device with an event of a transmission in the air. */
  lemma TimedTx(m: Config, now: nat, txl: TxL, d: nat, dev: Dev)
    requires d < |txl.els| && Timed(m, now, txl, d, dev) && TxOnKind(dev.ev.kind)
    ensures now <= dev.ev.time && dev.rx.txNbr >= -1 && Parse(m.world, dev.log) == Sending(txl.els[d].tx)
    ensures TxTimed(m, now, txl.els[d].used, txl.els[d].tx, dev.ev)
  {
    hide CcaTimed, ScanTimed, SyncTimed, ReceiveTimed, LostBefore, TxTimed;
  }

  // ---------------------------------------------------------------- requests and re-evaluations

  /** A device whose session is idle reads its next request. */
  lemma HandleNextGood(m: Config, now: nat, d: nat, l: Loc, q: Request)
    requires Fits(l, d) && Parse(m.world, l.dev.log) == Idle
    requires now <= l.dev.ev.time && now <= TIME_NEVER && l.dev.rx.txNbr >= -1
    ensures Good(m, now, d, HandleNext(m.world, now, d, l, q))
  {
    hide PrepareTx, PrepareRx, PrepareCca, Goes, KeepsAligned, WithAbort, CcaTimed, ScanTimed, SyncTimed, ReceiveTimed,
      TxTimed;
    match q
    case Tx(t) => PrepareTxGood(m, now, d, l, q, MapTxV1(t));
    case TxV2(t) => PrepareTxGood(m, now, d, l, q, t);
    case Rx(r) => PrepareRxGood(m, now, d, l, q, MapRxV1(r));
    case RxV2(r) =>
      if RxV2Accepted(r) {
        PrepareRxGood(m, now, d, l, q, r);
      }
    case CcaScan(c) => PrepareCcaGood(m, now, d, l, q, c);
    case _ =>
  }

  lemma PrepareTxGood(m: Config, now: nat, d: nat, l: Loc, q: Request, t: TxReq)
    requires Fits(l, d) && Parse(m.world, l.dev.log) == Idle && l.dev.rx.txNbr >= -1
    requires (q.Tx? && t == MapTxV1(q.txV1)) || (q.TxV2? && t == q.tx)
    ensures Good(m, now, d, PrepareTx(now, d, Emit(l, Asked(now, q)), t))
  {
    hide CcaTimed, ScanTimed, SyncTimed, ReceiveTimed, TxTimed, WithAbort;
  }

  lemma PrepareCcaGood(m: Config, now: nat, d: nat, l: Loc, q: Request, c: CcaReq)
    requires Fits(l, d) && Parse(m.world, l.dev.log) == Idle && l.dev.rx.txNbr >= -1 && q == CcaScan(c)
    ensures Good(m, now, d, PrepareCca(m.world, now, Emit(l, Asked(now, q)), c))
  {
    hide ScanTimed, SyncTimed, ReceiveTimed, TxTimed, WithAbort;
  }

  lemma PrepareRxGood(m: Config, now: nat, d: nat, l: Loc, q: Request, r: RxReq)
    requires Fits(l, d) && Parse(m.world, l.dev.log) == Idle && l.dev.rx.txNbr >= -1
    requires (q.Rx? && r == MapRxV1(q.rxV1)) || (q.RxV2? && r == q.rx && RxV2Accepted(r))
    ensures Good(m, now, d, PrepareRx(now, Emit(l, Asked(now, q)), r))
  {
  }

  lemma {:induction false} ImmediateParse(m: Model, now: nat, d: nat, l: Loc, rs: seq<RssiReq>)
    requires Parse(m, l.dev.log).Replying? && Parse(m, l.dev.log).at == now
    ensures var log := ImmediateRssis(m, now, d, l, rs).dev.log;
      Parse(m, log) == Parse(m, l.dev.log) && Drawn(log) == Drawn(l.dev.log)
    decreases |rs|
  {
    if rs != [] {
      var l1 := Measure(m, now, d, l, rs[0].gain, rs[0].radio).0;
      ImmediateParse(m, now, d, Emit(l1, ImmRssi(now)), rs[1..]);
    }
  }

  lemma AnswerParse(m: Model, now: nat, l: Loc, answer: AbortAnswer)
    requires Parse(m, l.dev.log).Replying? && Parse(m, l.dev.log).at == now
    ensures var p, was := AnswerAbort(now, l, answer), Parse(m, l.dev.log).was;
      && (p.ab.Some? ==> !PassedAbort(now, p.ab.value)
                         && Parse(m, p.l.dev.log) == WithAbort(was, now, p.ab.value)
                         && p.l.active == l.active && p.l.halted == l.halted
                         && Drawn(p.l.dev.log) == Drawn(l.dev.log))
      && (p.ab.None? && !p.l.halted ==> Parse(m, p.l.dev.log) == Gone(was, now))
  {
  }

  /** An abort re-evaluation, asked when it may be. */
  lemma PickParse(m: Model, now: nat, d: nat, l: Loc, r: AbortReply)
    requires AskOk(Parse(m, l.dev.log), now)
    ensures var p := PickAbort(m, now, d, l, r);
      && (p.ab.Some? ==> !PassedAbort(now, p.ab.value)
                         && Parse(m, p.l.dev.log) == WithAbort(Parse(m, l.dev.log), now, p.ab.value)
                         && p.l.active == l.active && p.l.halted == l.halted
                         && Drawn(p.l.dev.log) == Drawn(l.dev.log))
      && (p.ab.None? && !p.l.halted ==> Parse(m, p.l.dev.log) == Gone(Parse(m, l.dev.log), now))
  {
    var l1 := Emit(l, AbortAsked(now));
    ImmediateParse(m, now, d, l1, r.immRssi);
    AnswerParse(m, now, ImmediateRssis(m, now, d, l1, r.immRssi), r.answer);
  }

  // ---------------------------------------------------------------- transmissions

  /** The earliest time the schedule looks at. */
  function NextTime(m: Config, u: Txs, t: TxReq): nat
  {
    var notStarted := if m.documented then !u.started else !u.ongoing;
    if notStarted then Min(t.startPacket, TxStop(t))
    else if u.ended then TxStop(t)
    else Min(t.endPacket, TxStop(t))
  }

  /** The next event of a transmission in the air, unless its recheck has been passed over. */
  lemma TxNextTimed(m: Config, now: nat, u: Txs, t: TxReq)
    requires TxShape(t) && TxBits(m, u) && t.startTx <= now <= TxStop(t)
    requires now <= t.ab.recheck || (!m.documented && NextTime(m, u, t) < t.ab.recheck)
    requires (u.started ==> t.startPacket <= now) && (!u.started ==> now <= t.startPacket)
    requires u.ended && !m.documented ==> t.endPacket < now
    requires u.ended && !u.ongoing && !m.documented ==> t.startPacket < t.ab.recheck
    requires Aligned(t) ==> u.ongoing && !u.ended
    ensures var ev := TxNextEvent(m.documented, now, u, t);
      now <= ev.time && TxOnKind(ev.kind) && TxTimed(m, now, u, t, ev)
  {
  }

  lemma TxAbortReevalGood(m: Config, now: nat, d: nat, l: Loc, e: Env)
    requires Fits(l, d) && Timed(m, now, l.txl, d, l.dev) && now == l.dev.ev.time <= TIME_NEVER
    requires l.dev.ev.kind == TxAbortReeval
    ensures Good(m, now, d, TxAbortReevaluated(m, now, d, l, e))
  {
    hide Timed, TxNextEvent, PickAbort, Goes, KeepsAligned, TxBits;
    var p := PickAbort(m.world, now, d, l, e.reply);
    TimedTx(m, now, l.txl, d, l.dev);
    PickParse(m.world, now, d, l, e.reply);
    match p.ab
    case None =>
      TimedGone(m, now, d, Remove(p.l.(txl := p.l.txl.Clear(d))));
    case Some(ab) =>
      var t := l.txl.els[d].tx.(ab := ab);
      TxNextTimed(m, now, l.txl.els[d].used, t);
      TimedOn(m, now, d, TxAbortReevaluated(m, now, d, l, e));
  }

  lemma TimedGone(m: Config, now: nat, d: nat, l: Loc)
    requires Fits(l, d) && now <= TIME_NEVER && l.dev.ev == NO_ENTRY && l.dev.rx.txNbr >= -1
    requires !l.halted ==> Parse(m.world, l.dev.log).Gone? && Parse(m.world, l.dev.log).at == now
    ensures Good(m, now, d, l)
  {
  }

  lemma TimedOn(m: Config, now: nat, d: nat, l: Loc)
    requires Fits(l, d) && TxOnKind(l.dev.ev.kind) && now <= l.dev.ev.time && l.dev.rx.txNbr >= -1
    requires Parse(m.world, l.dev.log) == Sending(l.txl.els[d].tx)
    requires TxTimed(m, now, l.txl.els[d].used, l.txl.els[d].tx, l.dev.ev)
    ensures Good(m, now, d, l)
  {
    hide TxTimed;
  }

  lemma TxPacketEndGood(m: Config, now: nat, d: nat, l: Loc)
    requires Fits(l, d) && Timed(m, now, l.txl, d, l.dev) && now == l.dev.ev.time
    requires l.dev.ev.kind == TxPacketEnd && !l.halted
    ensures Good(m, now, d, TxPacketEnded(m, now, d, l))
  {
    TxNextTimed(m, now, l.txl.els[d].used.(ongoing := false, ended := true), l.txl.els[d].tx);
  }

  lemma TxStartGood(m: Config, now: nat, d: nat, l: Loc)
    requires Fits(l, d) && Timed(m, now, l.txl, d, l.dev) && now == l.dev.ev.time
    requires l.dev.ev.kind == TxStart && !l.halted
    ensures Good(m, now, d, TxSchedule(m, now, d, TxStarted(now, d, l)))
  {
    var el := TxStarted(now, d, l).txl.els[d];
    TxNextTimed(m, now, el.used, el.tx);
  }

  lemma TxPacketStartGood(m: Config, now: nat, d: nat, l: Loc)
    requires Fits(l, d) && Timed(m, now, l.txl, d, l.dev) && now == l.dev.ev.time
    requires l.dev.ev.kind == TxPacketStart && !l.halted
    requires !FallsFrom(m, l.txl.els[d].used, l.txl.els[d].tx, l.dev.ev)
    ensures Good(m, now, d, TxSchedule(m, now, d, l.(txl := l.txl.StartPacket(d))))
  {
    var el := l.txl.StartPacket(d).els[d];
    TxNextTimed(m, now, el.used, el.tx);
  }

  lemma TxEndGood(m: Config, now: nat, d: nat, l: Loc, e: Env)
    requires Fits(l, d) && Timed(m, now, l.txl, d, l.dev) && now == l.dev.ev.time <= TIME_NEVER
    requires l.dev.ev.kind == TxEnd
    ensures Good(m, now, d, TxEnded(m.world, now, d, l, e))
  {
    HandleNextGood(m, now, d, Emit(l.(txl := l.txl.Clear(d)), TxReply(now)), e.next);
  }

  // ---------------------------------------------------------------- waits and RSSI

  lemma WaitGood(m: Config, now: nat, d: nat, l: Loc, e: Env)
    requires Fits(l, d) && Timed(m, now, l.txl, d, l.dev) && now == l.dev.ev.time <= TIME_NEVER
    requires l.dev.ev.kind == WaitDone
    ensures Good(m, now, d, WaitFinished(m.world, now, d, l, e))
  {
    HandleNextGood(m, now, d, Emit(l, WaitReply(now)), e.next);
  }

  lemma RssiGood(m: Config, now: nat, d: nat, l: Loc, e: Env)
    requires Fits(l, d) && Timed(m, now, l.txl, d, l.dev) && now == l.dev.ev.time <= TIME_NEVER
    requires l.dev.ev.kind == RssiMeas
    ensures Good(m, now, d, RssiMeasured(m.world, now, d, l, e))
  {
    var l1 := Measure(m.world, now, d, l, l.dev.rssi.gain, l.dev.rssi.radio).0;
    HandleNextGood(m, now, d, Emit(l1, RssiReply(now)), e.next);
  }

  // ---------------------------------------------------------------- receptions: scanning

  /** A reception which scans, or synchronizes, at `now`, before or after a re-evaluation. */
  ghost predicate ScanningNow(m: Model, now: nat, l: Loc)
  {
    var p := Parse(m, l.dev.log);
    && (p.Scanning? || p.Syncing?)
    && ScanTimed(l.dev.rx, p.r, p.scanEnd, now)
    && p.r.start <= now && LostBefore(p.r, p.lost, now) && Pacing(p, l.dev)
    && now <= l.dev.ev.time && l.dev.rx.txNbr >= -1
  }

  /** The same session, but for the abort times and the end of the scan. */
  ghost predicate SameScan(p: Proto, q: Proto)
  {
    || (p.Scanning? && q.Scanning? && p.lost == q.lost && q.r == p.r.(ab := q.r.ab))
    || (p.Syncing? && q.Syncing? && q == p.(r := p.r.(ab := q.r.ab), scanEnd := q.scanEnd))
  }

  lemma RecheckScan(m: Model, now: nat, d: nat, l: Loc, e: Env)
    requires Fits(l, d) && ScanningNow(m, now, l) && now <= TIME_NEVER
    ensures var c := RxRecheck(m, now, d, l, e, true);
      && (c.quit && !c.l.halted ==> Parse(m, c.l.dev.log).Gone? && Parse(m, c.l.dev.log).at == now)
      && (!c.quit ==>
            && ScanningNow(m, now, c.l) && now <= c.l.dev.rx.req.ab.recheck
            && SameScan(Parse(m, l.dev.log), Parse(m, c.l.dev.log))
            && c.l.active == l.active && c.l.halted == l.halted
            && c.l.dev.rx == l.dev.rx.(req := l.dev.rx.req.(ab := c.l.dev.rx.req.ab), scanEnd := c.l.dev.rx.scanEnd))
  {
    hide PickAbort, Pacing, Goes, WithAbort, CutScan, LostBefore;
    if now >= l.dev.rx.req.ab.recheck {
      var p := PickAbort(m, now, d, l, e.reply);
      PickParse(m, now, d, l, e.reply);
      if p.ab.Some? {
        NewAbortScan(m, now, l, p.l, p.ab.value);
      }
    }
  }

  /** The new abort times of a reception which scans or synchronizes. */
  lemma NewAbortScan(m: Model, now: nat, l: Loc, k: Loc, ab: Abort)
    requires ScanningNow(m, now, l) && !PassedAbort(now, ab)
    requires Parse(m, k.dev.log) == WithAbort(Parse(m, l.dev.log), now, ab) && Drawn(k.dev.log) == Drawn(l.dev.log)
    requires k.dev.ev == l.dev.ev && k.dev.rx == l.dev.rx
    ensures var rx := k.dev.rx;
      var r := SetRx(k, rx.(req := rx.req.(ab := ab), scanEnd := CutScan(rx.scanEnd, ab.abort)));
      ScanningNow(m, now, r) && SameScan(Parse(m, l.dev.log), Parse(m, r.dev.log))
  {
    hide CalcOf, Ticks, Samples, Parse, Drawn;
  }

  lemma EnqueueGood(m: Config, now: nat, d: nat, l: Loc)
    requires Fits(l, d) && ScanningNow(m.world, now, l) && Parse(m.world, l.dev.log).Scanning?
    requires now <= l.dev.rx.req.ab.recheck && !l.dev.rx.prelocked
    ensures Good(m, now, d, EnqueueSearch(l))
  {
  }

  /** Locking to a transmission whose packet started recently enough. */
  lemma FoundGood(m: Config, now: nat, d: nat, l: Loc, e: Env)
    requires Fits(l, d) && ScanningNow(m.world, now, l) && Parse(m.world, l.dev.log).Scanning?
    requires now <= l.dev.rx.req.ab.recheck && 0 <= l.dev.rx.txNbr < |l.txl.els| && l.dev.rx.txNbr != d
    requires var sp := l.txl.els[l.dev.rx.txNbr].tx.startPacket; sp <= now <= sp + l.dev.rx.req.truncation
    ensures Good(m, now, d, FoundTx(m.world, now, d, l, e))
  {
    var rx := l.dev.rx;
    var t := l.txl.els[rx.txNbr].tx;
    var l1 := if rx.prelocked then l
              else l.(dev := l.dev.(rec := AfterSyncCheck(m.world, l.dev.rec, l.txl.ctr, Active(l.txl.els), rx.req, t,
                                                          rx.txNbr, d, now)));
    if rx.prelocked || e.synched {
      LockGood(m, now, d, l1, t);
    } else {
      EnqueueGood(m, now, d, l1);
    }
  }

  lemma LockGood(m: Config, now: nat, d: nat, l: Loc, t: TxReq)
    requires Fits(l, d) && ScanningNow(m.world, now, l) && Parse(m.world, l.dev.log).Scanning?
    requires now <= l.dev.rx.req.ab.recheck && 0 <= l.dev.rx.txNbr && l.dev.rx.txNbr != d
    requires t.startPacket <= now <= t.startPacket + l.dev.rx.req.truncation
    ensures Good(m, now, d, Lock(l, now, t))
  {
    hide CalcOf, Ticks, Samples, CcaTimed, ReceiveTimed, TxTimed, Goes, KeepsAligned;
    var p := Parse(m.world, l.dev.log);
    assert (l.dev.rx.txNbr as nat, t.startPacket as nat) !in p.lost;
  }

  /** Packets in the air have started. */
  ghost predicate PacketsStarted(txl: TxL, now: nat)
  {
    forall j :: 0 <= j < |txl.els| && txl.els[j].used.ongoing ==> txl.els[j].tx.startPacket <= now
  }

  lemma SearchFromGood(m: Config, now: nat, d: nat, l: Loc, e: Env)
    requires Fits(l, d) && ScanningNow(m.world, now, l) && Parse(m.world, l.dev.log).Scanning?
    requires now <= l.dev.rx.req.ab.recheck && PacketsStarted(l.txl, now) && !l.txl.els[d].used.On()
    ensures Good(m, now, d, SearchFrom(m.world, now, d, l, e))
  {
    hide FoundTx, CalcOf, Ticks, Samples, LostBefore, Good, Goes, KeepsAligned;
    var was := l.dev.rx.prelocked;
    var rx := if was then PrelockChecked(now, l.txl, l.dev.rx) else l.dev.rx;
    var j := if was then rx.txNbr else FindFitting(now, l.txl, rx);
    if j >= 0 {
      FoundGood(m, now, d, SetRx(l, rx.(txNbr := j, searching := false)), e);
    } else {
      EnqueueGood(m, now, d, SetRx(l, rx));
    }
  }

  lemma SearchStartGood(m: Config, now: nat, d: nat, l: Loc, e: Env)
    requires Fits(l, d) && Timed(m, now, l.txl, d, l.dev) && now == l.dev.ev.time <= TIME_NEVER
    requires l.dev.ev.kind == RxSearchStart && PacketsStarted(l.txl, now) && !l.txl.els[d].used.On()
    ensures Good(m, now, d, SearchStarted(m.world, now, d, l, e))
  {
    var c := RxRecheck(m.world, now, d, l, e, true);
    RecheckScan(m.world, now, d, l, e);
    if !c.quit {
      SearchFromGood(m, now, d, c.l, e);
    }
  }

  /** The scan is over: one microsecond after its end. */
  lemma ScanEndedGood(m: Config, now: nat, d: nat, l: Loc, e: Env)
    requires Fits(l, d) && ScanningNow(m.world, now, l) && now > l.dev.rx.scanEnd && now <= TIME_NEVER
    requires now <= l.dev.rx.req.ab.recheck
    ensures Good(m, now, d, ScanEnded(m.world, now, d, l, e))
  {
    var rx := l.dev.rx;
    var l1 := if rx.req.ab.abort != now then Measure(m.world, now, d, l, rx.req.gain, rx.req.radio).0 else l;
    HandleNextGood(m, now, d, Emit(SetRx(l1, rx.(searching := false)), RxReply(now, NoSync, [])), e.next);
  }

  lemma SearchReevalGood(m: Config, now: nat, d: nat, l: Loc, e: Env)
    requires Fits(l, d) && Timed(m, now, l.txl, d, l.dev) && now == l.dev.ev.time <= TIME_NEVER
    requires l.dev.ev.kind == RxSearchReeval
    ensures Good(m, now, d, SearchReevaluated(m.world, now, d, l, e))
  {
    var c := RxRecheck(m.world, now, d, l, e, true);
    RecheckScan(m.world, now, d, l, e);
    if !c.quit {
      if now > c.l.dev.rx.scanEnd {
        ScanEndedGood(m, now, d, c.l, e);
      } else {
        EnqueueGood(m, now, d, c.l);
      }
    }
  }

  // ---------------------------------------------------------------- receptions: synchronizing

  /** One more microsecond of errors. */
  lemma DrawSums(m: Model, now: nat, d: nat, l: Loc, e: Env)
    requires l.dev.rx.biterrors == Sum(l.dev.rx.errs)
    ensures var rx, was := DrawErrors(m, now, d, l, e).dev.rx, l.dev.rx.errs;
      && |rx.errs| == |was| + 1 && rx.errs[..|was|] == was
      && rx.biterrors == Sum(rx.errs)
  {
    var was := l.dev.rx.errs;
    var rx := DrawErrors(m, now, d, l, e).dev.rx;
    assert rx.errs[..|was|] == was;
  }

  /** And one more of the sampling pattern. */
  lemma DrawPaced(m: Model, now: nat, d: nat, l: Loc, e: Env, k: nat)
    requires Paced(l.dev.rx, k)
    ensures Paced(DrawErrors(m, now, d, l, e).dev.rx, k + 1)
  {
    hide CalcOf, AfterBitErrors, Active;
    NextTick(CalcOf(l.dev.rx.req.errorRate).value, k);
  }

  /** A reception which synchronizes, at an event at `now`. */
  ghost predicate SyncingNow(m: Model, now: nat, d: nat, l: Loc)
  {
    && ScanningNow(m, now, l) && l.dev.rx.txNbr != d
    && Parse(m, l.dev.log).Syncing? && SyncTimed(l.dev.rx, Parse(m, l.dev.log), now)
  }

  lemma SyncGood(m: Config, now: nat, d: nat, l: Loc, e: Env)
    requires Fits(l, d) && Timed(m, now, l.txl, d, l.dev) && now == l.dev.ev.time <= TIME_NEVER
    requires l.dev.ev.kind == RxSync && !l.halted
    ensures Good(m, now, d, Synchronized(m.world, now, d, l, e))
  {
    hide CcaTimed, LostBefore, Goes, KeepsAligned, AfterRssi, AfterSyncCheck, AfterBitErrors;
    var c := RxRecheck(m.world, now, d, l, e, true);
    RecheckScan(m.world, now, d, l, e);
    if !c.quit {
      SyncFromGood(m, now, d, c.l, e);
    }
  }

  lemma SyncFromGood(m: Config, now: nat, d: nat, l: Loc, e: Env)
    requires Fits(l, d) && SyncingNow(m.world, now, d, l) && now <= l.dev.rx.req.ab.recheck && now <= TIME_NEVER
    ensures Good(m, now, d, SyncFrom(m.world, now, d, l, e))
  {
    var rx := l.dev.rx;
    var p := Parse(m.world, l.dev.log);
    if now > rx.scanEnd {
      ScanEndedGood(m, now, d, l, e);
    } else if now < rx.syncStart {
    } else if !ElAt(l.txl, rx.txNbr).used.ongoing {
      LossGood(m, now, d, l, true);
    } else {
      SyncSampledGood(m, now, d, l, e);
    }
  }

  /** Losing the synchronization: the search starts again in the next microsecond. */
  lemma LossGood(m: Config, now: nat, d: nat, l: Loc, gone: bool)
    requires Fits(l, d) && ScanningNow(m.world, now, l) && Parse(m.world, l.dev.log).Syncing?
    requires now <= l.dev.rx.req.ab.recheck
    requires var p := Parse(m.world, l.dev.log);
      LossOk(p.r, p.scanEnd, p.sp, now, gone, l.dev.rx.errs)
    ensures Good(m, now, d, Add(Emit(l, SyncLost(now, gone, l.dev.rx.errs)), now + 1, RxSearchStart))
  {
    var p := Parse(m.world, l.dev.log);
    var r := Add(Emit(l, SyncLost(now, gone, l.dev.rx.errs)), now + 1, RxSearchStart);
    var q := Parse(m.world, r.dev.log);
    assert q == Scanning(p.r, p.scanEnd, p.lost + {(p.tx, p.sp)});
    forall x | x in q.lost
      ensures x.1 + p.r.truncation < now + 1
    {
      if x in p.lost {
      } else {
        assert x == (p.tx, p.sp);
      }
    }
  }

  /** A reception which synchronizes, once the errors of the microsecond `now` have been added. */
  ghost predicate SyncDrawn(m: Model, now: nat, d: nat, l: Loc)
  {
    var p, rx := Parse(m, l.dev.log), l.dev.rx;
    && ScanningNow(m, now, l) && rx.txNbr != d && p.Syncing? && p.tx == rx.txNbr
    && rx.syncStart == SyncStart(p.r, p.sp) <= now <= rx.syncEnd == SyncEnd(p.r, p.sp) && now <= rx.scanEnd
    && rx.headerEnd == rx.syncEnd + p.r.header && rx.payloadEnd == p.ep
    && |rx.errs| == now - rx.syncStart + 1
    && rx.biterrors == Sum(rx.errs) && Sum(rx.errs[..|rx.errs| - 1]) <= p.r.syncThreshold
    && now <= p.r.ab.recheck
  }

  lemma SyncIsDrawn(m: Model, now: nat, d: nat, l: Loc, e: Env)
    requires SyncingNow(m, now, d, l) && now <= l.dev.rx.req.ab.recheck
    requires l.dev.rx.syncStart <= now <= l.dev.rx.scanEnd
    ensures SyncDrawn(m, now, d, DrawErrors(m, now, d, l, e))
  {
    hide Paced, LostBefore;
    DrawSums(m, now, d, l, e);
    DrawPaced(m, now, d, l, e, Drawn(l.dev.log) + |l.dev.rx.errs|);
  }

  lemma SyncGoesOn(m: Config, now: nat, d: nat, l: Loc)
    requires Fits(l, d) && SyncDrawn(m.world, now, d, l) && now <= TIME_NEVER
    requires now < l.dev.rx.syncEnd && l.dev.rx.biterrors <= l.dev.rx.req.syncThreshold
    ensures Good(m, now, d, Add(l, now + 1, RxSync))
  {
    hide LostBefore, Paced;
  }

  lemma SyncSampledGood(m: Config, now: nat, d: nat, l: Loc, e: Env)
    requires Fits(l, d) && SyncingNow(m.world, now, d, l) && now <= l.dev.rx.req.ab.recheck && now <= TIME_NEVER
    requires l.dev.rx.syncStart <= now <= l.dev.rx.scanEnd
    ensures Good(m, now, d, SyncSampled(m.world, now, d, l, e))
  {
    hide Good, DrawErrors, OfferPacket, LostBefore, Pacing;
    var l1 := DrawErrors(m.world, now, d, l, e);
    var rx := l1.dev.rx;
    SyncIsDrawn(m.world, now, d, l, e);
    if rx.biterrors > rx.req.syncThreshold {
      LossGood(m, now, d, l1, false);
    } else if now >= rx.syncEnd {
      OfferGood(m, now, d, l1, e);
    } else {
      SyncGoesOn(m, now, d, l1);
    }
  }

  lemma OfferGood(m: Config, now: nat, d: nat, l: Loc, e: Env)
    requires Fits(l, d) && ScanningNow(m.world, now, l) && Parse(m.world, l.dev.log).Syncing? && now <= TIME_NEVER
    requires now <= l.dev.rx.req.ab.recheck
    requires var p := Parse(m.world, l.dev.log);
      && FoundOk(p.r, p.scanEnd, p.sp, now, l.dev.rx.errs)
      && l.dev.rx.headerEnd == now + p.r.header && l.dev.rx.payloadEnd == p.ep
    ensures Good(m, now, d, OfferPacket(m.world, now, d, l, e))
  {
    hide Decided, LostBefore, Good, LossOk, AfterRssi;
    var rx := l.dev.rx;
    var l1 := Measure(m.world, now, d, l, rx.req.gain, rx.req.radio).0;
    DecidedGood(m, now, d, Emit(SetRx(l1, rx.(biterrors := 0, errs := [])), AddressFound(now, rx.errs)), e);
  }

  lemma DecidedGood(m: Config, now: nat, d: nat, l: Loc, e: Env)
    requires Fits(l, d) && now <= l.dev.ev.time && now <= TIME_NEVER
    requires var p, rx := Parse(m.world, l.dev.log), l.dev.rx;
      && p.Offered? && p.found == now && p.r == rx.req && now <= p.r.ab.abort && now <= p.r.ab.recheck
      && rx.headerEnd == now + p.r.header && rx.payloadEnd == p.ep && rx.txNbr >= -1
      && rx.errs == [] && rx.biterrors == 0 && Pacing(p, l.dev)
    ensures Good(m, now, d, Decided(m.world, now, d, l, e))
  {
    hide HandleNext, Accepted, CcaTimed, ScanTimed, SyncTimed, ReceiveTimed, TxTimed, LossOk, FoundOk, VerdictOk, CcaOk;
    match e.cont
    case RxStop => HandleNextGood(m, now, d, Emit(l, Stopped(now)), e.next);
    case Cont => AcceptedGood(m, now, d, Emit(l, Continued(now)));
    case ContV2(ab) =>
      var l1 := Emit(SetRx(l, l.dev.rx.(req := l.dev.rx.req.(ab := ab))), ContinuedV2(now, ab));
      if !PassedAbort(now, ab) {
        AcceptedGood(m, now, d, l1);
      }
    case _ =>
  }

  lemma AcceptedGood(m: Config, now: nat, d: nat, l: Loc)
    requires Fits(l, d)
    requires var p := Parse(m.world, l.dev.log);
      && p.Receiving? && p.r == l.dev.rx.req && p.found == now
      && l.dev.rx.headerEnd == now + p.r.header && l.dev.rx.payloadEnd == p.ep && Pacing(p, l.dev)
    requires l.dev.rx.errs == [] && l.dev.rx.biterrors == 0 && l.dev.rx.txNbr >= -1
    requires now <= l.dev.rx.req.ab.recheck && now <= l.dev.rx.req.ab.abort
    ensures Good(m, now, d, Accepted(now, l))
  {
  }

  // ---------------------------------------------------------------- receptions: header and payload

  ghost predicate ReceivingNow(m: Model, now: nat, l: Loc)
  {
    var p := Parse(m, l.dev.log);
    && p.Receiving? && Pacing(p, l.dev) && ReceiveTimed(l.dev.rx, p, now)
    && now == l.dev.ev.time && l.dev.rx.txNbr >= -1
  }

  lemma RecheckReceive(m: Model, now: nat, d: nat, l: Loc, e: Env)
    requires Fits(l, d) && ReceivingNow(m, now, l)
    ensures var c := RxRecheck(m, now, d, l, e, false);
      && (c.quit && !c.l.halted ==> Parse(m, c.l.dev.log).Gone? && Parse(m, c.l.dev.log).at == now)
      && (!c.quit ==>
            && ReceivingNow(m, now, c.l) && now <= c.l.dev.rx.req.ab.recheck
            && c.l.active == l.active && c.l.halted == l.halted
            && Parse(m, c.l.dev.log) == Parse(m, l.dev.log).(r := c.l.dev.rx.req)
            && c.l.dev.rx == l.dev.rx.(req := l.dev.rx.req.(ab := c.l.dev.rx.req.ab)))
  {
    hide PickAbort, Pacing, Goes, WithAbort, ReceiveTimed;
    ReceptionTimes(l.dev.rx, Parse(m, l.dev.log), now);
    if now >= l.dev.rx.req.ab.recheck {
      var p := PickAbort(m, now, d, l, e.reply);
      PickParse(m, now, d, l, e.reply);
      if p.ab.Some? {
        NewAbortReceive(m, now, l, p.l, p.ab.value);
      }
    }
  }

  /** The new abort times of an accepted reception. */
  lemma NewAbortReceive(m: Model, now: nat, l: Loc, k: Loc, ab: Abort)
    requires ReceivingNow(m, now, l) && !PassedAbort(now, ab)
    requires Parse(m, k.dev.log) == WithAbort(Parse(m, l.dev.log), now, ab) && Drawn(k.dev.log) == Drawn(l.dev.log)
    requires k.dev.ev == l.dev.ev && k.dev.rx == l.dev.rx
    ensures var r := SetRx(k, k.dev.rx.(req := k.dev.rx.req.(ab := ab)));
      ReceivingNow(m, now, r) && Parse(m, r.dev.log) == Parse(m, l.dev.log).(r := r.dev.rx.req)
  {
    hide CalcOf, Ticks, Samples, Parse, Drawn, Sum;
  }

  lemma ReceptionTimes(rx: RxStatus, p: Proto, now: nat)
    requires p.Receiving? && ReceiveTimed(rx, p, now)
    ensures p.r == rx.req && p.found <= now <= p.r.ab.recheck + 1
  {
  }

  lemma RxFinishedGood(m: Config, now: nat, d: nat, l: Loc, e: Env, result: RxResult)
    requires Fits(l, d) && now <= l.dev.ev.time && now <= TIME_NEVER && l.dev.rx.txNbr >= -1
    requires var p := Parse(m.world, l.dev.log);
      p.Receiving? && VerdictOk(p.r, p.found, p.ep, now, result, l.dev.rx.errs)
    requires now <= Parse(m.world, l.dev.log).r.ab.recheck
    ensures Good(m, now, d, RxFinished(m.world, now, d, l, e, result))
  {
    HandleNextGood(m, now, d, Emit(l, RxReply(now, result, l.dev.rx.errs)), e.next);
  }

  /** A reception once the errors of the microsecond `now` have been added. */
  ghost predicate SampledNow(m: Model, now: nat, l: Loc)
  {
    var p, rx := Parse(m, l.dev.log), l.dev.rx;
    && p.Receiving? && Pacing(p, l.dev) && p.r == rx.req && rx.txNbr >= -1 && now == l.dev.ev.time
    && rx.headerEnd == HeaderEnd(p.r, p.found) && rx.payloadEnd == p.ep
    && First(p.r, p.found) <= now && |rx.errs| == now - First(p.r, p.found) + 1
    && rx.biterrors == Sum(rx.errs)
    && now <= p.r.ab.recheck && now <= AbortEnd(p.r, p.found)
  }

  lemma SampledIsNow(m: Model, now: nat, d: nat, l: Loc, e: Env)
    requires ReceivingNow(m, now, l) && now <= l.dev.rx.req.ab.recheck
    ensures SampledNow(m, now, DrawErrors(m, now, d, l, e))
  {
    DrawSums(m, now, d, l, e);
    DrawPaced(m, now, d, l, e, Drawn(l.dev.log) + |l.dev.rx.errs|);
  }

  lemma HeaderFromGood(m: Config, now: nat, d: nat, l: Loc, e: Env)
    requires Fits(l, d) && SampledNow(m.world, now, l) && now <= TIME_NEVER
    requires Parse(m.world, l.dev.log).r.header > 0 && now <= l.dev.rx.headerEnd
    ensures Good(m, now, d, HeaderFrom(m.world, now, d, l, e))
  {
    hide RxFinished, LostBefore, CcaTimed, ScanTimed, SyncTimed, TxTimed, CalcOf, Ticks, Samples;
    var rx := l.dev.rx;
    var p := Parse(m.world, l.dev.log);
    if now == rx.headerEnd {
      assert rx.errs[..|rx.errs|] == rx.errs;
      assert HeaderErrors(p.r, p.found, rx.errs) == Sum(rx.errs);
    }
    if (now >= rx.headerEnd && rx.biterrors > rx.req.headerThreshold) || now >= rx.req.ab.abort {
      RxFinishedGood(m, now, d, l, e, HeaderError);
    }
  }

  lemma HeaderGood(m: Config, now: nat, d: nat, l: Loc, e: Env)
    requires Fits(l, d) && Timed(m, now, l.txl, d, l.dev) && now == l.dev.ev.time <= TIME_NEVER
    requires l.dev.ev.kind == RxHeader && !l.halted
    ensures Good(m, now, d, HeaderReceived(m.world, now, d, l, e))
  {
    hide DrawErrors, HeaderFrom, PickAbort, HeaderErrors;
    var c := RxRecheck(m.world, now, d, l, e, false);
    RecheckReceive(m.world, now, d, l, e);
    if !c.quit {
      SampledIsNow(m.world, now, d, c.l, e);
      HeaderFromGood(m, now, d, DrawErrors(m.world, now, d, c.l, e), e);
    }
  }

  lemma PayloadFromGood(m: Config, now: nat, d: nat, l: Loc, e: Env)
    requires Fits(l, d) && SampledNow(m.world, now, l) && now <= TIME_NEVER
    requires var p := Parse(m.world, l.dev.log);
      && PayloadStart(p.r, p.found) <= now <= PayloadEnd(p.r, p.found, p.ep)
      && (p.r.header > 0 ==> HeaderErrors(p.r, p.found, l.dev.rx.errs) <= p.r.headerThreshold)
    ensures Good(m, now, d, PayloadFrom(m.world, now, d, l, e))
  {
    hide RxFinished, LostBefore, CcaTimed, ScanTimed, SyncTimed, TxTimed, CalcOf, Ticks, Samples;
    var rx := l.dev.rx;
    if (now >= rx.payloadEnd && rx.biterrors > 0) || now >= rx.req.ab.abort {
      RxFinishedGood(m, now, d, l, e, ContentError);
    } else if now >= rx.payloadEnd {
      RxFinishedGood(m, now, d, l, e, RxOk);
    }
  }

  lemma PayloadGood(m: Config, now: nat, d: nat, l: Loc, e: Env)
    requires Fits(l, d) && Timed(m, now, l.txl, d, l.dev) && now == l.dev.ev.time <= TIME_NEVER
    requires l.dev.ev.kind == RxPayload && !l.halted
    ensures Good(m, now, d, PayloadReceived(m.world, now, d, l, e))
  {
    hide DrawErrors, PayloadFrom, PickAbort, HeaderErrors, PayloadStart, PayloadEnd, AbortEnd;
    var c := RxRecheck(m.world, now, d, l, e, false);
    RecheckReceive(m.world, now, d, l, e);
    if !c.quit {
      var p := Parse(m.world, l.dev.log);
      AbortUnrelated(p.r, p.found, p.ep, l.dev.rx.errs, c.l.dev.rx.req.ab);
      PayloadSampleGood(m, now, d, c.l, e);
    }
  }

  /** The abort times decide neither when a packet is judged nor which errors its header had. */
  lemma AbortUnrelated(r: RxReq, found: nat, ep: nat, errs: seq<nat>, ab: Abort)
    ensures HeaderErrors(r.(ab := ab), found, errs) == HeaderErrors(r, found, errs)
    ensures PayloadStart(r.(ab := ab), found) == PayloadStart(r, found)
    ensures PayloadEnd(r.(ab := ab), found, ep) == PayloadEnd(r, found, ep)
  {
  }

  lemma PayloadSampleGood(m: Config, now: nat, d: nat, l: Loc, e: Env)
    requires Fits(l, d) && ReceivingNow(m.world, now, l) && now <= l.dev.rx.req.ab.recheck && now <= TIME_NEVER
    requires var p := Parse(m.world, l.dev.log);
      && PayloadStart(p.r, p.found) <= now <= PayloadEnd(p.r, p.found, p.ep)
      && (p.r.header > 0 ==> HeaderErrors(p.r, p.found, l.dev.rx.errs) <= p.r.headerThreshold)
    ensures Good(m, now, d, PayloadFrom(m.world, now, d, DrawErrors(m.world, now, d, l, e), e))
  {
    hide PayloadFrom;
    var l1 := DrawErrors(m.world, now, d, l, e);
    var p := Parse(m.world, l1.dev.log);
    SampledIsNow(m.world, now, d, l, e);
    DrawSums(m.world, now, d, l, e);
    if p.r.header > 0 {
      HeaderPrefix(p.r, p.found, l.dev.rx.errs, l1.dev.rx.errs);
    }
    PayloadFromGood(m, now, d, l1, e);
  }

  /** Payload samples do not change the errors of the header. */
  lemma HeaderPrefix(r: RxReq, found: nat, errs: seq<nat>, more: seq<nat>)
    requires |errs| <= |more| && more[..|errs|] == errs
    requires HeaderEnd(r, found) - First(r, found) + 1 <= |errs|
    ensures HeaderErrors(r, found, more) == HeaderErrors(r, found, errs)
  {
    var k := HeaderEnd(r, found) - First(r, found) + 1;
    if 0 <= k {
      assert more[..k] == errs[..k];
    }
  }

  // ---------------------------------------------------------------- CCA

  ghost predicate AssessingNow(m: Model, now: nat, l: Loc)
  {
    var p := Parse(m, l.dev.log);
    && p.Assessing? && now == l.dev.ev.time && l.dev.rx.txNbr >= -1
    && p.c == l.dev.cca.req && p.scanEnd == l.dev.cca.scanEnd && p.c.period > 0 && p.c.start >= 1
    && p.c.start <= now <= l.dev.cca.nextMeas
    && l.dev.cca.nextMeas == MeasTime(p.c, |l.dev.cca.samples|)
    && p.c.start <= p.scanEnd + 1
    && (|l.dev.cca.samples| > 0 ==> now <= p.scanEnd)
    && (|l.dev.cca.samples| == 0 ==> now == p.c.start)
    && (|l.dev.cca.samples| > 0 ==> MeasTime(p.c, |l.dev.cca.samples| - 1) <= now)
    && (forall k :: 0 <= k < |l.dev.cca.samples| ==> l.dev.cca.samples[k].at == MeasTime(p.c, k))
    && (forall k :: 0 <= k < |l.dev.cca.samples| ==> !StopsScan(m, p.c, l.dev.cca.samples[k]))
    && Summarizes(m, p.c, l.dev.cca.done, l.dev.cca.samples)
  }

  lemma RecheckCca(m: Model, now: nat, d: nat, l: Loc, e: Env)
    requires Fits(l, d) && AssessingNow(m, now, l) && now <= l.dev.cca.req.ab.recheck
    ensures var c := CcaRecheck(m, now, d, l, e);
      && (c.quit && !c.l.halted ==> Parse(m, c.l.dev.log).Gone? && Parse(m, c.l.dev.log).at == now)
      && (!c.quit ==> AssessingNow(m, now, c.l) && now <= c.l.dev.cca.req.ab.recheck)
  {
    hide PickAbort;
    if now >= l.dev.cca.req.ab.recheck {
      PickParse(m, now, d, l, e.reply);
    }
  }

  lemma SampleGood(m: Model, now: nat, d: nat, l: Loc)
    requires Fits(l, d) && AssessingNow(m, now, l) && now == l.dev.cca.nextMeas
    ensures var r := CcaSample(m, now, d, l);
      && r.dev == l.dev.(rec := r.dev.rec, cca := r.dev.cca) && r.active == l.active && r.halted == l.halted
      && SampledCca(m, now, r.dev.cca, l.dev.cca.req, l.dev.cca.scanEnd)
  {
    var req := l.dev.cca.req;
    var s := Sample(now, Measure(m, now, d, l, req.gain, req.radio).1, FindFittingCca(l.txl, req) >= 0);
    SampledOk(m, now, l, s);
  }

  lemma SampledOk(m: Model, now: nat, l: Loc, s: Sample)
    requires AssessingNow(m, now, l) && now == l.dev.cca.nextMeas && s.at == now
    ensures SampledCca(m, now, CcaSampled(m, l.dev.cca, s), l.dev.cca.req, l.dev.cca.scanEnd)
  {
    var cca, after := l.dev.cca, CcaSampled(m, l.dev.cca, s);
    var n := |cca.samples|;
    SummarizeOne(m, cca, s);
    MeasNext(cca.req, n);
    SampledTimes(m, cca, s);
    assert after.samples[n] == s;
  }

  /** The new measurement is in its place, and none before it stopped the scan. */
  lemma SampledTimes(m: Model, cca: CcaStatus, s: Sample)
    requires s.at == MeasTime(cca.req, |cca.samples|)
    requires forall k :: 0 <= k < |cca.samples| ==> cca.samples[k].at == MeasTime(cca.req, k)
    requires forall k :: 0 <= k < |cca.samples| ==> !StopsScan(m, cca.req, cca.samples[k])
    ensures var ss := CcaSampled(m, cca, s).samples;
      && |ss| == |cca.samples| + 1
      && (forall k :: 0 <= k < |ss| ==> ss[k].at == MeasTime(cca.req, k))
      && (forall k :: 0 <= k < |ss| - 1 ==> !StopsScan(m, cca.req, ss[k]))
  {
    var ss := CcaSampled(m, cca, s).samples;
    forall k | 0 <= k < |ss|
      ensures ss[k].at == MeasTime(cca.req, k) && (k < |ss| - 1 ==> !StopsScan(m, cca.req, ss[k]))
    {
      if k < |ss| - 1 {
        assert ss[k] == cca.samples[k];
      }
    }
  }

  /** A scan which has measured at `now`, or since its last event was not due to; `scanEnd` is the
      end set by the request and the aborts. */
  ghost predicate SampledCca(m: Model, now: nat, cca: CcaStatus, c: CcaReq, scanEnd: nat)
  {
    var n := |cca.samples|;
    && c == cca.req && c.period > 0 && n > 0 && c.start >= 1 && c.start <= now && c.start <= scanEnd + 1
    && cca.nextMeas == MeasTime(c, n) > now >= MeasTime(c, n - 1)
    && (forall k :: 0 <= k < n ==> cca.samples[k].at == MeasTime(c, k))
    && (forall k :: 0 <= k < n - 1 ==> !StopsScan(m, c, cca.samples[k]))
    && (if StopsScan(m, c, cca.samples[n - 1]) then cca.scanEnd == now == cca.samples[n - 1].at
        else cca.scanEnd == scanEnd)
    && (now <= scanEnd || now == c.start)
    && Summarizes(m, c, cca.done, cca.samples)
  }

  /** The measurements due up to now. */
  lemma SampleCount(c: CcaReq, n: nat, now: nat)
    requires c.period > 0 && n > 0 && MeasTime(c, n - 1) <= now < MeasTime(c, n)
    ensures (now - c.start) / c.period + 1 == n
  {
    MeasNext(c, n - 1);
    DivUnique(now - c.start, n - 1, c.period, now - c.start - (n - 1) * c.period);
  }

  lemma MeasNext(c: CcaReq, k: nat)
    ensures MeasTime(c, k + 1) == MeasTime(c, k) + c.period
  {
    assert (k + 1) * c.period == k * c.period + c.period;
  }

  lemma SummarizeOne(m: Model, cca: CcaStatus, s: Sample)
    requires Summarizes(m, cca.req, cca.done, cca.samples)
    ensures Summarizes(m, cca.req, CcaSampled(m, cca, s).done, CcaSampled(m, cca, s).samples)
  {
    var c, before, after := cca.req, cca.samples, cca.samples + [s];
    var was, done := cca.done, CcaSampled(m, cca, s).done;
    assert after[|before|] == s && forall x :: x in after <==> x in before || x == s;
  }

  lemma CcaGood(m: Config, now: nat, d: nat, l: Loc, e: Env)
    requires Fits(l, d) && Timed(m, now, l.txl, d, l.dev) && now == l.dev.ev.time <= TIME_NEVER
    requires l.dev.ev.kind == CcaMeas && !l.halted
    ensures Good(m, now, d, CcaMeasured(m.world, now, d, l, e))
  {
    hide PickAbort, CcaFrom, CcaSample, Summarizes, StopsScan;
    var c := CcaRecheck(m.world, now, d, l, e);
    RecheckCca(m.world, now, d, l, e);
    if !c.quit {
      var scanEnd := c.l.dev.cca.scanEnd;
      if now >= c.l.dev.cca.nextMeas {
        SampleGood(m.world, now, d, c.l);
        CcaFromGood(m, now, d, CcaSample(m.world, now, d, c.l), e, scanEnd);
      } else {
        CcaFromGood(m, now, d, c.l, e, scanEnd);
      }
    }
  }

  /** The scan is over: what its device is told. */
  lemma CcaDoneOk(m: Model, now: nat, cca: CcaStatus, scanEnd: nat)
    requires SampledCca(m, now, cca, cca.req, scanEnd) && now >= cca.scanEnd
    ensures CcaOk(m, cca.req, scanEnd, now, cca.done, cca.samples)
  {
    hide StopsScan;
    SampleCount(cca.req, |cca.samples|, now);
  }

  /** The scan goes on: its next event. */
  lemma CcaGoesOn(m: Model, now: nat, cca: CcaStatus, scanEnd: nat)
    requires SampledCca(m, now, cca, cca.req, scanEnd) && now < cca.scanEnd && now <= cca.req.ab.recheck
    ensures var t := Min(cca.nextMeas, Min(cca.scanEnd, cca.req.ab.recheck));
      now <= t && CcaTimed(m, now, cca, cca.req, scanEnd, t)
  {
    hide StopsScan, Summarizes;
  }

  lemma CcaFromGood(m: Config, now: nat, d: nat, l: Loc, e: Env, scanEnd: nat)
    requires Fits(l, d) && now == l.dev.ev.time <= TIME_NEVER && l.dev.rx.txNbr >= -1
    requires Parse(m.world, l.dev.log) == Assessing(l.dev.cca.req, scanEnd) && now <= l.dev.cca.req.ab.recheck
    requires SampledCca(m.world, now, l.dev.cca, l.dev.cca.req, scanEnd)
    ensures Good(m, now, d, CcaFrom(m.world, now, d, l, e))
  {
    hide HandleNext, SampledCca, CcaOk, CcaTimed, ScanTimed, SyncTimed, ReceiveTimed, TxTimed, LostBefore, Goes,
      KeepsAligned;
    var cca := l.dev.cca;
    if now >= cca.scanEnd {
      CcaDoneOk(m.world, now, cca, scanEnd);
      HandleNextGood(m, now, d, Emit(l, CcaReply(now, cca.done, cca.samples)), e.next);
    } else {
      CcaGoesOn(m.world, now, cca, scanEnd);
    }
  }
}
