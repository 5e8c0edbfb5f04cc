/** Which events share a microsecond, in which order; and the transmission list against the
    transmissions the devices were told about. */
module AirTime {
  import opened Types
  import opened FuncQueue
  import opened TxList
  import opened ChannelModem
  import opened Requests
  import opened Device
  import opened Phy
  import opened Session
  import opened Invariant
  import opened Structure
  import opened Steps
  import opened Runs

  // ---------------------------------------------------------------- three phases

  /** No transmission is still to start at time `t`. */
  ghost predicate NoStartAt(s: State, t: nat)
  {
    forall j :: 0 <= j < |s.devs| && s.devs[j].ev.time == t ==> s.devs[j].ev.kind != TxStart
  }

  /** Only ends of transmissions and waits are left at time `t`. */
  ghost predicate OnlyTailAt(s: State, t: nat)
  {
    forall j :: 0 <= j < |s.devs| && s.devs[j].ev.time == t ==> TailKind(s.devs[j].ev.kind)
  }

  function Chosen(s: State): (k: Kind)
    requires Sized(s)
  {
    s.devs[Next(Entries(s))].ev.kind
  }

  /** One event can bring neither a start into the present, nor anything but a wait after a tail
      event. */
  lemma EventPhase(m: Config, s: State, e: Env)
    requires Inv(m, s) && Running(m, s)
    ensures var k := Dispatch(m, s, Next(Entries(s)), e);
      k.halted || k.active <= 0
      || ((Chosen(s) != TxStart ==> NoStartAt(k, s.now)) && (TailKind(Chosen(s)) ==> OnlyTailAt(k, s.now)))
  {
    hide Dispatch, NewLoc, Step, InTime, IsGreatestOn, Live, Entries, Next;
    var d := Next(Entries(s));
    var k, r := Dispatch(m, s, d, e), NewLoc(m, s, d, e);
    StepStructured(m, s, e);
    DispatchShape(m, s, d, e);
    if !k.halted && k.active > 0 {
      OwnPhase(m, s, d, e);
      forall j: nat | j < |s.devs| && j != d && k.devs[j].ev.time == s.now
        ensures Chosen(s) != TxStart ==> k.devs[j].ev.kind != TxStart
        ensures TailKind(Chosen(s)) ==> TailKind(k.devs[j].ev.kind)
      {
        ChosenFirst(s, j);
        assert Core(s.txl.els[j], s.devs[j]);
      }
    }
  }

  lemma OwnPhase(m: Config, s: State, d: nat, e: Env)
    requires Inv(m, s) && Running(m, s) && d == Next(Entries(s))
    ensures var r := NewLoc(m, s, d, e);
      r.halted || r.active <= 0
      || (&& (Chosen(s) != TxStart && r.dev.ev.time == s.now ==> r.dev.ev.kind != TxStart)
          && (TailKind(Chosen(s)) && r.dev.ev.time == s.now ==> r.dev.ev.kind == WaitDone))
  {
    hide TxAbortReevaluated, WaitFinished, TxPacketEnded, CcaMeasured, RssiMeasured, FoundTx, Synchronized,
      HeaderReceived, PayloadReceived, SearchReevaluated, SearchStarted, IsGreatestOn, Live, InTime;
    var l := Get(s, d);
    if Chosen(s) == TxPacketStart {
      ScheduledKind(m, s.now, d, l.(txl := l.txl.StartPacket(d)));
    } else if TailKind(Chosen(s)) {
      TailPhase(m, s.now, d, l, e);
    }
  }

  lemma TailPhase(m: Config, now: nat, d: nat, l: Loc, e: Env)
    requires Fits(l, d) && TailKind(l.dev.ev.kind) && now < TIME_NEVER
    ensures var r := Handle(m, now, d, l, e);
      r.halted || r.active == 0 || r.dev.ev.kind == WaitDone || r.dev.ev.time > now || r.dev.ev == NO_ENTRY
  {
  }

  /** Within one microsecond, all transmissions start before anything else happens, and once a
      transmission or a wait has ended, nothing else does. */
  ghost predicate Phased(s: State, t: nat, first: Kind)
  {
    s.now == t ==> (first != TxStart ==> NoStartAt(s, t)) && (TailKind(first) ==> OnlyTailAt(s, t))
  }

  lemma LoopPhased(m: Config, s: State, e: Env, r: State)
    requires LoopGoes(m, s, e, r) && Inv(m, s) && !r.halted && r.active > 0
    ensures Phased(r, s.now, Chosen(s))
  {
    EventPhase(m, s, e);
  }

  lemma {:induction false} RunPhased(m: Config, qs: seq<Request>, es: seq<Env>, ss: seq<State>, j: nat, k: nat)
    requires StraightRun(m, qs, es, ss) && j < k < |ss| && Sized(ss[j]) && Running(m, ss[k]) && ss[k].now == ss[j].now
    ensures Phased(ss[k], ss[j].now, Chosen(ss[j]))
  {
    hide LoopGoes, Inv, Conforming, NoStartAt, OnlyTailAt, TailKind, Chosen, Falls;
    RunSized(m, qs, es, ss, k - 1);
    RunInv(m, qs, es, ss, k - 1);
    RunInv(m, qs, es, ss, k);
    LoopRunning(m, ss[k - 1], es[k - 1], ss[k]);
    LoopPhased(m, ss[k - 1], es[k - 1], ss[k]);
    if j < k - 1 {
      TimeNeverDecreases(m, qs, es, ss, j, k - 1);
      TimeNeverDecreases(m, qs, es, ss, k - 1, k);
      RunPhased(m, qs, es, ss, j, k - 1);
      ChosenPhased(m, ss[k - 1], ss[j].now, Chosen(ss[j]));
    }
  }

  lemma ChosenPhased(m: Config, s: State, t: nat, first: Kind)
    requires Inv(m, s) && Phased(s, t, first) && s.now == t
    ensures first != TxStart ==> Chosen(s) != TxStart
    ensures TailKind(first) ==> TailKind(Chosen(s))
  {
  }

  /** The three-phase order of the events of one microsecond, over every run. */
  lemma ThreePhases(m: Config, qs: seq<Request>, es: seq<Env>, ss: seq<State>, j: nat, k: nat)
    requires StraightRun(m, qs, es, ss) && j < k < |ss| && Running(m, ss[k]) && ss[k].now == ss[j].now
    requires Sized(ss[j]) && Sized(ss[k])
    ensures Chosen(ss[k]) == TxStart ==> Chosen(ss[j]) == TxStart
    ensures TailKind(Chosen(ss[j])) ==> TailKind(Chosen(ss[k]))
  {
    RunPhased(m, qs, es, ss, j, k);
    RunInv(m, qs, es, ss, k);
    ChosenPhased(m, ss[k], ss[j].now, Chosen(ss[j]));
  }

  // ---------------------------------------------------------------- messages and air time

  /** When the abort times of a transmission are asked for, it is not over yet. */
  lemma {:induction false} ReplyingSending(m: Model, log: Log)
    requires Parse(m, log).Replying? && Parse(m, log).was.Sending?
    ensures var p := Parse(m, log); p.was.t.startTx <= p.at <= TxStop(p.was.t)
  {
    if log.last.ImmRssi? {
      ReplyingSending(m, log.init);
    }
  }

  /** Later messages do not change what was in the air before: whether a transmission covers time
      `t` is settled by the messages up to `t`, unless the device drops out right then. */
  lemma {:induction false} AirSettled(m: Model, l: Log, k: Log, from: nat, to: nat, t: nat)
    requires Continues(l, k, from, to) && Conforms(m, k) && t <= from && !DroppedAt(m, k, t)
    ensures OnAir(m, k, t) <==> OnAir(m, l, t)
    decreases k
  {
    if l != k {
      var p, x := Parse(m, k.init), k.last;
      assert Conforms(m, k.init);
      if p.Replying? && p.was.Sending? {
        ReplyingSending(m, k.init);
      }
      AirSettled(m, l, k.init, from, to, t);
      OneMessage(m, k, t);
    }
  }

  lemma OneMessage(m: Model, k: Log, t: nat)
    requires k.Snoc? && Conforms(m, k) && t <= k.last.t && !DroppedAt(m, k, t)
    requires var p := Parse(m, k.init);
      p.Replying? && p.was.Sending? ==> p.was.t.startTx <= p.at <= TxStop(p.was.t)
    ensures OnAir(m, k, t) <==> OnAir(m, k.init, t)
  {
  }

  // ---------------------------------------------------------------- answered transmissions

  /** No answered transmission reaches beyond the last message. */
  lemma {:induction false} SentBefore(m: Model, l: Log, k: Log, now: nat, t: nat)
    requires Continues(l, k, now, now) && Conforms(m, k) && now < t
    ensures Sent(m, k, t) ==> Sent(m, l, t)
    decreases k
  {
    if l != k {
      SentBefore(m, l, k.init, now, t);
    }
  }

  /** The session is not in a transmission which has begun. */
  ghost predicate NotSending(p: Proto, now: nat)
  {
    && (p.Sending? ==> p.t.startTx > now)
    && (p.Replying? && p.was.Sending? ==> p.was.t.startTx > now)
  }

  /** Messages at time `now` cannot answer a transmission unless one has begun. */
  lemma {:induction false} NothingSent(m: Model, l: Log, k: Log, now: nat, t: nat)
    requires Continues(l, k, now, now) && Conforms(m, k) && NotSending(Parse(m, l), now)
    ensures NotSending(Parse(m, k), now)
    ensures Sent(m, k, t) <==> Sent(m, l, t)
    decreases k
  {
    if l != k {
      NothingSent(m, l, k.init, now, t);
    }
  }

  lemma {:induction false} ImmediateSent(m: Model, now: nat, d: nat, l: Loc, rs: seq<RssiReq>, t: nat)
    ensures Sent(m, ImmediateRssis(m, now, d, l, rs).dev.log, t) <==> Sent(m, l.dev.log, t)
    decreases |rs|
  {
    if rs != [] {
      var l1 := Measure(m, now, d, l, rs[0].gain, rs[0].radio).0;
      ImmediateSent(m, now, d, Emit(l1, ImmRssi(now)), rs[1..], t);
    }
  }

  lemma AbortSent(m: Config, now: nat, d: nat, l: Loc, e: Env, t: nat)
    requires Fits(l, d)
    ensures Sent(m.world, TxAbortReevaluated(m, now, d, l, e).dev.log, t) <==> Sent(m.world, l.dev.log, t)
  {
    hide IsGreatestOn, Live, Active, CcaOk, VerdictOk, LossOk, FoundOk, WithAbort;
    ImmediateSent(m.world, now, d, Emit(l, AbortAsked(now)), e.reply.immRssi, t);
  }

  // ---------------------------------------------------------------- the air over a run

  /** Transmissions answered at the present time leave only the last phase of this microsecond. */
  ghost predicate Answered(m: Model, s: State)
  {
    && (forall i, t :: 0 <= i < |s.devs| && t > s.now ==> !Sent(m, s.devs[i].log, t))
    && ((exists i :: 0 <= i < |s.devs| && Sent(m, s.devs[i].log, s.now)) ==> OnlyTailAt(s, s.now))
  }

  lemma DispatchLogs(m: Config, s: State, e: Env, i: nat)
    requires Inv(m, s) && Running(m, s) && i < |s.devs|
    ensures Continues(s.devs[i].log, Dispatch(m, s, Next(Entries(s)), e).devs[i].log, s.now, s.now)
  {
    hide Dispatch, Handle, IsGreatestOn, Live, Active, CcaTimed, ScanTimed, SyncTimed, ReceiveTimed, TxTimed,
      Entries, Next;
    var d := Next(Entries(s));
    StepStructured(m, s, e);
    DispatchShape(m, s, d, e);
  }

  /** Only the end of a transmission answers one. */
  lemma DispatchSent(m: Config, s: State, e: Env, i: nat, t: nat)
    requires Inv(m, s) && Running(m, s) && !Falls(m, s) && i < |s.devs| && Chosen(s) != TxEnd
    requires !Dispatch(m, s, Next(Entries(s)), e).halted
    ensures Sent(m.world, Dispatch(m, s, Next(Entries(s)), e).devs[i].log, t) <==> Sent(m.world, s.devs[i].log, t)
  {
    hide Dispatch, NewLoc, IsGreatestOn, Live, InTime;
    var d := Next(Entries(s));
    StepStructured(m, s, e);
    DispatchShape(m, s, d, e);
    if i == d {
      OwnSent(m, s, d, e, t);
    }
  }

  lemma OwnSent(m: Config, s: State, d: nat, e: Env, t: nat)
    requires Inv(m, s) && Running(m, s) && !Falls(m, s) && d == Next(Entries(s)) && Chosen(s) != TxEnd
    requires !NewLoc(m, s, d, e).halted && s.devs[d].ev.kind != NoEvent
    ensures Sent(m.world, NewLoc(m, s, d, e).dev.log, t) <==> Sent(m.world, s.devs[d].log, t)
  {
    hide Dispatch, TxSchedule, TxStarted, TxPacketEnded, TxAbortReevaluated, WaitFinished, TxEnded, CcaMeasured,
      RssiMeasured, FoundTx, Synchronized, HeaderReceived, PayloadReceived, SearchReevaluated, SearchStarted,
      IsGreatestOn, Live, InTime, Sent;
    var kind := s.devs[d].ev.kind;
    if kind == TxAbortReeval {
      AbortSent(m, s.now, d, Get(s, d), e, t);
    } else if kind == TxStart || kind == TxPacketStart {
      ScheduledLogs(m, s.now, d, Get(s, d));
    } else if kind == TxPacketEnd {
      ScheduledLogs(m, s.now, d, Get(s, d));
    } else {
      HandledSent(m, s, d, e, t);
    }
  }

  lemma ScheduledLogs(m: Config, now: nat, d: nat, l: Loc)
    requires Fits(l, d)
    ensures TxSchedule(m, now, d, TxStarted(now, d, l)).dev.log == l.dev.log
    ensures TxSchedule(m, now, d, l.(txl := l.txl.StartPacket(d))).dev.log == l.dev.log
    ensures TxPacketEnded(m, now, d, l).dev.log == l.dev.log
  {
  }

  lemma NotTransmitting(m: Config, now: nat, txl: TxL, d: nat, dev: Dev)
    requires d < |txl.els| && Timed(m, now, txl, d, dev) && !TxOnKind(dev.ev.kind)
    ensures Parse(m.world, dev.log).Sending? ==> dev.ev.kind == TxStart
    ensures !Parse(m.world, dev.log).Replying?
  {
  }

  /** A device which is not transmitting gets no answer to a transmission. */
  lemma HandledSent(m: Config, s: State, d: nat, e: Env, t: nat)
    requires Inv(m, s) && Running(m, s) && !Falls(m, s) && d == Next(Entries(s))
    requires !TxOnKind(s.devs[d].ev.kind) && s.devs[d].ev.kind !in {NoEvent, TxStart}
    requires !NewLoc(m, s, d, e).halted
    ensures Sent(m.world, NewLoc(m, s, d, e).dev.log, t) <==> Sent(m.world, s.devs[d].log, t)
  {
    hide Handle, IsGreatestOn, Live, Dispatch, Timed;
    assert Timed(m, s.now, s.txl, d, s.devs[d]);
    NotTransmitting(m, s.now, s.txl, d, s.devs[d]);
    HandleGood(m, s, d, e);
    NothingSent(m.world, s.devs[d].log, NewLoc(m, s, d, e).dev.log, s.now, t);
  }

  lemma StepAnswered(m: Config, s: State, e: Env)
    requires Inv(m, s) && Running(m, s) && !Falls(m, s) && Answered(m.world, s)
    ensures var r := Step(m, s, e); r.halted || r.active <= 0 || Answered(m.world, r)
  {
    hide Dispatch, Timed, Core, FoundTxAlive, IsGreatestOn, Live, Sent;
    var k, r := Dispatch(m, s, Next(Entries(s)), e), Step(m, s, e);
    if !k.halted && k.active > 0 {
      StepInv(m, s, e);
      DispatchSettled(m, s, e);
      forall i: nat, t: nat | i < |s.devs| && t > s.now
        ensures !Sent(m.world, k.devs[i].log, t)
      {
        DispatchLogs(m, s, e, i);
        SentBefore(m.world, s.devs[i].log, k.devs[i].log, s.now, t);
      }
      EventPhase(m, s, e);
      if r.now == s.now && exists i :: 0 <= i < |r.devs| && Sent(m.world, r.devs[i].log, r.now) {
        var i :| 0 <= i < |r.devs| && Sent(m.world, r.devs[i].log, r.now);
        if Chosen(s) != TxEnd {
          DispatchSent(m, s, e, i, s.now);
        }
        assert TailKind(Chosen(s));
      }
    }
  }

  /** Apart from answered transmissions, a device is in the air by its messages exactly while it has
      an event of a transmission. */
  lemma TimedAir(m: Config, now: nat, txl: TxL, d: nat, dev: Dev)
    requires d < |txl.els| && Timed(m, now, txl, d, dev) && !Sent(m.world, dev.log, now)
    requires dev.ev != Entry(now, TxStart)
    ensures OnAir(m.world, dev.log, now) <==> TxOnKind(dev.ev.kind)
  {
    hide CcaTimed, ScanTimed, SyncTimed, ReceiveTimed, LostBefore, Sent;
  }

  /** At an event other than a start or an end, a device is in the transmission list exactly if its
      messages so far put a transmission of its over the present time. */
  lemma ListIsAir(m: Config, s: State, i: nat)
    requires Inv(m, s) && Answered(m.world, s) && s.now < TIME_NEVER && i < |s.devs|
    requires Chosen(s) !in {TxStart, TxEnd, WaitDone}
    ensures s.txl.els[i].used.On() <==> OnAir(m.world, s.devs[i].log, s.now)
  {
    hide Sent, IsGreatestOn, Live, Timed, FoundTxAlive, OnAir;
    var dev := s.devs[i];
    assert Core(s.txl.els[i], dev) && Timed(m, s.now, s.txl, i, dev);
    ChosenFirst(s, i);
    var d := Next(Entries(s));
    assert s.devs[d].ev.time == s.now && !TailKind(s.devs[d].ev.kind);
    assert !OnlyTailAt(s, s.now);
    assert !Sent(m.world, dev.log, s.now);
    TimedAir(m, s.now, s.txl, i, dev);
  }

  /** Nothing has been answered before the main loop. */
  ghost predicate NothingYet(m: Model, log: Log)
  {
    log == Nil || (log.Snoc? && log.init == Nil && !log.last.TxReply?)
  }

  lemma {:induction false} BootLogs(m: Model, qs: seq<Request>, k: nat, i: nat)
    requires 0 < |qs| && k <= |qs| && i < |qs|
    ensures NothingYet(m, Booted(m, qs, k).devs[i].log)
    ensures i >= k ==> Booted(m, qs, k).devs[i].log == Nil
  {
    hide HandleNext;
    if k > 0 {
      BootLogs(m, qs, k - 1, i);
      var s := Booted(m, qs, k - 1);
      if i == k - 1 {
        FirstMessage(m, s.now, i, Get(s, i), qs[i]);
      }
    }
  }

  lemma FirstMessage(m: Model, now: nat, d: nat, l: Loc, q: Request)
    requires Fits(l, d) && l.dev.log == Nil
    ensures NothingYet(m, HandleNext(m, now, d, l, q).dev.log)
  {
  }

  lemma EntryAnswered(m: Model, qs: seq<Request>)
    requires 0 < |qs|
    ensures Answered(m, Start(m, qs))
  {
    forall i: nat, t: nat | i < |qs|
      ensures !Sent(m, Start(m, qs).devs[i].log, t)
    {
      BootLogs(m, qs, |qs|, i);
    }
  }

  lemma LoopAnswered(m: Config, s: State, e: Env, r: State)
    requires LoopGoes(m, s, e, r) && Inv(m, s) && !Falls(m, s) && Answered(m.world, s)
    ensures r.halted || r.active <= 0 || Answered(m.world, r)
  {
    StepAnswered(m, s, e);
  }

  lemma {:induction false} RunAnswered(m: Config, qs: seq<Request>, es: seq<Env>, ss: seq<State>, k: nat)
    requires StraightRun(m, qs, es, ss) && k < |ss|
    ensures ss[k].halted || ss[k].active <= 0 || Answered(m.world, ss[k])
  {
    hide LoopGoes, Inv, Conforming, Answered, Start;
    if k == 0 {
      EntryAnswered(m.world, qs);
    } else {
      RunAnswered(m, qs, es, ss, k - 1);
      RunInv(m, qs, es, ss, k - 1);
      LoopRunning(m, ss[k - 1], es[k - 1], ss[k]);
      LoopAnswered(m, ss[k - 1], es[k - 1], ss[k]);
    }
  }

  lemma {:induction false} ContinuesTrans(a: Log, b: Log, c: Log, from: nat, mid: nat, to: nat)
    requires Continues(a, b, from, mid) && Continues(b, c, mid, to) && from <= mid <= to
    ensures Continues(a, c, from, to)
    decreases c
  {
    if b == c {
      ContinuesWiden(a, b, from, mid, to);
    } else {
      ContinuesTrans(a, b, c.init, from, mid, to);
    }
  }

  lemma {:induction false} ContinuesWiden(a: Log, b: Log, from: nat, mid: nat, to: nat)
    requires Continues(a, b, from, mid) && mid <= to
    ensures Continues(a, b, from, to)
    decreases b
  {
    if a != b {
      ContinuesWiden(a, b.init, from, mid, to);
    }
  }

  lemma LoopLogs(m: Config, s: State, e: Env, r: State, i: nat)
    requires LoopGoes(m, s, e, r) && Inv(m, s) && i < |s.devs| == |r.devs|
    ensures Continues(s.devs[i].log, r.devs[i].log, s.now, s.now)
  {
    DispatchLogs(m, s, e, i);
  }

  /** Over a run, the messages of a device only grow, in the order of their times. */
  lemma {:induction false} RunLogs(m: Config, qs: seq<Request>, es: seq<Env>, ss: seq<State>, j: nat, k: nat, i: nat)
    requires StraightRun(m, qs, es, ss) && j <= k < |ss| && !ss[k].halted && i < |qs|
    requires |ss[j].devs| == |qs| == |ss[k].devs|
    ensures Continues(ss[j].devs[i].log, ss[k].devs[i].log, ss[j].now, ss[k].now)
  {
    hide LoopGoes, Inv, Conforming, Dispatch, Entries, Next, Falls;
    if j < k {
      RunSized(m, qs, es, ss, k - 1);
      LoopRunning(m, ss[k - 1], es[k - 1], ss[k]);
      RunInv(m, qs, es, ss, k - 1);
      RunLogs(m, qs, es, ss, j, k - 1, i);
      LoopLogs(m, ss[k - 1], es[k - 1], ss[k], i);
      TimeNeverDecreases(m, qs, es, ss, j, k - 1);
      TimeNeverDecreases(m, qs, es, ss, k - 1, k);
      ContinuesTrans(ss[j].devs[i].log, ss[k - 1].devs[i].log, ss[k].devs[i].log,
                     ss[j].now, ss[k - 1].now, ss[k - 1].now);
      ContinuesWiden(ss[j].devs[i].log, ss[k].devs[i].log, ss[j].now, ss[k - 1].now, ss[k].now);
    }
  }

  /** The transmission list, edited event by event, is the declarative one. Take any event of a run
      other than a start, an end or a wait, at time t, and any later state of the run: a device is
      in the list at that event exactly if, by its messages up to that later state, one of its
      transmissions covers t, from its start to the earlier of its end and its last abort time. The
      only exception is a device which drops out of a transmission at t itself. */
  lemma AirIsDeclarative(m: Config, qs: seq<Request>, es: seq<Env>, ss: seq<State>, k: nat, n: nat, i: nat)
    requires StraightRun(m, qs, es, ss) && k <= n < |ss| && Running(m, ss[k]) && !ss[n].halted
    requires Sized(ss[k]) && i < |ss[k].devs| == |ss[n].devs|
    requires Chosen(ss[k]) !in {TxStart, TxEnd, WaitDone}
    requires !DroppedAt(m.world, ss[n].devs[i].log, ss[k].now)
    ensures ss[k].txl.els[i].used.On() <==> OnAir(m.world, ss[n].devs[i].log, ss[k].now)
  {
    RunSized(m, qs, es, ss, k);
    RunInv(m, qs, es, ss, k);
    RunInv(m, qs, es, ss, n);
    RunAnswered(m, qs, es, ss, k);
    ListIsAir(m, ss[k], i);
    RunLogs(m, qs, es, ss, k, n, i);
    AirSettled(m.world, ss[k].devs[i].log, ss[n].devs[i].log, ss[k].now, ss[n].now, ss[k].now);
  }
}
