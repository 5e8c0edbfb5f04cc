/** The schedule of transmissions as the program has it, against the documented one. */
module Schedule {
  import opened Types
  import opened FuncQueue
  import opened TxList
  import opened ChannelModem
  import opened Requests
  import opened Device
  import opened Phy
  import opened Invariant
  import opened Structure
  import opened Timing
  import opened Steps
  import opened Runs
  import opened Progress

  // ---------------------------------------------------------------- one call

  /** The next packet event of a transmission in a state, if there is one: as written, a packet which is
      not ongoing is to start, and an ongoing one which has not ended is to end; as documented, the
      start is due only once, and the end only once, after it. */
  function DuePacketEvent(documented: bool, u: Txs, t: TxReq): Option<Entry>
  {
    if documented then
      if !u.started then Some(Entry(t.startPacket, TxPacketStart))
      else if !u.ended then Some(Entry(t.endPacket, TxPacketEnd))
      else None
    else
      if !u.ongoing then Some(Entry(t.startPacket, TxPacketStart))
      else if !u.ended then Some(Entry(t.endPacket, TxPacketEnd))
      else None
  }

  /** The recheck comes first, unless the transmission, cut by its abort time, or the next packet event
      is due before it; of these two the start of a packet takes precedence at the same time, but not
      its end. As written, whatever is due comes at the end of the transmission; as documented, packet
      events come when they are due, or now if that has passed. */
  lemma ScheduleIs(documented: bool, now: nat, u: Txs, t: TxReq)
    ensures var ev, due := TxNextEvent(documented, now, u, t), DuePacketEvent(documented, u, t);
      var stop: nat := if t.ab.abort < t.endTx then t.ab.abort else t.endTx;
      if t.ab.recheck <= stop && (due.Some? ==> t.ab.recheck <= due.value.time) then
        ev == Entry(t.ab.recheck, TxAbortReeval)
      else if due.Some? && (due.value.time < stop || (due.value.time == stop && due.value.kind == TxPacketStart)) then
        ev.kind == due.value.kind
        && ev.time == if !documented then stop else if due.value.time < now then now else due.value.time
      else ev == Entry(stop, TxEnd)
  {
  }

  /** Every version 1 transmission carries its packet over its whole duration. */
  lemma VersionOneIsAligned(t: TxV1)
    ensures Aligned(MapTxV1(t)) && AlignedRequest(Tx(t))
  {
  }

  /** On a transmission which has not passed its end, the event scheduled by the program lies in the
      past exactly if the recheck time has passed, but not before the next packet event. */
  lemma PastIff(m: Config, now: nat, u: Txs, t: TxReq)
    requires !m.documented && now <= TxStop(t)
    ensures TxNextEvent(false, now, u, t).time < now <==> t.ab.recheck < now && t.ab.recheck <= NextTime(m, u, t)
  {
  }

  /** For an aligned transmission in the air the two schedules are the same. */
  lemma AlignedAgree(now: nat, u: Txs, t: TxReq)
    requires Aligned(t) && u.started && u.ongoing && !u.ended
    ensures TxNextEvent(false, now, u, t) == TxNextEvent(true, now, u, t)
  {
  }

  /** While a packet is still to start, they are the same exactly if the recheck comes first, or the
      transmission ends first, or it ends when the packet starts. */
  lemma BeforePacketAgreeIff(now: nat, u: Txs, t: TxReq)
    requires !u.ongoing && !u.started && now <= t.startPacket
    ensures TxNextEvent(false, now, u, t) == TxNextEvent(true, now, u, t)
            <==> t.ab.recheck <= t.startPacket || TxStop(t) <= t.startPacket
  {
  }

  /** While a packet is ongoing, exactly if the recheck comes first, or the transmission does not go on
      after the packet. */
  lemma OngoingAgreeIff(now: nat, u: Txs, t: TxReq)
    requires u.started && u.ongoing && !u.ended && now <= t.endPacket
    ensures TxNextEvent(false, now, u, t) == TxNextEvent(true, now, u, t)
            <==> t.ab.recheck <= t.endPacket || TxStop(t) <= t.endPacket
  {
  }

  /** After a packet has ended, exactly if the recheck time is not after the start of the packet, that
      is, never for a transmission which has been rechecked in time. */
  lemma EndedAgreeIff(now: nat, u: Txs, t: TxReq)
    requires u.started && !u.ongoing && u.ended && t.startPacket < now <= TxStop(t) && now <= TIME_NEVER
    ensures TxNextEvent(false, now, u, t) == TxNextEvent(true, now, u, t) <==> t.ab.recheck <= t.startPacket
  {
  }

  // ---------------------------------------------------------------- time

  /** One event, whatever it is, puts time back exactly if it is the start of a packet at the end of
      its transmission which FallsFrom describes; the condition is on the state before the event. */
  lemma FallsBackIff(m: Config, s: State, e: Env)
    requires Inv(m, s) && Running(m, s) && !Step(m, s, e).halted
    ensures Step(m, s, e).now < s.now <==> Falls(m, s)
  {
    assert Sized(s);
    hide Step, Inv, Falls, Conforming;
    if Falls(m, s) {
      FallingEvent(m, s, e);
    } else {
      StepInv(m, s, e);
    }
  }

  lemma FallingEvent(m: Config, s: State, e: Env)
    requires Inv(m, s) && Running(m, s) && Falls(m, s)
    ensures Step(m, s, e).now < s.now
  {
    assert Sized(s);
    hide Dispatch, NewLoc, InTime, FallsFrom, IsGreatestOn, Live;
    var d := Next(Entries(s));
    var k := Dispatch(m, s, d, e);
    StepStructured(m, s, e);
    DispatchShape(m, s, d, e);
    assert s.devs[d].ev.kind == TxPacketStart && !m.documented by {
      FallsAtStart(m, s);
    }
    FallingStart(m, s, d, e);
    NextIsLeast(Entries(k), d);
  }

  lemma FallsAtStart(m: Config, s: State)
    requires Sized(s) && Falls(m, s)
    ensures s.devs[Next(Entries(s))].ev.kind == TxPacketStart && !m.documented
  {
  }

  lemma FallingStart(m: Config, s: State, d: nat, e: Env)
    requires Inv(m, s) && Running(m, s) && d == Next(Entries(s)) && Falls(m, s)
    ensures NewLoc(m, s, d, e).dev.ev.time < s.now
  {
    hide TxBits, TxNextEvent, NextTime, IsGreatestOn, Live, Active, Timed;
    assert Timed(m, s.now, s.txl, d, s.devs[d]);
    TimedTx(m, s.now, s.txl, d, s.devs[d]);
    var u, t := s.txl.els[d].used.(ongoing := true, started := true), s.txl.els[d].tx;
    assert NewLoc(m, s, d, e).dev.ev == TxNextEvent(false, s.now, u, t);
    assert s.now == TxStop(t);
    PastIff(m, s.now, u, t);
    NextWhenFalling(m, u, t);
  }

  lemma NextWhenFalling(m: Config, u: Txs, t: TxReq)
    requires !m.documented && u.ongoing && t.ab.recheck < TxStop(t) && (u.ended || t.ab.recheck <= t.endPacket)
    ensures t.ab.recheck <= NextTime(m, u, t)
  {
  }

  /** A run without its last event. */
  lemma RunPrefix(m: Config, qs: seq<Request>, es: seq<Env>, ss: seq<State>)
    requires IsRun(m, qs, es, ss) && |es| > 0
    ensures IsRun(m, qs, es[..|es| - 1], ss[..|es|])
  {
    hide LoopGoes;
    forall k {:trigger es[k]} | 0 <= k < |es| - 1
      ensures LoopGoes(m, ss[..|es|][k], es[..|es| - 1][k], ss[..|es|][k + 1])
    {
      assert LoopGoes(m, ss[k], es[k], ss[k + 1]);
    }
  }

  lemma StraightOnceMore(m: Config, qs: seq<Request>, es: seq<Env>, ss: seq<State>)
    requires IsRun(m, qs, es, ss) && |es| > 0 && GoesOn(m, ss[|es| - 1])
    requires StraightRun(m, qs, es[..|es| - 1], ss[..|es|])
    ensures StraightRun(m, qs, es, ss)
  {
    hide LoopGoes, GoesOn, Start, Falls;
    assert |ss| == |es| + 1;
    hide IsRun, LoopGoes, GoesOn;
    var n := |es| - 1;
    forall k | 0 <= k < |es|
      ensures GoesOn(m, ss[k])
    {
      if k < n {
        assert es[..n][k] == es[k] && ss[..n + 1][k] == ss[k];
      }
    }
  }

  /** No event puts time back. */
  ghost predicate Steady(es: seq<Env>, ss: seq<State>)
    requires |ss| == |es| + 1
  {
    forall k {:trigger ss[k]} :: 0 <= k < |es| ==> ss[k].now <= ss[k + 1].now
  }

  lemma {:induction false} SteadyIsStraight(m: Config, qs: seq<Request>, es: seq<Env>, ss: seq<State>)
    requires IsRun(m, qs, es, ss) && !ss[|es|].halted
    requires Steady(es, ss)
    ensures StraightRun(m, qs, es, ss)
    decreases |es|
  {
    hide LoopGoes, Inv, Conforming, GoesOn, Start;
    if |es| > 0 {
      var n := |es| - 1;
      assert LoopGoes(m, ss[n], es[n], ss[n + 1]);
      LoopRunning(m, ss[n], es[n], ss[n + 1]);
      RunPrefix(m, qs, es, ss);
      assert Steady(es[..n], ss[..n + 1]);
      SteadyIsStraight(m, qs, es[..n], ss[..n + 1]);
      RunInv(m, qs, es[..n], ss[..n + 1], n);
      LoopFalls(m, ss[n], es[n], ss[n + 1]);
      StraightOnceMore(m, qs, es, ss);
    }
  }

  lemma LoopFalls(m: Config, s: State, e: Env, r: State)
    requires LoopGoes(m, s, e, r) && Inv(m, s) && !r.halted
    ensures Sized(s) && (r.now < s.now <==> Falls(m, s)) && (GoesOn(m, s) <==> !Falls(m, s))
  {
    hide Step;
    FallsBackIff(m, s, e);
  }

  /** Over any run of the program, whatever its devices ask, simulated time never decreases if and
      only if no event starts a packet at the end of its transmission under the condition of
      FallsFrom. */
  lemma TimeNeverFallsIff(m: Config, qs: seq<Request>, es: seq<Env>, ss: seq<State>)
    requires IsRun(m, qs, es, ss) && !ss[|es|].halted
    ensures Steady(es, ss) <==> StraightRun(m, qs, es, ss)
  {
    hide LoopGoes, Falls;
    if Steady(es, ss) {
      SteadyIsStraight(m, qs, es, ss);
    }
    if StraightRun(m, qs, es, ss) {
      forall k | 0 <= k < |es|
        ensures ss[k].now <= ss[k + 1].now
      {
        if k + 1 < |es| {
          assert LoopGoes(m, ss[k + 1], es[k + 1], ss[k + 2]);
          LoopRunning(m, ss[k + 1], es[k + 1], ss[k + 2]);
        }
        TimeNeverDecreases(m, qs, es, ss, k, k + 1);
      }
    }
  }

  // ---------------------------------------------------------------- the end of a packet

  /** The parameters with which the handler of an event of a transmission schedules the next one, if
      the packet is ongoing then: those of the list, with the new abort times of a re-evaluation. */
  function Ongoing(s: State, d: nat, e: Env): Option<TxReq>
    requires Sized(s) && d < |s.devs|
  {
    var el, ans := s.txl.els[d], e.reply.answer;
    match s.devs[d].ev.kind
    case TxStart => if el.tx.startPacket <= s.now then Some(el.tx) else None
    case TxPacketStart => if !el.used.ended then Some(el.tx) else None
    case TxAbortReeval =>
      if el.used.ongoing && !el.used.ended && ans.NewAbort? && !PassedAbort(s.now, ans.ab)
      then Some(el.tx.(ab := ans.ab)) else None
    case _ => None
  }

  /** The event leaves a packet ongoing which is to end before its transmission and before the next
      recheck. */
  predicate PutsOffEnd(s: State, e: Env)
    requires Sized(s)
  {
    var t := Ongoing(s, Next(Entries(s)), e);
    t.Some? && t.value.endPacket < t.value.ab.recheck && t.value.endPacket < TxStop(t.value)
  }

  /** After an event which leaves the packet ongoing, the program puts its end off to the end of the
      transmission exactly under the condition of PutsOffEnd; otherwise the recheck or the end of the
      transmission comes next. */
  lemma EndIsPutOffIff(m: Config, s: State, d: nat, e: Env)
    requires !m.documented && Inv(m, s) && Running(m, s) && d == Next(Entries(s)) && Ongoing(s, d, e).Some?
    ensures var ev, t := NewLoc(m, s, d, e).dev.ev, Ongoing(s, d, e).value;
      && (ev.kind == TxPacketEnd <==> PutsOffEnd(s, e))
      && (PutsOffEnd(s, e) ==> ev.time == TxStop(t) > t.endPacket)
      && (!PutsOffEnd(s, e) ==> ev == Entry(t.ab.recheck, TxAbortReeval) || ev == Entry(TxStop(t), TxEnd))
  {
    hide PickAbort, IsGreatestOn, Live, TxNextEvent, Timed;
    var l, t := Get(s, d), Ongoing(s, d, e).value;
    assert Core(s.txl.els[d], s.devs[d]);
    if s.devs[d].ev.kind == TxAbortReeval {
      PickedAnswer(m, s.now, d, l, e.reply);
    }
    var el := NewLoc(m, s, d, e).txl.els[d];
    assert el.tx == t && el.used.ongoing && !el.used.ended by {
      OngoingAfter(m, s, d, e);
    }
    NextWhileOngoing(s.now, el.used, t);
    assert NewLoc(m, s, d, e).dev.ev == TxNextEvent(false, s.now, el.used, t);
  }

  lemma OngoingAfter(m: Config, s: State, d: nat, e: Env)
    requires !m.documented && Inv(m, s) && Running(m, s) && d == Next(Entries(s)) && Ongoing(s, d, e).Some?
    ensures var el := NewLoc(m, s, d, e).txl.els[d];
      el.tx == Ongoing(s, d, e).value && el.used.ongoing && !el.used.ended
  {
    hide PickAbort, IsGreatestOn, Live, TxNextEvent, Timed;
    PickedAnswer(m, s.now, d, Get(s, d), e.reply);
  }

  lemma NextWhileOngoing(now: nat, u: Txs, t: TxReq)
    requires u.ongoing && !u.ended
    ensures var ev := TxNextEvent(false, now, u, t);
      && (ev.kind == TxPacketEnd <==> t.endPacket < t.ab.recheck && t.endPacket < TxStop(t))
      && (ev.kind == TxPacketEnd ==> ev.time == TxStop(t))
      && (ev.kind != TxPacketEnd ==> ev == Entry(t.ab.recheck, TxAbortReeval) || ev == Entry(TxStop(t), TxEnd))
  {
  }

  lemma PickedAnswer(m: Config, now: nat, d: nat, l: Loc, r: AbortReply)
    ensures PickAbort(m.world, now, d, l, r).ab ==
            if r.answer.NewAbort? && !PassedAbort(now, r.answer.ab) then Some(r.answer.ab) else None
  {
  }

  /** No other event schedules the end of a packet. */
  lemma OnlyPutOffEnds(m: Config, s: State, d: nat, e: Env)
    requires !m.documented && Inv(m, s) && Running(m, s) && d == Next(Entries(s)) && Ongoing(s, d, e) == None
    ensures var r := NewLoc(m, s, d, e); r.halted || r.active <= 0 || r.dev.ev.kind != TxPacketEnd
  {
    hide PickAbort, IsGreatestOn, Live, WaitFinished, TxEnded, CcaMeasured, RssiMeasured, FoundTx, Synchronized,
      HeaderReceived, PayloadReceived, SearchReevaluated, SearchStarted, TxTimed, Goes, KeepsAligned, Timed, Core,
      FoundTxAlive, Entries, Next;
    var l, k := Get(s, d), s.devs[d].ev.kind;
    if k == TxAbortReeval {
      PickedAnswer(m, s.now, d, l, e.reply);
    }
  }

  /** The event of a packet end comes after the end of the packet, which has been ongoing all the
      time, and is followed by a second start of the packet in the same microsecond. */
  lemma EveryEndIsFollowedByAStart(m: Config, s: State, e: Env)
    requires !m.documented && Inv(m, s) && Running(m, s)
    requires s.devs[Next(Entries(s))].ev.kind == TxPacketEnd
    ensures var d, k := Next(Entries(s)), Dispatch(m, s, Next(Entries(s)), e);
      && s.txl.els[d].used.ongoing && s.txl.els[d].tx.endPacket < s.now
      && k.devs[d].ev == Entry(s.now, TxPacketStart) && k.txl.els[d].used.ended
  {
    hide IsGreatestOn, Live, CcaTimed, ScanTimed, SyncTimed, ReceiveTimed;
    var d := Next(Entries(s));
    assert Core(s.txl.els[d], s.devs[d]) && Timed(m, s.now, s.txl, d, s.devs[d]);
  }

  /** An ongoing packet is past its end only while its end is put off, or when it has started again;
      and then it is, at the latest when that end comes. */
  lemma PastItsEnd(m: Config, s: State, d: nat)
    requires !m.documented && Inv(m, s) && d < |s.devs| && s.txl.els[d].used.ongoing
    ensures s.txl.els[d].tx.endPacket < s.now ==> s.txl.els[d].used.ended || s.devs[d].ev.kind == TxPacketEnd
    ensures s.txl.els[d].used.ended ==> s.txl.els[d].tx.endPacket < s.now
    ensures s.devs[d].ev.kind == TxPacketEnd ==> s.txl.els[d].tx.endPacket < s.devs[d].ev.time
  {
    hide Timed, IsGreatestOn, Live, Entries, Next;
    assert Core(s.txl.els[d], s.devs[d]) && Timed(m, s.now, s.txl, d, s.devs[d]);
    TimedTx(m, s.now, s.txl, d, s.devs[d]);
  }

  // ---------------------------------------------------------------- the start of a packet

  /** The parameters with which the handler of an event of a transmission schedules the next one, if
      the packet is still to start then. */
  function Unstarted(s: State, d: nat, e: Env): Option<TxReq>
    requires Sized(s) && d < |s.devs|
  {
    var el, ans := s.txl.els[d], e.reply.answer;
    match s.devs[d].ev.kind
    case TxStart => if s.now < el.tx.startPacket then Some(el.tx) else None
    case TxAbortReeval =>
      if !el.used.started && ans.NewAbort? && !PassedAbort(s.now, ans.ab)
      then Some(el.tx.(ab := ans.ab)) else None
    case _ => None
  }

  /** The event leaves a packet unstarted which is to start before the end of its transmission and
      before the next recheck. */
  predicate PutsOffStart(s: State, e: Env)
    requires Sized(s)
  {
    var t := Unstarted(s, Next(Entries(s)), e);
    t.Some? && t.value.startPacket < t.value.ab.recheck && t.value.startPacket < TxStop(t.value)
  }

  /** After an event which leaves the packet unstarted, the program puts its start off to the end of
      the transmission exactly under the condition of PutsOffStart; otherwise the recheck or the end
      of the transmission comes next, or the packet starts at its own time. */
  lemma StartIsPutOffIff(m: Config, s: State, d: nat, e: Env)
    requires !m.documented && Inv(m, s) && Running(m, s) && d == Next(Entries(s)) && Unstarted(s, d, e).Some?
    ensures var ev, t := NewLoc(m, s, d, e).dev.ev, Unstarted(s, d, e).value;
      && (ev.kind == TxPacketStart && ev.time > t.startPacket <==> PutsOffStart(s, e))
      && (PutsOffStart(s, e) ==> ev == Entry(TxStop(t), TxPacketStart))
      && (!PutsOffStart(s, e) ==> ev in {Entry(t.ab.recheck, TxAbortReeval), Entry(TxStop(t), TxEnd),
                                         Entry(t.startPacket, TxPacketStart)})
  {
    hide PickAbort, IsGreatestOn, Live, TxNextEvent, Timed;
    var l, t := Get(s, d), Unstarted(s, d, e).value;
    if s.devs[d].ev.kind == TxAbortReeval {
      PickedAnswer(m, s.now, d, l, e.reply);
    }
    var el := NewLoc(m, s, d, e).txl.els[d];
    assert el.tx == t && !el.used.ongoing && !el.used.started by {
      UnstartedAfter(m, s, d, e);
    }
    NextWhileUnstarted(s.now, el.used, t);
    assert NewLoc(m, s, d, e).dev.ev == TxNextEvent(false, s.now, el.used, t);
  }

  lemma UnstartedAfter(m: Config, s: State, d: nat, e: Env)
    requires !m.documented && Inv(m, s) && Running(m, s) && d == Next(Entries(s)) && Unstarted(s, d, e).Some?
    ensures var el := NewLoc(m, s, d, e).txl.els[d];
      el.tx == Unstarted(s, d, e).value && !el.used.ongoing && !el.used.started
  {
    hide PickAbort, IsGreatestOn, Live, TxNextEvent, Timed, TxEvent;
    assert Timed(m, s.now, s.txl, d, s.devs[d]);
    if s.devs[d].ev.kind == TxAbortReeval {
      TimedTx(m, s.now, s.txl, d, s.devs[d]);
      PickedAnswer(m, s.now, d, Get(s, d), e.reply);
    }
  }

  lemma NextWhileUnstarted(now: nat, u: Txs, t: TxReq)
    requires !u.ongoing
    ensures var ev, late := TxNextEvent(false, now, u, t), t.startPacket < t.ab.recheck && t.startPacket < TxStop(t);
      && (late ==> ev == Entry(TxStop(t), TxPacketStart))
      && (!late ==> ev in {Entry(t.ab.recheck, TxAbortReeval), Entry(TxStop(t), TxEnd),
                           Entry(t.startPacket, TxPacketStart)})
  {
  }

  /** No other event schedules the first start of a packet. */
  lemma OnlyPutOffStarts(m: Config, s: State, d: nat, e: Env)
    requires !m.documented && Inv(m, s) && Running(m, s) && d == Next(Entries(s)) && Unstarted(s, d, e) == None
    ensures var r := NewLoc(m, s, d, e);
      r.halted || r.active <= 0 || r.dev.ev.kind != TxPacketStart || r.txl.els[d].used.started
  {
    hide PickAbort, IsGreatestOn, Live, WaitFinished, TxEnded, CcaMeasured, RssiMeasured, FoundTx, Synchronized,
      HeaderReceived, PayloadReceived, SearchReevaluated, SearchStarted, Goes, KeepsAligned, Timed, Core,
      FoundTxAlive, Entries, Next;
    var l, k := Get(s, d), s.devs[d].ev.kind;
    if TxOnKind(k) {
      assert Timed(m, s.now, s.txl, d, s.devs[d]);
      TimedTx(m, s.now, s.txl, d, s.devs[d]);
      PickedAnswer(m, s.now, d, l, e.reply);
    }
  }

  /** A packet in the air is unstarted after its start only while that is put off, to the end of its
      transmission. */
  lemma PastItsStart(m: Config, s: State, d: nat)
    requires !m.documented && Inv(m, s) && d < |s.devs| && s.txl.els[d].used.On() && !s.txl.els[d].used.started
    ensures s.txl.els[d].tx.startPacket < s.now ==> s.devs[d].ev == Entry(TxStop(s.txl.els[d].tx), TxPacketStart)
  {
    hide Timed, IsGreatestOn, Live, Entries, Next;
    assert Core(s.txl.els[d], s.devs[d]) && Timed(m, s.now, s.txl, d, s.devs[d]);
    TimedTx(m, s.now, s.txl, d, s.devs[d]);
  }

  // ---------------------------------------------------------------- packets over a run

  /** The pending event of a transmission is the start of its packet, late (`start`), or its end. */
  predicate Overdue(start: bool, el: El, ev: Entry)
  {
    if start then ev.kind == TxPacketStart && !el.used.started && el.tx.startPacket < ev.time
    else ev.kind == TxPacketEnd
  }

  predicate PutsOff(start: bool, s: State, e: Env)
    requires Sized(s)
  {
    if start then PutsOffStart(s, e) else PutsOffEnd(s, e)
  }

  lemma OwnOverdue(m: Config, s: State, d: nat, e: Env, start: bool)
    requires !m.documented && Inv(m, s) && Running(m, s) && d == Next(Entries(s))
    ensures var r := NewLoc(m, s, d, e);
      r.halted || r.active <= 0 || (Overdue(start, r.txl.els[d], r.dev.ev) <==> PutsOff(start, s, e))
  {
    hide NewLoc, InTime, IsGreatestOn, Live, Ongoing, Unstarted, Entries, Next;
    if start {
      if Unstarted(s, d, e).Some? {
        StartIsPutOffIff(m, s, d, e);
        UnstartedAfter(m, s, d, e);
      } else {
        OnlyPutOffStarts(m, s, d, e);
      }
    } else if Ongoing(s, d, e).Some? {
      EndIsPutOffIff(m, s, d, e);
    } else {
      OnlyPutOffEnds(m, s, d, e);
    }
  }

  /** Which packets are overdue after an event. */
  lemma StepOverdue(m: Config, s: State, e: Env, start: bool, j: nat)
    requires !m.documented && Inv(m, s) && Running(m, s) && j < |s.devs|
    requires var r := Step(m, s, e); !r.halted && r.active > 0
    ensures var r := Step(m, s, e);
      Overdue(start, r.txl.els[j], r.devs[j].ev) <==>
        if j == Next(Entries(s)) then PutsOff(start, s, e) else Overdue(start, s.txl.els[j], s.devs[j].ev)
  {
    hide Dispatch, NewLoc, InTime, IsGreatestOn, Live, PutsOff, Active;
    var d := Next(Entries(s));
    StepStructured(m, s, e);
    DispatchShape(m, s, d, e);
    NewLocCore(m, s, d, e);
    OwnOverdue(m, s, d, e, start);
  }

  ghost predicate AnyOverdue(start: bool, s: State)
  {
    exists d :: 0 <= d < |s.devs| == |s.txl.els| && Overdue(start, s.txl.els[d], s.devs[d].ev)
  }

  lemma LoopOverdue(m: Config, s: State, e: Env, r: State, start: bool)
    requires !m.documented && LoopGoes(m, s, e, r) && Inv(m, s) && !r.halted && r.active > 0
    ensures Sized(s)
    ensures PutsOff(start, s, e) ==> AnyOverdue(start, r)
    ensures AnyOverdue(start, r) ==> AnyOverdue(start, s) || PutsOff(start, s, e)
  {
    hide Step, Inv, PutsOff, Overdue;
    assert Inv(m, s) ==> Sized(s);
    StepOverdue(m, s, e, start, Next(Entries(s)));
    if AnyOverdue(start, r) {
      var j :| 0 <= j < |r.devs| && Overdue(start, r.txl.els[j], r.devs[j].ev);
      StepOverdue(m, s, e, start, j);
    }
  }

  lemma NoneAtStart(m: Model, qs: seq<Request>, start: bool)
    requires 0 < |qs|
    ensures var s := Start(m, qs); s.halted || s.active <= 0 || !AnyOverdue(start, s)
  {
    hide HandleNext, Booted;
    BootStructured(m, qs, |qs|);
  }

  ghost predicate NonePutOff(start: bool, es: seq<Env>, ss: seq<State>)
    requires |ss| == |es| + 1
  {
    forall k {:trigger ss[k]} :: 0 <= k < |es| ==> Sized(ss[k]) && !PutsOff(start, ss[k], es[k])
  }

  lemma {:induction false} NoneIsOverdue(m: Config, qs: seq<Request>, es: seq<Env>, ss: seq<State>, start: bool, k: nat)
    requires !m.documented && StraightRun(m, qs, es, ss) && NonePutOff(start, es, ss) && k < |ss|
    requires !ss[k].halted && ss[k].active > 0
    ensures !AnyOverdue(start, ss[k])
  {
    hide LoopGoes, Inv, Conforming, PutsOff, AnyOverdue;
    if k == 0 {
      NoneAtStart(m.world, qs, start);
    } else {
      assert !PutsOff(start, ss[k - 1], es[k - 1]);
      LoopRunning(m, ss[k - 1], es[k - 1], ss[k]);
      NoneIsOverdue(m, qs, es, ss, start, k - 1);
      RunInv(m, qs, es, ss, k - 1);
      LoopOverdue(m, ss[k - 1], es[k - 1], ss[k], start);
    }
  }

  lemma PutOffIsOverdue(m: Config, qs: seq<Request>, es: seq<Env>, ss: seq<State>, start: bool, k: nat)
    requires !m.documented && StraightRun(m, qs, es, ss) && k < |es| && !ss[k + 1].halted && ss[k + 1].active > 0
    ensures Sized(ss[k]) && (PutsOff(start, ss[k], es[k]) ==> AnyOverdue(start, ss[k + 1]))
  {
    hide Inv, Conforming, PutsOff, AnyOverdue;
    LoopRunning(m, ss[k], es[k], ss[k + 1]);
    RunInv(m, qs, es, ss, k);
    LoopOverdue(m, ss[k], es[k], ss[k + 1], start);
  }

  lemma NoneOverdueIff(m: Config, qs: seq<Request>, es: seq<Env>, ss: seq<State>, start: bool)
    requires !m.documented && StraightRun(m, qs, es, ss) && !ss[|es|].halted && ss[|es|].active > 0
    ensures (forall k :: 0 <= k < |ss| ==> !AnyOverdue(start, ss[k])) <==> NonePutOff(start, es, ss)
  {
    hide LoopGoes, PutsOff, AnyOverdue;
    assert forall k {:trigger es[k]} :: 0 <= k < |es| ==> LoopGoes(m, ss[k], es[k], ss[k + 1]);
    forall k: nat | k < |ss|
      ensures !ss[k].halted && ss[k].active > 0
      ensures NonePutOff(start, es, ss) ==> !AnyOverdue(start, ss[k])
    {
      if k < |es| {
        assert LoopGoes(m, ss[k], es[k], ss[k + 1]);
        LoopRunning(m, ss[k], es[k], ss[k + 1]);
      }
      if NonePutOff(start, es, ss) {
        NoneIsOverdue(m, qs, es, ss, start, k);
      }
    }
    if forall k :: 0 <= k < |ss| ==> !AnyOverdue(start, ss[k]) {
      forall k | 0 <= k < |es|
        ensures Sized(ss[k]) && !PutsOff(start, ss[k], es[k])
      {
        assert !ss[k + 1].halted && ss[k + 1].active > 0 && !AnyOverdue(start, ss[k + 1]);
        PutOffIsOverdue(m, qs, es, ss, start, k);
      }
    }
  }

  ghost predicate EndPending(s: State) { AnyOverdue(false, s) }

  ghost predicate LateStartPending(s: State) { AnyOverdue(true, s) }

  /** Over any straight run of the program, no packet has its end put off to the end of its
      transmission, to start a second time there, if and only if no event leaves a packet ongoing
      which is to end before its transmission and before the next recheck. */
  lemma PacketsEndInTimeIff(m: Config, qs: seq<Request>, es: seq<Env>, ss: seq<State>)
    requires !m.documented && StraightRun(m, qs, es, ss) && !ss[|es|].halted && ss[|es|].active > 0
    ensures (forall k :: 0 <= k < |ss| ==> !EndPending(ss[k]))
            <==> forall k {:trigger ss[k]} :: 0 <= k < |es| ==> Sized(ss[k]) && !PutsOffEnd(ss[k], es[k])
  {
    hide LoopGoes, PutsOffEnd, AnyOverdue;
    NoneOverdueIff(m, qs, es, ss, false);
  }

  /** And no packet has its start put off past its own time if and only if no event leaves a packet
      unstarted which is to start before the end of its transmission and before the next recheck. */
  lemma PacketsStartInTimeIff(m: Config, qs: seq<Request>, es: seq<Env>, ss: seq<State>)
    requires !m.documented && StraightRun(m, qs, es, ss) && !ss[|es|].halted && ss[|es|].active > 0
    ensures (forall k :: 0 <= k < |ss| ==> !LateStartPending(ss[k]))
            <==> forall k {:trigger ss[k]} :: 0 <= k < |es| ==> Sized(ss[k]) && !PutsOffStart(ss[k], es[k])
  {
    hide LoopGoes, PutsOffStart, AnyOverdue;
    NoneOverdueIff(m, qs, es, ss, true);
  }

  // ---------------------------------------------------------------- three runs which go wrong

  const LATE_PACKET := TxReq(10, 100, 20, 100, Abort(TIME_NEVER, 30), NO_RADIO, 0.0, 0, 0, 0)
  const EARLY_END := TxReq(10, 100, 10, 50, Abort(TIME_NEVER, TIME_NEVER), NO_RADIO, 0.0, 0, 0, 0)
  const LATE_START := TxReq(10, 100, 20, 100, Abort(TIME_NEVER, TIME_NEVER), NO_RADIO, 0.0, 0, 0, 0)

  /** With a noise margin before the packet, and a recheck between the start of the packet and the
      end of the transmission, time runs 10, 100, 30. */
  lemma TimeCanFall(m: Config, e: Env, f: Env)
    requires !m.documented && m.simLength > 100
    ensures var s0 := Start(m.world, [TxV2(LATE_PACKET)]);
      var s1 := Step(m, s0, e);
      var s2 := Step(m, s1, f);
      Running(m, s0) && Running(m, s1) && Running(m, s2) && s0.now == 10 && s1.now == 100 && s2.now == 30
  {
    Alone(m.world, LATE_PACKET);
    var s0 := Start(m.world, [TxV2(LATE_PACKET)]);
    var s1 := Step(m, s0, e);
    assert |Entries(s0)| == 1 && |Entries(s1)| == 1;
  }

  /** With a noise margin after the packet, the packet goes on to the end of the transmission, and
      starts a second time there. */
  lemma PacketOverstays(m: Config, e: Env, f: Env)
    requires !m.documented && m.simLength > 100
    ensures var s0 := Start(m.world, [TxV2(EARLY_END)]);
      var s1 := Step(m, s0, e);
      var s2 := Step(m, s1, f);
      && Running(m, s0) && Running(m, s1) && Running(m, s2)
      && s1.now == 100 > s1.txl.els[0].tx.endPacket && s1.txl.els[0].used.ongoing
      && s2.now == 100 && s2.devs[0].ev.kind == TxPacketStart
  {
    Alone(m.world, EARLY_END);
    var s0 := Start(m.world, [TxV2(EARLY_END)]);
    var s1 := Step(m, s0, e);
    assert |Entries(s0)| == 1 && |Entries(s1)| == 1;
  }

  /** With a noise margin before the packet, and no recheck, time does not fall back and no end of a
      packet is put off; but the packet, due at 20, starts at 100. */
  lemma PacketStartsLate(m: Config, e: Env, f: Env)
    requires !m.documented && m.simLength > 100
    ensures var s0 := Start(m.world, [TxV2(LATE_START)]);
      var s1 := Step(m, s0, e);
      var s2 := Step(m, s1, f);
      && Running(m, s0) && Running(m, s1) && Running(m, s2)
      && !Falls(m, s0) && !Falls(m, s1) && !PutsOffEnd(s0, e) && !PutsOffEnd(s1, f) && PutsOffStart(s0, e)
      && s1.now == 100 > s1.txl.els[0].tx.startPacket == 20 && !s1.txl.els[0].used.started
      && s2.now == 100 && s2.txl.els[0].used.ongoing
  {
    Alone(m.world, LATE_START);
    var s0 := Start(m.world, [TxV2(LATE_START)]);
    var s1 := Step(m, s0, e);
    assert |Entries(s0)| == 1 && |Entries(s1)| == 1;
  }

  /** A single device, whose first request is this transmission. */
  lemma Alone(m: Model, t: TxReq)
    requires TxAccepted(0, t)
    ensures var s := Start(m, [TxV2(t)]);
      && |s.devs| == 1 && s.now == t.startTx && s.active == 1 && !s.halted
      && s.devs[0].ev == Entry(t.startTx, TxStart) && s.txl.els[0].tx == t && !s.devs[0].rx.searching
  {
    var q := [TxV2(t)];
    var b := Booted(m, q, 0);
    assert b == Initial(1) && Get(b, 0) == Loc(NO_DEV, Create(1), 1, false);
    assert Booted(m, q, 1) == Put(b, 0, HandleNext(m, 0, 0, Get(b, 0), TxV2(t)));
    assert |Entries(Booted(m, q, 1))| == 1;
  }

  // ---------------------------------------------------------------- aligned transmissions

  /** With the schedule as written, transmissions carry their packet over their whole duration. */
  predicate Legal(m: Config, q: Request) { m.documented || AlignedRequest(q) }

  ghost predicate LegalRun(m: Config, qs: seq<Request>, es: seq<Env>, ss: seq<State>)
  {
    && IsRun(m, qs, es, ss)
    && (forall q :: q in qs ==> Legal(m, q))
    && (forall e :: e in es ==> Legal(m, e.next))
  }

  lemma {:induction false} BootAligned(m: Model, qs: seq<Request>, k: nat)
    requires 0 < |qs| && k <= |qs| && forall q :: q in qs ==> AlignedRequest(q)
    ensures AllAligned(Booted(m, qs, k).txl.els)
  {
    hide HandleNext, AlignedRequest;
    if k > 0 {
      BootAligned(m, qs, k - 1);
      assert AlignedRequest(qs[k - 1]);
    }
  }

  lemma LoopAligned(m: Config, s: State, e: Env, r: State)
    requires LoopGoes(m, s, e, r) && AlignedRequest(e.next)
    ensures Sized(s) && (AllAligned(s.txl.els) ==> AllAligned(r.txl.els))
  {
    hide Handle, AlignedRequest;
  }

  /** If only aligned transmissions are asked for, only such are in the list. */
  lemma {:induction false} RunAligned(m: Config, qs: seq<Request>, es: seq<Env>, ss: seq<State>, k: nat)
    requires IsRun(m, qs, es, ss) && k < |ss|
    requires (forall q :: q in qs ==> AlignedRequest(q)) && (forall e :: e in es ==> AlignedRequest(e.next))
    ensures AllAligned(ss[k].txl.els)
  {
    hide LoopGoes, AlignedRequest, AllAligned;
    if k == 0 {
      BootAligned(m.world, qs, |qs|);
    } else {
      RunAligned(m, qs, es, ss, k - 1);
      LoopRunning(m, ss[k - 1], es[k - 1], ss[k]);
      LoopAligned(m, ss[k - 1], es[k - 1], ss[k]);
    }
  }

  lemma AlignedNeverFalls(m: Config, s: State)
    requires Inv(m, s) && AllAligned(s.txl.els)
    ensures !Falls(m, s)
  {
    hide Timed, IsGreatestOn, Live, Entries, Next;
    var d := Next(Entries(s));
    assert Timed(m, s.now, s.txl, d, s.devs[d]);
    if s.devs[d].ev.kind == TxPacketStart {
      TimedTx(m, s.now, s.txl, d, s.devs[d]);
    }
  }

  /** In a run whose transmissions are aligned, or which follows the documented schedule, time never
      falls back, so that everything proved about straight runs holds. */
  lemma {:induction false} LegalIsStraight(m: Config, qs: seq<Request>, es: seq<Env>, ss: seq<State>)
    requires LegalRun(m, qs, es, ss)
    ensures StraightRun(m, qs, es, ss)
    decreases |es|
  {
    hide LoopGoes, Inv, Conforming, Legal, AlignedRequest, AllAligned;
    if |es| > 0 {
      var n := |es| - 1;
      assert LoopGoes(m, ss[n], es[n], ss[n + 1]);
      LoopRunning(m, ss[n], es[n], ss[n + 1]);
      RunPrefix(m, qs, es, ss);
      LegalIsStraight(m, qs, es[..n], ss[..n + 1]);
      RunInv(m, qs, es[..n], ss[..n + 1], n);
      LegalNeverFalls(m, qs, es, ss, n);
      StraightOnceMore(m, qs, es, ss);
    }
  }

  lemma LegalNeverFalls(m: Config, qs: seq<Request>, es: seq<Env>, ss: seq<State>, k: nat)
    requires LegalRun(m, qs, es, ss) && k < |ss| && Inv(m, ss[k])
    ensures !Falls(m, ss[k])
  {
    hide IsRun, AlignedRequest, AllAligned, InTime;
    if !m.documented {
      RunAligned(m, qs, es, ss, k);
      AlignedNeverFalls(m, ss[k]);
    }
  }

  /** Simulated time never decreases over any run with aligned transmissions, or under the documented
      schedule. */
  lemma LegalTimeNeverDecreases(m: Config, qs: seq<Request>, es: seq<Env>, ss: seq<State>, j: nat, k: nat)
    requires LegalRun(m, qs, es, ss) && j <= k < |ss| && !ss[k].halted
    ensures ss[j].now <= ss[k].now
  {
    LegalIsStraight(m, qs, es, ss);
    TimeNeverDecreases(m, qs, es, ss, j, k);
  }

  /** A run whose devices make only legal requests, and let time move, can be continued to its end. */
  lemma LegalRunEnds(m: Config, qs: seq<Request>, o: State -> Env, es: seq<Env>, ss: seq<State>)
    returns (es': seq<Env>, ss': seq<State>)
    requires LegalRun(m, qs, es, ss) && DrivenBy(o, es, ss) && Drives(m, o) && Sized(ss[|es|])
    requires forall s: State :: Legal(m, o(s).next)
    ensures LegalRun(m, qs, es', ss') && DrivenBy(o, es', ss') && es <= es' && ss <= ss'
    ensures !Running(m, ss'[|es'|])
  {
    hide LoopGoes, Inv, Conforming, Falls, Legal;
    LegalIsStraight(m, qs, es, ss);
    es', ss' := RunEnds(m, qs, o, es, ss);
    forall e | e in es'
      ensures Legal(m, e.next)
    {
      var k :| 0 <= k < |es'| && es'[k] == e;
      assert e == o(ss'[k]);
    }
    RunInv(m, qs, es', ss', |es'|);
    if Running(m, ss'[|es'|]) {
      LegalNeverFalls(m, qs, es', ss', |es'|);
    }
  }

  // ---------------------------------------------------------------- the same runs

  /** The same simulation, under the documented schedule. */
  function Documented(m: Config): Config { m.(documented := true) }

  /** The program departs from the documented schedule: it handles the end of a packet, or puts off
      its start, or puts off its end past the present. */
  predicate Departs(s: State, e: Env)
    requires Sized(s)
  {
    var d := Next(Entries(s));
    || s.devs[d].ev.kind == TxPacketEnd
    || PutsOffStart(s, e)
    || (PutsOffEnd(s, e) && s.now < TxStop(Ongoing(s, d, e).value))
  }

  /** The state bits and the parameters with which an event of a transmission schedules the next. */
  function Scheduled(s: State, d: nat, e: Env): Option<(Txs, TxReq)>
    requires Sized(s) && d < |s.devs|
  {
    var el, ans := s.txl.els[d], e.reply.answer;
    match s.devs[d].ev.kind
    case TxStart => var begun := el.tx.startPacket <= s.now; Some((Txs(true, begun, begun, false), el.tx))
    case TxPacketStart => Some((el.used.(ongoing := true, started := true), el.tx))
    case TxPacketEnd => Some((el.used.(ongoing := false, ended := true), el.tx))
    case TxAbortReeval =>
      if ans.NewAbort? && !PassedAbort(s.now, ans.ab) then Some((el.used, el.tx.(ab := ans.ab))) else None
    case _ => None
  }

  ghost predicate SameSchedule(s: State, d: nat, e: Env)
    requires Sized(s) && d < |s.devs|
  {
    var p := Scheduled(s, d, e);
    p.Some? ==> TxNextEvent(false, s.now, p.value.0, p.value.1) == TxNextEvent(true, s.now, p.value.0, p.value.1)
  }

  /** The two schedules make a difference to nothing else. */
  lemma SameLocIff(m: Config, s: State, d: nat, e: Env)
    requires !m.documented && Sized(s) && d < |s.devs|
    ensures SameSchedule(s, d, e) ==> NewLoc(Documented(m), s, d, e) == NewLoc(m, s, d, e)
    ensures NewLoc(Documented(m), s, d, e).dev == NewLoc(m, s, d, e).dev ==> SameSchedule(s, d, e)
  {
    hide PickAbort, TxNextEvent, WaitFinished, TxEnded, CcaMeasured, RssiMeasured, FoundTx, Synchronized,
      HeaderReceived, PayloadReceived, SearchReevaluated, SearchStarted, Goes, KeepsAligned;
    PickedAnswer(m, s.now, d, Get(s, d), e.reply);
  }

  lemma SameDispatchIff(m: Config, s: State, d: nat, e: Env)
    requires !m.documented && Structured(s) && d < |s.devs| && s.devs[d].ev.kind != NoEvent
    ensures Dispatch(Documented(m), s, d, e) == Dispatch(m, s, d, e) <==> SameSchedule(s, d, e)
  {
    hide Handle, TxSchedule, TxStarted, SameSchedule, IsGreatestOn, Live;
    assert Core(s.txl.els[d], s.devs[d]);
    SameLocIff(m, s, d, e);
    DispatchShape(m, s, d, e);
    DispatchShape(Documented(m), s, d, e);
    if s.devs[d].ev.kind in {TxStart, TxPacketStart} {
      StartEvents(m, s, d);
      StartEvents(Documented(m), s, d);
    }
  }

  /** In a state which both schedules can have led to, they go on alike if and only if the event does
      not depart. */
  lemma SameScheduleIff(m: Config, s: State, d: nat, e: Env)
    requires !m.documented && Inv(m, s) && Inv(Documented(m), s) && Running(m, s) && d == Next(Entries(s))
    ensures SameSchedule(s, d, e) <==> !Departs(s, e)
  {
    hide Timed, IsGreatestOn, Live, Entries, Next, TxNextEvent, TxTimed, FoundTxAlive;
    var k, el := s.devs[d].ev.kind, s.txl.els[d];
    assert Timed(m, s.now, s.txl, d, s.devs[d]) && Timed(Documented(m), s.now, s.txl, d, s.devs[d]);
    if k == TxStart {
      DueStart(m, s.now, s.txl, d, s.devs[d]);
      StartAgreeIff(s.now, Scheduled(s, d, e).value.0, el.tx);
    } else if TxOnKind(k) {
      TimedTx(m, s.now, s.txl, d, s.devs[d]);
      TimedTx(Documented(m), s.now, s.txl, d, s.devs[d]);
      if Scheduled(s, d, e).Some? {
        GoingAgreeIff(m, s, d, e);
      }
    }
  }

  lemma DueStart(m: Config, now: nat, txl: TxL, d: nat, dev: Dev)
    requires d < |txl.els| && Timed(m, now, txl, d, dev) && dev.ev.kind == TxStart
    ensures TxShape(txl.els[d].tx) && dev.ev.time == txl.els[d].tx.startTx
  {
  }

  /** At the start of a transmission. */
  lemma StartAgreeIff(now: nat, u: Txs, t: TxReq)
    requires now == t.startTx && TxShape(t) && !u.ended && u.ongoing == u.started == (t.startPacket <= now)
    ensures TxNextEvent(false, now, u, t) == TxNextEvent(true, now, u, t) <==>
            if t.startPacket <= now then !(t.endPacket < t.ab.recheck && t.endPacket < TxStop(t) && now < TxStop(t))
            else !(t.startPacket < t.ab.recheck && t.startPacket < TxStop(t))
  {
  }

  /** At a later event of a transmission. */
  lemma GoingAgreeIff(m: Config, s: State, d: nat, e: Env)
    requires !m.documented && Sized(s) && d < |s.devs| && d == Next(Entries(s)) && TxOnKind(s.devs[d].ev.kind)
    requires Scheduled(s, d, e).Some? && s.now == s.devs[d].ev.time < TIME_NEVER
    requires TxTimed(m, s.now, s.txl.els[d].used, s.txl.els[d].tx, s.devs[d].ev)
    requires TxTimed(Documented(m), s.now, s.txl.els[d].used, s.txl.els[d].tx, s.devs[d].ev)
    ensures SameSchedule(s, d, e) <==> !Departs(s, e)
  {
    hide Entries, Next;
  }

  lemma SameStepIff(m: Config, s: State, e: Env)
    requires !m.documented && Inv(m, s) && Inv(Documented(m), s) && Running(m, s)
    ensures Step(Documented(m), s, e) == Step(m, s, e) <==> !Departs(s, e)
  {
    hide Dispatch, SameSchedule, Departs, InTime, IsGreatestOn, Live;
    var d := Next(Entries(s));
    StepStructured(m, s, e);
    DispatchShape(m, s, d, e);
    DispatchShape(Documented(m), s, d, e);
    SameDispatchIff(m, s, d, e);
    SameScheduleIff(m, s, d, e);
    Rewound(Dispatch(m, s, d, e), Dispatch(Documented(m), s, d, e));
  }

  /** Moving on in time loses only the time before. */
  lemma Rewound(s: State, r: State)
    requires Sized(s) && Sized(r) && s.now == r.now
    ensures Advance(s) == Advance(r) <==> s == r
  {
  }

  lemma NoFallInBoth(m: Config, s: State)
    requires !m.documented && Inv(m, s) && Inv(Documented(m), s)
    ensures !Falls(m, s)
  {
    hide Timed, IsGreatestOn, Live, Entries, Next;
    var d := Next(Entries(s));
    assert Timed(m, s.now, s.txl, d, s.devs[d]) && Timed(Documented(m), s.now, s.txl, d, s.devs[d]);
    if s.devs[d].ev.kind == TxPacketStart {
      TimedTx(m, s.now, s.txl, d, s.devs[d]);
      TimedTx(Documented(m), s.now, s.txl, d, s.devs[d]);
    }
  }

  /** A run under both schedules keeps both invariants. */
  lemma {:induction false} BothInv(m: Config, qs: seq<Request>, es: seq<Env>, ss: seq<State>)
    requires !m.documented && IsRun(m, qs, es, ss) && IsRun(Documented(m), qs, es, ss)
    ensures StraightRun(m, qs, es, ss)
    ensures var s := ss[|es|]; s.halted || s.active <= 0 || (Inv(m, s) && Inv(Documented(m), s))
    decreases |es|
  {
    hide LoopGoes, Inv, Conforming, Falls;
    var n := Documented(m);
    if |es| > 0 {
      var k := |es| - 1;
      assert LoopGoes(m, ss[k], es[k], ss[k + 1]);
      LoopRunning(m, ss[k], es[k], ss[k + 1]);
      RunPrefix(m, qs, es, ss);
      RunPrefix(n, qs, es, ss);
      BothInv(m, qs, es[..k], ss[..k + 1]);
      NoFallInBoth(m, ss[k]);
      StraightOnceMore(m, qs, es, ss);
    }
    RunInv(m, qs, es, ss, |es|);
    LegalIsStraight(n, qs, es, ss);
    RunInv(n, qs, es, ss, |es|);
  }

  lemma SameLoop(m: Config, s: State, e: Env, r: State)
    requires !m.documented && Inv(m, s) && Inv(Documented(m), s)
    ensures Sized(s) && (LoopGoes(m, s, e, r) && LoopGoes(Documented(m), s, e, r) ==> !Departs(s, e))
    ensures !Departs(s, e) ==> (LoopGoes(Documented(m), s, e, r) <==> LoopGoes(m, s, e, r))
  {
    hide Step, Departs, InTime;
    if Running(m, s) {
      SameStepIff(m, s, e);
    }
  }

  ghost predicate NoneDeparts(es: seq<Env>, ss: seq<State>)
    requires |ss| == |es| + 1
  {
    forall k {:trigger ss[k]} :: 0 <= k < |es| ==> Sized(ss[k]) && !Departs(ss[k], es[k])
  }

  lemma NoneDepartsBefore(es: seq<Env>, ss: seq<State>)
    requires 0 < |es| == |ss| - 1 && NoneDeparts(es, ss)
    ensures NoneDeparts(es[..|es| - 1], ss[..|es|])
  {
    hide Departs;
    var es', ss' := es[..|es| - 1], ss[..|es|];
    forall k | 0 <= k < |es'|
      ensures Sized(ss'[k]) && !Departs(ss'[k], es'[k])
    {
      assert es'[k] == es[k] && ss'[k] == ss[k];
    }
  }

  lemma NoneDepartsAfter(es: seq<Env>, ss: seq<State>)
    requires 0 < |es| == |ss| - 1 && NoneDeparts(es[..|es| - 1], ss[..|es|])
    requires Sized(ss[|es| - 1]) && !Departs(ss[|es| - 1], es[|es| - 1])
    ensures NoneDeparts(es, ss)
  {
    hide Departs;
    var es', ss' := es[..|es| - 1], ss[..|es|];
    forall k | 0 <= k < |es|
      ensures Sized(ss[k]) && !Departs(ss[k], es[k])
    {
      if k < |es'| {
        assert es'[k] == es[k] && ss'[k] == ss[k];
      }
    }
  }

  lemma {:induction false} SameRuns(m: Config, n: Config, qs: seq<Request>, es: seq<Env>, ss: seq<State>)
    requires !m.documented && (n == m || n == Documented(m)) && IsRun(n, qs, es, ss) && NoneDeparts(es, ss)
    ensures IsRun(m, qs, es, ss) && IsRun(Documented(m), qs, es, ss)
    decreases |es|
  {
    hide LoopGoes, Inv, Departs;
    if |es| > 0 {
      var k := |es| - 1;
      RunPrefix(n, qs, es, ss);
      NoneDepartsBefore(es, ss);
      SameRuns(m, n, qs, es[..k], ss[..k + 1]);
      assert LoopGoes(n, ss[k], es[k], ss[k + 1]);
      LoopRunning(n, ss[k], es[k], ss[k + 1]);
      BothInv(m, qs, es[..k], ss[..k + 1]);
      assert !Departs(ss[k], es[k]);
      SameLoop(m, ss[k], es[k], ss[k + 1]);
      OneMore(m, qs, es, ss);
      OneMore(Documented(m), qs, es, ss);
    }
  }

  lemma OneMore(m: Config, qs: seq<Request>, es: seq<Env>, ss: seq<State>)
    requires 0 < |es| == |ss| - 1 && IsRun(m, qs, es[..|es| - 1], ss[..|es|])
    requires LoopGoes(m, ss[|es| - 1], es[|es| - 1], ss[|es|])
    ensures IsRun(m, qs, es, ss)
  {
    hide LoopGoes, Start;
    var n := |es| - 1;
    Extended(m, qs, es[..n], ss[..n + 1], es[n], ss[n + 1]);
    assert es == es[..n] + [es[n]] && ss == ss[..n + 1] + [ss[n + 1]];
  }

  lemma NothingDeparts(ss: seq<State>)
    requires |ss| == 1
    ensures NoneDeparts([], ss)
  {
  }

  lemma {:induction false} NeverDeparted(m: Config, qs: seq<Request>, es: seq<Env>, ss: seq<State>)
    requires !m.documented && IsRun(m, qs, es, ss) && IsRun(Documented(m), qs, es, ss)
    ensures NoneDeparts(es, ss)
    decreases |es|
  {
    hide LoopGoes, Inv, Departs, NoneDeparts, Start;
    if |es| == 0 {
      NothingDeparts(ss);
    } else {
      var k, n := |es| - 1, Documented(m);
      assert LoopGoes(m, ss[k], es[k], ss[k + 1]) && LoopGoes(n, ss[k], es[k], ss[k + 1]);
      LoopRunning(m, ss[k], es[k], ss[k + 1]);
      RunPrefix(m, qs, es, ss);
      RunPrefix(n, qs, es, ss);
      NeverDeparted(m, qs, es[..k], ss[..k + 1]);
      BothInv(m, qs, es[..k], ss[..k + 1]);
      SameLoop(m, ss[k], es[k], ss[k + 1]);
      NoneDepartsAfter(es, ss);
    }
  }

  /** The program does what is documented exactly as long as no event departs: a run of the program,
      or of the documented schedule, whatever the devices ask, is one of the other as well if and only
      if no event of it handles the end of a packet, puts off a start, or puts off an end past the
      present. */
  lemma DocumentedRunIff(m: Config, qs: seq<Request>, es: seq<Env>, ss: seq<State>)
    requires !m.documented && (IsRun(m, qs, es, ss) || IsRun(Documented(m), qs, es, ss))
    ensures |ss| == |es| + 1
    ensures IsRun(m, qs, es, ss) && IsRun(Documented(m), qs, es, ss) <==> NoneDeparts(es, ss)
  {
    hide LoopGoes, Departs;
    if NoneDeparts(es, ss) {
      SameRuns(m, if IsRun(m, qs, es, ss) then m else Documented(m), qs, es, ss);
    }
    if IsRun(m, qs, es, ss) && IsRun(Documented(m), qs, es, ss) {
      NeverDeparted(m, qs, es, ss);
    }
  }

  /** An aligned transmission in the air has its packet in the air. */
  lemma NoPacketEvents(m: Config, now: nat, txl: TxL, d: nat, dev: Dev)
    requires d < |txl.els| && Timed(m, now, txl, d, dev) && Aligned(txl.els[d].tx)
    ensures dev.ev.kind !in {TxPacketStart, TxPacketEnd}
  {
  }

  lemma AlignedNeverDeparts(m: Config, s: State, e: Env)
    requires Inv(m, s) && AllAligned(s.txl.els)
    ensures !Departs(s, e)
  {
    hide Timed, IsGreatestOn, Live, Entries, Next, TxEvent;
    var d := Next(Entries(s));
    assert Timed(m, s.now, s.txl, d, s.devs[d]);
    NoPacketEvents(m, s.now, s.txl, d, s.devs[d]);
    if s.devs[d].ev.kind == TxStart {
      DueStart(m, s.now, s.txl, d, s.devs[d]);
    } else if TxOnKind(s.devs[d].ev.kind) {
      TimedTx(m, s.now, s.txl, d, s.devs[d]);
    }
  }

  lemma AlignedRunNeverDeparts(n: Config, qs: seq<Request>, es: seq<Env>, ss: seq<State>)
    requires IsRun(n, qs, es, ss)
    requires (forall q :: q in qs ==> AlignedRequest(q)) && (forall e :: e in es ==> AlignedRequest(e.next))
    ensures NoneDeparts(es, ss)
  {
    hide LoopGoes, AlignedRequest, AllAligned, Inv, Conforming, Departs, Falls;
    LegalIsStraight(n, qs, es, ss);
    forall k | 0 <= k < |es|
      ensures Sized(ss[k]) && !Departs(ss[k], es[k])
    {
      assert LoopGoes(n, ss[k], es[k], ss[k + 1]);
      LoopRunning(n, ss[k], es[k], ss[k + 1]);
      RunAligned(n, qs, es, ss, k);
      RunInv(n, qs, es, ss, k);
      AlignedNeverDeparts(n, ss[k], es[k]);
    }
  }

  /** So, as long as every transmission is aligned, the runs of the program are the runs under the
      documented schedule, event by event. */
  lemma AlignedRunsAreDocumented(m: Config, qs: seq<Request>, es: seq<Env>, ss: seq<State>)
    requires !m.documented
    requires (forall q :: q in qs ==> AlignedRequest(q)) && (forall e :: e in es ==> AlignedRequest(e.next))
    ensures IsRun(m, qs, es, ss) <==> IsRun(Documented(m), qs, es, ss)
  {
    hide IsRun, AlignedRequest;
    if IsRun(m, qs, es, ss) {
      AlignedRunNeverDeparts(m, qs, es, ss);
      SameRuns(m, m, qs, es, ss);
    }
    if IsRun(Documented(m), qs, es, ss) {
      AlignedRunNeverDeparts(Documented(m), qs, es, ss);
      SameRuns(m, Documented(m), qs, es, ss);
    }
  }
}
