/** What the messages of a device have to do with what it has sent: every request, answer and abort
    time of the log is the one the device gave, and nothing of it is passed over. */
module Dialogue {
  import opened Types
  import opened FuncQueue
  import opened TxList
  import opened ErrorCalc
  import opened ChannelModem
  import opened Requests
  import opened Device
  import opened Phy
  import opened SessionLaws
  import opened Invariant
  import opened Structure
  import opened Runs

  /** A log with more messages. */
  function Plus(log: Log, xs: seq<Item>): Log
  {
    if xs == [] then log else Snoc(Plus(log, xs[..|xs| - 1]), xs[|xs| - 1])
  }

  lemma PlusOne(log: Log, x: Item)
    ensures Plus(log, [x]) == Snoc(log, x)
  {
    assert [x][..0] == [];
  }

  lemma {:induction false} PlusPlus(log: Log, xs: seq<Item>, ys: seq<Item>)
    ensures Plus(Plus(log, xs), ys) == Plus(log, xs + ys)
    decreases |ys|
  {
    if ys == [] {
      assert xs + ys == xs;
    } else {
      var n := |ys| - 1;
      assert (xs + ys)[..|xs + ys| - 1] == xs + ys[..n];
      PlusPlus(log, xs, ys[..n]);
    }
  }

  // ---------------------------------------------------------------- what is said to what

  /** What a device is told of, or has done with, its next request. A request with an unknown header
      is an error. */
  function Requested(now: nat, q: Request): seq<Item>
  {
    match q
    case Disconnect => [Left(now)]
    case Terminate => [Ended(now)]
    case Unknown(_) => []
    case _ => [Asked(now, q)]
  }

  /** The end of a re-evaluation. */
  function Agreed(now: nat, a: AbortAnswer): Item
  {
    match a
    case NewAbort(ab) => AbortSet(now, ab)
    case Leave => Left(now)
    case StopAll => Ended(now)
    case Garbage(_) => Ended(now)
  }

  /** The decision on a packet whose address was found. */
  function Decision(now: nat, e: Env): seq<Item>
  {
    match e.cont
    case Cont => [Continued(now)]
    case ContV2(ab) => [ContinuedV2(now, ab)]
    case RxStop => [Stopped(now)] + Requested(now, e.next)
    case ContLeave => [Left(now)]
    case ContStopAll => [Ended(now)]
    case ContUnknown(_) => []
  }

  /** In the messages of one event, what comes after message `x` is what the device has answered: its
      next request after all that finishes one, its decision after an address, and its immediate RSSI
      measurements and abort times in a re-evaluation. */
  ghost predicate HeardAfter(now: nat, e: Env, x: Item, rest: seq<Item>)
  {
    && (Finishes(x) ==> rest == Requested(now, e.next))
    && (x.AddressFound? ==> rest == Decision(now, e))
    && (x.AbortAsked? ==>
          var n := |e.reply.immRssi|;
          && |rest| > n && rest[n] == Agreed(now, e.reply.answer)
          && forall j :: 0 <= j < n ==> rest[j] == ImmRssi(now))
  }

  ghost predicate Heard(now: nat, e: Env, xs: seq<Item>)
  {
    forall i :: 0 <= i < |xs| ==> HeardAfter(now, e, xs[i], xs[i + 1..])
  }

  lemma OneMoreHeard(now: nat, e: Env, x: Item, rest: seq<Item>)
    requires HeardAfter(now, e, x, rest) && Heard(now, e, rest)
    ensures Heard(now, e, [x] + rest)
  {
    hide HeardAfter;
    var xs := [x] + rest;
    forall i | 0 <= i < |xs|
      ensures HeardAfter(now, e, xs[i], xs[i + 1..])
    {
      assert xs[i + 1..] == rest[i..];
      if i > 0 {
        assert HeardAfter(now, e, rest[i - 1], rest[i..]);
      } else {
        assert rest[0..] == rest;
      }
    }
  }

  lemma RequestHeard(now: nat, e: Env, q: Request)
    ensures Heard(now, e, Requested(now, q)) && NoLock(Requested(now, q))
  {
  }

  /** A device which leaves is one active device fewer, and one which ends the simulation leaves none. */
  function ActiveAfter(active: int, xs: seq<Item>): int
  {
    if xs == [] then active
    else match xs[|xs| - 1]
      case Left(_) => active - 1
      case Ended(_) => 0
      case _ => active
  }

  /** The message is followed by an error: a request which is not acceptable, abort times which have
      passed, or an answer with an unknown header. */
  predicate IsFatal(x: Item)
  {
    match x
    case Asked(t, q) => !Acceptable(t, q)
    case AbortSet(t, ab) => t > ab.abort || t > ab.recheck
    case ContinuedV2(t, ab) => t > ab.abort || t > ab.recheck
    case AddressFound(_, _) => true
    case _ => Finishes(x)
  }

  predicate EndsAsking(xs: seq<Item>) { xs != [] && xs[|xs| - 1].Asked? }

  predicate EndsFatally(xs: seq<Item>) { xs != [] && IsFatal(xs[|xs| - 1]) }

  /** What a request leads to: an event at its time, with what is kept of it. A prelocked reception goes
      on with the transmitter of the one before, any other begins with none. */
  predicate IsPrepared(q: Request, was: int, dev: Dev)
  {
    match q
    case Wait(end) => dev.ev == Entry(end, WaitDone)
    case Tx(x) => dev.ev == Entry(x.start, TxStart)
    case TxV2(x) => dev.ev == Entry(x.startTx, TxStart)
    case Rssi(x) => dev.ev == Entry(x.at, RssiMeas) && dev.rssi == x
    case Rx(x) =>
      && dev.ev == Entry(x.start, RxSearchStart) && RxAsked(q) == Some(dev.rx.req) && !dev.rx.prelocked
      && dev.rx.txNbr == -1
    case RxV2(x) =>
      && dev.ev == Entry(x.start, RxSearchStart) && x == dev.rx.req && dev.rx.prelocked == x.prelocked
      && dev.rx.txNbr == if x.prelocked then was else -1
    case CcaScan(x) => dev.ev == Entry(x.start, CcaMeas) && dev.cca.req == x
    case _ => true
  }

  /** A device which has left has no event any more; one which has accepted a packet receives the rest
      of it, header first if there is one, from the next microsecond on, or at once if there is no
      preamble. */
  predicate IsNextEvent(xs: seq<Item>, was: int, dev: Dev)
  {
    xs != [] ==>
      match xs[|xs| - 1]
      case Asked(t, q) => Acceptable(t, q) ==> IsPrepared(q, was, dev)
      case Left(_) => dev.ev == NO_ENTRY
      case Continued(t) => dev.ev == FirstEvent(t, dev.rx.req)
      case ContinuedV2(t, ab) =>
        t <= ab.abort && t <= ab.recheck ==> dev.ev == FirstEvent(t, dev.rx.req) && dev.rx.req.ab == ab
      case _ => true
  }

  function FirstEvent(t: nat, r: RxReq): Entry
  {
    Entry(if r.preamble == 0 then t else t + 1, if r.header > 0 then RxHeader else RxPayload)
  }

  lemma LastOf(xs: seq<Item>, ys: seq<Item>, active: int, was: int, dev: Dev)
    requires ys != []
    ensures EndsFatally(xs + ys) <==> EndsFatally(ys)
    ensures ActiveAfter(active, xs + ys) == ActiveAfter(active, ys)
    ensures IsNextEvent(xs + ys, was, dev) <==> IsNextEvent(ys, was, dev)
  {
    assert (xs + ys)[|xs + ys| - 1] == ys[|ys| - 1];
  }

  /** One event of a device: `xs` are its messages. */
  ghost predicate Talks(now: nat, e: Env, l: Loc, r: Loc, xs: seq<Item>)
  {
    && r.dev.log == Plus(l.dev.log, xs) && Heard(now, e, xs)
    && r.active == ActiveAfter(l.active, xs)
    && (r.halted <==> l.halted || EndsFatally(xs))
    && IsNextEvent(xs, l.dev.rx.txNbr, r.dev)
  }

  ghost predicate NoLock(xs: seq<Item>) { forall x :: x in xs ==> !x.Locked? }

  // ---------------------------------------------------------------- requests

  lemma NextTalks(m: Model, now: nat, d: nat, l: Loc, q: Request)
    requires Fits(l, d)
    ensures var r, xs := HandleNext(m, now, d, l, q), Requested(now, q);
      && r.dev.log == Plus(l.dev.log, xs) && r.active == ActiveAfter(l.active, xs)
      && (r.halted <==> l.halted || q.Unknown? || EndsFatally(xs))
      && IsNextEvent(xs, l.dev.rx.txNbr, r.dev)
  {
    hide CalcOf, ScanEndOf, Goes, KeepsAligned;
    if Requested(now, q) != [] {
      PlusOne(l.dev.log, Requested(now, q)[0]);
    }
  }

  /** A message which has to be followed by others, and these. */
  lemma FirstSaid(now: nat, e: Env, l: Loc, x: Item, ys: seq<Item>, r: Loc)
    requires Finishes(x) || x.AddressFound?
    requires r.dev.log == Plus(Snoc(l.dev.log, x), ys) && r.active == ActiveAfter(l.active, ys)
    requires r.halted <==> l.halted || ys == [] || EndsFatally(ys)
    requires IsNextEvent(ys, l.dev.rx.txNbr, r.dev) && Heard(now, e, ys) && HeardAfter(now, e, x, ys)
    ensures Talks(now, e, l, r, [x] + ys)
  {
    hide HeardAfter, Heard;
    PlusOne(l.dev.log, x);
    PlusPlus(l.dev.log, [x], ys);
    OneMoreHeard(now, e, x, ys);
    if ys == [] {
      assert [x] + ys == [x];
    } else {
      hide EndsFatally, ActiveAfter, IsNextEvent;
      LastOf([x], ys, l.active, l.dev.rx.txNbr, r.dev);
    }
  }

  /** Something is finished, and the next request is read. `l` is as the handler leaves it, with the
      finishing message `x`. */
  lemma FinishTalks(m: Model, now: nat, d: nat, l: Loc, x: Item, e: Env) returns (xs: seq<Item>)
    requires Fits(l, d) && Finishes(x)
    ensures Talks(now, e, l, HandleNext(m, now, d, Emit(l, x), e.next), xs) && NoLock(xs)
    ensures xs == [x] + Requested(now, e.next)
  {
    hide HandleNext, EndsFatally, ActiveAfter, IsNextEvent, Heard, Talks;
    var ys := Requested(now, e.next);
    xs := [x] + ys;
    NextTalks(m, now, d, Emit(l, x), e.next);
    RequestHeard(now, e, e.next);
    FirstSaid(now, e, l, x, ys, HandleNext(m, now, d, Emit(l, x), e.next));
  }

  // ---------------------------------------------------------------- re-evaluations

  lemma {:induction false} ImmediateTalks(m: Model, now: nat, d: nat, l: Loc, rs: seq<RssiReq>)
    ensures ImmediateRssis(m, now, d, l, rs).dev.log == Plus(l.dev.log, seq(|rs|, i => ImmRssi(now)))
    decreases |rs|
  {
    var xs := seq(|rs|, i => ImmRssi(now));
    if rs != [] {
      var l1 := Emit(Measure(m, now, d, l, rs[0].gain, rs[0].radio).0, ImmRssi(now));
      ImmediateTalks(m, now, d, l1, rs[1..]);
      var ys := seq(|rs[1..]|, i => ImmRssi(now));
      assert xs == [ImmRssi(now)] + ys;
      PlusOne(l.dev.log, ImmRssi(now));
      PlusPlus(l.dev.log, [ImmRssi(now)], ys);
    }
  }

  /** The messages of a re-evaluation. */
  function Reevaluation(now: nat, e: Env): seq<Item>
  {
    [AbortAsked(now)] + seq(|e.reply.immRssi|, i => ImmRssi(now)) + [Agreed(now, e.reply.answer)]
  }

  lemma PickTalks(m: Model, now: nat, d: nat, l: Loc, e: Env)
    ensures var p, xs := PickAbort(m, now, d, l, e.reply), Reevaluation(now, e);
      && p.l.dev.log == Plus(l.dev.log, xs) && p.l.active == ActiveAfter(l.active, xs)
      && (p.l.halted <==> l.halted || EndsFatally(xs))
      && p.ab == if e.reply.answer.NewAbort? && !EndsFatally(xs) then Some(e.reply.answer.ab) else None
  {
    hide Goes, ImmediateRssis, Acceptable;
    var imm, last := seq(|e.reply.immRssi|, i => ImmRssi(now)), Agreed(now, e.reply.answer);
    ImmediateTalks(m, now, d, Emit(l, AbortAsked(now)), e.reply.immRssi);
    PlusOne(l.dev.log, AbortAsked(now));
    PlusPlus(l.dev.log, [AbortAsked(now)], imm);
    assert Reevaluation(now, e)[..|Reevaluation(now, e)| - 1] == [AbortAsked(now)] + imm;
  }

  lemma {:induction false} ImmediateHeard(now: nat, e: Env, n: nat, rest: seq<Item>)
    requires Heard(now, e, rest)
    ensures Heard(now, e, seq(n, i => ImmRssi(now)) + rest)
  {
    var xs := seq(n, i => ImmRssi(now)) + rest;
    if n == 0 {
      assert xs == rest;
    } else {
      ImmediateHeard(now, e, n - 1, rest);
      assert xs == [ImmRssi(now)] + (seq(n - 1, i => ImmRssi(now)) + rest);
      OneMoreHeard(now, e, ImmRssi(now), seq(n - 1, i => ImmRssi(now)) + rest);
    }
  }

  /** The handler goes on after a re-evaluation, or not. */
  lemma ReevaluationHeard(now: nat, e: Env, rest: seq<Item>)
    requires Heard(now, e, rest)
    ensures Heard(now, e, Reevaluation(now, e) + rest) && NoLock(Reevaluation(now, e))
  {
    hide Heard;
    var n, last := |e.reply.immRssi|, Agreed(now, e.reply.answer);
    var imm := seq(n, i => ImmRssi(now));
    OneMoreHeard(now, e, last, rest);
    ImmediateHeard(now, e, n, [last] + rest);
    var ys := imm + ([last] + rest);
    assert ys[n] == last && forall j :: 0 <= j < n ==> ys[j] == ImmRssi(now);
    OneMoreHeard(now, e, AbortAsked(now), ys);
    assert Reevaluation(now, e) + rest == [AbortAsked(now)] + ys;
  }

  /** A re-evaluation, if it is due, and then the rest of the event. */
  ghost predicate Rechecking(now: nat, e: Env, l: Loc, c: Rechecked, recheck: nat)
  {
    if now < recheck then c.l == l && !c.quit
    else
      var ys := Reevaluation(now, e);
      && c.l.dev.rx.txNbr == l.dev.rx.txNbr
      && c.l.dev.log == Plus(l.dev.log, ys) && c.l.active == ActiveAfter(l.active, ys)
      && (c.l.halted <==> l.halted || EndsFatally(ys))
      && (c.quit <==> !e.reply.answer.NewAbort? || EndsFatally(ys))
  }

  lemma RxRechecking(m: Model, now: nat, d: nat, l: Loc, e: Env, scanning: bool)
    ensures Rechecking(now, e, l, RxRecheck(m, now, d, l, e, scanning), l.dev.rx.req.ab.recheck)
  {
    hide PickAbort, EndsFatally, ActiveAfter, Goes;
    PickTalks(m, now, d, l, e);
  }

  lemma CcaRechecking(m: Model, now: nat, d: nat, l: Loc, e: Env)
    ensures Rechecking(now, e, l, CcaRecheck(m, now, d, l, e), l.dev.cca.req.ab.recheck)
  {
    hide PickAbort, EndsFatally, ActiveAfter, Goes;
    PickTalks(m, now, d, l, e);
  }

  /** The session ends with the re-evaluation. */
  lemma QuitTalks(now: nat, e: Env, l: Loc, c: Rechecked, recheck: nat, r: Loc) returns (xs: seq<Item>)
    requires Rechecking(now, e, l, c, recheck) && c.quit
    requires r.dev.log == c.l.dev.log && r.active == c.l.active && r.halted == c.l.halted && r.dev.ev == NO_ENTRY
    ensures Talks(now, e, l, r, xs) && NoLock(xs)
  {
    xs := Reevaluation(now, e);
    ReevaluationHeard(now, e, []);
    assert xs + [] == xs;
  }

  /** Or goes on. */
  lemma GoOnTalks(now: nat, e: Env, l: Loc, c: Rechecked, recheck: nat, r: Loc, ys: seq<Item>)
    returns (xs: seq<Item>)
    requires Rechecking(now, e, l, c, recheck) && !c.quit && Talks(now, e, c.l, r, ys)
    ensures Talks(now, e, l, r, xs) && (NoLock(ys) ==> NoLock(xs))
    ensures (xs == [] <==> ys == [] && now < recheck) && (ys != [] ==> xs[|xs| - 1] == ys[|ys| - 1])
  {
    if now < recheck {
      xs := ys;
    } else {
      var us := Reevaluation(now, e);
      xs := us + ys;
      PlusPlus(l.dev.log, us, ys);
      ReevaluationHeard(now, e, ys);
      assert us + [] == us;
      if ys != [] {
        LastOf(us, ys, l.active, c.l.dev.rx.txNbr, r.dev);
      }
    }
  }

  /** Nothing is said. */
  lemma SilentTalks(now: nat, e: Env, l: Loc, r: Loc)
    requires r.dev.log == l.dev.log && r.active == l.active && r.halted == l.halted
    ensures Talks(now, e, l, r, [])
  {
  }

  /** One message, which needs no answer. */
  lemma OneTalks(now: nat, e: Env, l: Loc, x: Item, r: Loc)
    requires r.dev.log == Snoc(l.dev.log, x) && r.active == l.active && r.halted == l.halted
    requires x.Locked? || x.SyncLost?
    ensures Talks(now, e, l, r, [x])
  {
    assert [x][..0] == [];
  }

  // ---------------------------------------------------------------- the handlers

  lemma TxReevalTalks(m: Config, now: nat, d: nat, l: Loc, e: Env) returns (xs: seq<Item>)
    requires Fits(l, d)
    ensures Talks(now, e, l, TxAbortReevaluated(m, now, d, l, e), xs) && NoLock(xs)
  {
    hide PickAbort, TxNextEvent, Goes, KeepsAligned;
    PickTalks(m.world, now, d, l, e);
    xs := Reevaluation(now, e);
    ReevaluationHeard(now, e, []);
    assert xs + [] == xs;
  }

  lemma CcaTalks(m: Model, now: nat, d: nat, l: Loc, e: Env) returns (xs: seq<Item>)
    requires Fits(l, d)
    ensures Talks(now, e, l, CcaMeasured(m, now, d, l, e), xs) && NoLock(xs)
  {
    hide HandleNext, CcaRecheck, CcaSampled, AfterRssi, Goes, KeepsAligned, Talks, Rechecking;
    var c := CcaRecheck(m, now, d, l, e);
    CcaRechecking(m, now, d, l, e);
    if c.quit {
      xs := QuitTalks(now, e, l, c, l.dev.cca.req.ab.recheck, CcaMeasured(m, now, d, l, e));
    } else {
      var l1 := if now >= c.l.dev.cca.nextMeas then CcaSample(m, now, d, c.l) else c.l;
      var ys := CcaFromTalks(m, now, d, c.l, l1, e);
      xs := GoOnTalks(now, e, l, c, l.dev.cca.req.ab.recheck, CcaMeasured(m, now, d, l, e), ys);
    }
  }

  /** A measurement says nothing. */
  lemma CcaFromTalks(m: Model, now: nat, d: nat, l: Loc, l1: Loc, e: Env) returns (xs: seq<Item>)
    requires Fits(l, d) && l1 in {l, CcaSample(m, now, d, l)}
    ensures Talks(now, e, l, CcaFrom(m, now, d, l1, e), xs) && NoLock(xs)
  {
    hide HandleNext, CcaSampled, AfterRssi, Goes, KeepsAligned, Talks;
    assert l1.dev.log == l.dev.log && l1.active == l.active && l1.halted == l.halted;
    var cca := l1.dev.cca;
    if now >= cca.scanEnd {
      xs := FinishTalks(m, now, d, l1, CcaReply(now, cca.done, cca.samples), e);
      SameTalks(now, e, l1, l, CcaFrom(m, now, d, l1, e), xs);
    } else {
      xs := [];
      SilentTalks(now, e, l, CcaFrom(m, now, d, l1, e));
    }
  }

  /** What is said depends on the log before, and on nothing else. */
  lemma SameTalks(now: nat, e: Env, l: Loc, k: Loc, r: Loc, xs: seq<Item>)
    requires Talks(now, e, l, r, xs) && l.dev.log == k.dev.log && l.active == k.active && l.halted == k.halted
    requires l.dev.rx.txNbr == k.dev.rx.txNbr || !EndsAsking(xs)
    ensures Talks(now, e, k, r, xs)
  {
  }

  lemma ScanEndedTalks(m: Model, now: nat, d: nat, l: Loc, e: Env) returns (xs: seq<Item>)
    requires Fits(l, d)
    ensures Talks(now, e, l, ScanEnded(m, now, d, l, e), xs) && NoLock(xs)
  {
    hide HandleNext, AfterRssi, Goes, KeepsAligned, Talks;
    var rx := l.dev.rx;
    var l1 := if rx.req.ab.abort != now then Measure(m, now, d, l, rx.req.gain, rx.req.radio).0 else l;
    var l2 := SetRx(l1, rx.(searching := false));
    xs := FinishTalks(m, now, d, l2, RxReply(now, NoSync, []), e);
    SameTalks(now, e, l2, l, ScanEnded(m, now, d, l, e), xs);
  }

  lemma SearchReevalTalks(m: Model, now: nat, d: nat, l: Loc, e: Env) returns (xs: seq<Item>)
    requires Fits(l, d)
    ensures Talks(now, e, l, SearchReevaluated(m, now, d, l, e), xs) && NoLock(xs)
  {
    hide RxRecheck, ScanEnded, Goes, KeepsAligned, Talks, Rechecking;
    var c, r := RxRecheck(m, now, d, l, e, true), SearchReevaluated(m, now, d, l, e);
    RxRechecking(m, now, d, l, e, true);
    if c.quit {
      xs := QuitTalks(now, e, l, c, l.dev.rx.req.ab.recheck, r);
    } else {
      var ys := [];
      if now > c.l.dev.rx.scanEnd {
        ys := ScanEndedTalks(m, now, d, c.l, e);
      } else {
        SilentTalks(now, e, c.l, r);
      }
      xs := GoOnTalks(now, e, l, c, l.dev.rx.req.ab.recheck, r, ys);
    }
  }

  lemma FoundTalks(m: Model, now: nat, d: nat, l: Loc, e: Env) returns (xs: seq<Item>)
    ensures Talks(now, e, l, FoundTx(m, now, d, l, e), xs)
    ensures xs == [] || (xs == [FoundTx(m, now, d, l, e).dev.log.last] && xs[0].Locked?)
  {
    hide AfterSyncCheck, Goes, Talks;
    var rx, r := l.dev.rx, FoundTx(m, now, d, l, e);
    if rx.prelocked || e.synched {
      xs := [r.dev.log.last];
      OneTalks(now, e, l, xs[0], r);
    } else {
      xs := [];
      SilentTalks(now, e, l, r);
    }
  }

  lemma SearchStartTalks(m: Model, now: nat, d: nat, l: Loc, e: Env) returns (xs: seq<Item>)
    requires Fits(l, d)
    ensures Talks(now, e, l, SearchStarted(m, now, d, l, e), xs)
  {
    hide RxRecheck, SearchFrom, Goes, KeepsAligned, Talks, Rechecking;
    var c, r := RxRecheck(m, now, d, l, e, true), SearchStarted(m, now, d, l, e);
    RxRechecking(m, now, d, l, e, true);
    if c.quit {
      xs := QuitTalks(now, e, l, c, l.dev.rx.req.ab.recheck, r);
    } else {
      var ys := SearchFromTalks(m, now, d, c.l, e);
      xs := GoOnTalks(now, e, l, c, l.dev.rx.req.ab.recheck, r, ys);
    }
  }

  lemma SearchFromTalks(m: Model, now: nat, d: nat, l: Loc, e: Env) returns (xs: seq<Item>)
    requires Fits(l, d)
    ensures Talks(now, e, l, SearchFrom(m, now, d, l, e), xs)
  {
    hide FoundTx, Goes, Talks, PrelockChecked, FindFitting;
    var was := l.dev.rx.prelocked;
    var rx := if was then PrelockChecked(now, l.txl, l.dev.rx) else l.dev.rx;
    var j := if was then rx.txNbr else FindFitting(now, l.txl, rx);
    if j >= 0 {
      var l1 := SetRx(l, rx.(txNbr := j, searching := false));
      xs := FoundTalks(m, now, d, l1, e);
      SameTalks(now, e, l1, l, FoundTx(m, now, d, l1, e), xs);
    } else {
      xs := [];
      SilentTalks(now, e, l, SearchFrom(m, now, d, l, e));
    }
  }

  lemma SyncTalks(m: Model, now: nat, d: nat, l: Loc, e: Env) returns (xs: seq<Item>)
    requires Fits(l, d)
    ensures Talks(now, e, l, Synchronized(m, now, d, l, e), xs) && NoLock(xs)
  {
    hide RxRecheck, SyncFrom, Goes, KeepsAligned, Talks, Rechecking;
    var c, r := RxRecheck(m, now, d, l, e, true), Synchronized(m, now, d, l, e);
    RxRechecking(m, now, d, l, e, true);
    if c.quit {
      xs := QuitTalks(now, e, l, c, l.dev.rx.req.ab.recheck, r);
    } else {
      var ys := SyncFromTalks(m, now, d, c.l, e);
      xs := GoOnTalks(now, e, l, c, l.dev.rx.req.ab.recheck, r, ys);
    }
  }

  lemma SyncFromTalks(m: Model, now: nat, d: nat, l: Loc, e: Env) returns (xs: seq<Item>)
    requires Fits(l, d)
    ensures Talks(now, e, l, SyncFrom(m, now, d, l, e), xs) && NoLock(xs)
  {
    hide ScanEnded, SyncSampled, Goes, KeepsAligned, Talks;
    var rx, r := l.dev.rx, SyncFrom(m, now, d, l, e);
    xs := [];
    if now > rx.scanEnd {
      xs := ScanEndedTalks(m, now, d, l, e);
    } else if now < rx.syncStart {
      SilentTalks(now, e, l, r);
    } else if !ElAt(l.txl, rx.txNbr).used.ongoing {
      xs := [SyncLost(now, true, rx.errs)];
      OneTalks(now, e, l, xs[0], r);
    } else {
      xs := SyncSampledTalks(m, now, d, l, e);
    }
  }

  lemma SyncSampledTalks(m: Model, now: nat, d: nat, l: Loc, e: Env) returns (xs: seq<Item>)
    requires Fits(l, d)
    ensures Talks(now, e, l, SyncSampled(m, now, d, l, e), xs) && NoLock(xs)
  {
    hide OfferPacket, DrawErrors, Goes, KeepsAligned, Talks;
    var l1, r := DrawErrors(m, now, d, l, e), SyncSampled(m, now, d, l, e);
    var rx := l1.dev.rx;
    xs := [];
    if rx.biterrors > rx.req.syncThreshold {
      xs := [SyncLost(now, false, rx.errs)];
      OneTalks(now, e, l, xs[0], r);
    } else if now >= rx.syncEnd {
      xs := OfferTalks(m, now, d, l1, e);
      SameTalks(now, e, l1, l, r, xs);
    } else {
      SilentTalks(now, e, l, r);
    }
  }

  /** The answer to an address: the device goes on, stops for its next request, leaves, ends the
      simulation, or has sent something unknown. */
  lemma OfferTalks(m: Model, now: nat, d: nat, l: Loc, e: Env) returns (xs: seq<Item>)
    requires Fits(l, d)
    ensures Talks(now, e, l, OfferPacket(m, now, d, l, e), xs) && NoLock(xs)
  {
    hide Decided, AfterRssi, Goes, KeepsAligned, Talks;
    var rx := l.dev.rx;
    var l1 := Measure(m, now, d, l, rx.req.gain, rx.req.radio).0;
    var l2 := SetRx(l1, rx.(biterrors := 0, errs := []));
    xs := DecidedTalks(m, now, d, l2, AddressFound(now, rx.errs), e);
    SameTalks(now, e, l2, l, OfferPacket(m, now, d, l, e), xs);
  }

  lemma DecidedTalks(m: Model, now: nat, d: nat, l: Loc, found: Item, e: Env) returns (xs: seq<Item>)
    requires Fits(l, d) && found.AddressFound?
    ensures Talks(now, e, l, Decided(m, now, d, Emit(l, found), e), xs) && NoLock(xs)
    ensures xs == [found] + Decision(now, e)
  {
    hide Decided, EndsFatally, ActiveAfter, IsNextEvent, Heard, Talks;
    var ys := Decision(now, e);
    xs := [found] + ys;
    DecisionHeard(now, e);
    DecisionSaid(m, now, d, Emit(l, found), e);
    FirstSaid(now, e, l, found, ys, Decided(m, now, d, Emit(l, found), e));
  }

  lemma DecisionSaid(m: Model, now: nat, d: nat, l: Loc, e: Env)
    requires Fits(l, d)
    ensures var r, ys := Decided(m, now, d, l, e), Decision(now, e);
      && r.dev.log == Plus(l.dev.log, ys) && r.active == ActiveAfter(l.active, ys)
      && (r.halted <==> l.halted || ys == [] || EndsFatally(ys)) && IsNextEvent(ys, l.dev.rx.txNbr, r.dev)
  {
    hide HandleNext, Goes, KeepsAligned, Heard;
    var ys := Decision(now, e);
    if e.cont.RxStop? {
      var _ := FinishTalks(m, now, d, l, Stopped(now), e);
    } else if ys != [] {
      PlusOne(l.dev.log, ys[0]);
    }
  }

  lemma DecisionHeard(now: nat, e: Env)
    ensures Heard(now, e, Decision(now, e)) && NoLock(Decision(now, e))
  {
    hide Heard, HeardAfter;
    if e.cont.RxStop? {
      RequestHeard(now, e, e.next);
      StopHeard(now, e);
      OneMoreHeard(now, e, Stopped(now), Requested(now, e.next));
    } else {
      NothingHeard(now, e);
      if Decision(now, e) != [] {
        var x := Decision(now, e)[0];
        PlainHeard(now, e, x);
        OneMoreHeard(now, e, x, []);
        assert [x] + [] == Decision(now, e);
      }
    }
  }

  lemma StopHeard(now: nat, e: Env)
    ensures HeardAfter(now, e, Stopped(now), Requested(now, e.next))
  {
  }

  lemma NothingHeard(now: nat, e: Env)
    ensures Heard(now, e, [])
  {
  }

  lemma PlainHeard(now: nat, e: Env, x: Item)
    requires x.Continued? || x.ContinuedV2? || x.Left? || x.Ended?
    ensures HeardAfter(now, e, x, [])
  {
  }

  lemma HeaderFromTalks(m: Model, now: nat, d: nat, l: Loc, e: Env) returns (xs: seq<Item>)
    requires Fits(l, d)
    ensures Talks(now, e, l, HeaderFrom(m, now, d, l, e), xs) && NoLock(xs)
  {
    hide HandleNext, Goes, KeepsAligned, Talks;
    var rx := l.dev.rx;
    if (now >= rx.headerEnd && rx.biterrors > rx.req.headerThreshold) || now >= rx.req.ab.abort {
      xs := FinishTalks(m, now, d, l, RxReply(now, HeaderError, rx.errs), e);
    } else {
      xs := [];
      SilentTalks(now, e, l, HeaderFrom(m, now, d, l, e));
    }
  }

  lemma PayloadFromTalks(m: Model, now: nat, d: nat, l: Loc, e: Env) returns (xs: seq<Item>)
    requires Fits(l, d)
    ensures Talks(now, e, l, PayloadFrom(m, now, d, l, e), xs) && NoLock(xs)
  {
    hide HandleNext, Goes, KeepsAligned, Talks;
    var rx := l.dev.rx;
    if (now >= rx.payloadEnd && rx.biterrors > 0) || now >= rx.req.ab.abort {
      xs := FinishTalks(m, now, d, l, RxReply(now, ContentError, rx.errs), e);
    } else if now >= rx.payloadEnd {
      xs := FinishTalks(m, now, d, l, RxReply(now, RxOk, rx.errs), e);
    } else {
      xs := [];
      SilentTalks(now, e, l, PayloadFrom(m, now, d, l, e));
    }
  }

  lemma PacketTalks(m: Model, now: nat, d: nat, l: Loc, e: Env, header: bool) returns (xs: seq<Item>)
    requires Fits(l, d)
    ensures var r := if header then HeaderReceived(m, now, d, l, e) else PayloadReceived(m, now, d, l, e);
      Talks(now, e, l, r, xs) && NoLock(xs)
  {
    hide RxRecheck, DrawErrors, HeaderFrom, PayloadFrom, Goes, KeepsAligned, Talks, Rechecking;
    var r := if header then HeaderReceived(m, now, d, l, e) else PayloadReceived(m, now, d, l, e);
    var c := RxRecheck(m, now, d, l, e, false);
    RxRechecking(m, now, d, l, e, false);
    if c.quit {
      xs := QuitTalks(now, e, l, c, l.dev.rx.req.ab.recheck, r);
    } else {
      var l1, ys := DrawErrors(m, now, d, c.l, e), [];
      if header {
        ys := HeaderFromTalks(m, now, d, l1, e);
      } else {
        ys := PayloadFromTalks(m, now, d, l1, e);
      }
      SameTalks(now, e, l1, c.l, r, ys);
      xs := GoOnTalks(now, e, l, c, l.dev.rx.req.ab.recheck, r, ys);
    }
  }

  lemma HandleTalks(m: Config, now: nat, d: nat, l: Loc, e: Env) returns (xs: seq<Item>)
    requires Fits(l, d) && l.dev.ev.kind !in {NoEvent, TxStart, TxPacketStart}
    ensures Talks(now, e, l, Handle(m, now, d, l, e), xs)
    ensures NoLock(xs) || l.dev.ev.kind in {RxSearchStart, RxFound}
  {
    hide HandleNext, TxAbortReevaluated, CcaMeasured, FoundTx, Synchronized, HeaderReceived, PayloadReceived,
      SearchReevaluated, SearchStarted, TxNextEvent, AfterRssi, Goes, KeepsAligned, Talks;
    xs := [];
    match l.dev.ev.kind
    case WaitDone => xs := FinishTalks(m.world, now, d, l, WaitReply(now), e);
    case TxEnd =>
      var l1 := l.(txl := l.txl.Clear(d));
      xs := FinishTalks(m.world, now, d, l1, TxReply(now), e);
      SameTalks(now, e, l1, l, Handle(m, now, d, l, e), xs);
    case TxPacketEnd => SilentTalks(now, e, l, Handle(m, now, d, l, e));
    case RssiMeas =>
      var l1 := Measure(m.world, now, d, l, l.dev.rssi.gain, l.dev.rssi.radio).0;
      xs := FinishTalks(m.world, now, d, l1, RssiReply(now), e);
      SameTalks(now, e, l1, l, Handle(m, now, d, l, e), xs);
    case CcaMeas => xs := CcaTalks(m.world, now, d, l, e);
    case RxFound => xs := FoundTalks(m.world, now, d, l, e);
    case RxSync => xs := SyncTalks(m.world, now, d, l, e);
    case RxHeader => xs := PacketTalks(m.world, now, d, l, e, true);
    case RxPayload => xs := PacketTalks(m.world, now, d, l, e, false);
    case TxAbortReeval => xs := TxReevalTalks(m, now, d, l, e);
    case RxSearchReeval => xs := SearchReevalTalks(m.world, now, d, l, e);
    case RxSearchStart => xs := SearchStartTalks(m.world, now, d, l, e);
  }

  // ---------------------------------------------------------------- events and runs

  lemma NewLocTalks(m: Config, s: State, d: nat, e: Env) returns (xs: seq<Item>)
    requires Sized(s) && d < |s.devs| && s.devs[d].ev.kind != NoEvent
    ensures Talks(s.now, e, Get(s, d), NewLoc(m, s, d, e), xs)
    ensures NoLock(xs) || s.devs[d].ev.kind in {RxSearchStart, RxFound}
  {
    hide Handle, TxNextEvent, Talks;
    if s.devs[d].ev.kind in {TxStart, TxPacketStart} {
      xs := [];
      SilentTalks(s.now, e, Get(s, d), NewLoc(m, s, d, e));
    } else {
      xs := HandleTalks(m, s.now, d, Get(s, d), e);
    }
  }

  /** In every run each event adds the messages `xs` to the log of its device, and none to any other.
      What follows in them is what the device has answered; the device leaves, or ends the simulation,
      exactly as it says; and the event ends in an error exactly if its last message does. */
  lemma RunTalks(m: Config, qs: seq<Request>, es: seq<Env>, ss: seq<State>, k: nat) returns (xs: seq<Item>)
    requires IsRun(m, qs, es, ss) && k < |es| && LoopGoes(m, ss[k], es[k], ss[k + 1])
    ensures var s, r, d := ss[k], ss[k + 1], Next(Entries(ss[k]));
      && |r.devs| == |s.devs|
      && r.devs[d].log == Plus(s.devs[d].log, xs) && Heard(s.now, es[k], xs)
      && (forall j :: 0 <= j < |s.devs| && j != d ==> r.devs[j].log == s.devs[j].log)
      && r.active == ActiveAfter(s.active, xs) && (r.halted <==> EndsFatally(xs))
      && IsNextEvent(xs, s.devs[d].rx.txNbr, r.devs[d])
      && (NoLock(xs) || s.devs[d].ev.kind in {RxSearchStart, RxFound})
  {
    hide Dispatch, NewLoc, IsGreatestOn, Live, Active, Heard, EndsFatally, ActiveAfter, IsNextEvent, NoLock;
    var s, d := ss[k], Next(Entries(ss[k]));
    RunStructured(m, qs, es, ss, k);
    StepStructured(m, s, es[k]);
    DispatchShape(m, s, d, es[k]);
    xs := NewLocTalks(m, s, d, es[k]);
  }

  /** The first `k` devices have left, or made an acceptable request. */
  predicate AllAccepted(qs: seq<Request>, k: nat)
    requires k <= |qs|
  {
    forall j :: 0 <= j < k ==> qs[j].Disconnect? || Acceptable(0, qs[j])
  }

  function Gone(qs: seq<Request>, k: nat): (n: nat)
    requires k <= |qs|
    ensures n <= k
  {
    if k == 0 then 0 else Gone(qs, k - 1) + if qs[k - 1].Disconnect? then 1 else 0
  }

  lemma AcceptedSoFar(qs: seq<Request>, j: nat, k: nat)
    requires j < k <= |qs|
    ensures AllAccepted(qs, k) ==> AllAccepted(qs, j)
    ensures AllAccepted(qs, k) <==> AllAccepted(qs, k - 1) && (qs[k - 1].Disconnect? || Acceptable(0, qs[k - 1]))
  {
    hide Acceptable;
  }

  lemma FirstStep(m: Model, s: State, d: nat, q: Request)
    requires Sized(s) && d < |s.devs| && s.now == 0 && s.active > 0 && !s.halted && s.devs[d] == NO_DEV
    ensures var r := Put(s, d, HandleNext(m, s.now, d, Get(s, d), q));
      && r.devs[d].log == Plus(Nil, Requested(0, q)) && r.now == 0
      && (q.Disconnect? ==> !r.halted && r.active == s.active - 1)
      && (Acceptable(0, q) ==> !r.halted && r.active == s.active && IsPrepared(q, 0, r.devs[d]))
      && (!q.Disconnect? && !Acceptable(0, q) ==> r.halted || r.active == 0)
      && forall j :: 0 <= j < |s.devs| && j != d ==> r.devs[j] == s.devs[j]
  {
    hide HandleNext, CalcOf;
    NextTalks(m, s.now, d, Get(s, d), q);
  }

  lemma NobodyAsked(m: Model, qs: seq<Request>, d: nat)
    requires 0 < |qs| && d < |qs|
    ensures var s := Booted(m, qs, 0); s.devs[d] == NO_DEV && s.now == 0 && !s.halted && s.active == |qs|
    ensures AllAccepted(qs, 0)
  {
  }

  /** The devices are asked for their first requests in turn, until one has ended the simulation or
      made a request which is an error; the others have said nothing before the main loop. */
  lemma {:induction false} FirstTalks(m: Model, qs: seq<Request>, k: nat, d: nat)
    requires 0 < |qs| && k <= |qs| && d < |qs|
    ensures var s := Booted(m, qs, k);
      && s.devs[d].log == (if d < k && AllAccepted(qs, d) then Plus(Nil, Requested(0, qs[d])) else Nil)
      && (if d < k && AllAccepted(qs, d) then Acceptable(0, qs[d]) ==> IsPrepared(qs[d], 0, s.devs[d])
          else s.devs[d] == NO_DEV)
      && s.now == 0
      && (if AllAccepted(qs, k) then !s.halted && s.active == |qs| - Gone(qs, k) else s.halted || s.active == 0)
  {
    hide HandleNext, Acceptable, Requested, Plus, AllAccepted, IsPrepared, Put, Get;
    if k == 0 {
      NobodyAsked(m, qs, d);
    } else {
      FirstTalks(m, qs, k - 1, d);
      FirstTalks(m, qs, k - 1, k - 1);
      if d < k - 1 {
        AcceptedSoFar(qs, d, k - 1);
      }
      AcceptedSoFar(qs, k - 1, k);
      if AllAccepted(qs, k - 1) {
        FirstStep(m, Booted(m, qs, k - 1), k - 1, qs[k - 1]);
      }
    }
  }
}
