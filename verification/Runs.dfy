/** Whole runs of the simulation, from the first requests on. */
module Runs {
  import opened Types
  import opened FuncQueue
  import opened TxList
  import opened ErrorCalc
  import opened ChannelModem
  import opened Device
  import opened Phy
  import opened Session
  import opened Invariant
  import opened Structure
  import opened Timing
  import opened Steps
  import opened Caching

  // ---------------------------------------------------------------- the first requests

  /** The devices asked so far are set up, the others untouched. */
  ghost predicate Booting(s: State, k: nat)
  {
    && Sized(s) && k <= |s.devs| && s.now == 0
    && (forall d :: 0 <= d < k ==> Core(s.txl.els[d], s.devs[d]) && FirstKind(s.devs[d].ev.kind))
    && (forall d :: k <= d < |s.devs| ==> s.devs[d] == NO_DEV && s.txl.els[d] == NO_EL)
    && IsGreatestOn(s.txl.els, s.txl.maxTx)
    && s.active == Live(s.devs) + (|s.devs| - k)
  }

  lemma {:induction false} LiveNone(devs: seq<Dev>)
    requires forall d :: 0 <= d < |devs| ==> devs[d].ev.kind == NoEvent
    ensures Live(devs) == 0
  {
    if |devs| > 0 {
      LiveNone(devs[..|devs| - 1]);
    }
  }

  lemma BootStep(m: Model, s: State, d: nat, q: Request)
    requires d < |s.devs| && Booting(s, d)
    ensures var r := Put(s, d, HandleNext(m, s.now, d, Get(s, d), q));
      r.halted || r.active <= 0 || Booting(r, d + 1)
  {
    hide HandleNext;
    var r := HandleNext(m, s.now, d, Get(s, d), q);
    HandleNextCore(m, s.now, d, Get(s, d), q);
    LiveUpdate(s.devs, d, r.dev);
  }

  lemma NoneBooted(n: nat)
    requires 0 < n
    ensures Booting(Initial(n), 0)
  {
    LiveNone(Initial(n).devs);
  }

  lemma {:induction false} BootStructured(m: Model, qs: seq<Request>, k: nat)
    requires 0 < |qs| && k <= |qs|
    ensures var s := Booted(m, qs, k); s.halted || s.active <= 0 || Booting(s, k)
  {
    hide HandleNext, Booting, Live, Core;
    if k == 0 {
      NoneBooted(|qs|);
    } else {
      BootStructured(m, qs, k - 1);
      var s := Booted(m, qs, k - 1);
      if s.active > 0 && !s.halted {
        BootStep(m, s, k - 1, qs[k - 1]);
      }
    }
  }

  ghost predicate BootingInTime(m: Config, s: State, k: nat)
  {
    && Sized(s) && k <= |s.devs| && s.now == 0
    && (forall d :: 0 <= d < |s.devs| ==> Conforms(m.world, s.devs[d].log))
    && (s.active > 0 ==>
          && Booting(s, k)
          && forall d :: 0 <= d < k ==> Timed(m, 0, s.txl, d, s.devs[d]))
  }

  lemma {:induction false} BootInTime(m: Config, qs: seq<Request>, k: nat)
    requires 0 < |qs| && k <= |qs|
    ensures var s := Booted(m.world, qs, k); s.halted || BootingInTime(m, s, k)
  {
    hide HandleNext, Timed, BootingInTime;
    if k == 0 {
      BootNone(m, |qs|);
    } else {
      BootInTime(m, qs, k - 1);
      var s := Booted(m.world, qs, k - 1);
      if s.active > 0 && !s.halted {
        BootOne(m, s, k - 1, qs[k - 1]);
      } else if !s.halted {
        BootOver(m, s, k - 1);
      }
    }
  }

  lemma BootNone(m: Config, n: nat)
    requires 0 < n
    ensures BootingInTime(m, Initial(n), 0)
  {
    NoneBooted(n);
  }

  /** Once the simulation has been ended, nobody else is asked. */
  lemma BootOver(m: Config, s: State, d: nat)
    requires d < |s.devs| && BootingInTime(m, s, d) && s.active <= 0
    ensures BootingInTime(m, s, d + 1)
  {
  }

  lemma BootOne(m: Config, s: State, d: nat, q: Request)
    requires d < |s.devs| && BootingInTime(m, s, d) && s.active > 0 && !s.halted
    ensures var r := Put(s, d, HandleNext(m.world, s.now, d, Get(s, d), q));
      r.halted || BootingInTime(m, r, d + 1)
  {
    hide HandleNext, Live, IsGreatestOn;
    var l := Get(s, d);
    var r := HandleNext(m.world, s.now, d, l, q);
    BootStep(m.world, s, d, q);
    HandleNextGood(m, s.now, d, l, q);
    HandleNextCore(m.world, s.now, d, l, q);
    if !r.halted && r.active > 0 {
      forall j | 0 <= j < d
        ensures Timed(m, 0, r.txl, j, s.devs[j])
      {
        assert Timed(m, 0, s.txl, j, s.devs[j]) && FirstKind(s.devs[j].ev.kind);
      }
    }
  }

  /** The state in which the main loop is entered, whatever the devices ask for. */
  lemma EntryStructured(m: Model, qs: seq<Request>)
    requires 0 < |qs|
    ensures var s := Start(m, qs);
      s.halted || s.active <= 0 || (Structured(s) && AtNext(s) && AllCached(m, s))
  {
    BootStructured(m, qs, |qs|);
    var s := Booted(m, qs, |qs|);
    assert Entries(Start(m, qs)) == Entries(s);
    forall d: nat | d < |qs| && !s.halted && s.active > 0
      ensures Cached(m, s.txl, d, s.devs[d])
    {
      BootRec(m, qs, |qs|, d);
    }
  }

  /** Nothing is received before the main loop. */
  lemma {:induction false} BootRec(m: Model, qs: seq<Request>, k: nat, d: nat)
    requires 0 < |qs| && k <= |qs| && d < |qs|
    ensures Booted(m, qs, k).devs[d].rec == NO_REC
  {
    hide HandleNext;
    if k > 0 {
      BootRec(m, qs, k - 1, d);
      var s := Booted(m, qs, k - 1);
      NextKeepsRec(m, s.now, k - 1, Get(s, k - 1), qs[k - 1]);
    }
  }

  /** And in step with the sessions. */
  lemma EntryInv(m: Config, qs: seq<Request>)
    requires 0 < |qs|
    ensures var s := Start(m.world, qs);
      s.halted || (Conforming(m.world, s) && (s.active > 0 ==> Inv(m, s)))
  {
    hide Timed, Next, Booted, Live, IsGreatestOn, Core, AllCached;
    EntryStructured(m.world, qs);
    BootInTime(m, qs, |qs|);
    var s := Booted(m.world, qs, |qs|);
    if !s.halted {
      forall d: nat | d < |s.devs|
        ensures Start(m.world, qs).now <= s.devs[d].ev.time
      {
        NextIsLeast(Entries(s), d);
      }
      if s.active > 0 {
        AdvanceSettled(m, s);
      }
    }
  }

  // ---------------------------------------------------------------- one iteration

  lemma LoopRunning(m: Config, s: State, e: Env, r: State)
    requires LoopGoes(m, s, e, r)
    ensures Running(m, s) && Sized(s) && Sized(r) && |r.devs| == |s.devs|
  {
  }

  lemma LoopStructured(m: Config, s: State, e: Env, r: State)
    requires LoopGoes(m, s, e, r) && Structured(s) && AtNext(s)
    ensures r.halted || r.active <= 0 || (Structured(r) && AtNext(r))
    ensures s.txl.ctr <= r.txl.ctr && (s.txl.ctr == r.txl.ctr ==> Active(s.txl.els) == Active(r.txl.els))
  {
    StepStructured(m, s, e);
    StepCounter(m, s, e);
  }

  lemma LoopInv(m: Config, s: State, e: Env, r: State)
    requires LoopGoes(m, s, e, r) && Inv(m, s) && !Falls(m, s)
    ensures r.halted || (s.now <= r.now && Conforming(m.world, r) && (r.active > 0 ==> Inv(m, r)))
  {
    StepInv(m, s, e);
  }

  lemma LoopCached(m: Config, s: State, e: Env, r: State)
    requires LoopGoes(m, s, e, r) && TimeInvariant(m.world) && Structured(s) && AtNext(s) && AllCached(m.world, s)
    ensures r.halted || r.active <= 0 || AllCached(m.world, r)
  {
    StepCached(m, s, e);
  }

  // ---------------------------------------------------------------- runs

  ghost predicate GoesOn(m: Config, s: State) { Sized(s) && !Falls(m, s) }

  /** A run in which no event puts time back, up to its last state. Schedule.TimeNeverFallsIff and
      Schedule.LegalIsStraight say which these are. */
  ghost predicate StraightRun(m: Config, qs: seq<Request>, es: seq<Env>, ss: seq<State>)
  {
    && IsRun(m, qs, es, ss)
    && forall k {:trigger es[k]} :: 0 <= k < |es| ==> GoesOn(m, ss[k])
  }

  /** An event runs as long as no error has been raised, devices are left, and the time is not over. */
  lemma EventsAreInTime(m: Config, qs: seq<Request>, es: seq<Env>, ss: seq<State>, k: nat)
    requires IsRun(m, qs, es, ss) && k < |es|
    ensures !ss[k].halted && ss[k].active > 0 && ss[k].now < m.simLength
  {
    hide Step;
    assert LoopGoes(m, ss[k], es[k], ss[k + 1]);
  }

  /** All states of a run have the devices it began with. */
  lemma {:induction false} RunSized(m: Config, qs: seq<Request>, es: seq<Env>, ss: seq<State>, k: nat)
    requires IsRun(m, qs, es, ss) && k < |ss|
    ensures Sized(ss[k]) && |ss[k].devs| == |qs|
  {
    hide LoopGoes;
    if k > 0 {
      RunSized(m, qs, es, ss, k - 1);
      LoopRunning(m, ss[k - 1], es[k - 1], ss[k]);
    }
  }

  /** The cross-structure invariant over every run, aligned or not: as long as the simulation goes
      on, transmission list, event queue, receptions and device count agree. */
  lemma {:induction false} RunStructured(m: Config, qs: seq<Request>, es: seq<Env>, ss: seq<State>, k: nat)
    requires IsRun(m, qs, es, ss) && k < |ss|
    ensures ss[k].halted || ss[k].active <= 0 || (Structured(ss[k]) && AtNext(ss[k]))
  {
    hide LoopGoes;
    if k == 0 {
      EntryStructured(m.world, qs);
    } else {
      RunStructured(m, qs, es, ss, k - 1);
      LoopRunning(m, ss[k - 1], es[k - 1], ss[k]);
      LoopStructured(m, ss[k - 1], es[k - 1], ss[k]);
    }
  }

  /** The loop never calls the missing handler of NoEvent, even if live events never come due. */
  lemma AlwaysHandled(m: Config, qs: seq<Request>, es: seq<Env>, ss: seq<State>, k: nat)
    requires IsRun(m, qs, es, ss) && k < |ss| && Sized(ss[k]) && Running(m, ss[k])
    ensures ss[k].devs[Next(Entries(ss[k]))].ev.kind != NoEvent
  {
    RunStructured(m, qs, es, ss, k);
    var d := Next(Entries(ss[k]));
    assert Core(ss[k].txl.els[d], ss[k].devs[d]);
  }

  /** The timed invariant over every straight run. */
  lemma {:induction false} RunInv(m: Config, qs: seq<Request>, es: seq<Env>, ss: seq<State>, k: nat)
    requires StraightRun(m, qs, es, ss) && k < |ss|
    ensures ss[k].halted || (Conforming(m.world, ss[k]) && (ss[k].active > 0 ==> Inv(m, ss[k])))
  {
    hide LoopGoes;
    if k == 0 {
      EntryInv(m, qs);
    } else {
      RunInv(m, qs, es, ss, k - 1);
      LoopRunning(m, ss[k - 1], es[k - 1], ss[k]);
      LoopInv(m, ss[k - 1], es[k - 1], ss[k]);
    }
  }

  /** Every message of every session of every straight run obeys the protocol, and comes at its
      time. */
  lemma SessionsConform(m: Config, qs: seq<Request>, es: seq<Env>, ss: seq<State>, k: nat, d: nat)
    requires StraightRun(m, qs, es, ss) && k < |ss| && d < |ss[k].devs| && !ss[k].halted
    ensures Conforms(m.world, ss[k].devs[d].log)
  {
    RunInv(m, qs, es, ss, k);
  }

  /** In a straight run simulated time never decreases, which is what the channels are promised. */
  lemma {:induction false} TimeNeverDecreases(m: Config, qs: seq<Request>, es: seq<Env>, ss: seq<State>, j: nat, k: nat)
    requires StraightRun(m, qs, es, ss) && j <= k < |ss| && !ss[k].halted
    ensures ss[j].now <= ss[k].now
  {
    hide LoopGoes;
    if j < k {
      LoopRunning(m, ss[k - 1], es[k - 1], ss[k]);
      RunInv(m, qs, es, ss, k - 1);
      LoopInv(m, ss[k - 1], es[k - 1], ss[k]);
      TimeNeverDecreases(m, qs, es, ss, j, k - 1);
    }
  }

  // ---------------------------------------------------------------- the cache over a run

  lemma {:induction false} RunCached(m: Config, qs: seq<Request>, es: seq<Env>, ss: seq<State>, k: nat)
    requires IsRun(m, qs, es, ss) && TimeInvariant(m.world) && k < |ss|
    ensures ss[k].halted || ss[k].active <= 0 || AllCached(m.world, ss[k])
  {
    hide LoopGoes;
    if k == 0 {
      EntryStructured(m.world, qs);
    } else {
      RunCached(m, qs, es, ss, k - 1);
      RunStructured(m, qs, es, ss, k - 1);
      LoopRunning(m, ss[k - 1], es[k - 1], ss[k]);
      LoopCached(m, ss[k - 1], es[k - 1], ss[k]);
    }
  }

  /** Two states of a run with the same transmission counter have the same devices in the air, with
      the same parameters. */
  lemma {:induction false} EqualCounterEqualAir(m: Config, qs: seq<Request>, es: seq<Env>, ss: seq<State>,
                                                j: nat, k: nat)
    requires IsRun(m, qs, es, ss) && j <= k < |ss|
    ensures ss[j].txl.ctr <= ss[k].txl.ctr
    ensures ss[j].txl.ctr == ss[k].txl.ctr ==> Active(ss[j].txl.els) == Active(ss[k].txl.els)
  {
    hide LoopGoes;
    if j < k {
      EqualCounterEqualAir(m, qs, es, ss, j, k - 1);
      RunStructured(m, qs, es, ss, k - 1);
      LoopRunning(m, ss[k - 1], es[k - 1], ss[k]);
      LoopStructured(m, ss[k - 1], es[k - 1], ss[k]);
    }
  }

  /** A device transmits only after the counter has been raised. */
  lemma RunCounted(m: Config, qs: seq<Request>, es: seq<Env>, ss: seq<State>, k: nat, i: nat)
    requires IsRun(m, qs, es, ss) && k < |es| && Sized(ss[k]) && i < |ss[k].txl.els| && ss[k].txl.els[i].used.On()
    ensures ss[k].txl.ctr > 0
  {
    hide LoopGoes, Live;
    EqualCounterEqualAir(m, qs, es, ss, 0, k);
    RunSized(m, qs, es, ss, k);
    assert LoopGoes(m, ss[0], es[0], ss[1]);
    LoopRunning(m, ss[0], es[0], ss[1]);
    BootStructured(m.world, qs, |qs|);
    assert Core(ss[0].txl.els[i], ss[0].devs[i]) && FirstKind(ss[0].devs[i].ev.kind);
    assert Active(ss[0].txl.els)[i] == None && Active(ss[k].txl.els)[i] != None;
  }

  /** The re-evaluation with which an event of a reception begins. */
  function Rechecks(m: Config, s: State, e: Env): Rechecked
    requires Sized(s)
  {
    var d := Next(Entries(s));
    RxRecheck(m.world, s.now, d, Get(s, d), e, s.devs[d].ev.kind == RxSync)
  }

  /** In the next event a reception draws the errors of a microsecond from the models: it goes on after
      its re-evaluation, its synchronization has started in time, a sample is due, and its packet is there
      with the coding rate expected. */
  predicate DrawsFromModels(m: Config, s: State, e: Env)
    requires Sized(s)
  {
    var d := Next(Entries(s));
    var rx, c := s.devs[d].rx, Rechecks(m, s, e);
    var el := ElAt(s.txl, rx.txNbr);
    && ReceivingKind(s.devs[d].ev.kind) && !c.quit
    && (s.devs[d].ev.kind == RxSync ==> rx.syncStart <= s.now <= c.l.dev.rx.scanEnd)
    && Due(rx.pace) && !rx.txLost && el.used.ongoing && el.tx.codingRate == rx.req.codingRate
  }

  /** The rate which the models give for a reception of device `d` in the present air. */
  function RateNow(m: Config, s: State, d: nat, r: RxReq, tx: int): nat
  {
    FullBer(m.world, Active(s.txl.els), r, tx, d, s.now)
  }

  /** Its own rate, for the reception of the next event. */
  function OwnRate(m: Config, s: State): nat
    requires Sized(s)
  {
    var d := Next(Entries(s));
    RateNow(m, s, d, s.devs[d].rx.req, s.devs[d].rx.txNbr)
  }

  /** The rate which the errors are drawn with is the one the event leaves behind. */
  lemma RateLeft(m: Config, s: State, e: Env)
    requires Structured(s) && AtNext(s) && Running(m, s) && DrawsFromModels(m, s, e)
    ensures var d := Next(Entries(s));
      Step(m, s, e).devs[d].rec.ber == DrawErrors(m.world, s.now, d, Rechecks(m, s, e).l, e).dev.rec.ber
  {
    hide Dispatch, DrawErrors, RxRecheck, SyncSampled, HeaderFrom, PayloadFrom, ScanEnded, IsGreatestOn, Live, Active,
      Goes, KeepsAligned, Entries, Next, SameCache, WaitFinished, TxEnded, CcaMeasured, RssiMeasured, FoundTx,
      SearchReevaluated, SearchStarted, TxAbortReevaluated, TxPacketEnded, TxSchedule, TxStarted;
    var d := Next(Entries(s));
    var c := Rechecks(m, s, e);
    StepStructured(m, s, e);
    DispatchShape(m, s, d, e);
    RecheckSame(m.world, s.now, d, Get(s, d), e, s.devs[d].ev.kind == RxSync);
    if s.devs[d].ev.kind == RxSync {
      SyncKeepsRate(m.world, s.now, d, c.l, e);
    } else {
      PacketKeepsRate(m.world, s.now, d, DrawErrors(m.world, s.now, d, c.l, e), e);
    }
  }

  /** In every run, whenever a reception draws the errors of a microsecond, prelocked or not, it draws
      them with its own rate in the present air if a transmission has started or ended since the
      cached one was calculated; and otherwise with the rate, in the present air, of the reception
      and the transmitter the cached one was calculated for. */
  lemma RunRate(m: Config, qs: seq<Request>, es: seq<Env>, ss: seq<State>, k: nat)
    requires IsRun(m, qs, es, ss) && TimeInvariant(m.world) && k < |es| && LoopGoes(m, ss[k], es[k], ss[k + 1])
    requires DrawsFromModels(m, ss[k], es[k])
    ensures var s, d := ss[k], Next(Entries(ss[k]));
      var rec := s.devs[d].rec;
      && (rec.lastTxCtr == s.txl.ctr ==> rec.basis.Some?)
      && d < |ss[k + 1].devs|
      && ss[k + 1].devs[d].rec.ber == if rec.lastTxCtr != s.txl.ctr then OwnRate(m, s)
                                      else RateNow(m, s, d, rec.basis.value.r, rec.basis.value.tx)
  {
    hide RxRecheck, FullBer, Active, Step, IsGreatestOn, Live, AfterBitErrors, TimeInvariant;
    var s, d, e := ss[k], Next(Entries(ss[k])), es[k];
    var c := Rechecks(m, s, e);
    var rx := s.devs[d].rx;
    RunCached(m, qs, es, ss, k);
    RunStructured(m, qs, es, ss, k);
    RateLeft(m, s, e);
    assert Cached(m.world, s.txl, d, s.devs[d]);
    RunCounted(m, qs, es, ss, k, rx.txNbr);
    RecheckReady(m.world, s.now, d, Get(s, d), e, s.devs[d].ev.kind == RxSync);
    RecheckSame(m.world, s.now, d, Get(s, d), e, s.devs[d].ev.kind == RxSync);
    RateUsed(m.world, c.l.dev.rec, s.txl.ctr, Active(s.txl.els), c.l.dev.rx.req, rx.txNbr, d, s.now);
    RateWithoutAbort(m.world, Active(s.txl.els), rx.req, c.l.dev.rx.req.ab, rx.txNbr, d, s.now);
  }

  /** So a reception draws its errors with its own rate if and only if a transmission has started or
      ended since, or the one it was calculated for has the same rate in the present air. */
  lemma RunRateIsExactIff(m: Config, qs: seq<Request>, es: seq<Env>, ss: seq<State>, k: nat)
    requires IsRun(m, qs, es, ss) && TimeInvariant(m.world) && k < |es| && LoopGoes(m, ss[k], es[k], ss[k + 1])
    requires DrawsFromModels(m, ss[k], es[k])
    ensures var s, d := ss[k], Next(Entries(ss[k]));
      var rec := s.devs[d].rec;
      d < |ss[k + 1].devs| && (ss[k + 1].devs[d].rec.ber == OwnRate(m, s) <==>
        || rec.lastTxCtr != s.txl.ctr
        || (rec.basis.Some? && RateNow(m, s, d, rec.basis.value.r, rec.basis.value.tx) == OwnRate(m, s)))
  {
    hide LoopGoes, DrawsFromModels, OwnRate, RateNow, Start, Entries, Next;
    LoopRunning(m, ss[k], es[k], ss[k + 1]);
    RunRate(m, qs, es, ss, k);
  }

  /** The reception was not prelocked, or a transmission has started or ended since the rate was
      calculated, or it was calculated with the same parameters. */
  predicate RateIsOwn(ctr: nat, dev: Dev)
  {
    !dev.rx.prelocked || dev.rec.lastTxCtr != ctr || SameRate(dev.rec.basis, dev.rx.req, dev.rx.txNbr)
  }

  /** That is the case at least for every reception which was not prelocked. */
  lemma RunRateIsExact(m: Config, qs: seq<Request>, es: seq<Env>, ss: seq<State>, k: nat)
    requires IsRun(m, qs, es, ss) && TimeInvariant(m.world) && k < |es| && LoopGoes(m, ss[k], es[k], ss[k + 1])
    requires DrawsFromModels(m, ss[k], es[k]) && RateIsOwn(ss[k].txl.ctr, ss[k].devs[Next(Entries(ss[k]))])
    ensures var d := Next(Entries(ss[k]));
      d < |ss[k + 1].devs| && ss[k + 1].devs[d].rec.ber == OwnRate(m, ss[k])
  {
    hide RxRecheck, FullBer, Active, Step, AtNext, IsGreatestOn, Live, AfterBitErrors, TimeInvariant, Sound;
    var s, d := ss[k], Next(Entries(ss[k]));
    RunCached(m, qs, es, ss, k);
    assert Cached(m.world, s.txl, d, s.devs[d]);
    RunRate(m, qs, es, ss, k);
    var rx, rec := s.devs[d].rx, s.devs[d].rec;
    if rec.lastTxCtr == s.txl.ctr {
      SameRateSameBer(m.world, Active(s.txl.els), rec.basis, rx.req, rx.txNbr, d, s.now);
    }
  }

  // ---------------------------------------------------------------- the samples over a run

  lemma ReceptionPaced(m: Config, now: nat, txl: TxL, d: nat, dev: Dev)
    requires d < |txl.els| && Timed(m, now, txl, d, dev) && ReceivingKind(dev.ev.kind)
    ensures Paced(dev.rx, Drawn(dev.log) + |dev.rx.errs|)
  {
    hide CcaTimed, ScanTimed, SyncTimed, ReceiveTimed, TxTimed, LostBefore, Paced;
  }

  /** In every straight run, since the request of a reception its errors have been drawn from as many
      samples as its rate has for the microseconds reported, and the next ones are due after every
      usPerCalc-th of them. */
  lemma RunSamples(m: Config, qs: seq<Request>, es: seq<Env>, ss: seq<State>, k: nat, d: nat)
    requires StraightRun(m, qs, es, ss) && k < |ss| && d < |ss[k].devs| && !ss[k].halted && ss[k].active > 0
    requires ReceivingKind(ss[k].devs[d].ev.kind)
    ensures var dev := ss[k].devs[d];
      var c, n := CalcOf(dev.rx.req.errorRate), Drawn(dev.log) + |dev.rx.errs|;
      && c.Some? && c.value.usPerCalc > 0
      && dev.rx.taken == c.value.errorsPerCalc * CeilDiv(n, c.value.usPerCalc)
      && (Due(dev.rx.pace) <==> n % c.value.usPerCalc == 0)
  {
    hide Timed, IsRun, Structured, CalcOf, CeilDiv, Falls, Entries, Next;
    RunInv(m, qs, es, ss, k);
    var s := ss[k];
    assert Timed(m, s.now, s.txl, d, s.devs[d]);
    ReceptionPaced(m, s.now, s.txl, d, s.devs[d]);
    var rx, n := s.devs[d].rx, Drawn(s.devs[d].log) + |s.devs[d].rx.errs|;
    SamplesFromFresh(rx.req.errorRate, n);
    FreshDueIff(rx.req.errorRate, n);
  }
}
