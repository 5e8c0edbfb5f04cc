/** What the receivers find in the list of transmissions, over whole runs. */
module Searches {
  import opened Types
  import opened FuncQueue
  import opened TxList
  import opened ChannelModem
  import opened Device
  import opened Phy
  import opened Invariant
  import opened Structure
  import opened Timing
  import opened Steps
  import opened Runs
  import opened Dialogue

  const TWO_64: nat := 0x1_0000_0000_0000_0000

  /** A packet in the air which a reception can catch at `now`: of its frequency, modulation and one of
      its addresses, and with no more of it gone than the reception can do without. */
  predicate Catches(now: nat, el: El, r: RxReq)
  {
    && el.used.ongoing
    && el.tx.radio.freq == r.radio.freq
    && el.tx.radio.family == r.radio.family
    && (now - el.tx.startPacket) % TWO_64 <= r.truncation
    && el.tx.address in r.addresses
  }

  /** A signal which a CCA scan is compatible with: a transmission of any state on its frequency and
      with its modulation. */
  predicate Senses(el: El, c: CcaReq)
  {
    && (el.used.noise || el.used.ongoing || el.used.started || el.used.ended)
    && el.tx.radio.freq == c.radio.freq
    && el.tx.radio.family == c.radio.family
  }

  /** The least device whose packet can be caught, or -1 if there is none. */
  ghost predicate IsLeastCaught(now: nat, els: seq<El>, r: RxReq, j: int)
  {
    if j == -1 then forall i :: 0 <= i < |els| ==> !Catches(now, els[i], r)
    else 0 <= j < |els| && Catches(now, els[j], r) && forall i :: 0 <= i < j ==> !Catches(now, els[i], r)
  }

  /** The least device with a compatible signal, or -1 if there is none. */
  ghost predicate IsLeastSensed(els: seq<El>, c: CcaReq, j: int)
  {
    if j == -1 then forall i :: 0 <= i < |els| ==> !Senses(els[i], c)
    else 0 <= j < |els| && Senses(els[j], c) && forall i :: 0 <= i < j ==> !Senses(els[i], c)
  }

  lemma CatchesIff(now: nat, el: El, rx: RxStatus)
    requires now < TWO_64
    ensures Catches(now, el, rx.req) <==> el.used.ongoing && Match(now, el.tx, rx)
  {
    assert (now - el.tx.startPacket) % TWO_64 == Chopped(now, el.tx.startPacket);
  }

  lemma SensesIff(el: El, c: CcaReq)
    ensures (Senses(el, c) <==> CcaMatch(el, c)) && (Senses(el, c) ==> el.used.On())
  {
  }

  /** The search of a receiver, which stops at the greatest transmitting device, returns the least of
      all devices whose packets it can catch, or -1 if there is none. */
  lemma FittingIsLeast(now: nat, txl: TxL, rx: RxStatus)
    requires IsGreatestOn(txl.els, txl.maxTx) && now < TWO_64
    ensures IsLeastCaught(now, txl.els, rx.req, FindFitting(now, txl, rx))
  {
    hide Match, Catches;
    var els := txl.els;
    forall i: nat | i < |els|
      ensures Catches(now, els[i], rx.req) <==> els[i].used.ongoing && Match(now, els[i].tx, rx)
    {
      CatchesIff(now, els[i], rx);
    }
    assert forall i :: txl.maxTx < i < |els| ==> !els[i].used.ongoing;
  }

  /** And so does the search of a CCA scan for a compatible signal. */
  lemma FittingCcaIsLeast(txl: TxL, c: CcaReq)
    requires IsGreatestOn(txl.els, txl.maxTx)
    ensures IsLeastSensed(txl.els, c, FindFittingCca(txl, c))
  {
    hide Senses, CcaMatch;
    var els := txl.els;
    forall i: nat | i < |els|
      ensures (Senses(els[i], c) <==> CcaMatch(els[i], c)) && (Senses(els[i], c) ==> els[i].used.On())
    {
      SensesIff(els[i], c);
    }
  }

  /** So they are in every run. */
  lemma SearchesAreComplete(m: Config, qs: seq<Request>, es: seq<Env>, ss: seq<State>, k: nat, rx: RxStatus, c: CcaReq)
    requires IsRun(m, qs, es, ss) && k < |ss| && Sized(ss[k]) && Running(m, ss[k])
    ensures var s := ss[k];
      && IsLeastCaught(s.now, s.txl.els, rx.req, FindFitting(s.now, s.txl, rx))
      && IsLeastSensed(s.txl.els, c, FindFittingCca(s.txl, c))
  {
    RunStructured(m, qs, es, ss, k);
    FittingIsLeast(ss[k].now, ss[k].txl, rx);
    FittingCcaIsLeast(ss[k].txl, c);
  }

  /** When a receiver looks at a packet in the air, the packet has started: the unsigned difference
      of the match never wraps. */
  lemma MatchesNeverWrap(m: Config, qs: seq<Request>, es: seq<Env>, ss: seq<State>, k: nat, j: nat)
    requires StraightRun(m, qs, es, ss) && k < |ss| && Running(m, ss[k]) && j < |ss[k].txl.els|
    requires ss[k].txl.els[j].used.ongoing
    ensures var sp := ss[k].txl.els[j].tx.startPacket;
      sp <= ss[k].now && Chopped(ss[k].now, sp) == ss[k].now - sp
  {
    RunInv(m, qs, es, ss, k);
    TimedStarted(m, ss[k]);
  }

  /** A packet which is just starting, neither. */
  lemma ActivationsNeverWrap(m: Config, qs: seq<Request>, es: seq<Env>, ss: seq<State>, k: nat)
    requires StraightRun(m, qs, es, ss) && k < |ss| && Sized(ss[k]) && Running(m, ss[k])
    requires ss[k].devs[Next(Entries(ss[k]))].ev.kind == TxPacketStart
    ensures var sp := ss[k].txl.els[Next(Entries(ss[k]))].tx.startPacket;
      sp <= ss[k].now && Chopped(ss[k].now, sp) == ss[k].now - sp
  {
    hide Timed, IsRun, Falls, IsGreatestOn, Live;
    RunInv(m, qs, es, ss, k);
    var s, d := ss[k], Next(Entries(ss[k]));
    assert Timed(m, s.now, s.txl, d, s.devs[d]);
    PacketDue(m, s.now, s.txl, d, s.devs[d]);
  }

  /** No device synchronizes to its own transmission. */
  lemma NeverItself(m: Config, qs: seq<Request>, es: seq<Env>, ss: seq<State>, k: nat, d: nat)
    requires StraightRun(m, qs, es, ss) && k < |ss| && Running(m, ss[k]) && d < |ss[k].devs|
    requires ss[k].devs[d].ev.kind in {RxFound, RxSync}
    ensures ss[k].devs[d].rx.txNbr != d
  {
    hide Timed, IsRun, Falls, Structured, Entries, Next;
    RunInv(m, qs, es, ss, k);
    var s := ss[k];
    assert Timed(m, s.now, s.txl, d, s.devs[d]);
    TimedOther(m, s.now, s.txl, d, s.devs[d]);
  }

  lemma TimedOther(m: Config, now: nat, txl: TxL, d: nat, dev: Dev)
    requires d < |txl.els| && Timed(m, now, txl, d, dev) && dev.ev.kind in {RxFound, RxSync}
    ensures dev.rx.txNbr != d
  {
    hide CcaTimed, ScanTimed, SyncTimed, ReceiveTimed, TxTimed, LostBefore;
  }

  /** A device holds a packet buffer exactly for a transmission with a packet which it has asked for and
      not finished, so that no later request can overwrite it. */
  lemma BuffersBelongToTransmissions(m: Config, qs: seq<Request>, es: seq<Env>, ss: seq<State>, k: nat, d: nat)
    requires IsRun(m, qs, es, ss) && k < |ss| && Running(m, ss[k]) && d < |ss[k].devs|
    ensures d < |ss[k].txl.els|
    ensures ss[k].txl.els[d].packet <==>
      (TxOnKind(ss[k].devs[d].ev.kind) || ss[k].devs[d].ev.kind == TxStart) && ss[k].txl.els[d].tx.size > 0
    ensures ss[k].txl.els[d].used.On() <==> TxOnKind(ss[k].devs[d].ev.kind)
    ensures ss[k].devs[d].rx.searching <==> ss[k].devs[d].ev.kind == RxSearchReeval
  {
    RunStructured(m, qs, es, ss, k);
    assert Core(ss[k].txl.els[d], ss[k].devs[d]);
  }

  /** An event moves other devices only from waiting in a search to the found state, at once. */
  lemma NoEventIsLost(m: Config, qs: seq<Request>, es: seq<Env>, ss: seq<State>, k: nat, j: nat)
    requires IsRun(m, qs, es, ss) && k < |es| && LoopGoes(m, ss[k], es[k], ss[k + 1]) && j < |ss[k].devs|
    requires j != Next(Entries(ss[k]))
    ensures j < |ss[k + 1].devs|
    ensures var was, dev := ss[k].devs[j], ss[k + 1].devs[j];
      dev.ev == was.ev || (was.ev.kind == RxSearchReeval && dev.ev == Entry(ss[k].now, RxFound))
  {
    RunStructured(m, qs, es, ss, k);
    var s, d := ss[k], Next(Entries(ss[k]));
    assert Core(s.txl.els[d], s.devs[d]);
    StepStructured(m, s, es[k]);
    DispatchShape(m, s, d, es[k]);
  }

  /** The event with which a packet starts. */
  predicate StartsPacket(s: State, d: nat)
    requires Sized(s) && d < |s.devs|
  {
    || s.devs[d].ev.kind == TxPacketStart
    || (s.devs[d].ev.kind == TxStart && s.txl.els[d].tx.startPacket <= s.now)
  }

  lemma StartIsHeard(m: Config, s: State, d: nat, e: Env, j: nat)
    requires Structured(s) && d < |s.devs| && j < |s.devs| && j != d && StartsPacket(s, d)
    ensures Dispatch(m, s, d, e).devs[j] == Activated(s.now, s.txl.els[d].tx, d, s.devs[j])
    ensures s.devs[j].rx.searching <==> s.devs[j].ev.kind == RxSearchReeval
  {
    hide TxSchedule, TxStarted, Match, IsGreatestOn, Live;
    assert Core(s.txl.els[d], s.devs[d]) && Core(s.txl.els[j], s.devs[j]);
    StartEvents(m, s, d);
  }

  /** A packet which starts at `now` is one a searching reception can catch. */
  predicate Fits(now: nat, t: TxReq, r: RxReq)
  {
    && t.radio.freq == r.radio.freq
    && t.radio.family == r.radio.family
    && (now - t.startPacket) % TWO_64 <= r.truncation
    && t.address in r.addresses
  }

  lemma FitsIff(now: nat, t: TxReq, rx: RxStatus)
    requires now < TWO_64
    ensures Fits(now, t, rx.req) <==> Match(now, t, rx)
  {
    assert (now - t.startPacket) % TWO_64 == Chopped(now, t.startPacket);
  }

  /** The start of a packet is heard by exactly the searching receivers which can catch it; every other
      device goes on as it was. */
  lemma PacketStartsAreHeard(m: Config, qs: seq<Request>, es: seq<Env>, ss: seq<State>, k: nat, j: nat)
    requires IsRun(m, qs, es, ss) && k < |es| && LoopGoes(m, ss[k], es[k], ss[k + 1]) && j < |ss[k].devs|
    requires j != Next(Entries(ss[k])) && StartsPacket(ss[k], Next(Entries(ss[k])))
    ensures j < |ss[k + 1].devs|
    ensures var s, was, dev, d := ss[k], ss[k].devs[j], ss[k + 1].devs[j], Next(Entries(ss[k]));
      if was.ev.kind == RxSearchReeval && Fits(s.now, s.txl.els[d].tx, was.rx.req)
      then dev == was.(ev := Entry(s.now, RxFound), rx := was.rx.(txNbr := d, searching := false))
      else dev == was
  {
    hide Dispatch, Match, Fits, Structured;
    RunStructured(m, qs, es, ss, k);
    StartIsHeard(m, ss[k], Next(Entries(ss[k])), es[k], j);
    FitsIff(ss[k].now, ss[k].txl.els[Next(Entries(ss[k]))].tx, ss[k].devs[j].rx);
  }

  /** An event which touches no other device leaves its own as the handler does. */
  lemma OwnEvent(m: Config, qs: seq<Request>, es: seq<Env>, ss: seq<State>, k: nat)
    requires IsRun(m, qs, es, ss) && k < |es| && LoopGoes(m, ss[k], es[k], ss[k + 1])
    requires ss[k].devs[Next(Entries(ss[k]))].ev.kind !in {TxStart, TxPacketStart}
    ensures var s, d := ss[k], Next(Entries(ss[k]));
      && Structured(s) && Running(m, s) && AtNext(s) && s.now < TIME_NEVER
      && |ss[k + 1].devs| == |s.devs| && ss[k + 1].devs[d] == Handle(m, s.now, d, Get(s, d), es[k]).dev
  {
    hide Dispatch, Handle, IsGreatestOn, Live;
    var s, d := ss[k], Next(Entries(ss[k]));
    RunStructured(m, qs, es, ss, k);
    StepStructured(m, s, es[k]);
    DispatchShape(m, s, d, es[k]);
  }

  // ---------------------------------------------------------------- locking

  /** The session goes on after a re-evaluation, if one is due. */
  predicate Stays(now: nat, e: Env, ab: Abort)
  {
    now < ab.recheck
    || (e.reply.answer.NewAbort? && now <= e.reply.answer.ab.abort && now <= e.reply.answer.ab.recheck)
  }

  lemma StaysIff(m: Model, now: nat, d: nat, l: Loc, e: Env, scanning: bool)
    ensures var c := RxRecheck(m, now, d, l, e, scanning);
      && (c.quit <==> !Stays(now, e, l.dev.rx.req.ab))
      && c.l.txl == l.txl
      && (!c.quit ==> c.l.dev.rx == l.dev.rx.(req := l.dev.rx.req.(ab := c.l.dev.rx.req.ab),
                                              scanEnd := c.l.dev.rx.scanEnd))
  {
    hide ImmediateRssis, Goes;
  }

  lemma QuitLocksNothing(m: Model, now: nat, d: nat, l: Loc, e: Env, scanning: bool)
    requires !Stays(now, e, l.dev.rx.req.ab)
    ensures var log := RxRecheck(m, now, d, l, e, scanning).l.dev.log; log.Snoc? && !log.last.Locked?
  {
    hide ImmediateRssis, Goes;
  }

  /** The messages up to then. */
  function RecheckedLog(now: nat, e: Env, dev: Dev): Log
  {
    if now < dev.rx.req.ab.recheck then dev.log else Plus(dev.log, Reevaluation(now, e))
  }

  /** The device locks to the packet of transmission `t` of device `j`, after the messages `log`. */
  predicate LocksTo(now: nat, j: int, t: TxReq, log: Log, dev: Dev)
  {
    && dev.ev.kind == RxSync && dev.rx.txNbr == j >= 0 && dev.rx.errs == [] && !dev.rx.txLost
    && dev.log == Snoc(log, Locked(now, j, t.startPacket, t.endPacket))
  }

  predicate SearchesOn(log: Log, dev: Dev)
  {
    dev.ev.kind == RxSearchReeval && dev.rx.searching && dev.log == log
  }

  lemma FoundOutcome(m: Model, now: nat, d: nat, l: Loc, e: Env)
    requires 0 <= l.dev.rx.txNbr < |l.txl.els|
    ensures var dev, rx := FoundTx(m, now, d, l, e).dev, l.dev.rx;
      && dev.rx.prelocked == rx.prelocked && dev.rx.req == rx.req
      && if rx.prelocked || e.synched then LocksTo(now, rx.txNbr, l.txl.els[rx.txNbr].tx, l.dev.log, dev)
         else SearchesOn(l.dev.log, dev)
  {
    hide AfterSyncCheck, Goes;
  }

  /** The synchronization of a reception which was not prelocked is decided on the probability which the
      modem gives for its packet at the ratio of the present air. */
  lemma SyncIsAsked(m: Model, now: nat, d: nat, l: Loc, e: Env, p: seq<Option<real>>)
    requires 0 <= l.dev.rx.txNbr < |l.txl.els| && !l.dev.rx.prelocked
    requires ArePowers(m, Active(l.txl.els), l.dev.rx.req.gain, l.dev.rx.txNbr, d, now, p)
    ensures var r, j, air := l.dev.rx.req, l.dev.rx.txNbr, Active(l.txl.els);
      FoundTx(m, now, d, l, e).dev.rec.syncProb ==
      m.sync(d, ModemParams(r.radio.modulation, r.radio.freq, r.codingRate), SnrOf(m, air, p, r.radio, j, d, now),
             l.txl.els[j].tx)
  {
    hide Active, ArePowers, Goes, SnrOf;
    var rx := l.dev.rx;
    SyncOfModels(m, l.dev.rec, l.txl.ctr, Active(l.txl.els), rx.req, l.txl.els[rx.txNbr].tx, rx.txNbr, d, now, p);
  }

  /** What comes of the start of a search: the least packet which can be caught is locked to if it is
      synchronized; a prelocked reception goes on with its transmitter without that, if its packet is
      still in the air and has not started too long ago; otherwise the search goes on, prelocked no
      more. */
  ghost predicate SearchOutcome(s: State, d: nat, e: Env, log: Log, dev: Dev)
    requires Sized(s) && d < |s.devs|
  {
    var rx, els := s.devs[d].rx, s.txl.els;
    && dev.rx.req == rx.req.(ab := dev.rx.req.ab)
    && if rx.prelocked then
         if 0 <= rx.txNbr < |els| && els[rx.txNbr].used.ongoing
            && s.now <= els[rx.txNbr].tx.startPacket + rx.req.truncation
         then LocksTo(s.now, rx.txNbr, els[rx.txNbr].tx, log, dev) && dev.rx.prelocked
         else SearchesOn(log, dev) && !dev.rx.prelocked
       else
         && !dev.rx.prelocked
         && forall j :: IsLeastCaught(s.now, els, rx.req, j) ==>
              if j >= 0 && e.synched then LocksTo(s.now, j, els[j].tx, log, dev) else SearchesOn(log, dev)
  }

  lemma PrelockOutcome(m: Model, s: State, d: nat, l: Loc, e: Env)
    requires Structured(s) && d < |s.devs| && Device.Fits(l, d) && l.txl == s.txl && l.dev.rx.prelocked
    requires l.dev.rx == s.devs[d].rx.(req := s.devs[d].rx.req.(ab := l.dev.rx.req.ab), scanEnd := l.dev.rx.scanEnd)
    ensures SearchOutcome(s, d, e, l.dev.log, SearchFrom(m, s.now, d, l, e).dev)
  {
    hide FoundTx, IsGreatestOn, Live, Goes;
    var rx := PrelockChecked(s.now, l.txl, l.dev.rx);
    if 0 <= rx.txNbr < |s.txl.els| {
      FoundOutcome(m, s.now, d, SetRx(l, rx.(searching := false)), e);
    }
  }

  lemma PlainOutcome(m: Model, s: State, d: nat, l: Loc, e: Env)
    requires Structured(s) && s.now < TIME_NEVER && d < |s.devs| && Device.Fits(l, d) && l.txl == s.txl
    requires l.dev.rx == s.devs[d].rx.(req := s.devs[d].rx.req.(ab := l.dev.rx.req.ab), scanEnd := l.dev.rx.scanEnd)
    requires !l.dev.rx.prelocked
    ensures SearchOutcome(s, d, e, l.dev.log, SearchFrom(m, s.now, d, l, e).dev)
  {
    hide FoundTx, Catches, FindFitting, IsGreatestOn, Live, Goes;
    var rx := l.dev.rx;
    var j := FindFitting(s.now, s.txl, rx);
    FittingIsLeast(s.now, s.txl, rx);
    SameLeast(s.now, s.txl.els, s.devs[d].rx.req, rx.req, j);
    if j >= 0 {
      FoundOutcome(m, s.now, d, SetRx(l, rx.(txNbr := j, searching := false)), e);
    }
  }

  /** The least one there is, whatever the abort times. */
  lemma SameLeast(now: nat, els: seq<El>, was: RxReq, r: RxReq, j: int)
    requires r == was.(ab := r.ab) && IsLeastCaught(now, els, r, j)
    ensures IsLeastCaught(now, els, was, j)
    ensures forall i :: IsLeastCaught(now, els, was, i) ==> i == j
  {
    assert forall i :: 0 <= i < |els| ==> (Catches(now, els[i], was) <==> Catches(now, els[i], r));
  }

  /** In every run, this is what comes of the start of a search, unless the session ends with its
      re-evaluation. */
  lemma SearchesLock(m: Config, qs: seq<Request>, es: seq<Env>, ss: seq<State>, k: nat)
    requires IsRun(m, qs, es, ss) && k < |es| && LoopGoes(m, ss[k], es[k], ss[k + 1])
    requires var dev := ss[k].devs[Next(Entries(ss[k]))];
      dev.ev.kind == RxSearchStart && Stays(ss[k].now, es[k], dev.rx.req.ab)
    ensures var s, d := ss[k], Next(Entries(ss[k]));
      && d < |ss[k + 1].devs|
      && SearchOutcome(s, d, es[k], RecheckedLog(s.now, es[k], s.devs[d]), ss[k + 1].devs[d])
  {
    hide LoopGoes, Handle, SearchOutcome, Entries, Next, IsGreatestOn, Live, Stays;
    OwnEvent(m, qs, es, ss, k);
    SearchOutcomeOf(m, ss[k], Next(Entries(ss[k])), es[k]);
  }

  lemma SearchOutcomeOf(m: Config, s: State, d: nat, e: Env)
    requires Structured(s) && s.now < TIME_NEVER && d < |s.devs| && s.devs[d].ev.kind == RxSearchStart
    requires Stays(s.now, e, s.devs[d].rx.req.ab)
    ensures SearchOutcome(s, d, e, RecheckedLog(s.now, e, s.devs[d]), Handle(m, s.now, d, Get(s, d), e).dev)
  {
    hide SearchOutcome, SearchFrom, RxRecheck, IsGreatestOn, Live, Stays;
    StaysIff(m.world, s.now, d, Get(s, d), e, true);
    RxRechecking(m.world, s.now, d, Get(s, d), e, true);
    var l := RxRecheck(m.world, s.now, d, Get(s, d), e, true).l;
    if l.dev.rx.prelocked {
      PrelockOutcome(m.world, s, d, l, e);
    } else {
      PlainOutcome(m.world, s, d, l, e);
    }
  }

  lemma FoundTransmitter(m: Config, now: nat, txl: TxL, d: nat, dev: Dev)
    requires d < |txl.els| && Timed(m, now, txl, d, dev) && dev.ev.kind == RxFound
    ensures 0 <= dev.rx.txNbr < |txl.els| && !dev.rx.prelocked
  {
  }

  /** In every straight run, a receiver which was found by the start of a packet locks to it if it is
      synchronized, and otherwise searches on. */
  lemma FoundLocks(m: Config, qs: seq<Request>, es: seq<Env>, ss: seq<State>, k: nat)
    requires StraightRun(m, qs, es, ss) && k < |es| && LoopGoes(m, ss[k], es[k], ss[k + 1])
    requires ss[k].devs[Next(Entries(ss[k]))].ev.kind == RxFound
    ensures var s, d := ss[k], Next(Entries(ss[k]));
      var j, log, dev := s.devs[d].rx.txNbr, s.devs[d].log, ss[k + 1].devs[d];
      && 0 <= j < |s.txl.els| && d < |ss[k + 1].devs| && dev.rx.req == s.devs[d].rx.req
      && if es[k].synched then LocksTo(s.now, j, s.txl.els[j].tx, log, dev) else SearchesOn(log, dev)
  {
    hide LoopGoes, FoundTx, Timed, Entries, Next, IsGreatestOn, Live, Falls;
    var s, d := ss[k], Next(Entries(ss[k]));
    OwnEvent(m, qs, es, ss, k);
    RunInv(m, qs, es, ss, k);
    assert Timed(m, s.now, s.txl, d, s.devs[d]);
    FoundTransmitter(m, s.now, s.txl, d, s.devs[d]);
    FoundOutcome(m.world, s.now, d, Get(s, d), es[k]);
  }

  /** The next event has locked its device, which is `dev` then, to a packet. */
  predicate LocksNow(was: Dev, dev: Dev)
  {
    dev.log != was.log && dev.log.Snoc? && dev.log.last.Locked?
  }

  /** The packet of milestone `x` is one of the frequency, the modulation and an address of the
      reception, which has started, and not more than the acceptable truncation ago. */
  predicate IsFitting(s: State, x: Item, r: RxReq)
    requires x.Locked?
  {
    && x.tx < |s.txl.els| && x.t == s.now
    && var t := s.txl.els[x.tx].tx;
       && t.startPacket == x.sp <= s.now <= x.sp + r.truncation && t.endPacket == x.ep
       && t.radio.freq == r.radio.freq && t.radio.family == r.radio.family && t.address in r.addresses
  }

  /** In every straight run, each packet which a reception locks to, unless it was prelocked, is such a
      packet. */
  lemma LocksFit(m: Config, qs: seq<Request>, es: seq<Env>, ss: seq<State>, k: nat)
    requires StraightRun(m, qs, es, ss) && k < |es| && LoopGoes(m, ss[k], es[k], ss[k + 1])
    requires var d := Next(Entries(ss[k]));
      d < |ss[k + 1].devs| && LocksNow(ss[k].devs[d], ss[k + 1].devs[d]) && !ss[k + 1].devs[d].rx.prelocked
    ensures var dev := ss[k + 1].devs[Next(Entries(ss[k]))]; IsFitting(ss[k], dev.log.last, dev.rx.req)
  {
    hide LoopGoes, Falls, IsFitting, Entries, Next, Inv, Conforming, Heard, IsNextEvent;
    var s, d, e := ss[k], Next(Entries(ss[k])), es[k];
    LoopRunning(m, s, e, ss[k + 1]);
    RunInv(m, qs, es, ss, k);
    var xs := RunTalks(m, qs, es, ss, k);
    LastTalked(s.devs[d].log, xs);
    if s.devs[d].ev.kind == RxSearchStart {
      SearchLockFits(m, qs, es, ss, k);
    } else {
      FoundLocks(m, qs, es, ss, k);
      FoundLockFits(m, s, d, ss[k + 1].devs[d].log.last);
    }
  }

  lemma LastTalked(log: Log, xs: seq<Item>)
    ensures Plus(log, xs) != log ==> xs != [] && Plus(log, xs).last in xs
  {
  }

  lemma FoundLockFits(m: Config, s: State, d: nat, x: Item)
    requires Inv(m, s) && d < |s.devs| && s.devs[d].ev.kind == RxFound
    requires var j := s.devs[d].rx.txNbr;
      0 <= j < |s.txl.els| && x == Locked(s.now, j, s.txl.els[j].tx.startPacket, s.txl.els[j].tx.endPacket)
    ensures IsFitting(s, x, s.devs[d].rx.req)
  {
    assert Timed(m, s.now, s.txl, d, s.devs[d]);
  }

  lemma SearchLockFits(m: Config, qs: seq<Request>, es: seq<Env>, ss: seq<State>, k: nat)
    requires StraightRun(m, qs, es, ss) && k < |es| && LoopGoes(m, ss[k], es[k], ss[k + 1]) && Inv(m, ss[k])
    requires var d := Next(Entries(ss[k]));
      && d < |ss[k + 1].devs| && LocksNow(ss[k].devs[d], ss[k + 1].devs[d]) && !ss[k + 1].devs[d].rx.prelocked
      && ss[k].devs[d].ev.kind == RxSearchStart
    ensures var dev := ss[k + 1].devs[Next(Entries(ss[k]))]; IsFitting(ss[k], dev.log.last, dev.rx.req)
  {
    hide LoopGoes, Falls, Entries, Next, InTime, SearchOutcome, Stays, IsFitting, RecheckedLog, LocksNow, IsGreatestOn,
      Live;
    var s, d, e := ss[k], Next(Entries(ss[k])), es[k];
    LoopRunning(m, s, e, ss[k + 1]);
    if !Stays(s.now, e, s.devs[d].rx.req.ab) {
      LoopQuits(m, s, e, ss[k + 1]);
      NoLockNow(s.devs[d], ss[k + 1].devs[d]);
    } else {
      SearchesLock(m, qs, es, ss, k);
      TimedStarted(m, s);
      OutcomeFits(s, d, e, ss[k + 1].devs[d]);
    }
  }

  lemma NoLockNow(was: Dev, dev: Dev)
    requires dev.log.Snoc? && !dev.log.last.Locked?
    ensures !LocksNow(was, dev)
  {
  }

  lemma LoopQuits(m: Config, s: State, e: Env, r: State)
    requires LoopGoes(m, s, e, r) && Structured(s) && AtNext(s)
    requires var dev := s.devs[Next(Entries(s))]; dev.ev.kind == RxSearchStart && !Stays(s.now, e, dev.rx.req.ab)
    ensures var d := Next(Entries(s)); d < |r.devs| && r.devs[d].log.Snoc? && !r.devs[d].log.last.Locked?
  {
    hide Step, Stays;
    QuitsSearch(m, s, Next(Entries(s)), e);
  }

  lemma OutcomeFits(s: State, d: nat, e: Env, dev: Dev)
    requires Structured(s) && s.now < TIME_NEVER && d < |s.devs| && PacketsStarted(s.txl, s.now)
    requires SearchOutcome(s, d, e, RecheckedLog(s.now, e, s.devs[d]), dev)
    requires LocksNow(s.devs[d], dev) && !dev.rx.prelocked
    ensures IsFitting(s, dev.log.last, dev.rx.req)
  {
    hide Catches, FindFitting, IsLeastCaught, IsFitting, PacketsStarted, IsGreatestOn, Live, Reevaluation, Plus;
    var rx := s.devs[d].rx;
    var j := FindFitting(s.now, s.txl, rx);
    FittingIsLeast(s.now, s.txl, rx);
    ReevaluationLast(s.devs[d].log, s.now, e);
    CaughtFits(s, d, j, dev.rx.req);
  }

  lemma ReevaluationLast(log: Log, now: nat, e: Env)
    ensures var k := Plus(log, Reevaluation(now, e)); k.Snoc? && !k.last.Locked?
  {
  }

  lemma QuitsSearch(m: Config, s: State, d: nat, e: Env)
    requires Structured(s) && AtNext(s) && Running(m, s) && d == Next(Entries(s)) && s.devs[d].ev.kind == RxSearchStart
    requires !Stays(s.now, e, s.devs[d].rx.req.ab)
    ensures var log := Step(m, s, e).devs[d].log; log.Snoc? && !log.last.Locked?
  {
    hide Dispatch, RxRecheck, IsGreatestOn, Live, Stays;
    StepStructured(m, s, e);
    DispatchShape(m, s, d, e);
    StaysIff(m.world, s.now, d, Get(s, d), e, true);
    QuitLocksNothing(m.world, s.now, d, Get(s, d), e, true);
  }

  lemma CaughtFits(s: State, d: nat, j: int, r: RxReq)
    requires Sized(s) && d < |s.devs| && PacketsStarted(s.txl, s.now) && s.now < TWO_64
    requires r == s.devs[d].rx.req.(ab := r.ab)
    requires IsLeastCaught(s.now, s.txl.els, s.devs[d].rx.req, j)
    ensures 0 <= j < |s.txl.els| ==>
      var t := s.txl.els[j].tx; IsFitting(s, Locked(s.now, j, t.startPacket, t.endPacket), r)
  {
  }

  // ---------------------------------------------------------------- CCA measurements

  /** What a measurement of device `d` finds: the RSSI of the present air with the gain and the radio of
      the scan, and whether any device transmits a compatible signal. */
  ghost predicate IsMeasured(m: Model, s: State, d: nat, c: CcaReq, x: Sample)
  {
    && x.at == s.now
    && (x.compatible <==> exists i :: 0 <= i < |s.txl.els| && Senses(s.txl.els[i], c))
    && forall p :: ArePowers(m, Active(s.txl.els), c.gain, -1, d, s.now, p) ==>
         x.rssi == m.rssi(d, c.radio, m.analogPower(d, c.radio, p, Active(s.txl.els), -1))
  }

  /** A CCA measurement records the RSSI, and a compatible signal exactly if any device transmits one. */
  lemma CcaSampleIsFaithful(m: Model, s: State, d: nat, l: Loc)
    requires Structured(s) && s.now < TIME_NEVER && d < |s.devs| && Device.Fits(l, d) && l.txl == s.txl
    ensures var r, was, c := CcaSample(m, s.now, d, l), l.dev.cca.samples, l.dev.cca.req;
      var samples := r.dev.cca.samples;
      && |samples| == |was| + 1 && samples[..|was|] == was
      && IsMeasured(m, s, d, c, samples[|was|])
  {
    hide AfterRssi, Senses, IsGreatestOn, Live, FindFittingCca, CcaMatch;
    var c := l.dev.cca.req;
    var r := CcaSample(m, s.now, d, l);
    assert r.dev.cca.samples[..|l.dev.cca.samples|] == l.dev.cca.samples;
    FittingCcaIsLeast(s.txl, c);
    forall p | ArePowers(m, Active(s.txl.els), c.gain, -1, d, s.now, p)
      ensures r.dev.cca.samples[|l.dev.cca.samples|].rssi
              == m.rssi(d, c.radio, m.analogPower(d, c.radio, p, Active(s.txl.els), -1))
    {
      RssiOfModels(m, l.dev.rec, Active(s.txl.els), c.gain, c.radio, d, s.now, p);
    }
  }

  /** In every run, an event of a scan at which a measurement is due adds it to the others, unless it
      answers the scan, with results which include it. `xs` are the messages of the event. */
  lemma MeasurementsAreFaithful(m: Config, qs: seq<Request>, es: seq<Env>, ss: seq<State>, k: nat)
    returns (x: Sample, xs: seq<Item>)
    requires IsRun(m, qs, es, ss) && k < |es| && LoopGoes(m, ss[k], es[k], ss[k + 1])
    requires var s, dev := ss[k], ss[k].devs[Next(Entries(ss[k]))];
      dev.ev.kind == CcaMeas && s.now >= dev.cca.nextMeas && Stays(s.now, es[k], dev.cca.req.ab)
    ensures var s, d := ss[k], Next(Entries(ss[k]));
      var was, dev := s.devs[d], ss[k + 1].devs[d];
      && d < |ss[k + 1].devs| && IsMeasured(m.world, s, d, was.cca.req, x)
      && dev.log == Plus(was.log, xs)
      && (dev.cca.samples == was.cca.samples + [x] || Answers(xs, was.cca.samples + [x]))
  {
    hide LoopGoes, IsGreatestOn, Live, CcaMeasured, IsMeasured, Answers, Entries, Next, Stays;
    var s, d := ss[k], Next(Entries(ss[k]));
    OwnEvent(m, qs, es, ss, k);
    x, xs := CcaMeasures(m.world, s, d, es[k]);
  }

  /** One of the messages answers a scan with these measurements. */
  ghost predicate Answers(xs: seq<Item>, samples: seq<Sample>)
  {
    exists x :: x in xs && x.CcaReply? && x.samples == samples
  }

  lemma CcaMeasures(m: Model, s: State, d: nat, e: Env) returns (x: Sample, xs: seq<Item>)
    requires Structured(s) && s.now < TIME_NEVER && d < |s.devs| && s.now >= s.devs[d].cca.nextMeas
    requires Stays(s.now, e, s.devs[d].cca.req.ab)
    ensures var was, dev := s.devs[d], CcaMeasured(m, s.now, d, Get(s, d), e).dev;
      && IsMeasured(m, s, d, was.cca.req, x)
      && dev.log == Plus(was.log, xs)
      && (dev.cca.samples == was.cca.samples + [x] || Answers(xs, was.cca.samples + [x]))
  {
    hide CcaRecheck, CcaSample, CcaFrom, IsGreatestOn, Live, IsMeasured, Answers, Stays, Goes, KeepsAligned;
    var l := Get(s, d);
    var c := CcaRecheck(m, s.now, d, l, e);
    CcaStays(m, s.now, d, l, e);
    CcaRechecking(m, s.now, d, l, e);
    var l1 := CcaSample(m, s.now, d, c.l);
    CcaSampleIsFaithful(m, s, d, c.l);
    x := l1.dev.cca.samples[|l.dev.cca.samples|];
    assert l1.dev.cca.samples == l.dev.cca.samples + [x];
    SameMeasured(m, s, d, c.l.dev.cca.req, l.dev.cca.req, x);
    var ys := CcaAnswers(m, s.now, d, c.l, e);
    var us := if s.now < l.dev.cca.req.ab.recheck then [] else Reevaluation(s.now, e);
    xs := us + ys;
    PlusPlus(l.dev.log, us, ys);
    AnswersLater(us, ys, l.dev.cca.samples + [x]);
  }

  lemma AnswersLater(us: seq<Item>, ys: seq<Item>, samples: seq<Sample>)
    ensures Answers(ys, samples) ==> Answers(us + ys, samples)
  {
  }

  lemma CcaAnswers(m: Model, now: nat, d: nat, l: Loc, e: Env) returns (ys: seq<Item>)
    requires Device.Fits(l, d)
    ensures var l1 := CcaSample(m, now, d, l);
      var dev := CcaFrom(m, now, d, l1, e).dev;
      && dev.log == Plus(l.dev.log, ys)
      && (dev.cca.samples == l1.dev.cca.samples || Answers(ys, l1.dev.cca.samples))
  {
    hide HandleNext, CcaSampled, AfterRssi, Goes, KeepsAligned, Heard, IsNextEvent;
    var l1 := CcaSample(m, now, d, l);
    var cca := l1.dev.cca;
    ys := [];
    if now >= cca.scanEnd {
      ys := FinishTalks(m, now, d, l1, CcaReply(now, cca.done, cca.samples), e);
      assert ys[0] in ys;
    }
  }

  lemma SameMeasured(m: Model, s: State, d: nat, c: CcaReq, was: CcaReq, x: Sample)
    requires IsMeasured(m, s, d, c, x) && c == was.(ab := c.ab)
    ensures IsMeasured(m, s, d, was, x)
  {
  }

  lemma CcaStays(m: Model, now: nat, d: nat, l: Loc, e: Env)
    requires Stays(now, e, l.dev.cca.req.ab)
    ensures var c := CcaRecheck(m, now, d, l, e);
      && !c.quit && c.l.txl == l.txl && c.l.dev.cca.samples == l.dev.cca.samples
      && c.l.dev.cca.nextMeas == l.dev.cca.nextMeas
      && c.l.dev.cca.req == l.dev.cca.req.(ab := c.l.dev.cca.req.ab)
  {
    hide ImmediateRssis, Goes;
  }
}
