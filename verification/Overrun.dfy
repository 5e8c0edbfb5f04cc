/** A CCA scan which goes on after the abort time it was requested with. */
module Overrun {
  import opened Types
  import opened FuncQueue
  import opened TxList
  import opened ChannelModem
  import opened Device
  import opened Phy

  /** Two measurements, at 10 and at 109, with an abort time of 20 and no recheck. */
  const LONG_SCAN := CcaReq(10, 100, 99, Abort(20, TIME_NEVER), NO_RADIO, 0.0, 0, 0, 0)
  const THEN_END := Env(Terminate, AbortReply([], StopAll), RxStop, false, 0)

  ghost predicate Scans(s: State, now: nat, nextMeas: nat)
  {
    && Sized(s) && |s.devs| == 1 && s.now == now && s.active == 1 && !s.halted
    && s.devs[0].ev == Entry(now, CcaMeas) && s.devs[0].log == Snoc(Nil, Asked(0, CcaScan(LONG_SCAN)))
    && s.devs[0].cca.req == LONG_SCAN && s.devs[0].cca.scanEnd == 109 && s.devs[0].cca.nextMeas == nextMeas
  }

  lemma AtStart(m: Model)
    ensures Scans(Start(m, [CcaScan(LONG_SCAN)]), 10, 10)
  {
    var qs := [CcaScan(LONG_SCAN)];
    var b := Booted(m, qs, 0);
    assert b == Initial(1) && Get(b, 0) == Loc(NO_DEV, Create(1), 1, false);
    assert Booted(m, qs, 1) == Put(b, 0, HandleNext(m, 0, 0, Get(b, 0), qs[0]));
    assert |Entries(Booted(m, qs, 1))| == 1;
  }

  lemma FirstMeasurement(m: Config, s: State)
    requires Scans(s, 10, 10)
    ensures Scans(Step(m, s, THEN_END), 109, 109)
  {
    assert |Entries(s)| == 1;
    var l := CcaSample(m.world, 10, 0, Get(s, 0));
    assert CcaMeasured(m.world, 10, 0, Get(s, 0), THEN_END) == Add(l, 109, CcaMeas);
    assert |Entries(Put(s, 0, Add(l, 109, CcaMeas)))| == 1;
  }

  /** A run in which a scan is answered at 109, although it was to be aborted at 20. */
  lemma ScanOverruns(m: Config)
    requires m.simLength > 109
    ensures var s0 := Start(m.world, [CcaScan(LONG_SCAN)]);
      var s1 := Step(m, s0, THEN_END);
      var log := Step(m, s1, THEN_END).devs[0].log;
      && Running(m, s0) && Running(m, s1) && s0.now == 10 && s1.now == 109
      && log.Snoc? && log.init.Snoc? && log.init.last.CcaReply? && log.init.last.t == 109 > LONG_SCAN.ab.abort
  {
    hide Step, Start;
    AtStart(m.world);
    var s0 := Start(m.world, [CcaScan(LONG_SCAN)]);
    FirstMeasurement(m, s0);
    LastMeasurement(m, Step(m, s0, THEN_END));
  }

  lemma LastMeasurement(m: Config, s: State)
    requires Scans(s, 109, 109)
    ensures var log := Step(m, s, THEN_END).devs[0].log;
      log.Snoc? && log.init.Snoc? && log.init.last.CcaReply? && log.init.last.t == 109
  {
    assert |Entries(s)| == 1;
    var l := CcaSample(m.world, 109, 0, Get(s, 0));
    assert CcaMeasured(m.world, 109, 0, Get(s, 0), THEN_END) == CcaFrom(m.world, 109, 0, l, THEN_END);
  }
}
