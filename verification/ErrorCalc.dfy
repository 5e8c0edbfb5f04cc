/** How often, and with how many samples, the bit errors of a reception are drawn. */
module ErrorCalc {
  import opened Types

  const MHZ: nat := 1000000
  const TWO_32: nat := 0x1_0000_0000

  datatype Calc = Calc(errorsPerCalc: nat, usPerCalc: nat, usToNext: int)

  // ---------------------------------------------------------------- accepting a rate

  /** The first multiplier t in t..4 which makes rate * t, in 32 bits, a whole number of MHz. */
  function FirstMultiple(rate: Uint32, t: nat): Option<Calc>
    decreases 5 - t
  {
    if t >= 5 then None
    else if rate * t % TWO_32 % MHZ == 0 then Some(Calc(t * rate % TWO_32 / MHZ, t, 0))
    else FirstMultiple(rate, t + 1)
  }

  function CalcOf(rate: Uint32): Option<Calc>
  {
    if rate % MHZ == 0 then Some(Calc(rate / MHZ, 1, 0))
    else if MHZ % rate == 0 then Some(Calc(1, MHZ / rate, 0))
    else FirstMultiple(rate, 2)
  }

  /** Choosing the sampling pattern of a reception, as the program does it. */
  method SetRate(rate: Uint32) returns (c: Option<Calc>)
    ensures c == CalcOf(rate)
  {
    if rate % MHZ == 0 {
      c := Some(Calc(rate / MHZ, 1, 0));
    } else if MHZ % rate == 0 {
      c := Some(Calc(1, MHZ / rate, 0));
    } else {
      c := None;
      for t := 2 to 5
        invariant c == None && FirstMultiple(rate, 2) == FirstMultiple(rate, t)
      {
        if rate * t % TWO_32 % MHZ == 0 {
          c := Some(Calc(t * rate % TWO_32 / MHZ, t, 0));
          break;
        }
      }
    }
  }

  /** The products of the search fit in 32 bits. */
  predicate NoOverflow(rate: Uint32) { rate < 0x4000_0000 }

  /** A rate is accepted exactly when it divides 1 MHz or is a multiple of 250 kHz (333 kHz, which
      the error message of the program also offers, is not), and then the pattern has exactly the
      asked rate, with as few microseconds as possible. */
  lemma AcceptedRates(rate: Uint32)
    requires NoOverflow(rate)
    ensures CalcOf(rate).Some? <==> (rate != 0 && MHZ % rate == 0) || rate % 250000 == 0
    ensures CalcOf(rate).Some? ==>
      var c := CalcOf(rate).value;
      && c.usPerCalc > 0 && c.errorsPerCalc * MHZ == c.usPerCalc * rate
      && forall t {:trigger t * rate} :: 0 < t < c.usPerCalc ==> t * rate % MHZ != 0
  {
    if rate % MHZ == 0 {
      WholeMegahertz(rate);
    } else if MHZ % rate == 0 {
      DividesBack(MHZ, rate);
      forall t {:trigger t * rate} | 0 < t < MHZ / rate
        ensures t * rate % MHZ != 0
      {
        FewerAreLess(rate, t);
      }
    } else {
      SearchedRates(rate);
    }
  }

  /** Fewer microseconds than the whole period of a divisor of 1 MHz do not make an error. */
  lemma FewerAreLess(rate: nat, t: nat)
    requires rate > 0 && MHZ % rate == 0 && 0 < t < MHZ / rate
    ensures t * rate % MHZ != 0
  {
    var q := MHZ / rate;
    DividesBack(MHZ, rate);
    MulGap(t, q, rate);
    MulGap(0, t, rate);
    DivUnique(t * rate, 0, MHZ, t * rate);
  }

  lemma WholeMegahertz(rate: nat)
    requires rate % MHZ == 0
    ensures rate % 250000 == 0 && rate / MHZ * MHZ == 1 * rate
  {
    var k := rate / MHZ;
    assert rate == (4 * k) * 250000 + 0;
    DivUnique(rate, 4 * k, 250000, 0);
  }

  /** The search over the multipliers 2, 3 and 4. */
  lemma SearchedRates(rate: Uint32)
    requires NoOverflow(rate) && rate % MHZ != 0
    ensures FirstMultiple(rate, 2).Some? <==> rate % 250000 == 0
    ensures FirstMultiple(rate, 2).Some? ==>
      var c := FirstMultiple(rate, 2).value;
      && c.usPerCalc > 0 && c.errorsPerCalc * MHZ == c.usPerCalc * rate
      && forall t {:trigger t * rate} :: 0 < t < c.usPerCalc ==> t * rate % MHZ != 0
  {
    MultipleOf(rate);
    OneMultiple(rate, 2);
    OneMultiple(rate, 3);
    OneMultiple(rate, 4);
    assert FirstMultiple(rate, 5) == None;
  }

  lemma OneMultiple(rate: Uint32, t: nat)
    requires NoOverflow(rate) && 2 <= t <= 4
    ensures rate * t % TWO_32 == rate * t == t * rate
    ensures rate * t % MHZ == 0 ==> t * rate / MHZ * MHZ == t * rate
  {
  }

  lemma DividesBack(a: nat, b: nat)
    requires b > 0 && a % b == 0
    ensures a / b * b == a
    ensures a > 0 ==> a / b > 0
  {
  }

  /** Which multipliers can work. */
  lemma MultipleOf(rate: nat)
    ensures rate * 4 % MHZ == 0 <==> rate % 250000 == 0
    ensures rate * 2 % MHZ == 0 ==> rate * 4 % MHZ == 0
    ensures rate * 3 % MHZ == 0 ==> rate % MHZ == 0
  {
    FourTimes(rate);
    TwoTimes(rate);
    ThreeTimes(rate);
  }

  lemma FourTimes(rate: nat)
    ensures rate * 4 % MHZ == 0 <==> rate % 250000 == 0
  {
    var a, b := rate / 250000, rate % 250000;
    assert rate * 4 == a * MHZ + 4 * b;
    DivUnique(rate * 4, a, MHZ, 4 * b);
  }

  lemma TwoTimes(rate: nat)
    ensures rate * 2 % MHZ == 0 ==> rate * 4 % MHZ == 0
  {
    if rate * 2 % MHZ == 0 {
      var k := rate * 2 / MHZ;
      assert rate * 4 == (2 * k) * MHZ + 0;
      DivUnique(rate * 4, 2 * k, MHZ, 0);
    }
  }

  lemma ThreeTimes(rate: nat)
    ensures rate * 3 % MHZ == 0 ==> rate % MHZ == 0
  {
    if rate * 3 % MHZ == 0 {
      var k := rate * 3 / MHZ;
      assert rate * 3 == k * MHZ;
      var j := rate - 333333 * k;
      assert k == 3 * j;
      DivUnique(rate, j, MHZ, 0);
    }
  }

  /** Without the bound the statement is false: in 32 bits four times 2^30 is 0, so that rate is
      accepted, with a pattern under which no error is ever drawn. */
  lemma OverflowAcceptsZeroSamples()
    ensures 0x4000_0000 % 250000 != 0 && MHZ % 0x4000_0000 != 0
    ensures CalcOf(0x4000_0000) == Some(Calc(0, 4, 0))
  {
    assert 0x4000_0000 * 2 % TWO_32 % MHZ != 0;
    assert 0x4000_0000 * 3 % TWO_32 % MHZ != 0;
    assert 0x4000_0000 * 4 % TWO_32 % MHZ == 0;
    assert FirstMultiple(0x4000_0000, 4) == Some(Calc(0, 4, 0));
    assert FirstMultiple(0x4000_0000, 3) == FirstMultiple(0x4000_0000, 4);
  }

  /** The rates which should be accepted. */
  predicate Supported(rate: Uint32) { (rate != 0 && MHZ % rate == 0) || rate % 250000 == 0 }

  /** Some multiple of the rate does not fit in 32 bits, and what is left of it looks like a whole
      number of MHz. */
  predicate WrapsToWhole(rate: Uint32)
  {
    exists t :: 2 <= t <= 4 && rate * t >= TWO_32 && rate * t % TWO_32 % MHZ == 0
  }

  /** From 2^30 on, the right rates are accepted and the others rejected exactly for these. */
  lemma LargeRatesIff(rate: Uint32)
    requires !NoOverflow(rate)
    ensures (CalcOf(rate).Some? <==> Supported(rate)) <==>
            if rate % 250000 == 0 then rate % MHZ == 0 || (rate < 0x8000_0000 && rate % 500000 == 0)
            else !WrapsToWhole(rate)
  {
    if rate % MHZ == 0 {
      WholeMegahertz(rate);
    } else {
      assert MHZ % rate != 0;
      if rate % 250000 == 0 {
        LargeSupported(rate);
      } else {
        LargeUnsupported(rate);
      }
    }
  }

  predicate Hits(rate: Uint32, t: nat) { rate * t % TWO_32 % MHZ == 0 }

  lemma SomeHit(rate: Uint32)
    ensures FirstMultiple(rate, 2).Some? <==> Hits(rate, 2) || Hits(rate, 3) || Hits(rate, 4)
  {
    assert FirstMultiple(rate, 5) == None;
    assert FirstMultiple(rate, 4).Some? <==> Hits(rate, 4);
    assert FirstMultiple(rate, 3).Some? <==> Hits(rate, 3) || FirstMultiple(rate, 4).Some?;
  }

  lemma LargeSupported(rate: Uint32)
    requires !NoOverflow(rate) && rate % 250000 == 0 && rate % MHZ != 0
    ensures FirstMultiple(rate, 2).Some? <==> rate < 0x8000_0000 && rate % 500000 == 0
  {
    SomeHit(rate);
    WrappedMisses(rate, 2);
    WrappedMisses(rate, 3);
    WrappedMisses(rate, 4);
    HalfMegahertz(rate);
    ThreeTimes(rate);
  }

  lemma LargeUnsupported(rate: Uint32)
    requires !NoOverflow(rate) && rate % 250000 != 0
    ensures FirstMultiple(rate, 2).Some? <==> WrapsToWhole(rate)
  {
    SomeHit(rate);
    LargeHit(rate, 2);
    LargeHit(rate, 3);
    LargeHit(rate, 4);
    if WrapsToWhole(rate) {
      var t :| 2 <= t <= 4 && rate * t >= TWO_32 && rate * t % TWO_32 % MHZ == 0;
      assert Hits(rate, t);
    }
  }

  lemma HalfMegahertz(rate: nat)
    ensures rate * 2 % MHZ == 0 <==> rate % 500000 == 0
  {
    var a, b := rate / 500000, rate % 500000;
    assert rate * 2 == a * MHZ + 2 * b;
    DivUnique(rate * 2, a, MHZ, 2 * b);
  }

  /** A multiple of 250 kHz never wraps to a whole number of MHz: 2^32 is no such multiple. */
  lemma WrappedMisses(rate: Uint32, t: nat)
    requires rate % 250000 == 0 && 2 <= t <= 4
    ensures Hits(rate, t) <==> rate * t < TWO_32 && rate * t % MHZ == 0
  {
    var p := rate * t;
    var x, w := p % TWO_32, p / TWO_32;
    var k := rate / 250000;
    if p >= TWO_32 {
      assert p == 250000 * (k * t);
      WrapRest(x, k * t, w);
      if x % MHZ == 0 {
        WholeMegahertz(x);
      }
    }
  }

  lemma WrapRest(x: nat, y: nat, w: nat)
    requires 1 <= w <= 3 && x == 250000 * y - w * TWO_32
    ensures x % 250000 != 0
  {
    if w == 1 {
      DivUnique(x, y - 17180, 250000, 32704);
    } else if w == 2 {
      DivUnique(x, y - 34360, 250000, 65408);
    } else {
      DivUnique(x, y - 51540, 250000, 98112);
    }
  }

  lemma LargeHit(rate: Uint32, t: nat)
    requires rate % 250000 != 0 && 2 <= t <= 4
    ensures Hits(rate, t) ==> rate * t >= TWO_32 && WrapsToWhole(rate)
  {
    MultipleOf(rate);
  }

  /** Whatever the rate, the pattern of an accepted one has exactly that rate if and only if the
      multiple it was found with fits in 32 bits. */
  lemma FittingPatternIff(rate: Uint32)
    requires CalcOf(rate).Some?
    ensures var c := CalcOf(rate).value;
      c.errorsPerCalc * MHZ == c.usPerCalc * rate <==> c.usPerCalc * rate < TWO_32
  {
    if rate % MHZ == 0 {
      WholeMegahertz(rate);
    } else if MHZ % rate == 0 {
      DividesBack(MHZ, rate);
    } else {
      FoundMultiple(rate, 2);
      WrapIff(CalcOf(rate).value.usPerCalc * rate);
    }
  }

  /** And that is the case if and only if it is a supported rate. */
  lemma ExactPatternIff(rate: Uint32)
    requires CalcOf(rate).Some?
    ensures var c := CalcOf(rate).value;
      c.errorsPerCalc * MHZ == c.usPerCalc * rate <==> Supported(rate)
  {
    FittingPatternIff(rate);
    if rate % MHZ == 0 {
      WholeMegahertz(rate);
    } else if MHZ % rate == 0 {
      DividesBack(MHZ, rate);
    } else {
      SearchedPattern(rate);
    }
  }

  /** A pattern found by the search fits in 32 bits exactly for the multiples of 250 kHz. */
  lemma SearchedPattern(rate: Uint32)
    requires rate % MHZ != 0 && MHZ % rate != 0 && FirstMultiple(rate, 2).Some?
    ensures FirstMultiple(rate, 2).value.usPerCalc * rate < TWO_32 <==> Supported(rate)
  {
    var t := FirstMultiple(rate, 2).value.usPerCalc;
    FoundMultiple(rate, 2);
    SearchedMultiplier(rate, 2);
    HitFitsIff(rate, t);
  }

  lemma HitFitsIff(rate: Uint32, t: nat)
    requires 2 <= t <= 4 && t * rate % TWO_32 % MHZ == 0
    ensures t * rate < TWO_32 <==> rate % 250000 == 0
  {
    hide Hits;
    assert t * rate == rate * t;
    assert Hits(rate, t) by {
      HitIs(rate, t);
    }
    if rate % 250000 == 0 {
      WrappedMisses(rate, t);
    } else {
      LargeHit(rate, t);
    }
  }

  lemma HitIs(rate: Uint32, t: nat)
    ensures Hits(rate, t) <==> t * rate % TWO_32 % MHZ == 0
  {
    assert t * rate == rate * t;
  }

  lemma {:induction false} SearchedMultiplier(rate: Uint32, t: nat)
    requires 2 <= t && FirstMultiple(rate, t).Some?
    ensures 2 <= FirstMultiple(rate, t).value.usPerCalc <= 4
    decreases 5 - t
  {
    if rate * t % TWO_32 % MHZ != 0 {
      SearchedMultiplier(rate, t + 1);
    }
  }

  lemma WrapIff(p: nat)
    requires p % TWO_32 % MHZ == 0
    ensures p % TWO_32 / MHZ * MHZ == p <==> p < TWO_32
  {
  }

  lemma {:induction false} FoundMultiple(rate: Uint32, t: nat)
    requires 2 <= t && FirstMultiple(rate, t).Some?
    ensures var c := FirstMultiple(rate, t).value;
      && c.usPerCalc * rate % TWO_32 % MHZ == 0
      && c.errorsPerCalc == c.usPerCalc * rate % TWO_32 / MHZ
    decreases 5 - t
  {
    if rate * t % TWO_32 % MHZ == 0 {
      assert t * rate == rate * t;
    } else {
      FoundMultiple(rate, t + 1);
    }
  }

  // ---------------------------------------------------------------- drawing

  /** One microsecond: is it time to draw, and the state for the next one. */
  predicate Due(c: Calc) { c.usToNext <= 0 }

  function Tick(c: Calc): Calc
  {
    c.(usToNext := if Due(c) then c.usPerCalc - 1 else c.usToNext - 1)
  }

  /** The samples taken over the next k microseconds. */
  function Samples(c: Calc, k: nat): nat
    decreases k
  {
    if k == 0 then 0 else (if Due(c) then c.errorsPerCalc else 0) + Samples(Tick(c), k - 1)
  }

  /** The pattern k microseconds later. */
  function Ticks(c: Calc, k: nat): (r: Calc)
    ensures r.errorsPerCalc == c.errorsPerCalc && r.usPerCalc == c.usPerCalc
    decreases k
  {
    if k == 0 then c else Ticks(Tick(c), k - 1)
  }

  /** One microsecond more. */
  lemma {:induction false} NextTick(c: Calc, k: nat)
    ensures Ticks(c, k + 1) == Tick(Ticks(c, k))
    ensures Samples(c, k + 1) == Samples(c, k) + if Due(Ticks(c, k)) then c.errorsPerCalc else 0
    decreases k
  {
    if k > 0 {
      NextTick(Tick(c), k - 1);
    } else {
      assert Samples(Tick(c), 0) == 0;
    }
  }

  /** While the next draw is w microseconds away, a draw is due in microsecond w and in every
      usPerCalc-th one after it. */
  lemma {:induction false} DueIff(c: Calc, k: nat)
    requires c.usPerCalc > 0 && 0 <= c.usToNext
    ensures Due(Ticks(c, k)) <==> k >= c.usToNext && (k - c.usToNext) % c.usPerCalc == 0
    decreases k
  {
    if k > 0 {
      DueIff(Tick(c), k - 1);
      if Due(c) {
        if k < c.usPerCalc {
          DivUnique(k, 0, c.usPerCalc, k);
        } else {
          var r := c.usPerCalc;
          DivUnique(k, (k - r) / r + 1, r, (k - r) % r);
        }
      }
    } else if c.usToNext == 0 {
      DivUnique(0, 0, c.usPerCalc, 0);
    }
  }

  function CeilDiv(a: nat, b: nat): nat
    requires b > 0
  {
    (a + b - 1) / b
  }

  /** While the next draw is w microseconds away, k microseconds take the draws of k - w. */
  lemma {:induction false} SamplesAfter(c: Calc, k: nat)
    requires c.usPerCalc > 0 && 0 <= c.usToNext
    ensures Samples(c, k) ==
            if k <= c.usToNext then 0 else c.errorsPerCalc * CeilDiv(k - c.usToNext, c.usPerCalc)
    decreases k
  {
    if k > 0 {
      SamplesAfter(Tick(c), k - 1);
      if Due(c) {
        var r := c.usPerCalc;
        if k - 1 <= r - 1 {
          CeilOne(k, r);
        } else {
          CeilStep(k, r);
          Distribute(c.errorsPerCalc, CeilDiv(k - r, r));
        }
      }
    }
  }

  lemma Distribute(e: nat, q: nat)
    ensures e + e * q == e * (1 + q)
  {
  }

  lemma CeilOne(k: nat, r: nat)
    requires 0 < k <= r
    ensures CeilDiv(k, r) == 1
  {
    assert k + r - 1 == r * 1 + (k - 1);
  }

  lemma CeilStep(k: nat, r: nat)
    requires 0 < r < k
    ensures CeilDiv(k, r) == 1 + CeilDiv(k - r, r)
  {
    var a := k - 1;
    var q, m := a / r, a % r;
    assert a + r == q * r + m + r == (q + 1) * r + m;
    DivUnique(a + r, q + 1, r, m);
  }

  lemma DivUnique(x: nat, q: nat, r: nat, m: nat)
    requires 0 <= m < r && x == q * r + m
    ensures x / r == q && x % r == m
  {
    var w, n := x / r, x % r;
    assert x == w * r + n;
    if w < q {
      MulGap(w, q, r);
    } else if q < w {
      MulGap(q, w, r);
    }
  }

  lemma MulGap(a: nat, b: nat, r: nat)
    requires a < b
    ensures a * r + r <= b * r
  {
    var c := b - a - 1;
    assert (a + 1 + c) * r == a * r + 1 * r + c * r;
  }

  lemma FreshPattern(rate: Uint32)
    requires CalcOf(rate).Some?
    ensures CalcOf(rate).value.usPerCalc > 0 && CalcOf(rate).value.usToNext == 0
  {
    if rate % MHZ != 0 && MHZ % rate == 0 {
      DividesBack(MHZ, rate);
    }
  }

  /** From a fresh state k microseconds take errorsPerCalc samples in one of every usPerCalc of
      them, starting with the first. */
  lemma SamplesFromFresh(rate: Uint32, k: nat)
    requires CalcOf(rate).Some?
    ensures var c := CalcOf(rate).value;
      c.usPerCalc > 0 && Samples(c, k) == c.errorsPerCalc * CeilDiv(k, c.usPerCalc)
  {
    FreshPattern(rate);
    FreshSamples(CalcOf(rate).value, k);
  }

  /** And the next draw is due exactly if k is a multiple of usPerCalc. */
  lemma FreshDueIff(rate: Uint32, k: nat)
    requires CalcOf(rate).Some?
    ensures var c := CalcOf(rate).value; c.usPerCalc > 0 && (Due(Ticks(c, k)) <==> k % c.usPerCalc == 0)
  {
    FreshPattern(rate);
    DueIff(CalcOf(rate).value, k);
  }

  lemma FreshSamples(c: Calc, k: nat)
    requires c.usPerCalc > 0 && c.usToNext == 0
    ensures Samples(c, k) == c.errorsPerCalc * CeilDiv(k, c.usPerCalc)
  {
    SamplesAfter(c, k);
    if k == 0 {
      DivUnique(c.usPerCalc - 1, 0, c.usPerCalc, c.usPerCalc - 1);
    }
  }
}
