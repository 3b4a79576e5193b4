/** The byte accounting of one ATP FIFO: how many bytes the configured rate of
    `rate` bytes every `period` time units moves when the clock advances.

    Fractions of a byte are carried from one update to the next.  The program
    rounds every fraction to 1/PRECISION of a byte before it adds it to the carry,
    so a carry is an integer number of those units here.  The two main results:
    the drift of any run is at most half a unit per update, and the result of a run
    is independent of how its time is sliced exactly when `period` divides
    `rate * PRECISION`. */
module FifoRate {
  import opened Basics

  /** Fraction of a byte to which the carry is rounded. */
  const PRECISION: nat := 100_000_000

  /** What one update moves, and the carry it leaves. */
  datatype Tick = Tick(bytes: nat, carry: nat)

  /** Rounding is exact for every interval: a fraction rem/period of a byte is always
      a whole number of units. */
  predicate Exact(rate: nat, period: nat)
    requires period > 0
  {
    (rate * PRECISION) % period == 0
  }

  /** Units of carry contributed by an interval: the fraction, rounded half up. */
  function CarryUnits(rate: nat, period: nat, dt: nat): nat
    requires period > 0
  {
    (2 * ((dt * rate) % period) * PRECISION + period) / (2 * period)
  }

  /** Whole bytes of an interval. */
  function WholeBytes(rate: nat, period: nat, dt: nat): nat
    requires period > 0
  {
    (dt * rate) / period
  }

  /** The bytes moved in `dt` time units, starting from a given carry. */
  function Advance(rate: nat, period: nat, carry: nat, dt: nat): (r: Tick)
    requires period > 0
    ensures r.carry < PRECISION
  {
    var units := carry + CarryUnits(rate, period, dt);
    Tick(WholeBytes(rate, period, dt) + units / PRECISION, units % PRECISION)
  }

  /** Total time of a list of intervals. */
  function Total(dts: seq<nat>): nat {
    if dts == [] then 0 else Total(dts[..|dts|-1]) + dts[|dts|-1]
  }

  /** The bytes moved by a run of updates, one per interval, and the final carry. */
  function Run(rate: nat, period: nat, carry: nat, dts: seq<nat>): Tick
    requires period > 0
  {
    if dts == [] then Tick(0, carry)
    else
      var before := Run(rate, period, carry, dts[..|dts|-1]);
      var last := Advance(rate, period, before.carry, dts[|dts|-1]);
      Tick(before.bytes + last.bytes, last.carry)
  }

  /** What a run has moved, in units of 1/(period * PRECISION) byte, beyond what the
      rate prescribes for its total time. */
  function Drift(rate: nat, period: nat, carry: nat, dts: seq<nat>): int
    requires period > 0
  {
    var r := Run(rate, period, carry, dts);
    period * (PRECISION * r.bytes + r.carry - carry) - PRECISION * rate * Total(dts)
  }

  /** The part of the drift that one update contributes. */
  function TickError(rate: nat, period: nat, carry: nat, dt: nat): int
    requires period > 0
  {
    var r := Advance(rate, period, carry, dt);
    period * (PRECISION * r.bytes + r.carry - carry) - PRECISION * rate * dt
  }

  // ---------------------------------------------------------------- arithmetic

  lemma ModFactor(x: nat, f: nat, p: nat)
    requires p > 0
    ensures (x * f) % p == ((x % p) * f) % p
  {
    var q, m := x / p, x % p;
    var qm, mm := (m * f) / p, (m * f) % p;
    assert x * f == p * (q * f + qm) + mm by {
      assert x * f == (p * q + m) * f == p * q * f + m * f;
      assert p * q * f == p * (q * f);
      assert m * f == p * qm + mm;
      assert p * (q * f) + p * qm == p * (q * f + qm);
    }
    DivUnique(x * f, p, q * f + qm, mm);
  }

  /** When rounding is exact, the units of an interval are its fraction, unrounded. */
  lemma ExactUnits(rate: nat, period: nat, dt: nat)
    requires period > 0 && Exact(rate, period)
    ensures CarryUnits(rate, period, dt) * period == ((dt * rate) % period) * PRECISION
  {
    var rem := (dt * rate) % period;
    assert (rem * PRECISION) % period == 0 by {
      ModFactor(dt * rate, PRECISION, period);
      ModFactor(rate * PRECISION, dt, period);
      assert dt * rate * PRECISION == rate * PRECISION * dt;
      assert (0 * dt) % period == 0;
    }
    var k := (rem * PRECISION) / period;
    assert rem * PRECISION == period * k;
    assert 2 * rem * PRECISION + period == (2 * period) * k + period by {
      assert 2 * rem * PRECISION == 2 * (rem * PRECISION);
      assert 2 * (period * k) == (2 * period) * k;
    }
    DivUnique(2 * rem * PRECISION + period, 2 * period, k, period);
  }

  /** One update misses the prescribed amount by at most half a unit of carry. */
  lemma AdvanceError(rate: nat, period: nat, carry: nat, dt: nat)
    requires period > 0
    ensures 0 - period <= 2 * TickError(rate, period, carry, dt) <= period
    ensures Exact(rate, period) ==> TickError(rate, period, carry, dt) == 0
  {
    var r := Advance(rate, period, carry, dt);
    var w, rem := (dt * rate) / period, (dt * rate) % period;
    var inc := CarryUnits(rate, period, dt);
    var u := 2 * rem * PRECISION + period;
    assert PRECISION * r.bytes + r.carry == PRECISION * w + carry + inc;
    assert period * (PRECISION * w + inc) - PRECISION * rate * dt == period * inc - PRECISION * rem by {
      assert rate * dt == period * w + rem;
      assert PRECISION * rate * dt == PRECISION * (rate * dt);
    }
    assert 0 - period <= 2 * (period * inc - PRECISION * rem) <= period by {
      assert u == (2 * period) * inc + u % (2 * period);
    }
    if Exact(rate, period) {
      ExactUnits(rate, period, dt);
    }
  }

  /** After k updates the bytes moved, plus the carry gained, differ from the
      prescribed rate * T / period by at most k/2 units of 1/PRECISION byte; the
      carry itself stays below one byte. */
  lemma {:induction false} DriftBound(rate: nat, period: nat, carry: nat, dts: seq<nat>)
    requires period > 0 && carry < PRECISION
    ensures -(period * |dts|) <= 2 * Drift(rate, period, carry, dts) <= period * |dts|
    ensures Run(rate, period, carry, dts).carry < PRECISION
  {
    if dts == [] {
      assert period * |dts| == 0;
      assert PRECISION * rate * 0 == 0;
      assert period * (PRECISION * 0 + carry - carry) == 0;
    } else {
      var init, dt := dts[..|dts|-1], dts[|dts|-1];
      DriftBound(rate, period, carry, init);
      DriftStep(rate, period, carry, dts);
      AdvanceError(rate, period, Run(rate, period, carry, init).carry, dt);
      Successor(|dts|, period);
      assert |dts| * period == period * |dts| && |init| * period == period * |init|;
    }
  }

  /** The drift of a run is the sum of the errors of its updates. */
  lemma DriftStep(rate: nat, period: nat, carry: nat, dts: seq<nat>)
    requires period > 0 && dts != []
    ensures var init := dts[..|dts|-1];
            Drift(rate, period, carry, dts) == Drift(rate, period, carry, init)
              + TickError(rate, period, Run(rate, period, carry, init).carry, dts[|dts|-1])
  {
    var init, dt := dts[..|dts|-1], dts[|dts|-1];
    var before := Run(rate, period, carry, init);
    var last := Advance(rate, period, before.carry, dt);
    var a := PRECISION * before.bytes + before.carry - carry;
    var b := PRECISION * last.bytes + last.carry - before.carry;
    assert PRECISION * (before.bytes + last.bytes) + last.carry - carry == a + b;
    assert period * (a + b) == period * a + period * b;
    assert PRECISION * rate * (Total(init) + dt) == PRECISION * rate * Total(init) + PRECISION * rate * dt;
  }

  /** With exact rounding a run that starts without carry moves exactly the whole
      bytes prescribed for its total time, however that time is sliced. */
  lemma {:induction false} ExactRun(rate: nat, period: nat, dts: seq<nat>)
    requires period > 0 && Exact(rate, period)
    ensures Run(rate, period, 0, dts).bytes == (rate * Total(dts)) / period
    ensures Run(rate, period, 0, dts).carry < PRECISION
  {
    hide Run, Total, Exact, Drift;
    var r := Run(rate, period, 0, dts);
    assert r.carry < PRECISION by { DriftBound(rate, period, 0, dts); }
    ExactDriftMeans(rate, period, dts);
    ExactFloor(rate * Total(dts), period, r.bytes, r.carry);
  }

  lemma ExactDriftMeans(rate: nat, period: nat, dts: seq<nat>)
    requires period > 0 && Exact(rate, period)
    ensures var r := Run(rate, period, 0, dts);
            period * (PRECISION * r.bytes + r.carry) == PRECISION * (rate * Total(dts))
  {
    hide Run, Total, Exact;
    ExactDrift(rate, period, dts);
    assert PRECISION * (rate * Total(dts)) == PRECISION * rate * Total(dts);
  }

  lemma {:induction false} ExactDrift(rate: nat, period: nat, dts: seq<nat>)
    requires period > 0 && Exact(rate, period)
    ensures Drift(rate, period, 0, dts) == 0
  {
    if dts == [] {
      assert PRECISION * rate * 0 == 0;
    } else {
      ExactDrift(rate, period, dts[..|dts|-1]);
      DriftStep(rate, period, 0, dts);
      AdvanceError(rate, period, Run(rate, period, 0, dts[..|dts|-1]).carry, dts[|dts|-1]);
    }
  }

  lemma ExactFloor(x: nat, period: nat, bytes: nat, carry: nat)
    requires period > 0 && carry < PRECISION
    requires period * (PRECISION * bytes + carry) == PRECISION * x
    ensures x / period == bytes
    ensures carry * period == (x % period) * PRECISION
  {
    var r := x - period * bytes;
    assert period * (PRECISION * bytes + carry) == PRECISION * (period * bytes) + period * carry;
    assert PRECISION * r == period * carry;
    assert 0 <= period * carry < period * PRECISION;
    assert r >= period ==> PRECISION * r >= PRECISION * period;
    DivUnique(x, period, bytes, r);
  }

  // ------------------------------------------------- one-unit steps, any config

  /** n updates of one time unit each. */
  function Ones(n: nat): (s: seq<nat>)
    ensures |s| == n && Total(s) == n
  {
    if n == 0 then [] else
      var s := Ones(n - 1) + [1];
      assert s[..|s|-1] == Ones(n - 1);
      s
  }

  /** Units of carry, whole bytes included, that one update of one time unit is worth. */
  function UnitsPerTick(rate: nat, period: nat): nat
    requires period > 0
  {
    PRECISION * (rate / period) + CarryUnits(rate, period, 1)
  }

  lemma OnesLast(n: nat)
    requires n > 0
    ensures Ones(n)[..n-1] == Ones(n - 1) && Ones(n)[n-1] == 1
  {
    assert Ones(n) == Ones(n - 1) + [1];
  }

  lemma AdvanceOne(rate: nat, period: nat, carry: nat)
    requires period > 0
    ensures var r := Advance(rate, period, carry, 1);
            PRECISION * r.bytes + r.carry == carry + UnitsPerTick(rate, period)
  {
    assert 1 * rate == rate;
    var units := carry + CarryUnits(rate, period, 1);
    assert PRECISION * (units / PRECISION) + units % PRECISION == units;
  }

  /** n updates of one time unit are worth n times one of them. */
  lemma {:induction false} OnesUnits(rate: nat, period: nat, n: nat)
    requires period > 0
    ensures var r := Run(rate, period, 0, Ones(n));
            PRECISION * r.bytes + r.carry == n * UnitsPerTick(rate, period) && r.carry < PRECISION
  {
    if n == 0 {
      assert 0 * UnitsPerTick(rate, period) == 0;
    } else {
      OnesUnits(rate, period, n - 1);
      OnesLast(n);
      OnesStep(rate, period, n);
      AdvanceOne(rate, period, Run(rate, period, 0, Ones(n - 1)).carry);
      Successor(n, UnitsPerTick(rate, period));
    }
  }

  lemma Successor(n: int, k: int)
    ensures n * k == (n - 1) * k + k
  {
  }

  lemma OnesStep(rate: nat, period: nat, n: nat)
    requires period > 0 && n > 0
    ensures var before := Run(rate, period, 0, Ones(n - 1));
            var last := Advance(rate, period, before.carry, 1);
            Run(rate, period, 0, Ones(n)) == Tick(before.bytes + last.bytes, last.carry)
  {
    OnesLast(n);
  }

  lemma OnesRun(rate: nat, period: nat, n: nat)
    requires period > 0
    ensures Run(rate, period, 0, Ones(n)).bytes == (n * UnitsPerTick(rate, period)) / PRECISION
  {
    var r := Run(rate, period, 0, Ones(n));
    OnesUnits(rate, period, n);
    DivUnique(n * UnitsPerTick(rate, period), PRECISION, r.bytes, r.carry);
  }

  /** Without exact rounding, one-unit updates are worth too much or too little. */
  lemma TickBias(rate: nat, period: nat)
    requires period > 0
    ensures Exact(rate, period) <==> period * UnitsPerTick(rate, period) == PRECISION * rate
  {
    var q, rem := rate / period, rate % period;
    var inc := CarryUnits(rate, period, 1);
    assert 1 * rate == rate;
    assert period * (PRECISION * q + inc) == PRECISION * (period * q) + period * inc;
    assert PRECISION * rate == PRECISION * (period * q) + PRECISION * rem;
    if Exact(rate, period) {
      ExactUnits(rate, period, 1);
    } else if period * UnitsPerTick(rate, period) == PRECISION * rate {
      assert rate * PRECISION == period * UnitsPerTick(rate, period);
      DivUnique(rate * PRECISION, period, UnitsPerTick(rate, period), 0);
      assert false;
    }
  }

  /** Slicing: every way of cutting time into updates moves rate * T / period whole
      bytes in total. */
  ghost predicate SlicingIndependent(rate: nat, period: nat)
    requires period > 0
  {
    forall dts: seq<nat> :: Run(rate, period, 0, dts).bytes == (rate * Total(dts)) / period
  }

  /** The accounting of a configuration is independent of how time is sliced if and
      only if its rounding is exact. */
  lemma SlicingIndependentIffExact(rate: nat, period: nat)
    requires period > 0
    ensures SlicingIndependent(rate, period) <==> Exact(rate, period)
  {
    if Exact(rate, period) {
      forall dts: seq<nat>
        ensures Run(rate, period, 0, dts).bytes == (rate * Total(dts)) / period
      {
        ExactRun(rate, period, dts);
      }
    } else {
      var dts := BiasedSlicing(rate, period);
      assert Run(rate, period, 0, dts).bytes != (rate * Total(dts)) / period;
    }
  }

  lemma CancelFactor(a: nat, b: nat, k: nat)
    requires b > 0
    ensures ((a * b) * k) / b == a * k
  {
    assert (a * b) * k == b * (a * k);
    DivUnique((a * b) * k, b, a * k, 0);
  }

  /** The witness: enough one-unit updates for the bias of each to add up to a byte. */
  lemma BiasedSlicing(rate: nat, period: nat) returns (dts: seq<nat>)
    requires period > 0 && !Exact(rate, period)
    ensures Run(rate, period, 0, dts).bytes != (rate * Total(dts)) / period
  {
    var n := period * PRECISION;
    dts := Ones(n);
    OnesRun(rate, period, n);
    TickBias(rate, period);
    CancelFactor(period, PRECISION, UnitsPerTick(rate, period));
    CancelFactor(PRECISION, period, rate);
    assert n * rate == rate * n;
  }
}
