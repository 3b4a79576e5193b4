/** Address generation of a packet descriptor: linear or strided addresses that wrap
    within a range, the calculator of a range that is just large enough, and the
    division of an address space among the masters of a stream. */
module PacketDescModel {
  import opened Basics

  const U64: nat := 0x1_0000_0000_0000_0000

  /** The descriptor as a value, for configured (not random) addresses. */
  datatype Desc = Desc(
    base: nat, increment: nat, range: nat, striding: bool, strideN: nat, strideInc: nat, strideRange: nat,
    nextAddress: nat, strideStart: nat, strideCount: nat, strides: nat)

  // ------------------------------------------------------------ specification

  function AfterReset(d: Desc): Desc {
    d.(nextAddress := d.base, strides := if d.striding then 1 else 0, strideCount := 0, strideStart := d.base)
  }

  function AfterReconfigure(d: Desc, b: nat, r: nat): Desc {
    d.(base := b, range := r, nextAddress := b, strides := 0, strideCount := 0, strideStart := b)
  }

  /** Room for `count` steps of `size` each. */
  function Span(count: nat, size: nat): nat { count * size }

  /** The address after the current one, before the range is considered. */
  function Advance(d: Desc): Desc {
    if d.striding && (d.strideCount < d.strideN || d.nextAddress + d.strideInc < d.strideStart + d.strideRange) then
      d.(strideCount := d.strideCount + 1, nextAddress := d.strideStart + Span(d.strideCount + 1, d.strideInc))
    else
      var next := if d.striding then d.base + Span(d.strides, d.increment) else d.nextAddress + d.increment;
      if d.striding then d.(nextAddress := next, strideCount := 0, strideStart := next, strides := d.strides + 1)
      else d.(nextAddress := next)
  }

  function Wrap(d: Desc): Desc {
    if d.range > 0 && d.nextAddress >= d.base + d.range
    then d.(nextAddress := d.base, strideStart := d.base, strides := if d.striding then 1 else 0, strideCount := 0)
    else d
  }

  /** After the current address has been handed out. */
  function AfterGet(d: Desc): Desc { Wrap(Advance(d)) }

  function Iterate(d: Desc, n: nat): Desc {
    if n == 0 then d else AfterGet(Iterate(d, n - 1))
  }

  /** The n-th address handed out from d on, counting from 0. */
  function Address(d: Desc, n: nat): nat { Iterate(d, n).nextAddress }

  /** Packets per stride, as the calculator counts them. */
  function StridePackets(d: Desc): nat
    requires d.strideRange > 0 ==> d.strideInc > 0
  {
    if d.strideRange > 0 then d.strideRange / d.strideInc else d.strideN
  }

  function StrideSpace(d: Desc): int {
    if d.strideRange > 0 then d.strideRange else d.strideInc * (d.strideN - 1)
  }

  /** The calculator divides by the packets per stride. */
  predicate Computable(d: Desc) {
    d.striding ==> (d.strideRange > 0 ==> d.strideInc > 0) && StridePackets(d) > 0
  }

  /** The range the calculator means, in unbounded arithmetic. */
  function ExactRange(d: Desc, toSend: nat): int
    requires Computable(d)
  {
    if !d.striding then toSend * d.increment
    else
      var space := StrideSpace(d);
      var strides, leftOver := toSend / StridePackets(d), toSend % StridePackets(d);
      (strides - 1) * Max(space, d.increment) + space
      + (if leftOver > 0 then leftOver * d.strideInc + Max(d.increment - space, 0) else 0)
  }

  /** The range it computes, in 64-bit arithmetic. */
  function NewRange(d: Desc, toSend: nat): nat
    requires Computable(d)
  {
    ExactRange(d, toSend) % U64
  }

  /** A range is applied if forced, if there was none, or if it is smaller. */
  function AppliedRange(d: Desc, toSend: nat, force: bool): nat
    requires toSend > 0 ==> Computable(d)
  {
    if toSend > 0 && (force || d.range == 0 || d.range > NewRange(d, toSend)) then NewRange(d, toSend) else d.range
  }

  // ---------------------------------------------------------- the descriptor object

  class PacketDesc {
    var base: nat
    var increment: nat
    var range: nat
    var striding: bool
    var strideN: nat
    var strideInc: nat
    var strideRange: nat
    var nextAddress: nat
    var strideStart: nat
    var strideCount: nat
    var strides: nat

    ghost function State(): Desc
      reads this
    {
      Desc(base, increment, range, striding, strideN, strideInc, strideRange, nextAddress, strideStart, strideCount,
           strides)
    }

    constructor (d: Desc)
      ensures State() == d
    {
      base, increment, range := d.base, d.increment, d.range;
      striding, strideN, strideInc, strideRange := d.striding, d.strideN, d.strideInc, d.strideRange;
      nextAddress, strideStart, strideCount, strides := d.nextAddress, d.strideStart, d.strideCount, d.strides;
    }

    method Reset()
      modifies this
      ensures State() == AfterReset(old(State()))
    {
      nextAddress := base;
      strides := if striding then 1 else 0;
      strideCount := 0;
      strideStart := nextAddress;
    }

    method GetAddress() returns (currentAddress: nat)
      modifies this
      ensures currentAddress == old(nextAddress)
      ensures State() == AfterGet(old(State()))
    {
      hide Span;
      currentAddress := nextAddress;
      if striding && (strideCount < strideN || currentAddress + strideInc < strideStart + strideRange) {
        strideCount := strideCount + 1;
        nextAddress := strideStart + Span(strideCount, strideInc);
      } else {
        nextAddress := if striding then base + Span(strides, increment) else nextAddress + increment;
        if striding {
          strideCount := 0;
          strideStart := nextAddress;
          strides := strides + 1;
        }
      }
      if range > 0 && nextAddress >= base + range {
        nextAddress := base;
        strideStart := base;
        strides := if striding then 1 else 0;
        strideCount := 0;
      }
    }

    method AddressReconfigure(b: nat, r: nat)
      modifies this
      ensures State() == AfterReconfigure(old(State()), b, r)
    {
      base := b;
      range := r;
      nextAddress := base;
      strides := 0;
      strideCount := 0;
      strideStart := nextAddress;
    }

    /** Returns false for an unlimited descriptor without a range. */
    method AutoRange(toSend: nat, force: bool) returns (ok: bool, applied: nat)
      requires toSend > 0 ==> Computable(State())
      modifies this`range
      ensures ok == (toSend > 0 || old(range) > 0)
      ensures applied == AppliedRange(old(State()), toSend, force)
      ensures State() == old(State()).(range := applied)
    {
      ok := true;
      if toSend > 0 {
        var newRange: int := 0;
        if striding {
          var stridePackets := if strideRange > 0 then strideRange / strideInc else strideN;
          var strideSpace := if strideRange > 0 then strideRange else strideInc * (strideN - 1);
          var total := toSend / stridePackets;
          var leftOver := toSend % stridePackets;
          newRange := (total - 1) * (if strideSpace >= increment then strideSpace else increment) + strideSpace;
          if leftOver > 0 {
            newRange := newRange + (leftOver * strideInc + (if increment >= strideSpace then increment - strideSpace else 0));
          }
        } else {
          newRange := toSend * increment;
        }
        if force || range == 0 || range > newRange % U64 {
          range := newRange % U64;
        }
      } else if range == 0 {
        ok := false;
      }
      applied := range;
    }
  }

  // -------------------------------------------------------- the range is large enough

  /** A descriptor whose range the calculator gets right: linear, or strides limited by
      a range of at least one increment. */
  predicate Regular(d: Desc) {
    && d.increment > 0
    && (d.striding ==> d.strideN == 0 && 0 < d.strideInc <= d.strideRange)
  }

  /** The descriptor hands out its first address next: after a reset, or after a
      reconfiguration (which leaves the stride counter at 0). */
  predicate AtStart(d: Desc) {
    d.nextAddress == d.base == d.strideStart && d.strideCount == 0 && d.strides <= 1
  }

  /** Addresses that one stride really hands out. */
  function PerStride(d: Desc): nat
    requires d.strideInc > 0
  {
    (d.strideRange + d.strideInc - 1) / d.strideInc
  }

  /** Where stride s starts, relative to the base; `first` is the stride counter at the
      start. */
  function StrideOffset(d: Desc, first: nat, s: nat): nat
    requires first <= 1
  {
    if s == 0 then 0 else (s - 1 + first) * d.increment
  }

  /** The n-th address, if the range never made it wrap. */
  function Unwrapped(d: Desc, n: nat): nat
    requires Regular(d) && d.strides <= 1
  {
    if !d.striding then d.base + n * d.increment
    else if PerStride(d) == 0 then 0
    else d.base + StrideOffset(d, d.strides, n / PerStride(d)) + (n % PerStride(d)) * d.strideInc
  }

  // arithmetic

  /** A quotient rounded up: multiples below the dividend are those below the quotient. */
  lemma CeilingMeans(r: int, inc: int, c: int, j: int)
    requires inc > 0 && inc * c <= r + inc - 1 < inc * c + inc
    ensures j < c <==> j * inc < r
  {
    if j < c {
      MulMono(j + 1, c, inc);
    } else {
      MulMono(c, j, inc);
    }
  }

  lemma FloorBelowCeiling(r: int, inc: int, c: int, f: int)
    requires 0 < inc <= r && inc * c <= r + inc - 1 < inc * c + inc && inc * f <= r < inc * f + inc
    ensures c >= f >= 1
  {
    if f >= c + 1 {
      MulMono(c + 1, f, inc);
    } else if f <= 0 {
      MulMono(f, 0, inc);
    }
  }

  /** One stride hands out at least as many addresses as the calculator counts, and its
      last one lies within the stride range. */
  lemma PerStrideBounds(d: Desc)
    requires Regular(d) && d.striding
    ensures PerStride(d) >= d.strideRange / d.strideInc >= 1
    ensures forall j: nat :: j < PerStride(d) <==> j * d.strideInc < d.strideRange
  {
    var inc, r, c := d.strideInc, d.strideRange, PerStride(d);
    DivBounds(r + inc - 1, inc);
    DivBounds(r, inc);
    FloorBelowCeiling(r, inc, c, r / inc);
    hide *;
    forall j: nat ensures j < c <==> j * inc < r {
      CeilingMeans(r, inc, c, j);
    }
  }

  /** Of the first toSend packets, packet c*s + j belongs to one of the full strides the
      calculator counts, or to the left-over packets. */
  lemma StridePosition(f: nat, c: nat, toSend: nat, k: nat, l: nat, s: nat, j: nat)
    requires c >= f >= 1 && toSend == f * k + l && l < f
    requires c * s + j < toSend
    ensures s + 1 <= k || (s == k && j < l)
  {
    SwapMono(s, f, c);
    if s >= k + 1 { MulMono(k + 1, s, f); }
    assert (k + 1) * f == f * k + f;
  }

  lemma FullStride(s: nat, e: nat, k: nat, inc: nat, m: nat)
    requires s + 1 <= k && e <= s && inc <= m
    ensures e * inc <= (k - 1) * m
  {
    MulMono(e, k - 1, inc);
    SwapMono(k - 1, inc, m);
  }

  lemma SwapMono(a: int, b: int, m: int)
    requires b <= m && a >= 0
    ensures a * b <= a * m
  {
  }

  lemma LastStride(e: nat, k: nat, inc: nat, m: nat, j: nat, l: nat, step: nat)
    requires e <= k && inc <= m && j + 1 <= l && step > 0
    ensures e * inc + j * step < k * m + l * step
  {
    MulMono(e, k, inc);
    SwapMono(k, inc, m);
    MulMono(j + 1, l, step);
    assert (j + 1) * step == j * step + step;
  }

  lemma ProductLess(a: nat, b: nat, m: nat)
    requires a < b && m > 0
    ensures a * m < b * m
  {
  }

  /** Every address of the first toSend lies within the exact range. */
  lemma UnwrappedFits(d: Desc, toSend: nat, n: nat)
    requires Regular(d) && d.strides <= 1 && n < toSend
    ensures Computable(d)
    ensures d.base <= Unwrapped(d, n) < d.base + ExactRange(d, toSend)
  {
    if !d.striding {
      ProductLess(n, toSend, d.increment);
    } else {
      PerStrideBounds(d);
      StridedFits(d, toSend, n);
    }
  }

  lemma StridedFits(d: Desc, toSend: nat, n: nat)
    requires Regular(d) && d.strides <= 1 && n < toSend && d.striding
    requires PerStride(d) >= d.strideRange / d.strideInc >= 1
    requires forall j: nat :: j < PerStride(d) <==> j * d.strideInc < d.strideRange
    ensures Computable(d)
    ensures d.base <= Unwrapped(d, n) < d.base + ExactRange(d, toSend)
  {
    hide PerStride, StrideOffset, StridedRange, Unwrapped, ExactRange;
    var f, c := d.strideRange / d.strideInc, PerStride(d);
    DivBounds(toSend, f);
    DivBounds(n, c);
    StridePosition(f, c, toSend, toSend / f, toSend % f, n / c, n % c);
    FitsStride(d, toSend / f, toSend % f, n / c, n % c);
    UnwrappedStrided(d, n);
    ExactStrided(d, toSend);
  }

  lemma UnwrappedStrided(d: Desc, n: nat)
    requires Regular(d) && d.strides <= 1 && d.striding && PerStride(d) > 0
    ensures Unwrapped(d, n)
         == d.base + StrideOffset(d, d.strides, n / PerStride(d)) + (n % PerStride(d)) * d.strideInc
  {
  }

  lemma ExactStrided(d: Desc, toSend: nat)
    requires Regular(d) && d.striding && d.strideRange / d.strideInc >= 1
    ensures Computable(d)
    ensures var f := d.strideRange / d.strideInc;
            ExactRange(d, toSend) == StridedRange(d, toSend / f, toSend % f)
  {
  }

  function StridedRange(d: Desc, k: nat, l: nat): int {
    (k - 1) * Max(d.strideRange, d.increment) + d.strideRange
    + (if l > 0 then l * d.strideInc + Max(d.increment - d.strideRange, 0) else 0)
  }

  lemma FitsStride(d: Desc, k: nat, l: nat, s: nat, j: nat)
    requires Regular(d) && d.striding && d.strides <= 1
    requires j * d.strideInc < d.strideRange
    requires s + 1 <= k || (s == k && j < l)
    ensures StrideOffset(d, d.strides, s) + j * d.strideInc < StridedRange(d, k, l)
  {
    var m := Max(d.strideRange, d.increment);
    var e := if s == 0 then 0 else s - 1 + d.strides;
    assert StrideOffset(d, d.strides, s) == e * d.increment;
    MulMono(0, l, d.strideInc);
    if s + 1 <= k {
      FullStride(s, e, k, d.increment, m);
    } else {
      LastStride(e, k, d.increment, m, j, l, d.strideInc);
      assert (k - 1) * m == k * m - m;
    }
  }

  /** What the descriptor looks like after n addresses without wrapping. */
  function Expected(d: Desc, n: nat): Desc
    requires Regular(d) && d.strides <= 1
  {
    if !d.striding then d.(nextAddress := Unwrapped(d, n))
    else if PerStride(d) == 0 then d
    else
      var s, j := n / PerStride(d), n % PerStride(d);
      d.(nextAddress := Unwrapped(d, n), strideStart := d.base + StrideOffset(d, d.strides, s), strideCount := j,
         strides := s + d.strides)
  }

  /** Within one stride or on to the next, from packet n = c*s + j. */
  lemma NextInStride(c: nat, n: nat, s: nat, j: nat)
    requires c > 0 && n == c * s + j && j < c
    ensures j + 1 < c ==> (n + 1) / c == s && (n + 1) % c == j + 1
    ensures j + 1 == c ==> (n + 1) / c == s + 1 && (n + 1) % c == 0
  {
    if j + 1 < c {
      DivUnique(n + 1, c, s, j + 1);
    } else {
      assert c * (s + 1) == c * s + c;
      DivUnique(n + 1, c, s + 1, 0);
    }
  }

  /** The descriptor at position j of stride s. */
  function At(d: Desc, s: nat, j: nat): Desc
    requires d.strides <= 1
  {
    var start := d.base + StrideOffset(d, d.strides, s);
    d.(nextAddress := start + j * d.strideInc, strideStart := start, strideCount := j, strides := s + d.strides)
  }

  lemma AdvanceAt(d: Desc, s: nat, j: nat)
    requires Regular(d) && AtStart(d) && d.striding
    ensures (j + 1) * d.strideInc < d.strideRange ==> Advance(At(d, s, j)) == At(d, s, j + 1)
    ensures (j + 1) * d.strideInc >= d.strideRange ==> Advance(At(d, s, j)) == At(d, s + 1, 0)
  {
    assert (j + 1) * d.strideInc == j * d.strideInc + d.strideInc;
    assert 0 * d.strideInc == 0;
    assert StrideOffset(d, d.strides, s + 1) == (s + d.strides) * d.increment;
  }

  lemma ExpectedIsAt(d: Desc, n: nat)
    requires Regular(d) && d.strides <= 1 && d.striding
    ensures PerStride(d) > 0 && Expected(d, n) == At(d, n / PerStride(d), n % PerStride(d))
  {
    PerStrideBounds(d);
  }

  lemma AdvanceExpected(d: Desc, n: nat)
    requires Regular(d) && AtStart(d)
    ensures Advance(Expected(d, n)) == Expected(d, n + 1)
  {
    if !d.striding {
      assert (n + 1) * d.increment == n * d.increment + d.increment;
    } else {
      StepStrided(d, n);
    }
  }

  lemma StepStrided(d: Desc, n: nat)
    requires Regular(d) && AtStart(d) && d.striding
    ensures Advance(Expected(d, n)) == Expected(d, n + 1)
  {
    hide PerStride, Expected, Advance, At;
    PerStrideBounds(d);
    ExpectedIsAt(d, n);
    ExpectedIsAt(d, n + 1);
    var c, inc := PerStride(d), d.strideInc;
    var s, j, t, k := n / c, n % c, (n + 1) / c, (n + 1) % c;
    DivBounds(n, c);
    NextInStride(c, n, s, j);
    AdvanceAt(d, s, j);
    NextPosition(d, c, j);
    hide *;
    assert j + 1 < c ==> At(d, t, k) == At(d, s, j + 1);
    assert j + 1 >= c ==> At(d, t, k) == At(d, s + 1, 0);
  }

  lemma NextPosition(d: Desc, c: nat, j: nat)
    requires forall k: nat :: k < c <==> k * d.strideInc < d.strideRange
    ensures j + 1 < c <==> (j + 1) * d.strideInc < d.strideRange
  {
    var next := j + 1;
    assert next < c <==> next * d.strideInc < d.strideRange;
  }

  lemma ExpectedStart(d: Desc)
    requires Regular(d) && AtStart(d)
    ensures Expected(d, 0) == d
  {
    assert 0 * d.increment == 0;
    if d.striding {
      PerStrideBounds(d);
      DivUnique(0, PerStride(d), 0, 0);
      assert 0 * d.strideInc == 0;
    }
  }

  lemma {:induction false} NoWrap(d: Desc, toSend: nat, n: nat)
    requires Regular(d) && AtStart(d) && Computable(d) && n < toSend && d.range >= ExactRange(d, toSend)
    ensures Iterate(d, n) == Expected(d, n)
  {
    hide Regular, Computable, ExactRange, Expected, Unwrapped, Advance;
    if n == 0 {
      ExpectedStart(d);
    } else {
      NoWrap(d, toSend, n - 1);
      AdvanceExpected(d, n - 1);
      UnwrappedFits(d, toSend, n);
      ExpectedAddress(d, n);
    }
  }

  /** The computed range, once applied, is large enough: the first toSend addresses are
      those of the unlimited sequence and lie in the range, from a reset and after a
      reconfiguration, even when toSend is less than one stride. */
  lemma AutoRangeSuffices(d: Desc, toSend: nat, n: nat)
    requires Regular(d) && AtStart(d) && Computable(d) && n < toSend
    requires ExactRange(d, toSend) < U64 && d.range == NewRange(d, toSend)
    ensures Address(d, n) == Unwrapped(d, n)
    ensures d.base <= Address(d, n) < d.base + d.range
  {
    UnwrappedFits(d, toSend, n);
    DivUnique(ExactRange(d, toSend), U64, 0, ExactRange(d, toSend));
    NoWrap(d, toSend, n);
    ExpectedAddress(d, n);
  }

  lemma ExpectedAddress(d: Desc, n: nat)
    requires Regular(d) && d.strides <= 1
    ensures Expected(d, n) == Expected(d, n).(nextAddress := Unwrapped(d, n))
    ensures Expected(d, n).base == d.base && Expected(d, n).range == d.range
  {
    if d.striding {
      PerStrideBounds(d);
    }
  }

  // ------------------------------------------- strides limited by a number of increments

  /** Strides limited by a number of increments: the generator hands out one address more
      per stride than the calculator counts. */
  predicate CountedStrides(d: Desc) {
    d.striding && d.strideRange == 0 && d.strideN > 0
  }

  /** Where the n-th address lies, relative to the base, if the range never made it wrap. */
  function Place(d: Desc, n: nat): nat
    requires d.strides <= 1
  {
    StrideOffset(d, d.strides, n / (d.strideN + 1)) + Span(n % (d.strideN + 1), d.strideInc)
  }

  /** The furthest of the first toSend places: that of the last packet, or the end of the
      last stride before it, which is longer. */
  function Furthest(d: Desc, toSend: nat): int
    requires d.strides <= 1 && toSend > 0
  {
    var last := (toSend - 1) / (d.strideN + 1);
    Max(Place(d, toSend - 1),
        if last > 0 then StrideOffset(d, d.strides, last - 1) + Span(d.strideN, d.strideInc) else 0)
  }

  /** What the calculator's range comes to in this mode. */
  lemma CountedRange(d: Desc, toSend: nat)
    requires CountedStrides(d) && toSend > 0
    ensures Computable(d)
    ensures var space := d.strideInc * (d.strideN - 1);
            var k, l, m := toSend / d.strideN, toSend % d.strideN, Max(space, d.increment);
            ExactRange(d, toSend) == if l > 0 then k * m + l * d.strideInc else (k - 1) * m + space
  {
    var m := Max(d.strideInc * (d.strideN - 1), d.increment);
    assert (toSend / d.strideN - 1) * m == (toSend / d.strideN) * m - m;
  }

  lemma OffsetGrows(d: Desc, s: nat, t: nat)
    requires d.strides <= 1 && s <= t
    ensures StrideOffset(d, d.strides, s) <= StrideOffset(d, d.strides, t)
  {
    if s > 0 {
      MulMono(s - 1 + d.strides, t - 1 + d.strides, d.increment);
    } else if t > 0 {
      MulMono(0, t - 1 + d.strides, d.increment);
    }
  }

  lemma PlaceBounded(d: Desc, toSend: nat, n: nat)
    requires d.strides <= 1 && n < toSend
    ensures Place(d, n) <= Furthest(d, toSend)
  {
    var c, last := d.strideN + 1, toSend - 1;
    DivBounds(n, c);
    DivBounds(last, c);
    if last / c < n / c {
      MulMono(last / c + 1, n / c, c);
      assert false;
    }
    if n / c == last / c {
      MulMono(n % c, last % c, d.strideInc);
    } else {
      OffsetGrows(d, n / c, last / c - 1);
      MulMono(n % c, d.strideN, d.strideInc);
    }
  }

  lemma FurthestReached(d: Desc, toSend: nat) returns (n: nat)
    requires d.strides <= 1 && toSend > 0
    ensures n < toSend && Place(d, n) == Furthest(d, toSend)
  {
    var c, last := d.strideN + 1, (toSend - 1) / (d.strideN + 1);
    n := toSend - 1;
    if Place(d, n) < Furthest(d, toSend) {
      DivBounds(n, c);
      MulMono(1, last, c);
      assert c * (last - 1) == c * last - c;
      n := c * last - 1;
      DivUnique(n, c, last - 1, d.strideN);
    }
  }

  lemma AdvanceCounted(d: Desc, s: nat, j: nat)
    requires CountedStrides(d) && AtStart(d)
    ensures j < d.strideN ==> Advance(At(d, s, j)) == At(d, s, j + 1)
    ensures j == d.strideN ==> Advance(At(d, s, j)) == At(d, s + 1, 0)
  {
    assert 0 * d.strideInc == 0;
    assert j * d.strideInc + d.strideInc >= 0;
    assert StrideOffset(d, d.strides, s + 1) == (s + d.strides) * d.increment;
  }

  /** As long as no address leaves the range, the generator follows the closed form. */
  lemma {:induction false} CountedFollows(d: Desc, n: nat)
    requires CountedStrides(d) && AtStart(d)
    requires d.range == 0 || forall m: nat :: m <= n ==> Place(d, m) < d.range
    ensures Iterate(d, n) == At(d, n / (d.strideN + 1), n % (d.strideN + 1))
    ensures Address(d, n) == d.base + Place(d, n)
  {
    hide Advance;
    var c := d.strideN + 1;
    if n == 0 {
      DivUnique(0, c, 0, 0);
      assert 0 * d.strideInc == 0;
    } else {
      CountedFollows(d, n - 1);
      DivBounds(n - 1, c);
      NextInStride(c, n - 1, (n - 1) / c, (n - 1) % c);
      AdvanceCounted(d, (n - 1) / c, (n - 1) % c);
      assert d.range > 0 ==> Place(d, n) < d.range;
    }
  }

  /** Otherwise one that leaves it is replaced by the base. */
  lemma {:induction false} CountedWraps(d: Desc, m: nat) returns (n: nat)
    requires CountedStrides(d) && AtStart(d) && Place(d, m) >= d.range > 0
    ensures n <= m && Address(d, n) == d.base && Place(d, n) > 0
  {
    hide Advance;
    if k: nat :| k < m && Place(d, k) >= d.range {
      n := CountedWraps(d, k);
    } else {
      var c := d.strideN + 1;
      if m == 0 { PlaceStart(d); }
      CountedFollows(d, m - 1);
      DivBounds(m - 1, c);
      NextInStride(c, m - 1, (m - 1) / c, (m - 1) % c);
      AdvanceCounted(d, (m - 1) / c, (m - 1) % c);
      n := m;
    }
  }

  lemma PlaceStart(d: Desc)
    requires d.strides <= 1
    ensures Place(d, 0) == 0
  {
    DivUnique(0, d.strideN + 1, 0, 0);
    assert 0 * d.strideInc == 0;
  }

  /** The first toSend addresses are those of the unlimited sequence. */
  ghost predicate Suffices(d: Desc, toSend: nat)
    requires d.strides <= 1
  {
    forall n: nat :: n < toSend ==> Address(d, n) == d.base + Place(d, n)
  }

  /** For every number of packets: the computed range suffices exactly if the furthest
      place lies below it, or if it comes to 0, which means no range. */
  lemma CountedSufficesIff(d: Desc, toSend: nat)
    requires CountedStrides(d) && AtStart(d) && toSend > 0 && d.range == ExactRange(d, toSend)
    ensures Suffices(d, toSend) <==> d.range == 0 || Furthest(d, toSend) < d.range
  {
    hide Place, Furthest, Iterate, Address, ExactRange;
    if d.range == 0 || Furthest(d, toSend) < d.range {
      forall n: nat | n < toSend ensures Address(d, n) == d.base + Place(d, n) {
        forall m: nat | m <= n ensures Place(d, m) <= Furthest(d, toSend) {
          PlaceBounded(d, toSend, m);
        }
        CountedFollows(d, n);
      }
    } else {
      var m := FurthestReached(d, toSend);
      var n := CountedWraps(d, m);
      assert Address(d, n) != d.base + Place(d, n);
    }
  }

  /** Of packets in stride s at position j, the calculator counts k full strides and l more. */
  lemma SpacedPosition(n: nat, s: nat, j: nat, k: nat, l: nat)
    requires n >= 2 && j <= n && l < n && (n + 1) * s + j + 1 == n * k + l
    ensures k > s || (k == s && l == s + j + 1)
    ensures k == s + 1 && l == 0 ==> j == n - 1 - s
  {
    assert (n + 1) * s == n * s + s;
    if k < s {
      MulMono(k + 1, s, n);
    }
    assert n * (s + 1) == n * s + n;
  }

  lemma ExceedsLeftOver(s: nat, j: nat, k: nat, l: nat, step: nat, m: nat)
    requires step > 0 && m >= j * step && l > 0 && (k > s || (k == s && j < l))
    ensures k * m + l * step > s * m + j * step
  {
    if k == s {
      ProductLess(j, l, step);
    } else {
      MulMono(s + 1, k, m);
      ProductLess(0, l, step);
      assert (s + 1) * m == s * m + m;
    }
  }

  lemma ExceedsFull(n: nat, s: nat, j: nat, k: nat, step: nat, m: nat)
    requires n >= 2 && step > 0 && m >= j * step && (k > s + 1 || (k == s + 1 && j < n - 1))
    ensures (k - 1) * m + step * (n - 1) > s * m + j * step
  {
    if k == s + 1 {
      ProductLess(j, n - 1, step);
    } else {
      MulMono(s + 1, k - 1, m);
      ProductLess(0, n - 1, step);
      assert (s + 1) * m == s * m + m;
    }
  }

  lemma SpacedExceeds(d: Desc, toSend: nat, s: nat, j: nat)
    requires CountedStrides(d) && toSend > 0 && toSend != d.strideN
    requires d.strideN >= 2 && d.strideInc > 0 && d.increment >= Span(d.strideN, d.strideInc)
    requires j <= d.strideN && (d.strideN + 1) * s + j + 1 == toSend
    ensures Computable(d) && ExactRange(d, toSend) > s * d.increment + j * d.strideInc
  {
    hide ExactRange;
    var n, step, m := d.strideN, d.strideInc, d.increment;
    var k, l := toSend / n, toSend % n;
    CountedRange(d, toSend);
    MaxSpace(n, step, m);
    DivBounds(toSend, n);
    SpacedPosition(n, s, j, k, l);
    MulMono(j, n, step);
    if l > 0 {
      ExceedsLeftOver(s, j, k, l, step, m);
    } else {
      ExceedsFull(n, s, j, k, step, m);
    }
  }

  lemma MaxSpace(n: nat, step: nat, m: nat)
    requires n >= 1 && m >= n * step
    ensures Max(step * (n - 1), m) == m
  {
    MulMono(n - 1, n, step);
  }

  lemma SpacedFurthest(d: Desc, toSend: nat)
    requires CountedStrides(d) && d.strides <= 1 && toSend > 0
    requires d.strideN >= 2 && d.strideInc > 0 && d.increment >= Span(d.strideN, d.strideInc)
    ensures Computable(d) && ExactRange(d, toSend) > 0
    ensures Furthest(d, toSend) < ExactRange(d, toSend) <==> toSend != d.strideN
  {
    hide ExactRange, Furthest;
    var n := d.strideN;
    var s, j := (toSend - 1) / (n + 1), (toSend - 1) % (n + 1);
    DivBounds(toSend - 1, n + 1);
    SpacedPlaces(d, toSend, s, j);
    if toSend != n {
      SpacedExceeds(d, toSend, s, j);
      MulMono(0, s, d.increment);
      MulMono(0, j, d.strideInc);
    } else {
      CountedRange(d, toSend);
      DivUnique(toSend, n, 1, 0);
      DivUnique(toSend - 1, n + 1, 0, n - 1);
      ProductLess(0, n - 1, d.strideInc);
    }
  }

  lemma SpacedPlaces(d: Desc, toSend: nat, s: nat, j: nat)
    requires d.strides <= 1 && toSend > 0 && d.increment >= Span(d.strideN, d.strideInc)
    requires s == (toSend - 1) / (d.strideN + 1) && j == (toSend - 1) % (d.strideN + 1)
    ensures Furthest(d, toSend) <= s * d.increment + j * d.strideInc
    ensures s == 0 ==> Furthest(d, toSend) == j * d.strideInc
  {
    var m := d.increment;
    MulMono(0, j, d.strideInc);
    if s > 0 {
      MulMono(s - 1 + d.strides, s, m);
      if s > 1 { MulMono(s - 2 + d.strides, s - 1, m); }
      MulMono(0, s - 1, m);
      assert (s - 1) * m + m == s * m;
    }
  }

  /** With strides at least as far apart as they are long, that is for every number of
      packets but exactly one full stride as the calculator counts it. */
  lemma SpacedStridesSufficeIff(d: Desc, toSend: nat)
    requires CountedStrides(d) && AtStart(d) && toSend > 0 && d.range == ExactRange(d, toSend)
    requires d.strideN >= 2 && d.strideInc > 0 && d.increment >= Span(d.strideN, d.strideInc)
    ensures Suffices(d, toSend) <==> toSend != d.strideN
  {
    CountedSufficesIff(d, toSend);
    SpacedFurthest(d, toSend);
  }

  /** One full stride is one address short, however far the strides are apart. */
  lemma FirstStrideSufficesIff(d: Desc, toSend: nat)
    requires CountedStrides(d) && AtStart(d) && 0 < toSend <= d.strideN && d.range == ExactRange(d, toSend)
    requires d.strideN >= 2 && d.strideInc > 0
    ensures Suffices(d, toSend) <==> toSend < d.strideN
  {
    hide Suffices, Furthest, ExactRange;
    CountedSufficesIff(d, toSend);
    FirstStridePlaces(d, toSend);
    FirstStrideRange(d, toSend);
    ProductLess(toSend - 1, toSend, d.strideInc);
    ProductLess(0, d.strideN - 1, d.strideInc);
    assert toSend < d.strideN ==> d.range == toSend * d.strideInc;
  }

  lemma FirstStridePlaces(d: Desc, toSend: nat)
    requires CountedStrides(d) && d.strides <= 1 && 0 < toSend <= d.strideN
    ensures Furthest(d, toSend) == (toSend - 1) * d.strideInc
  {
    DivUnique(toSend - 1, d.strideN + 1, 0, toSend - 1);
    MulMono(0, toSend - 1, d.strideInc);
  }

  lemma FirstStrideRange(d: Desc, toSend: nat)
    requires CountedStrides(d) && 0 < toSend <= d.strideN
    ensures Computable(d)
    ensures ExactRange(d, toSend) == (if toSend < d.strideN then toSend else toSend - 1) * d.strideInc
  {
    hide ExactRange;
    CountedRange(d, toSend);
    if toSend < d.strideN {
      DivUnique(toSend, d.strideN, 0, toSend);
    } else {
      DivUnique(toSend, d.strideN, 1, 0);
    }
  }

  /** A descriptor that has been reset starts its second stride one increment on; one that
      has been reconfigured hands out its first stride twice. */
  lemma SecondStride(d: Desc, b: nat, r: nat)
    requires Regular(d) && d.striding
    ensures var e := AfterReset(d); Address(Endless(e), PerStride(d)) == d.base + d.increment
    ensures var e := AfterReconfigure(d, b, r);
            Address(Endless(e), PerStride(d)) == b && Address(Endless(e), 2 * PerStride(d)) == b + d.increment
  {
    hide Iterate, PerStride;
    PerStrideBounds(d);
    var c := PerStride(d);
    EndlessFollows(AfterReset(d), c);
    EndlessFollows(AfterReconfigure(d, b, r), c);
    EndlessFollows(AfterReconfigure(d, b, r), 2 * c);
    PerStrideSame(d, b, r);
    DivUnique(c, c, 1, 0);
    DivUnique(2 * c, c, 2, 0);
    assert 0 * d.strideInc == 0;
    assert 0 * d.increment == 0 && 1 * d.increment == d.increment;
  }

  lemma PerStrideSame(d: Desc, b: nat, r: nat)
    requires Regular(d) && d.striding
    ensures PerStride(AfterReset(d)) == PerStride(d) == PerStride(AfterReconfigure(d, b, r))
  {
  }

  // ------------------------------------------------------------ past the end of the range

  /** Addresses a linear descriptor hands out before it wraps. */
  function PerRange(range: nat, increment: nat): nat
    requires increment > 0
  {
    (range + increment - 1) / increment
  }

  /** A linear descriptor hands out the multiples of its increment below its range, over
      and over. */
  lemma {:induction false} LinearRepeats(d: Desc, n: nat)
    requires !d.striding && d.range > 0 && d.increment > 0 && d.nextAddress == d.base
    ensures PerRange(d.range, d.increment) > 0 && Address(d, n) == d.base + (n % PerRange(d.range, d.increment)) * d.increment
    ensures var e := Iterate(d, n);
            !e.striding && e.base == d.base && e.range == d.range && e.increment == d.increment
  {
    hide AfterGet, PerRange;
    var c := PerRange(d.range, d.increment);
    PerRangeMeans(d, 0);
    if n == 0 {
      DivUnique(0, c, 0, 0);
      assert 0 * d.increment == 0;
    } else {
      LinearRepeats(d, n - 1);
      DivBounds(n - 1, c);
      NextInStride(c, n - 1, (n - 1) / c, (n - 1) % c);
      LinearStep(Iterate(d, n - 1), (n - 1) % c);
    }
  }

  lemma PerRangeMeans(d: Desc, j: nat)
    requires d.range > 0 && d.increment > 0
    ensures PerRange(d.range, d.increment) > 0 && (j < PerRange(d.range, d.increment) <==> j * d.increment < d.range)
  {
    DivBounds(d.range + d.increment - 1, d.increment);
    CeilingMeans(d.range, d.increment, PerRange(d.range, d.increment), 0);
    CeilingMeans(d.range, d.increment, PerRange(d.range, d.increment), j);
  }

  lemma LinearStep(d: Desc, j: nat)
    requires !d.striding && d.range > 0 && d.increment > 0 && d.nextAddress == d.base + j * d.increment
    ensures var e := AfterGet(d);
            && e.nextAddress == d.base + (if j + 1 < PerRange(d.range, d.increment) then j + 1 else 0) * d.increment
            && !e.striding && e.base == d.base && e.range == d.range && e.increment == d.increment
  {
    hide PerRange;
    PerRangeMeans(d, j + 1);
    assert (j + 1) * d.increment == j * d.increment + d.increment;
    assert 0 * d.increment == 0;
  }

  /** A range is enough for that many packets of a linear descriptor if and only if the last
      address lies in it; the computed one is the least multiple of the increment that is. */
  lemma LinearSufficesIff(d: Desc, toSend: nat)
    requires !d.striding && d.range > 0 && d.increment > 0 && d.nextAddress == d.base && toSend > 0
    ensures (forall n: nat :: n < toSend ==> Address(d, n) == d.base + n * d.increment)
            <==> (toSend - 1) * d.increment < d.range
    ensures ExactRange(d, toSend) - d.increment == (toSend - 1) * d.increment < ExactRange(d, toSend)
  {
    hide Address, PerRange;
    var c := PerRange(d.range, d.increment);
    PerRangeMeans(d, toSend - 1);
    assert (toSend - 1) * d.increment == toSend * d.increment - d.increment;
    if toSend - 1 < c {
      forall n: nat | n < toSend ensures Address(d, n) == d.base + n * d.increment {
        LinearRepeats(d, n);
        DivUnique(n, c, 0, n);
      }
    } else {
      LinearRepeats(d, c);
      DivUnique(c, c, 1, 0);
      ProductLess(0, c, d.increment);
      assert Address(d, c) != d.base + c * d.increment;
    }
  }

  /** A range that is configured and smaller is kept, unless the computed one is forced. */
  lemma SmallerRangeKept(d: Desc, toSend: nat, force: bool)
    requires toSend > 0 && Computable(d)
    ensures var r := AppliedRange(d, toSend, force);
            && (force || d.range == 0 ==> r == NewRange(d, toSend))
            && (!force && d.range > 0 ==> r <= d.range && r <= NewRange(d, toSend) && (r == d.range || r == NewRange(d, toSend)))
    ensures AppliedRange(d, 0, force) == d.range
  {
    hide NewRange;
  }

  /** An increment of 0 repeats the base. */
  lemma {:induction false} NoIncrementStays(d: Desc, n: nat)
    requires !d.striding && d.increment == 0 && d.nextAddress == d.base
    ensures Address(d, n) == d.base && Iterate(d, n).increment == 0 && !Iterate(d, n).striding
    ensures Iterate(d, n).base == d.base
  {
    if n > 0 { NoIncrementStays(d, n - 1); }
  }

  /** The same descriptor without a range: it never wraps. */
  function Endless(d: Desc): Desc { d.(range := 0) }

  /** Up to the first address that would leave the range, the range makes no difference. */
  lemma {:induction false} InsideUnchanged(d: Desc, n: nat)
    requires d.range > 0 ==> forall m: nat :: 0 < m <= n ==> Address(Endless(d), m) < d.base + d.range
    ensures Iterate(d, n) == Iterate(Endless(d), n).(range := d.range)
    ensures Iterate(Endless(d), n).base == d.base && Iterate(Endless(d), n).range == 0
  {
    hide AfterGet;
    if n > 0 {
      InsideUnchanged(d, n - 1);
      assert d.range > 0 ==> Address(Endless(d), n) < d.base + d.range;
      InsideStep(Iterate(Endless(d), n - 1), d.range);
    }
  }

  lemma InsideStep(e: Desc, range: nat)
    requires e.range == 0
    ensures AfterGet(e).base == e.base && AfterGet(e).range == 0
    ensures range == 0 || AfterGet(e).nextAddress < e.base + range ==>
              AfterGet(e.(range := range)) == AfterGet(e).(range := range)
  {
    hide Span;
  }

  /** n is the number of addresses up to the first that would leave the range. */
  ghost predicate LeavesAfter(d: Desc, n: nat) {
    && d.range > 0 && n > 0 && Address(Endless(d), n) >= d.base + d.range
    && forall m: nat :: 0 < m < n ==> Address(Endless(d), m) < d.base + d.range
  }

  lemma {:induction false} IterateOn(d: Desc, m: nat, k: nat)
    ensures Iterate(d, m + k) == Iterate(Iterate(d, m), k)
  {
    hide AfterGet;
    if k > 0 {
      IterateOn(d, m, k - 1);
      assert m + k - 1 == m + (k - 1);
    }
  }

  lemma ResetOf(d: Desc, e: Desc)
    requires e == d.(nextAddress := e.nextAddress, strideStart := e.strideStart, strideCount := e.strideCount,
                     strides := e.strides)
    ensures AfterReset(e) == AfterReset(d)
  {
  }

  lemma {:induction false} OnlyPositionMoves(d: Desc, n: nat)
    ensures var e := Iterate(d, n);
            e == d.(nextAddress := e.nextAddress, strideStart := e.strideStart, strideCount := e.strideCount,
                    strides := e.strides)
  {
    hide Span;
    if n > 0 { OnlyPositionMoves(d, n - 1); }
  }

  /** The first address that would leave the range is the base instead, and from there on
      the addresses are those of a descriptor that has been reset. */
  lemma WrapIsReset(d: Desc, n: nat, k: nat)
    requires LeavesAfter(d, n)
    ensures Address(d, n) == d.base && Iterate(d, n) == AfterReset(d)
    ensures Address(d, n + k) == Address(AfterReset(d), k)
  {
    hide Span, Iterate;
    InsideUnchanged(d, n - 1);
    OneMore(d, n - 1);
    OneMore(Endless(d), n - 1);
    OnlyPositionMoves(d, n - 1);
    ResetOf(d, Iterate(d, n - 1));
    IterateOn(d, n, k);
  }

  lemma OneMore(d: Desc, n: nat)
    ensures Iterate(d, n + 1) == AfterGet(Iterate(d, n))
  {
  }

  /** So a descriptor that has been reset repeats the addresses of its range. */
  lemma {:induction false} ResetRepeats(d: Desc, n: nat, k: nat)
    requires d == AfterReset(d) && LeavesAfter(d, n)
    ensures Address(d, k) == Address(Endless(d), k % n)
  {
    hide AfterReset, Iterate;
    if k < n {
      DivUnique(k, n, 0, k);
      InsideUnchanged(d, k);
    } else {
      ResetRepeats(d, n, k - n);
      WrapIsReset(d, n, k - n);
      DivBounds(k - n, n);
      assert n * ((k - n) / n + 1) == n * ((k - n) / n) + n;
      DivUnique(k, n, (k - n) / n + 1, (k - n) % n);
    }
  }

  /** Without a range the addresses of strides are those of the closed forms. */
  lemma {:induction false} EndlessFollows(d: Desc, n: nat)
    requires AtStart(d) && (Regular(d) || CountedStrides(d))
    ensures Regular(d) ==> Address(Endless(d), n) == Unwrapped(d, n)
    ensures CountedStrides(d) ==> Address(Endless(d), n) == d.base + Place(d, n)
  {
    hide Unwrapped, Place, Iterate;
    if CountedStrides(d) {
      CountedFollows(Endless(d), n);
      PlaceEndless(d, n);
    } else {
      EndlessExpected(Endless(d), n);
      ExpectedAddress(Endless(d), n);
      PlaceEndless(d, n);
    }
  }

  lemma PlaceEndless(d: Desc, n: nat)
    requires d.strides <= 1
    ensures Place(Endless(d), n) == Place(d, n)
    ensures Regular(d) ==> Unwrapped(Endless(d), n) == Unwrapped(d, n)
  {
  }

  lemma {:induction false} EndlessExpected(d: Desc, n: nat)
    requires Regular(d) && AtStart(d) && d.range == 0
    ensures Iterate(d, n) == Expected(d, n)
  {
    hide Expected, Advance;
    if n == 0 {
      ExpectedStart(d);
    } else {
      EndlessExpected(d, n - 1);
      AdvanceExpected(d, n - 1);
      ExpectedAddress(d, n);
    }
  }

  // ------------------------------------------------------------ address windows

  /** The descriptor stays in its window. */
  predicate Inside(d: Desc) {
    d.range > 0 && d.base <= d.nextAddress < d.base + d.range && d.base <= d.strideStart
  }

  lemma AdvanceStaysAbove(d: Desc)
    requires d.base <= d.nextAddress && d.base <= d.strideStart
    ensures var e := Advance(d);
            e.base == d.base && e.range == d.range && d.base <= e.nextAddress && d.base <= e.strideStart
  {
    MulMono(0, d.strides, d.increment);
    MulMono(0, d.strideCount + 1, d.strideInc);
  }

  lemma {:induction false} StaysInside(d: Desc, n: nat)
    requires Inside(d)
    ensures Inside(Iterate(d, n)) && Iterate(d, n).base == d.base && Iterate(d, n).range == d.range
    ensures d.base <= Address(d, n) < d.base + d.range
  {
    hide Advance;
    if n > 0 {
      StaysInside(d, n - 1);
      AdvanceStaysAbove(Iterate(d, n - 1));
    }
  }

  /** Descriptors with windows one after the other never hand out the same address. */
  lemma DisjointWindows(d: Desc, e: Desc, m: nat, n: nat)
    requires Inside(d) && Inside(e) && d.base + d.range <= e.base
    ensures Address(d, m) < Address(e, n)
  {
    hide Advance, Wrap, Iterate;
    StaysInside(d, m);
    StaysInside(e, n);
  }

  datatype Direction = ANY | READ | WRITE

  /** A node of a stream; it is reconfigured if it is a master of the wanted direction. */
  datatype Node = Node(master: bool, direction: Direction, toSend: nat)

  predicate Selected(node: Node, direction: Direction) {
    node.master && (direction == ANY || node.direction == direction)
  }

  /** The nodes of a stream next to their descriptors. */
  predicate Ready(nodes: seq<Node>, ds: seq<Desc>) {
    |nodes| == |ds| && forall i :: 0 <= i < |nodes| ==> nodes[i].toSend > 0 ==> Computable(ds[i])
  }

  /** The range a node asks for. */
  function Wanted(nodes: seq<Node>, ds: seq<Desc>, direction: Direction, i: nat): nat
    requires Ready(nodes, ds) && i < |nodes|
  {
    if Selected(nodes[i], direction) then AppliedRange(ds[i], nodes[i].toSend, false) else 0
  }

  /** Size of the windows of the first k nodes, from the descriptors as they were. */
  function Offset(nodes: seq<Node>, ds: seq<Desc>, direction: Direction, k: nat): nat
    requires Ready(nodes, ds) && k <= |nodes|
  {
    if k == 0 then 0 else Offset(nodes, ds, direction, k - 1) + Wanted(nodes, ds, direction, k - 1)
  }

  lemma {:induction false} OffsetMonotone(nodes: seq<Node>, ds: seq<Desc>, direction: Direction, i: nat, j: nat)
    requires Ready(nodes, ds) && i <= j <= |nodes|
    ensures Offset(nodes, ds, direction, i) <= Offset(nodes, ds, direction, j)
  {
    hide Wanted, Ready;
    if i < j { OffsetMonotone(nodes, ds, direction, i, j - 1); }
  }

  /** What a node is given: the window that starts where the previous ones end. */
  function Assigned(nodes: seq<Node>, ds: seq<Desc>, direction: Direction, base: nat, i: nat): Desc
    requires Ready(nodes, ds) && i < |nodes|
  {
    if Selected(nodes[i], direction) then
      AfterReconfigure(ds[i], base + Offset(nodes, ds, direction, i), Wanted(nodes, ds, direction, i))
    else ds[i]
  }

  /** Only masters are given a window, and of these only those of the direction, if there is
      one; the others keep what they have and take no space. */
  lemma OthersKeepAddresses(nodes: seq<Node>, ds: seq<Desc>, direction: Direction, base: nat, i: nat)
    requires Ready(nodes, ds) && i < |nodes|
    ensures !nodes[i].master || (direction != ANY && nodes[i].direction != direction) ==>
              Assigned(nodes, ds, direction, base, i) == ds[i]
              && Offset(nodes, ds, direction, i + 1) == Offset(nodes, ds, direction, i)
    ensures nodes[i].master && (direction == ANY || nodes[i].direction == direction) ==>
              var e := Assigned(nodes, ds, direction, base, i);
              && e.base == e.nextAddress == base + Offset(nodes, ds, direction, i)
              && e.base + e.range == base + Offset(nodes, ds, direction, i + 1)
  {
    hide AppliedRange, Computable;
  }

  /** Unlimited masters without a range cannot be given a window. */
  predicate Limited(nodes: seq<Node>, ds: seq<Desc>, direction: Direction, i: nat)
    requires i < |nodes| == |ds|
  {
    Selected(nodes[i], direction) ==> nodes[i].toSend > 0 || ds[i].range > 0
  }

  ghost predicate States(descs: seq<PacketDesc>, ds: seq<Desc>)
    reads descs
  {
    |descs| == |ds| && forall i :: 0 <= i < |descs| ==> descs[i].State() == ds[i]
  }

  /** The descriptors after the first k nodes. */
  function Reconfigured(nodes: seq<Node>, ds: seq<Desc>, direction: Direction, base: nat, k: nat): (r: seq<Desc>)
    requires Ready(nodes, ds) && k <= |nodes|
    ensures |r| == |ds| && forall i :: k <= i < |ds| ==> r[i] == ds[i]
    ensures forall i :: 0 <= i < k ==> r[i] == Assigned(nodes, ds, direction, base, i)
  {
    if k == 0 then ds
    else Reconfigured(nodes, ds, direction, base, k - 1)[k - 1 := Assigned(nodes, ds, direction, base, k - 1)]
  }

  /** One node is given its window; false if it has neither limit nor range. */
  method Assign(desc: PacketDesc, toSend: nat, base: nat) returns (ok: bool, window: nat)
    requires toSend > 0 ==> Computable(desc.State())
    modifies desc
    ensures ok == (toSend > 0 || old(desc.State()).range > 0)
    ensures window == AppliedRange(old(desc.State()), toSend, false)
    ensures ok ==> desc.State() == AfterReconfigure(old(desc.State()), base, window)
  {
    hide AppliedRange, Computable;
    ok, window := desc.AutoRange(toSend, false);
    if ok {
      desc.AddressReconfigure(base, window);
    }
  }

  /** One selected node of the stream, after those before it. */
  method ReconfigureNode(descs: seq<PacketDesc>, nodes: seq<Node>, ghost ds: seq<Desc>, ghost base: nat,
                         ghost direction: Direction, i: nat, currentBase: nat)
    returns (fine: bool, newRange: nat)
    requires forall i, j :: 0 <= i < j < |descs| ==> descs[i] != descs[j]
    requires Ready(nodes, ds) && i < |nodes| && Selected(nodes[i], direction)
    requires States(descs, Reconfigured(nodes, ds, direction, base, i))
    requires currentBase == base + Offset(nodes, ds, direction, i)
    modifies descs
    ensures fine == Limited(nodes, ds, direction, i)
    ensures newRange == Wanted(nodes, ds, direction, i)
    ensures fine ==> States(descs, Reconfigured(nodes, ds, direction, base, i + 1))
  {
    hide Offset, Wanted, AppliedRange, AfterReconfigure, Computable, Assigned, Reconfigured;
    OffsetStep(nodes, ds, direction, base, i);
    fine, newRange := Assign(descs[i], nodes[i].toSend, currentBase);
  }

  /** Reconfigures the selected masters of a stream one after the other.  `ok` is false
      where the program stops with an error: exactly if a master has neither a limit nor
      a range, or the windows together exceed the range. */
  method AddressStreamReconfigure(descs: seq<PacketDesc>, nodes: seq<Node>, ghost ds: seq<Desc>, base: nat,
                                  range: nat, direction: Direction)
    returns (ok: bool, currentRange: nat)
    requires forall i, j :: 0 <= i < j < |descs| ==> descs[i] != descs[j]
    requires States(descs, ds) && Ready(nodes, ds)
    modifies descs
    ensures ok <==> (forall i :: 0 <= i < |nodes| ==> Limited(nodes, ds, direction, i))
                    && Offset(nodes, ds, direction, |nodes|) <= range
    ensures ok ==> currentRange == Offset(nodes, ds, direction, |nodes|)
    ensures ok ==> States(descs, Reconfigured(nodes, ds, direction, base, |nodes|))
  {
    hide Offset, Wanted, AppliedRange, AfterReconfigure, Computable, Assigned, Reconfigured, States;
    ok, currentRange := true, 0;
    var currentBase := base;
    var i := 0;
    OffsetStep(nodes, ds, direction, base, 0);
    while i < |nodes|
      invariant i <= |nodes| && ok
      invariant currentRange == Offset(nodes, ds, direction, i)
      invariant currentBase == base + currentRange
      invariant currentRange <= range
      invariant forall k :: 0 <= k < i ==> Limited(nodes, ds, direction, k)
      invariant States(descs, Reconfigured(nodes, ds, direction, base, i))
    {
      OffsetStep(nodes, ds, direction, base, i);
      OffsetMonotone(nodes, ds, direction, i + 1, |nodes|);
      if Selected(nodes[i], direction) {
        var fine, newRange := ReconfigureNode(descs, nodes, ds, base, direction, i, currentBase);
        if !fine {
          return false, currentRange;
        }
        currentBase := currentBase + newRange;
        currentRange := currentRange + newRange;
        if range < currentRange {
          return false, currentRange;
        }
      } else {
        ghost var rs := Reconfigured(nodes, ds, direction, base, i);
        assert rs[i := ds[i]] == rs;
      }
      i := i + 1;
    }
  }

  /** What node i adds to the windows before it. */
  lemma OffsetStep(nodes: seq<Node>, ds: seq<Desc>, direction: Direction, base: nat, i: nat)
    requires Ready(nodes, ds)
    ensures Offset(nodes, ds, direction, 0) == 0 && Reconfigured(nodes, ds, direction, base, 0) == ds
    ensures i < |nodes| ==>
              && Offset(nodes, ds, direction, i + 1) == Offset(nodes, ds, direction, i) + Wanted(nodes, ds, direction, i)
              && Reconfigured(nodes, ds, direction, base, i + 1)
                 == Reconfigured(nodes, ds, direction, base, i)[i := Assigned(nodes, ds, direction, base, i)]
              && (Selected(nodes[i], direction) ==>
                    var window := AppliedRange(ds[i], nodes[i].toSend, false);
                    && Wanted(nodes, ds, direction, i) == window
                    && Assigned(nodes, ds, direction, base, i)
                       == AfterReconfigure(ds[i], base + Offset(nodes, ds, direction, i), window))
              && (!Selected(nodes[i], direction) ==>
                    Wanted(nodes, ds, direction, i) == 0 && Assigned(nodes, ds, direction, base, i) == ds[i])
  {
    hide AppliedRange, Computable, AfterReconfigure;
  }

  /** After a reconfiguration no two selected masters with windows of positive size ever
      hand out the same address, and every address lies in the assigned space. */
  lemma StreamWindowsDisjoint(nodes: seq<Node>, ds: seq<Desc>, direction: Direction, base: nat, i: nat, j: nat,
                              d: Desc, e: Desc, m: nat, n: nat)
    requires Ready(nodes, ds) && i < j < |nodes|
    requires Selected(nodes[i], direction) && Selected(nodes[j], direction)
    requires d == Assigned(nodes, ds, direction, base, i) && e == Assigned(nodes, ds, direction, base, j)
    requires d.range > 0 && e.range > 0
    ensures base <= Address(d, m) < Address(e, n) < base + Offset(nodes, ds, direction, |nodes|)
  {
    hide Address, Wanted, Offset, Computable;
    OffsetMonotone(nodes, ds, direction, i + 1, j);
    OffsetMonotone(nodes, ds, direction, j + 1, |nodes|);
    OffsetStep(nodes, ds, direction, base, i);
    OffsetStep(nodes, ds, direction, base, j);
    DisjointWindows(d, e, m, n);
    StaysInside(d, m);
    StaysInside(e, n);
  }
}
