/** The retry promise of the FIFO: a denied request is told when to try again.
    The time it is told is sufficient, and early by less than one period and one time
    unit, for every denied request of every run, exactly when the rounding of the
    configuration is exact. */
module FifoRetry {
  import opened Basics
  import opened FifoRate
  import opened FifoModel

  // ------------------------------------------------------------- the promise

  /** A request that only asks; it is denied, so nothing is reserved for it. */
  datatype Poll = Poll(t: nat, data: nat)

  /** Every poll is denied, in order, from state f on. */
  predicate AllDenied(f: FifoState, polls: seq<Poll>)
    requires f.period > 0 && f.firstActivationTime <= f.time
    decreases |polls|, 0
  {
    polls == [] ||
    (var last := polls[|polls|-1];
     && AllDenied(f, polls[..|polls|-1])
     && var g := AfterPolls(f, polls[..|polls|-1]);
     && g.time <= last.t
     && !AfterSend(g, last.t, last.data).ok)
  }

  function AfterPolls(f: FifoState, polls: seq<Poll>): (g: FifoState)
    requires f.period > 0 && f.firstActivationTime <= f.time
    requires AllDenied(f, polls)
    ensures g.period > 0 && g.firstActivationTime <= g.time
    decreases |polls|, 1
  {
    if polls == [] then f
    else
      var last := polls[|polls|-1];
      AfterSend(AfterPolls(f, polls[..|polls|-1]), last.t, last.data).f
  }

  /** A run of a FIFO up to a denied request for `data` bytes at time t, denied polls
      after it, and a time s at which the same request is made again. */
  datatype Scenario = Scenario(
    kind: Kind, startupLevel: nat, maxLevel: nat, ops: seq<Op>, states: seq<FifoState>,
    t: nat, data: nat, polls: seq<Poll>, s: nat)

  ghost predicate Valid(rate: nat, period: nat, c: Scenario) {
    && period > 0 && c.maxLevel > 0 && rate <= c.maxLevel && c.startupLevel <= c.maxLevel
    && Steps(c.ops, c.states)
    && c.states[0] == Fresh(c.kind, rate, period, c.startupLevel, c.maxLevel)
    && var f := c.states[|c.ops|];
    && f.period > 0 && f.firstActivationTime <= f.time <= c.t
    && c.data > 0
    && var first := AfterSend(f, c.t, c.data);
    && !first.ok
    && first.f.period > 0 && first.f.firstActivationTime <= first.f.time
    && AllDenied(first.f, c.polls)
    && AfterPolls(first.f, c.polls).time <= c.s
  }

  /** What the answer to the denied request promises about the request at time s. */
  ghost predicate Kept(rate: nat, period: nat, c: Scenario)
    requires Valid(rate, period, c)
  {
    var first := AfterSend(c.states[|c.ops|], c.t, c.data);
    var again := AfterSend(AfterPolls(first.f, c.polls), c.s, c.data);
    if c.data + first.f.inFlight > c.maxLevel then
      first.next == 0 && !again.ok
    else
      && first.next > c.t
      && (c.s >= first.next ==> again.ok)
      && (c.s + period + 1 <= first.next ==> !again.ok)
  }

  ghost predicate RetryPromise(rate: nat, period: nat) {
    forall c: Scenario | Valid(rate, period, c) :: Kept(rate, period, c)
  }

  // -------------------------------------------------- consumption on the grid

  /** The carry is the exact fraction of a byte earned since activation. */
  predicate OnGrid(f: FifoState)
    requires f.period > 0 && f.firstActivationTime <= f.time
  {
    f.carry * f.period == (((f.time - f.firstActivationTime) * f.rate) % f.period) * PRECISION
  }

  /** A FIFO that has activated itself, or has not been activated yet. */
  ghost predicate SelfActivated(f: FifoState) {
    && Consistent(f) && !f.linked && f.maxLevel > 0 && f.rate > 0
    && if f.active then f.firstActivation && OnGrid(f) else !f.firstActivation && f.carry == 0
  }

  /** Whole bytes moved between activation and now. */
  function Elapsed(f: FifoState): nat
    requires f.period > 0 && f.firstActivationTime <= f.time
  {
    WholeBytes(f.rate, f.period, f.time - f.firstActivationTime)
  }

  lemma GridAdvance(rate: nat, period: nat, carry: nat, e: nat, dt: nat)
    requires period > 0 && Exact(rate, period)
    requires carry * period == ((e * rate) % period) * PRECISION
    ensures var u := Advance(rate, period, carry, dt);
            && u.bytes == WholeBytes(rate, period, e + dt) - WholeBytes(rate, period, e)
            && u.carry * period == (((e + dt) * rate) % period) * PRECISION
  {
    var u := Advance(rate, period, carry, dt);
    AdvanceError(rate, period, carry, dt);
    GridSum(rate, period, carry, e, dt, WholeBytes(rate, period, e), (e * rate) % period, u.bytes, u.carry);
    ExactFloor((e + dt) * rate, period, WholeBytes(rate, period, e) + u.bytes, u.carry);
  }

  lemma GridSum(rate: nat, period: nat, carry: nat, e: nat, dt: nat, w: nat, m: nat, bytes: nat, next: nat)
    requires period > 0
    requires e * rate == period * w + m && carry * period == m * PRECISION
    requires period * (PRECISION * bytes + next - carry) == PRECISION * rate * dt
    ensures period * (PRECISION * (w + bytes) + next) == PRECISION * ((e + dt) * rate)
  {
    assert period * (PRECISION * (w + bytes) + next)
        == period * (PRECISION * bytes + next - carry) + PRECISION * (period * w) + carry * period;
    assert PRECISION * ((e + dt) * rate) == PRECISION * (e * rate) + PRECISION * rate * dt;
  }

  /** One update of an active FIFO on the grid moves the bytes of its interval. */
  lemma UpdateOnGrid(f: FifoState, t: nat)
    requires SelfActivated(f) && f.active && f.time <= t && Exact(f.rate, f.period)
    ensures var g := AfterUpdate(f, t).f;
            && SelfActivated(g) && g.active && SameConfiguration(f, g)
            && g.firstActivationTime == f.firstActivationTime
            && g.inFlight == f.inFlight
            && Elapsed(g) >= Elapsed(f)
    ensures var tick := Advance(f.rate, f.period, f.carry, t - f.time);
            tick.bytes == Elapsed(AfterUpdate(f, t).f) - Elapsed(f)
  {
    var e := f.time - f.firstActivationTime;
    assert e + (t - f.time) == t - f.firstActivationTime;
    GridAdvance(f.rate, f.period, f.carry, e, t - f.time);
    UpdateKeepsConsistent(f, t);
    hide WholeBytes, CarryUnits, Exact;
  }

  lemma FirstUpdate(f: FifoState, t: nat)
    requires SelfActivated(f) && !f.active && f.time <= t
    ensures var g := AfterUpdate(f, t).f;
            SelfActivated(g) && g.active && SameConfiguration(f, g) && g.inFlight == f.inFlight
  {
    UpdateKeepsConsistent(f, t);
    assert (0 * f.rate) % f.period == 0;
  }

  lemma UpdateKeepsSelfActivated(f: FifoState, t: nat)
    requires SelfActivated(f) && f.time <= t && Exact(f.rate, f.period)
    ensures SelfActivated(AfterUpdate(f, t).f) && AfterUpdate(f, t).f.active
    ensures SameConfiguration(f, AfterUpdate(f, t).f)
  {
    if f.active { UpdateOnGrid(f, t); } else { FirstUpdate(f, t); }
  }

  /** The deficit of a request falls by the bytes moved, down to the value it has in an
      empty (READ) or full (WRITE) FIFO. */
  lemma DeficitFalls(f: FifoState, t: nat, data: nat)
    requires SelfActivated(f) && f.active && f.time <= t && Exact(f.rate, f.period)
    ensures var g := AfterUpdate(f, t).f;
            Deficit(g, data) == Max(Deficit(f, data) - (Elapsed(g) - Elapsed(f)), Floor(f, data))
  {
    UpdateOnGrid(f, t);
    hide WholeBytes, CarryUnits, Exact;
  }

  function Floor(f: FifoState, data: nat): int { data + f.inFlight - f.maxLevel }

  lemma {:induction false} PollsOnGrid(f: FifoState, polls: seq<Poll>, data: nat)
    requires SelfActivated(f) && f.active && Exact(f.rate, f.period)
    requires AllDenied(f, polls)
    ensures var g := AfterPolls(f, polls);
            && SelfActivated(g) && g.active && SameConfiguration(f, g)
            && g.firstActivationTime == f.firstActivationTime && g.inFlight == f.inFlight
            && g.time >= f.time && Elapsed(g) >= Elapsed(f)
            && Deficit(g, data) == Max(Deficit(f, data) - (Elapsed(g) - Elapsed(f)), Floor(f, data))
  {
    hide WholeBytes, CarryUnits, Exact, Advance, AfterUpdate, Elapsed, OnGrid, Fits, NextTransmissionTime, Sum;
    if polls != [] {
      var init, last := polls[..|polls|-1], polls[|polls|-1];
      PollsOnGrid(f, init, data);
      var g := AfterPolls(f, init);
      UpdateOnGrid(g, last.t);
      DeficitFalls(g, last.t, data);
      assert AfterPolls(f, polls) == AfterUpdate(g, last.t).f;
    }
  }

  // --------------------------------------------------------- prediction arithmetic

  /** The forecast is less than one period's worth, so the numerator of the prediction
      is never negative. */
  lemma ForecastBelowRate(f: FifoState)
    requires f.period > 0 && f.rate > 0 && f.firstActivationTime <= f.time
    ensures 0 <= Base(f) - f.time < f.period
    ensures Forecast(f) < f.rate
  {
    var e, p := f.time - f.firstActivationTime, f.period;
    CeilBounds(e, p);
    var gap := Base(f) - f.time;
    if gap > 0 {
      FloorBounds(gap * f.rate, p);
      GapProduct(gap, f.rate, p, Forecast(f));
    }
  }

  lemma GapProduct(gap: nat, rate: nat, p: nat, q: nat)
    requires 0 <= gap < p && rate > 0 && p * q <= gap * rate
    ensures q < rate
  {
    assert gap * rate < p * rate;
    assert q >= rate ==> p * q >= p * rate;
  }

  lemma CeilBounds(e: nat, p: nat)
    requires p > 0
    ensures 0 <= ((e + p - 1) / p) * p - e < p
  {
    FloorBounds(e + p - 1, p);
    var n := (e + p - 1) / p;
    assert n * p == p * n;
  }

  lemma FloorBounds(x: int, p: int)
    requires p > 0
    ensures p * (x / p) <= x < p * (x / p) + p
  {
  }

  /** Up to the base time lie the forecast bytes, or one more. */
  lemma ElapsedAtBase(rate: nat, p: nat, e: nat, n: nat, forecast: nat, w: nat)
    requires p > 0 && n * p >= e
    requires p * w <= e * rate < p * w + p
    requires p * forecast <= (n * p - e) * rate < p * forecast + p
    ensures n * rate - forecast - 1 <= w <= n * rate - forecast
  {
    assert (n * p - e) * rate == p * (n * rate) - e * rate;
    var d := n * rate - forecast - w;
    assert p * d == p * (n * rate) - p * forecast - p * w;
    assert d >= 2 ==> p * d >= p * 2;
    assert d <= -1 ==> p * d <= p * (-1);
  }

  /** Bytes moved between e and x time units after activation, against a deficit d that
      the prediction answers with n + k periods. */
  lemma PredictionArithmetic(rate: nat, p: nat, e: nat, n: nat, forecast: nat, d: int, k: int, x: nat)
    requires p > 0 && rate > 0 && n * p >= e && x >= e
    requires p * forecast <= (n * p - e) * rate < p * forecast + p
    requires rate * k <= d - forecast + rate - 1 < rate * k + rate
    ensures x >= (n + k) * p ==> WholeBytes(rate, p, x) - WholeBytes(rate, p, e) >= d
    ensures x + p + 1 <= (n + k) * p ==> WholeBytes(rate, p, x) - WholeBytes(rate, p, e) < d
  {
    var wx, we := WholeBytes(rate, p, x), WholeBytes(rate, p, e);
    FloorBounds(e * rate, p);
    FloorBounds(x * rate, p);
    ElapsedAtBase(rate, p, e, n, forecast, we);
    assert (n + k) * rate == n * rate + rate * k;
    if x >= (n + k) * p {
      AtLeast(rate, p, x, n + k, wx);
    }
    if x + p + 1 <= (n + k) * p {
      Below(rate, p, x, n + k, wx);
    }
  }

  lemma AtLeast(rate: nat, p: nat, x: nat, m: int, w: nat)
    requires p > 0 && x >= m * p && x * rate < p * w + p
    ensures w >= m * rate
  {
    MulMono(m * p, x, rate);
    assert (m * p) * rate == (m * rate) * p;
    if w + 1 <= m * rate {
      MulMono(w + 1, m * rate, p);
    }
  }

  lemma Below(rate: nat, p: nat, x: nat, m: int, w: nat)
    requires p > 0 && rate > 0 && x + p + 1 <= m * p && p * w <= x * rate
    ensures w < m * rate - rate
  {
    var y := m - 1;
    assert y * p == m * p - p && y * rate == m * rate - rate;
    BelowProduct(rate, p, x, y);
    if w >= y * rate {
      MulMono(y * rate, w, p);
    }
  }

  lemma BelowProduct(rate: nat, p: nat, x: nat, y: int)
    requires rate > 0 && x + 1 <= y * p
    ensures x * rate < p * (y * rate)
  {
    assert (x + 1) * rate <= (y * p) * rate;
    assert (x + 1) * rate == x * rate + rate;
    assert (y * p) * rate == p * (y * rate);
  }

  /** The predicted time against a request that is denied now and can be served. */
  lemma PredictionMeaning(f: FifoState, data: nat, x: nat)
    requires f.period > 0 && f.rate > 0 && f.firstActivationTime <= f.time <= x
    requires Deficit(f, data) > 0 && Floor(f, data) <= 0
    ensures var nt := NextTransmissionTime(f, data);
            var moved := WholeBytes(f.rate, f.period, x - f.firstActivationTime) - Elapsed(f);
            && nt > f.time
            && (x >= nt ==> moved >= Deficit(f, data))
            && (x + f.period + 1 <= nt ==> moved < Deficit(f, data))
  {
    hide WholeBytes, Forecast, Base;
    var e, p, r := f.time - f.firstActivationTime, f.period, f.rate;
    var fc, d := Forecast(f), Deficit(f, data);
    var n := PeriodsAtBase(f);
    var k := (d - fc + r - 1) / r;
    ForecastBelowRate(f);
    FloorBounds(d - fc + r - 1, r);
    PredictionArithmetic(r, p, e, n, fc, d, k, x - f.firstActivationTime);
    Distribute(n, k, p);
    Quotient(d - fc + r - 1, r, k);
    assert k * p >= 0 && (k >= 1 ==> k * p >= p) by { Quotient2(k, p); }
  }

  lemma Distribute(n: int, k: int, p: int)
    ensures (n + k) * p == n * p + k * p
  {
  }

  lemma Quotient2(k: int, p: nat)
    requires k >= 0
    ensures k * p >= 0 && (k >= 1 ==> k * p >= p)
  {
  }

  /** The number of whole periods that reach the base time, and what the forecast is
      worth on that scale. */
  lemma PeriodsAtBase(f: FifoState) returns (n: nat)
    requires f.period > 0 && f.rate > 0 && f.firstActivationTime <= f.time
    ensures var e, p, r := f.time - f.firstActivationTime, f.period, f.rate;
            && Base(f) == f.firstActivationTime + n * p && n * p >= e
            && p * Forecast(f) <= (n * p - e) * r < p * Forecast(f) + p
            && (Base(f) == f.time ==> Forecast(f) == 0)
  {
    var e, p, r := f.time - f.firstActivationTime, f.period, f.rate;
    n := (e + p - 1) / p;
    CeilBounds(e, p);
    FloorBounds((n * p - e) * r, p);
    assert Base(f) - f.time == n * p - e;
    assert 0 * r == 0;
  }

  lemma Quotient(x: int, r: int, k: int)
    requires r > 0 && r * k <= x < r * k + r && x >= 0
    ensures k >= 0 && (x >= r ==> k >= 1)
  {
    assert k <= -1 ==> r * k <= -r;
    assert k <= 0 ==> r * k <= 0;
  }

  // ------------------------------------------------------- the promise is kept

  lemma {:induction false} RunSelfActivated(ops: seq<Op>, states: seq<FifoState>, i: nat)
    requires Steps(ops, states) && i < |states|
    requires SelfActivated(states[0]) && Exact(states[0].rate, states[0].period)
    ensures SelfActivated(states[i]) && SameConfiguration(states[0], states[i])
  {
    hide WholeBytes, CarryUnits, Exact, Advance, AfterUpdate, OnGrid, Consistent;
    if i > 0 {
      RunSelfActivated(ops, states, i - 1);
      assert Step(states[i-1], ops[i-1], states[i]);
      StepSelfActivated(states[i-1], ops[i-1], states[i]);
    }
  }

  lemma FreshSelfActivated(kind: Kind, rate: nat, period: nat, startupLevel: nat, maxLevel: nat)
    requires rate > 0 && period > 0 && startupLevel <= maxLevel && maxLevel > 0
    ensures SelfActivated(Fresh(kind, rate, period, startupLevel, maxLevel))
  {
  }

  lemma StepSelfActivated(f: FifoState, op: Op, g: FifoState)
    requires SelfActivated(f) && Exact(f.rate, f.period) && Step(f, op, g)
    ensures SelfActivated(g) && SameConfiguration(f, g)
  {
    hide AfterUpdate, WholeBytes, CarryUnits, Exact, Advance;
    match op
    case SendOp(t, data) =>
      UpdateKeepsSelfActivated(f, t);
      SumAppend(f.ot, data);
    case ReceiveOp(t, data) =>
      if f.ot == [] {
        UpdateKeepsSelfActivated(f, t);
      } else {
        ArrivedKeepsConsistent(f, data);
        UpdateKeepsSelfActivated(Arrived(f, data), t);
      }
  }

  /** After denied polls a request is granted exactly when the bytes moved since then
      cover its deficit, and it can be served at all. */
  lemma PollsThenRequest(f: FifoState, polls: seq<Poll>, s: nat, data: nat)
    requires SelfActivated(f) && f.active && Exact(f.rate, f.period) && data > 0
    requires AllDenied(f, polls) && AfterPolls(f, polls).time <= s && Deficit(f, data) > 0
    ensures f.time <= s
    ensures var moved := WholeBytes(f.rate, f.period, s - f.firstActivationTime) - Elapsed(f);
            AfterSend(AfterPolls(f, polls), s, data).ok
            == (Floor(f, data) <= 0 && moved >= Deficit(f, data))
  {
    hide AfterUpdate, WholeBytes, CarryUnits, Exact, Advance, OnGrid;
    PollsOnGrid(f, polls, data);
    var g := AfterPolls(f, polls);
    UpdateOnGrid(g, s);
    DeficitFalls(g, s, data);
  }

  lemma FirstDenied(f: FifoState, t: nat, data: nat)
    requires SelfActivated(f) && Exact(f.rate, f.period) && f.time <= t && data > 0
    requires !AfterSend(f, t, data).ok
    ensures var g := AfterSend(f, t, data).f;
            && SelfActivated(g) && g.active && SameConfiguration(f, g) && g.time == t
            && Deficit(g, data) > 0
            && AfterSend(f, t, data).next == NextTransmissionTime(g, data)
  {
    hide AfterUpdate, WholeBytes, CarryUnits, Exact, Advance, OnGrid, Consistent, NextTransmissionTime;
    UpdateKeepsSelfActivated(f, t);
  }

  lemma ExactKeepsPromise(rate: nat, period: nat, c: Scenario)
    requires rate > 0 && Valid(rate, period, c) && Exact(rate, period)
    ensures Kept(rate, period, c)
  {
    hide AfterUpdate, WholeBytes, CarryUnits, Exact, Advance, Forecast, Base, OnGrid, Consistent,
         AfterSend, AllDenied, AfterPolls;
    var f := c.states[|c.ops|];
    FreshSelfActivated(c.kind, rate, period, c.startupLevel, c.maxLevel);
    RunSelfActivated(c.ops, c.states, |c.ops|);
    FirstDenied(f, c.t, c.data);
    var first := AfterSend(f, c.t, c.data);
    PollsThenRequest(first.f, c.polls, c.s, c.data);
    if Floor(first.f, c.data) <= 0 {
      PredictionMeaning(first.f, c.data, c.s);
    }
  }

  // ---------------------------------------------------------- single operations

  lemma ActivatedBySend(f: FifoState, t: nat, data: nat)
    requires SelfActivated(f) && Exact(f.rate, f.period) && f.time <= t && data > 0
    ensures var g := AfterSend(f, t, data).f; SelfActivated(g) && SameConfiguration(f, g)
  {
    hide AfterSend, OnGrid, Exact;
    StepSelfActivated(f, SendOp(t, data), AfterSend(f, t, data).f);
  }

  lemma ActivatedByReceive(f: FifoState, t: nat, data: nat)
    requires SelfActivated(f) && Exact(f.rate, f.period) && f.time <= t && data <= Sum(f.ot)
    ensures var g := AfterReceive(f, t, data).f; SelfActivated(g) && SameConfiguration(f, g)
  {
    hide AfterReceive, OnGrid, Exact;
    StepSelfActivated(f, ReceiveOp(t, data), AfterReceive(f, t, data).f);
  }

  lemma ActivatedAfterReset(f: FifoState)
    requires SelfActivated(f) && f.startupLevel <= f.maxLevel
    ensures SelfActivated(AfterReset(f)) && SameConfiguration(f, AfterReset(f))
  {
  }

  lemma NothingPredicted(f: FifoState, data: nat)
    requires f.period > 0 && f.firstActivationTime <= f.time && f.maxLevel > 0 && Floor(f, data) > 0
    ensures NextTransmissionTime(f, data) == 0
  {
  }

  // ------------------------------------------- the promise broken by rounding

  /** A READ FIFO that starts full with m periods' worth of data, as its first request
      finds it: just activated, at time 0. */
  function Full(rate: nat, period: nat, m: nat): FifoState {
    Fresh(READ, rate, period, m * rate, m * rate).(active := true, firstActivation := true)
  }

  /** One poll every time unit, each for more than the FIFO can ever hold. */
  function UnitPolls(n: nat, data: nat): seq<Poll> {
    if n == 0 then [] else UnitPolls(n - 1, data) + [Poll(n, data)]
  }

  /** Unit polls drain the FIFO as unit updates do. */
  lemma {:induction false} UnitPollsDrain(rate: nat, period: nat, m: nat, n: nat)
    requires rate > 0 && period > 0 && m > 0
    ensures var f := Full(rate, period, m);
            var polls := UnitPolls(n, m * rate + 1);
            AllDenied(f, polls) && Drained(rate, period, m, n, AfterPolls(f, polls))
  {
    var f := Full(rate, period, m);
    MulMono(1, m, rate);
    if n == 0 {
      assert Ones(0) == [];
    } else {
      hide Drained, Run, AfterSend, AfterUpdate, AllDenied, AfterPolls;
      UnitPollsDrain(rate, period, m, n - 1);
      var init := UnitPolls(n - 1, m * rate + 1);
      var g := AfterPolls(f, init);
      DrainedFields(rate, period, m, n - 1, g);
      UnitDrain(rate, period, m, n, g);
      OneMorePoll(f, init, Poll(n, m * rate + 1));
    }
  }

  lemma OneMorePoll(f: FifoState, polls: seq<Poll>, p: Poll)
    requires f.period > 0 && f.firstActivationTime <= f.time && AllDenied(f, polls)
    requires var g := AfterPolls(f, polls); g.time <= p.t && !AfterSend(g, p.t, p.data).ok
    ensures AllDenied(f, polls + [p])
    ensures AfterPolls(f, polls + [p]) == AfterUpdate(AfterPolls(f, polls), p.t).f
  {
    hide AfterSend, AfterUpdate;
    var more := polls + [p];
    assert more[..|more|-1] == polls && more[|more|-1] == p;
    DeniedUpdates(AfterPolls(f, polls), p.t, p.data);
  }

  lemma DrainedFields(rate: nat, period: nat, m: nat, n: nat, g: FifoState)
    requires period > 0 && Drained(rate, period, m, n, g)
    ensures g.time == n && g.period == period && g.firstActivationTime == 0
  {
  }

  /** A denied send only updates. */
  lemma DeniedUpdates(f: FifoState, t: nat, data: nat)
    requires f.period > 0 && f.firstActivationTime <= f.time <= t && !AfterSend(f, t, data).ok
    ensures AfterSend(f, t, data).f == AfterUpdate(f, t).f
  {
  }

  /** The full FIFO after n unit updates. */
  predicate Drained(rate: nat, period: nat, m: nat, n: nat, g: FifoState)
    requires period > 0
  {
    var r := Run(rate, period, 0, Ones(n));
    g == Full(rate, period, m).(time := n, carry := r.carry,
                                level := if r.bytes < m * rate then m * rate - r.bytes else 0)
  }

  lemma UnitDrain(rate: nat, period: nat, m: nat, n: nat, g: FifoState)
    requires rate > 0 && period > 0 && m * rate > 0 && n > 0
    requires Drained(rate, period, m, n - 1, g)
    ensures Drained(rate, period, m, n, AfterUpdate(g, n).f)
    ensures !AfterSend(g, n, m * rate + 1).ok
  {
    hide Advance;
    OnesStep(rate, period, n);
  }

  /** The scenario: the first request of the full FIFO, at time 0, for all of it again;
      unit polls; the same request at time s. */
  function FullScenario(rate: nat, period: nat, m: nat, s: nat): Scenario
    requires s > 0
  {
    Scenario(READ, m * rate, m * rate, [], [Fresh(READ, rate, period, m * rate, m * rate)],
             0, m * rate, UnitPolls(s - 1, m * rate + 1), s)
  }

  lemma FullScenarioOutcome(rate: nat, period: nat, m: nat, s: nat)
    requires rate > 0 && period > 0 && m > 0 && s > 0
    ensures var c := FullScenario(rate, period, m, s);
            && Valid(rate, period, c)
            && var first := AfterSend(c.states[0], 0, c.data);
            && first.next == m * period && first.f.inFlight == 0
            && AfterSend(AfterPolls(first.f, c.polls), s, c.data).ok
               == (Run(rate, period, 0, Ones(s)).bytes >= m * rate)
  {
    hide AfterSend, AfterPolls, AllDenied, Run, Drained, Full;
    var c, f := FullScenario(rate, period, m, s), Full(rate, period, m);
    FirstRequest(rate, period, m);
    FullFields(rate, period, m);
    UnitPollsDrain(rate, period, m, s - 1);
    var g := AfterPolls(f, c.polls);
    DrainedRequest(rate, period, m, s, g);
    assert rate <= m * rate by { MulMono(1, m, rate); }
    assert Steps(c.ops, c.states);
  }

  lemma FullFields(rate: nat, period: nat, m: nat)
    ensures var f := Full(rate, period, m);
            f.period == period && f.firstActivationTime <= f.time && f.inFlight == 0
  {
  }

  /** The request for the whole FIFO, once it has been polled s - 1 times. */
  lemma DrainedRequest(rate: nat, period: nat, m: nat, s: nat, g: FifoState)
    requires rate > 0 && period > 0 && m * rate > 0 && s > 0
    requires Drained(rate, period, m, s - 1, g)
    ensures g.period > 0 && g.firstActivationTime <= g.time <= s
    ensures AfterSend(g, s, m * rate).ok == (Run(rate, period, 0, Ones(s)).bytes >= m * rate)
  {
    hide Run, AfterUpdate, NextTransmissionTime;
    UnitDrain(rate, period, m, s, g);
  }

  lemma FirstRequest(rate: nat, period: nat, m: nat)
    requires rate > 0 && period > 0 && m > 0
    ensures m * rate > 0
    ensures var first := AfterSend(Fresh(READ, rate, period, m * rate, m * rate), 0, m * rate);
            first.f == Full(rate, period, m) && !first.ok && first.next == m * period
  {
    hide NextTransmissionTime;
    assert m * rate > 0;
    FullPrediction(rate, period, m);
  }

  lemma FullPrediction(rate: nat, period: nat, m: nat)
    requires rate > 0 && period > 0 && m > 0
    ensures NextTransmissionTime(Full(rate, period, m), m * rate) == m * period
  {
    var f := Full(rate, period, m);
    DivUnique(0 + period - 1, period, 0, period - 1);
    assert 0 * period == 0;
    assert Base(f) == 0 && Forecast(f) == 0;
    assert Deficit(f, m * rate) == m * rate;
    assert m * rate + rate - 1 == rate * m + (rate - 1);
    DivUnique(m * rate + rate - 1, rate, m, rate - 1);
  }

  /** With inexact rounding some denied request is told a time at which it is denied
      again, or is granted more than a period before the time it was told. */
  lemma InexactBreaksPromise(rate: nat, period: nat) returns (c: Scenario)
    requires rate > 0 && period > 0 && !Exact(rate, period)
    ensures Valid(rate, period, c) && !Kept(rate, period, c)
  {
    var k := UnitsPerTick(rate, period);
    TickBias(rate, period);
    if period * k < PRECISION * rate {
      FullScenarioOutcome(rate, period, 1, period);
      OnesRun(rate, period, period);
      SlowDrain(period, k, rate);
      c := FullScenario(rate, period, 1, period);
      assert 1 * rate == rate && 1 * period == period;
    } else {
      var m := rate * PRECISION + k + 2;
      FastTime(period, m);
      var s := m * period - period - 1;
      FullScenarioOutcome(rate, period, m, s);
      OnesRun(rate, period, s);
      FastDrain(rate, period, k, m, s);
      c := FullScenario(rate, period, m, s);
    }
  }

  lemma SlowDrain(period: nat, k: nat, rate: nat)
    requires period * k < PRECISION * rate
    ensures (period * k) / PRECISION < rate
  {
  }

  lemma FastTime(period: nat, m: nat)
    requires period > 0 && m >= 4
    ensures m * period - period - 1 > 0
  {
    assert m * period >= 4 * period;
  }

  lemma FastDrain(rate: nat, period: nat, k: nat, m: nat, s: nat)
    requires period * k > PRECISION * rate
    requires m == rate * PRECISION + k + 2 && s == m * period - period - 1
    ensures (s * k) / PRECISION >= m * rate
  {
    var a, b := period * k, PRECISION * rate;
    FastProduct(period, k, m, s);
    FastMargin(a, b, m, k);
    assert m * b == PRECISION * (m * rate);
    AtLeastQuotient(s * k, PRECISION, m * rate);
  }

  lemma FastProduct(period: nat, k: nat, m: nat, s: nat)
    requires s == m * period - period - 1
    ensures s * k == m * (period * k) - period * k - k
  {
    assert (m * period) * k == m * (period * k);
  }

  lemma FastMargin(a: nat, b: nat, m: nat, k: nat)
    requires a > b && m == b + k + 2
    ensures m * a - a - k >= m * b
  {
    assert (m - 1) * a >= (m - 1) * (b + 1);
    assert (m - 1) * (b + 1) == m * b - b + m - 1;
  }

  lemma AtLeastQuotient(x: nat, d: nat, q: nat)
    requires d > 0 && x >= d * q
    ensures x / d >= q
  {
    FloorBounds(x, d);
    var k := x / d;
    assert k + 1 <= q ==> d * (k + 1) <= d * q;
  }

  /** The retry promise of a configuration holds over all runs if and only if the
      rounding of its carry is exact: period divides rate * PRECISION. */
  lemma RetryPromiseIffExact(rate: nat, period: nat)
    requires rate > 0 && period > 0
    ensures RetryPromise(rate, period) <==> Exact(rate, period)
  {
    if Exact(rate, period) {
      forall c: Scenario | Valid(rate, period, c)
        ensures Kept(rate, period, c)
      {
        ExactKeepsPromise(rate, period, c);
      }
    } else {
      var c := InexactBreaksPromise(rate, period);
    }
  }
}
