/** The ATP FIFO: a buffer that a device drains (READ) or fills (WRITE) at a fixed
    rate while memory traffic does the opposite, with space (or data) reserved for
    transactions that are still in flight. */
module FifoModel {
  import opened Basics
  import opened FifoRate

  datatype Kind = READ | WRITE

  /** The value of a FIFO: its configuration, then what changes as it runs. */
  datatype FifoState = FifoState(
    kind: Kind, startupLevel: nat, maxLevel: nat, rate: nat, period: nat,
    time: nat, level: nat, carry: nat, ot: seq<nat>, inFlight: nat,
    firstActivation: bool, firstActivationTime: nat, linked: bool, active: bool)

  datatype Updated = Updated(f: FifoState, underrun: bool, overrun: bool)
  datatype Sent = Sent(f: FifoState, ok: bool, next: int, underrun: bool, overrun: bool)
  datatype Received = Received(f: FifoState, whole: bool, unexpected: bool, underrun: bool, overrun: bool)

  function Min(a: nat, b: nat): nat { if a <= b then a else b }

  function Sum(s: seq<nat>): nat {
    if s == [] then 0 else s[0] + Sum(s[1..])
  }

  // ------------------------------------------------------------ specification

  function AfterReset(f: FifoState): FifoState {
    f.(level := f.startupLevel, time := 0, firstActivationTime := 0, active := false,
       firstActivation := false, ot := [], inFlight := 0, carry := 0)
  }

  /** The level after the device side has moved `bytes` bytes. */
  function Shift(f: FifoState, bytes: nat): Updated {
    match f.kind
    case READ =>
      if f.level < bytes then Updated(f.(level := 0), true, false)
      else Updated(f.(level := f.level - bytes), false, false)
    case WRITE =>
      if f.level + bytes > f.maxLevel then Updated(f.(level := f.maxLevel), false, true)
      else Updated(f.(level := f.level + bytes), false, false)
  }

  /** Advances the FIFO to time t: the first update only starts the clock. */
  function AfterUpdate(f: FifoState, t: nat): (r: Updated)
    requires f.period > 0 && f.time <= t
    ensures r.f.time == t
    ensures r.f.ot == f.ot && r.f.inFlight == f.inFlight && r.f.period == f.period
    ensures f.firstActivationTime <= f.time ==> r.f.firstActivationTime <= t
  {
    if !f.active then
      var g := if f.linked && f.firstActivation then f
               else f.(active := true, firstActivation := true,
                       firstActivationTime := if f.firstActivation then f.firstActivationTime else t);
      Shift(g, 0).(f := Shift(g, 0).f.(time := t))
    else if f.rate > 0 then
      var tick := Advance(f.rate, f.period, f.carry, t - f.time);
      var u := Shift(f.(carry := tick.carry), tick.bytes);
      u.(f := u.f.(time := t))
    else
      Shift(f, 0).(f := Shift(f, 0).f.(time := t))
  }

  /** Whether the reservation for `data` more bytes fits right now. */
  predicate Fits(f: FifoState, data: nat) {
    || f.maxLevel == 0
    || match f.kind
       case READ => f.level + data + f.inFlight <= f.maxLevel
       case WRITE => f.level >= data + f.inFlight
  }

  /** First time at or after now that lies a whole number of periods after activation. */
  function Base(f: FifoState): nat
    requires f.period > 0 && f.firstActivationTime <= f.time
  {
    f.firstActivationTime + ((f.time - f.firstActivationTime + f.period - 1) / f.period) * f.period
  }

  /** Bytes the device side will have moved by then. */
  function Forecast(f: FifoState): nat
    requires f.period > 0 && f.firstActivationTime <= f.time
  {
    if Base(f) > f.time then WholeBytes(f.rate, f.period, Base(f) - f.time) else 0
  }

  /** What is missing for `data` more bytes to fit. */
  function Deficit(f: FifoState, data: nat): int {
    match f.kind
    case READ => data + f.level + f.inFlight - f.maxLevel
    case WRITE => data + f.inFlight - f.level
  }

  function NextTransmissionTime(f: FifoState, data: nat): int
    requires f.period > 0 && f.firstActivationTime <= f.time
  {
    if f.rate > 0 && (f.maxLevel == 0 || f.maxLevel - f.inFlight >= data)
    then Base(f) + ((Deficit(f, data) - Forecast(f) + f.rate - 1) / f.rate) * f.period
    else 0
  }

  function AfterSend(f: FifoState, t: nat, data: nat): Sent
    requires f.period > 0 && f.firstActivationTime <= f.time <= t
  {
    var u := AfterUpdate(f, t);
    var ok := Fits(u.f, data);
    if ok && data > 0
    then Sent(u.f.(inFlight := u.f.inFlight + data, ot := u.f.ot + [data]), true, 0, u.underrun, u.overrun)
    else Sent(u.f, ok, NextTransmissionTime(u.f, data), u.underrun, u.overrun)
  }

  /** Responses settle outstanding transactions oldest first. */
  function Settle(ot: seq<nat>, data: nat): seq<nat>
    requires data <= Sum(ot)
  {
    if data == 0 then ot
    else if ot[0] > data then [ot[0] - data] + ot[1..]
    else Settle(ot[1..], data - ot[0])
  }

  /** Books `data` bytes that arrived, before time advances. */
  function Arrived(f: FifoState, data: nat): FifoState
    requires data <= Sum(f.ot)
    requires f.maxLevel > 0 ==> f.level <= f.maxLevel
  {
    f.(level := match f.kind
         case READ => f.level + Min(data, if f.maxLevel > 0 then f.maxLevel - f.level else data)
         case WRITE => f.level - Min(f.level, data),
       inFlight := f.inFlight - Min(f.inFlight, data),
       ot := Settle(f.ot, data))
  }

  /** Records the arrival of `data` bytes, then advances to t. */
  function AfterReceive(f: FifoState, t: nat, data: nat): Received
    requires f.period > 0 && f.time <= t
    requires f.ot == [] || data <= Sum(f.ot)
    requires f.maxLevel > 0 ==> f.level <= f.maxLevel
  {
    if f.ot == [] then
      var u := AfterUpdate(f, t);
      Received(u.f, false, data > 0, u.underrun, u.overrun)
    else
      var g := Arrived(f, data);
      var u := AfterUpdate(g, t);
      Received(u.f, |g.ot| < |f.ot|, false, u.underrun, u.overrun)
  }

  // ------------------------------------------------------------ the FIFO object

  class Fifo {
    var kind: Kind
    var startupLevel: nat
    var maxLevel: nat
    var rate: nat
    var period: nat
    var time: nat
    var level: nat
    var carry: nat
    var ot: seq<nat>
    var inFlight: nat
    var firstActivation: bool
    var firstActivationTime: nat
    var linked: bool
    var active: bool

    function State(): FifoState
      reads this
    {
      FifoState(kind, startupLevel, maxLevel, rate, period, time, level, carry, ot, inFlight,
                firstActivation, firstActivationTime, linked, active)
    }

    constructor (k: Kind, r: nat, p: nat, l: nat, m: nat)
      ensures State() == Fresh(k, r, p, l, m)
    {
      kind, rate, period, startupLevel, maxLevel := k, r, p, l, m;
      level, time, carry, ot, inFlight := l, 0, 0, [], 0;
      firstActivation, firstActivationTime, linked, active := false, 0, false, false;
    }

    method Reset()
      modifies this
      ensures State() == AfterReset(old(State()))
    {
      level := startupLevel;
      firstActivationTime, time := 0, 0;
      active, firstActivation := false, false;
      ot, inFlight, carry := [], 0, 0;
    }

    /** Moves every whole byte out of the carry. */
    method TakeWholeBytes() returns (bytes: nat)
      modifies this`carry
      ensures bytes == old(carry) / PRECISION && carry == old(carry) % PRECISION
    {
      bytes := 0;
      while carry >= PRECISION
        invariant bytes * PRECISION + carry == old(carry)
      {
        carry := carry - PRECISION;
        bytes := bytes + 1;
      }
      DivUnique(old(carry), PRECISION, bytes, carry);
    }

    /** The bytes the device side moves in dt time units. */
    method ServeRate(dt: nat) returns (update: nat)
      requires period > 0
      modifies this`carry
      ensures Tick(update, carry) == Advance(rate, period, old(carry), dt)
    {
      hide WholeBytes, CarryUnits;
      update := WholeBytes(rate, period, dt);
      carry := carry + CarryUnits(rate, period, dt);
      var extra := TakeWholeBytes();
      update := update + extra;
    }

    method Update(t: nat) returns (underrun: bool, overrun: bool)
      requires period > 0 && time <= t
      modifies this
      ensures Updated(State(), underrun, overrun) == AfterUpdate(old(State()), t)
    {
      hide Advance, Shift;
      var update := 0;
      if !active {
        if !linked || !firstActivation {
          if !firstActivation {
            firstActivation := true;
            firstActivationTime := t;
          }
          active := true;
        }
      } else if rate > 0 {
        update := ServeRate(t - time);
      }
      underrun, overrun := Move(update);
      time := t;
    }

    /** The device side takes or adds bytes, down to empty or up to full. */
    method Move(update: nat) returns (underrun: bool, overrun: bool)
      modifies this`level
      ensures Updated(State(), underrun, overrun) == Shift(old(State()), update)
    {
      underrun, overrun := false, false;
      if kind == READ {
        if level < update {
          underrun := true;
          level := 0;
        } else {
          level := level - update;
        }
      } else {
        if level + update > maxLevel {
          overrun := true;
          level := maxLevel;
        } else {
          level := level + update;
        }
      }
    }

    method Send(t: nat, data: nat) returns (ok: bool, next: int, underrun: bool, overrun: bool)
      requires period > 0 && firstActivationTime <= time <= t
      modifies this
      ensures Sent(State(), ok, next, underrun, overrun) == AfterSend(old(State()), t, data)
    {
      hide AfterUpdate, NextTransmissionTime;
      ok, next := false, 0;
      underrun, overrun := Update(t);
      if kind == READ {
        if level + data + inFlight <= maxLevel || maxLevel == 0 {
          ok := true;
        }
      } else {
        if level >= data + inFlight || maxLevel == 0 {
          ok := true;
        }
      }
      if ok && data > 0 {
        inFlight := inFlight + data;
        ot := ot + [data];
      } else {
        next := NextTransmissionTime(State(), data);
      }
    }

    /** Pops or shortens outstanding transactions, oldest first. */
    method SettleOldest(data: nat) returns (whole: bool)
      requires data <= Sum(ot)
      modifies this`ot
      ensures ot == Settle(old(ot), data)
      ensures whole == (|ot| < |old(ot)|)
    {
      whole := false;
      var residual: nat := data;
      while residual > 0
        decreases |ot|, residual
        invariant residual <= Sum(ot)
        invariant Settle(ot, residual) == Settle(old(ot), data)
        invariant |ot| <= |old(ot)| && whole == (|ot| < |old(ot)|)
      {
        if ot[0] > residual {
          ot := [ot[0] - residual] + ot[1..];
          residual := 0;
        } else {
          residual := residual - ot[0];
          ot := ot[1..];
          whole := true;
        }
      }
    }

    method Receive(t: nat, data: nat) returns (whole: bool, unexpected: bool, underrun: bool, overrun: bool)
      requires period > 0 && time <= t
      requires ot == [] || data <= Sum(ot)
      requires maxLevel > 0 ==> level <= maxLevel
      modifies this
      ensures Received(State(), whole, unexpected, underrun, overrun)
           == AfterReceive(old(State()), t, data)
    {
      hide AfterUpdate, Sum, Settle;
      whole, unexpected := false, false;
      if |ot| > 0 {
        inFlight := inFlight - Min(inFlight, data);
        if kind == READ {
          level := level + Min(data, if maxLevel > 0 then maxLevel - level else data);
        } else {
          level := level - Min(level, data);
        }
        whole := SettleOldest(data);
      } else if data > 0 {
        unexpected := true;
      }
      underrun, overrun := Update(t);
    }
  }

  /** A FIFO as its configuration leaves it. */
  function Fresh(kind: Kind, rate: nat, period: nat, startupLevel: nat, maxLevel: nat): FifoState {
    FifoState(kind, startupLevel, maxLevel, rate, period, 0, startupLevel, 0, [], 0, false, 0, false, false)
  }

  // ------------------------------------------------- reservations over all runs

  /** What every operation keeps: reservations add up to the outstanding
      transactions, and they never exceed the room (READ) or the data (WRITE). */
  ghost predicate Consistent(f: FifoState) {
    && f.period > 0
    && f.carry < PRECISION
    && f.firstActivationTime <= f.time
    && f.inFlight == Sum(f.ot)
    && (forall i :: 0 <= i < |f.ot| ==> f.ot[i] > 0)
    && Reserved(f)
  }

  predicate Reserved(f: FifoState) {
    f.maxLevel > 0 ==>
      match f.kind
      case READ => f.level + f.inFlight <= f.maxLevel
      case WRITE => f.inFlight <= f.level <= f.maxLevel
  }

  datatype Op = SendOp(t: nat, data: nat) | ReceiveOp(t: nat, data: nat)

  /** An operation a caller may issue: time does not go back, and a response does not
      exceed what is outstanding. */
  predicate Legal(f: FifoState, op: Op) {
    && f.time <= op.t
    && (op.ReceiveOp? ==> op.data <= f.inFlight)
  }

  ghost predicate Steps(ops: seq<Op>, states: seq<FifoState>) {
    && |states| == |ops| + 1
    && forall i :: 0 <= i < |ops| ==> Step(states[i], ops[i], states[i+1])
  }

  ghost predicate Step(f: FifoState, op: Op, g: FifoState) {
    && f.period > 0
    && Legal(f, op)
    && match op
       case SendOp(t, data) => f.firstActivationTime <= f.time && g == AfterSend(f, t, data).f
       case ReceiveOp(t, data) =>
         && (f.ot == [] || data <= Sum(f.ot))
         && (f.maxLevel > 0 ==> f.level <= f.maxLevel)
         && g == AfterReceive(f, t, data).f
  }

  lemma {:induction false} SumAppend(s: seq<nat>, x: nat)
    ensures Sum(s + [x]) == Sum(s) + x
  {
    if s == [] {
      assert [] + [x] == [x];
    } else {
      assert (s + [x])[1..] == s[1..] + [x];
      SumAppend(s[1..], x);
    }
  }

  /** Settling removes exactly `data` bytes, from the oldest transactions on: the
      youngest ones are untouched and at most one is left partly settled. */
  lemma {:induction false} SettleOldestFirst(ot: seq<nat>, data: nat)
    requires data <= Sum(ot)
    requires forall i :: 0 <= i < |ot| ==> ot[i] > 0
    ensures var r := Settle(ot, data);
            && Sum(r) == Sum(ot) - data
            && |r| <= |ot|
            && (forall i :: 0 <= i < |r| ==> r[i] > 0)
            && (r != [] ==> r[0] <= ot[|ot|-|r|] && r[1..] == ot[|ot|-|r|+1..])
  {
    if data > 0 {
      if ot[0] > data {
        assert ([ot[0] - data] + ot[1..])[1..] == ot[1..];
      } else {
        var rest := ot[1..];
        assert Sum(rest) == Sum(ot) - ot[0];
        SettleOldestFirst(rest, data - ot[0]);
        assert Settle(ot, data) == Settle(rest, data - ot[0]);
        hide Sum, Settle;
        SettleRest(ot, data);
      }
    }
  }

  /** What settling does to the rest, seen from the whole list. */
  lemma SettleRest(ot: seq<nat>, data: nat)
    requires ot != [] && ot[0] <= data <= Sum(ot)
    requires var rest := ot[1..];
             var r := Settle(rest, data - ot[0]);
             |r| <= |rest| && (r != [] ==> r[0] <= rest[|rest|-|r|] && r[1..] == rest[|rest|-|r|+1..])
    ensures var r := Settle(ot[1..], data - ot[0]);
            r != [] ==> r[0] <= ot[|ot|-|r|] && r[1..] == ot[|ot|-|r|+1..]
  {
    hide Settle;
    var rest := ot[1..];
    var k := |rest| - |Settle(rest, data - ot[0])|;
    assert k < |rest| ==> rest[k + 1..] == ot[k + 2..] && rest[k] == ot[k + 1];
  }

  /** A response the size of the oldest transaction settles exactly that one. */
  lemma SettleWhole(ot: seq<nat>)
    requires ot != [] && ot[0] > 0
    ensures Settle(ot, ot[0]) == ot[1..]
  {
    assert Settle(ot[1..], 0) == ot[1..];
  }

  lemma UpdateKeepsConsistent(f: FifoState, t: nat)
    requires Consistent(f) && f.time <= t
    ensures Consistent(AfterUpdate(f, t).f)
  {
    hide Advance, Sum;
  }

  lemma SendKeepsConsistent(f: FifoState, t: nat, data: nat)
    requires Consistent(f) && f.time <= t
    ensures Consistent(AfterSend(f, t, data).f)
  {
    UpdateKeepsConsistent(f, t);
    SumAppend(f.ot, data);
  }

  /** A send that is granted appends its transaction, and changes no configuration. */
  lemma SendAppends(f: FifoState, t: nat, data: nat)
    requires Consistent(f) && f.time <= t
    ensures var s := AfterSend(f, t, data);
            && Consistent(s.f) && s.f.time == t && SameConfiguration(f, s.f)
            && s.f.ot == (if s.ok && data > 0 then f.ot + [data] else f.ot)
            && (s.ok ==> data <= s.f.inFlight)
  {
    SendKeepsConsistent(f, t, data);
    UpdateKeepsConfiguration(f, t);
    SumAppend(f.ot, data);
  }

  lemma ArrivedKeepsConsistent(f: FifoState, data: nat)
    requires Consistent(f) && data <= f.inFlight
    ensures Consistent(Arrived(f, data))
  {
    SettleOldestFirst(f.ot, data);
  }

  lemma ReceiveKeepsConsistent(f: FifoState, t: nat, data: nat)
    requires Consistent(f) && f.time <= t && data <= f.inFlight
    ensures Consistent(AfterReceive(f, t, data).f)
    ensures !AfterReceive(f, t, data).unexpected
  {
    if f.ot == [] {
      UpdateKeepsConsistent(f, t);
    } else {
      ArrivedKeepsConsistent(f, data);
      UpdateKeepsConsistent(Arrived(f, data), t);
    }
  }

  /** In a consistent bounded FIFO none of the three clamps of a reception takes
      effect: the response is booked in full. */
  lemma ArrivedBooksInFull(f: FifoState, data: nat)
    requires Consistent(f) && f.maxLevel > 0 && data <= f.inFlight
    ensures var g := Arrived(f, data);
            && g.level == (if f.kind == READ then f.level + data else f.level - data)
            && g.inFlight == f.inFlight - data
            && Sum(g.ot) == Sum(f.ot) - data
  {
    SettleOldestFirst(f.ot, data);
  }

  /** Reservations hold at every state of every interleaving of sends, receptions and
      the updates they trigger. */
  lemma ReservationInvariant(kind: Kind, rate: nat, period: nat, startupLevel: nat, maxLevel: nat,
                             ops: seq<Op>, states: seq<FifoState>, k: nat)
    requires period > 0 && (maxLevel > 0 ==> startupLevel <= maxLevel)
    requires Steps(ops, states) && states[0] == Fresh(kind, rate, period, startupLevel, maxLevel)
    requires k < |states|
    ensures Consistent(states[k]) && SameConfiguration(states[0], states[k])
  {
    if k > 0 {
      ReservationInvariant(kind, rate, period, startupLevel, maxLevel, ops, states, k - 1);
      assert Step(states[k-1], ops[k-1], states[k]);
      StepKeepsConsistent(states[k-1], ops[k-1], states[k]);
    }
  }

  lemma StepKeepsConsistent(f: FifoState, op: Op, g: FifoState)
    requires Consistent(f) && Step(f, op, g)
    ensures Consistent(g) && SameConfiguration(f, g)
  {
    match op
    case SendOp(t, data) =>
      SendKeepsConsistent(f, t, data);
      UpdateKeepsConfiguration(f, t);
    case ReceiveOp(t, data) =>
      ReceiveKeepsConsistent(f, t, data);
      if f.ot == [] {
        UpdateKeepsConfiguration(f, t);
      } else {
        UpdateKeepsConfiguration(Arrived(f, data), t);
      }
  }

  lemma UpdateKeepsConfiguration(f: FifoState, t: nat)
    requires f.period > 0 && f.time <= t
    ensures SameConfiguration(f, AfterUpdate(f, t).f)
  {
    hide Advance;
  }

  predicate SameConfiguration(f: FifoState, g: FifoState) {
    && f.kind == g.kind && f.startupLevel == g.startupLevel && f.maxLevel == g.maxLevel
    && f.rate == g.rate && f.period == g.period && f.linked == g.linked
  }

  // ------------------------------------------------------------- an unbounded FIFO

  /** A FIFO without a maximum level grants whatever is asked, after every run and at any
      time, books it, and needs no retry. */
  lemma UnboundedGrants(kind: Kind, rate: nat, period: nat, startupLevel: nat, ops: seq<Op>, states: seq<FifoState>,
                        k: nat, t: nat, data: nat)
    requires period > 0 && k < |states|
    requires Steps(ops, states) && states[0] == Fresh(kind, rate, period, startupLevel, 0)
    requires states[k].time <= t
    ensures Consistent(states[k])
    ensures var s := AfterSend(states[k], t, data);
            && s.ok && (data > 0 ==> s.next == 0)
            && s.f.inFlight == states[k].inFlight + data
            && s.f.ot == if data > 0 then states[k].ot + [data] else states[k].ot
  {
    hide Advance, Sum;
    ReservationInvariant(kind, rate, period, startupLevel, 0, ops, states, k);
  }

  /** A reception books what was read in full, whether the FIFO is bounded or not, and takes
      what was written from what there is. */
  lemma UnboundedBooksInFull(f: FifoState, data: nat)
    requires Consistent(f) && f.maxLevel == 0 && data <= f.inFlight
    ensures var g := Arrived(f, data);
            && (f.kind == READ ==> g.level == f.level + data)
            && (f.kind == WRITE ==> g.level == if data <= f.level then f.level - data else 0)
            && g.inFlight == f.inFlight - data
            && Sum(g.ot) == Sum(f.ot) - data
  {
    SettleOldestFirst(f.ot, data);
  }

  /** An unbounded FIFO that is filled at a rate never holds anything: whatever it held, or
      is filled with, is an overrun. */
  lemma UnboundedWriteOverruns(f: FifoState, t: nat)
    requires f.period > 0 && f.time <= t && f.kind == WRITE && f.maxLevel == 0
    ensures var u := AfterUpdate(f, t);
            u.f.level == 0 && (u.overrun <==> f.level > 0 || Moved(f, t) > 0)
  {
    hide Advance;
  }

  // ------------------------------------------------------------- what the clamps report

  /** Bytes the device side asks for, or offers, from now to t. */
  function Moved(f: FifoState, t: nat): nat
    requires f.period > 0 && f.time <= t
  {
    if f.active && f.rate > 0 then Advance(f.rate, f.period, f.carry, t - f.time).bytes else 0
  }

  /** A reader takes what there is and an underrun is reported exactly if it asked for more;
      a writer fills up to the maximum and an overrun is reported exactly if it offered more. */
  lemma UpdateReports(f: FifoState, t: nat)
    requires f.period > 0 && f.time <= t
    ensures var u := AfterUpdate(f, t);
            && (f.kind == READ ==> u.f.level == Excess(f.level, Moved(f, t)) && !u.overrun
                                   && (u.underrun <==> Moved(f, t) > f.level))
            && (f.kind == WRITE ==> u.f.level == Min(f.maxLevel, f.level + Moved(f, t)) && !u.underrun
                                    && (u.overrun <==> Moved(f, t) > f.maxLevel - f.level))
  {
    hide Advance;
  }

  function Excess(a: nat, b: nat): nat { if a > b then a - b else 0 }

  /** Data that arrive are there for the reader, and the room they leave is there for the
      writer, in the time up to their arrival: an underrun, or an overrun, is reported only if
      they do not suffice. */
  lemma ArrivalCounts(f: FifoState, t: nat, data: nat)
    requires Consistent(f) && f.maxLevel > 0 && f.time <= t && data <= f.inFlight && f.ot != []
    ensures var r := AfterReceive(f, t, data);
            && (f.kind == READ ==> r.f.level == Excess(f.level + data, Moved(f, t))
                                   && (r.underrun <==> Moved(f, t) > f.level + data))
            && (f.kind == WRITE ==> r.f.level == Min(f.maxLevel, f.level - data + Moved(f, t))
                                    && (r.overrun <==> Moved(f, t) > f.maxLevel - (f.level - data)))
  {
    hide Advance, Sum, Settle;
    ArrivedBooksInFull(f, data);
    UpdateReports(Arrived(f, data), t);
  }

  /** A FIFO linked to another is not drained or filled while it is inactive, except that its
      very first update activates it; one that is not linked is activated by any update. */
  lemma LinkedWaits(f: FifoState, t: nat)
    requires f.period > 0 && f.time <= t && !f.active
    ensures var g := AfterUpdate(f, t).f;
            && (g.active <==> !f.linked || !f.firstActivation) && (g.active ==> g.firstActivation)
            && g.carry == f.carry && (f.maxLevel > 0 && f.level <= f.maxLevel ==> g.level == f.level)
            && g.firstActivationTime == if f.firstActivation then f.firstActivationTime else t
  {
  }

  /** A reset leaves a FIFO as its configuration would, but for the link. */
  lemma ResetIsFresh(f: FifoState)
    ensures AfterReset(f) == Fresh(f.kind, f.rate, f.period, f.startupLevel, f.maxLevel).(linked := f.linked)
  {
  }
}
