/** A slave traffic profile: requests it accepts become responses, queued in lockstep
    with the FIFO that limits its bandwidth and its outstanding transactions. */
module SlaveModel {
  import F = FifoModel
  import FifoRate
  import R = FifoRetry

  datatype Command = READ_REQ | WRITE_REQ | READ_RESP | WRITE_RESP | OTHER

  datatype Packet = Packet(command: Command, uid: nat, address: nat, size: nat, time: nat)

  /** The value of a slave with a static latency; `refused` is the manager's table of the
      requests to retry. */
  datatype SlaveState = SlaveState(
    maxOt: nat, width: nat, latency: nat, fifo: F.FifoState, responses: seq<Packet>, refused: set<nat>)

  datatype Received = Received(s: SlaveState, ok: bool, next: int)
  datatype Sent = Sent(s: SlaveState, response: seq<Packet>, ok: bool, locked: bool, next: int)

  // ------------------------------------------------------------ specification

  /** Bytes the FIFO books for a packet: whole beats of the slave's width. */
  function Units(width: nat, size: nat): nat
    requires width > 0
  {
    ((size + width - 1) / width) * width
  }

  function Response(p: Packet, t: nat, latency: nat): Packet {
    p.(command := if p.command == READ_REQ then READ_RESP else WRITE_RESP, time := t + latency)
  }

  predicate Locked(s: SlaveState) {
    s.maxOt > 0 && |s.fifo.ot| >= s.maxOt
  }

  ghost predicate Ready(s: SlaveState, t: nat) {
    s.width > 0 && F.Consistent(s.fifo) && s.fifo.time <= t
  }

  /** A request arrives; `before` is what the caller's hint was. */
  function AfterReceive(s: SlaveState, t: nat, p: Packet, before: int): Received
    requires Ready(s, t)
  {
    var f := F.AfterSend(s.fifo, t, Units(s.width, p.size));
    if !Locked(s) && f.ok then
      var rs := s.responses + [Response(p, t, s.latency)];
      Received(s.(fifo := f.f, responses := rs, refused := s.refused - {p.uid}), true, rs[0].time)
    else
      var next := if Locked(s) then before else f.next;
      Received(s.(fifo := if Locked(s) then s.fifo else f.f, refused := s.refused + {p.uid}), false,
               if (Locked(s) || next == 0) && s.responses != [] then s.responses[0].time else next)
  }

  predicate Due(s: SlaveState, t: nat) {
    s.responses != [] && s.responses[0].time <= t
  }

  /** The slave is polled for a response. */
  function AfterSend(s: SlaveState, t: nat, before: int): Sent
    requires Ready(s, t)
    requires Due(s, t) ==> s.fifo.ot == [] || Units(s.width, s.responses[0].size) <= F.Sum(s.fifo.ot)
  {
    if s.responses == [] then Sent(s, [], false, false, before)
    else if !Due(s, t) then Sent(s, [], false, false, s.responses[0].time)
    else
      var f := F.AfterReceive(s.fifo, t, Units(s.width, s.responses[0].size)).f;
      var rest := s.responses[1..];
      Sent(s.(fifo := f, responses := rest), [s.responses[0]], true, rest == [],
           if rest == [] then 0 else rest[0].time)
  }

  // ------------------------------------------------------------ the slave object

  class TrafficProfileSlave {
    const maxOt: nat
    const width: nat
    const latency: nat
    const fifo: F.Fifo
    var responses: seq<Packet>
    var refused: set<nat>

    ghost function State(): SlaveState
      reads this, fifo
    {
      SlaveState(maxOt, width, latency, fifo.State(), responses, refused)
    }

    constructor (otLimit: nat, granularity: nat, delay: nat, rate: nat, period: nat)
      ensures fresh(fifo) && State() == Created(otLimit, granularity, delay, rate, period)
    {
      maxOt, width, latency, responses, refused := otLimit, granularity, delay, [], {};
      fifo := new F.Fifo(F.READ, rate, period, 0, otLimit * granularity);
    }

    method Reset()
      modifies this`responses, fifo
      ensures State() == AfterReset(old(State()))
    {
      hide F.Fifo.State, F.AfterReset;
      fifo.Reset();
      responses := [];
    }

    method Active() returns (active: bool, locked: bool)
      ensures locked == Locked(State()) && active == !locked
    {
      locked := |fifo.ot| >= maxOt && maxOt > 0;
      active := !locked;
    }

    method Receive(t: nat, packet: Packet, before: int) returns (ok: bool, next: int)
      requires Ready(State(), t) && (packet.command == READ_REQ || packet.command == WRITE_REQ)
      modifies this, fifo
      ensures Received(State(), ok, next) == AfterReceive(old(State()), t, packet, before)
    {
      hide F.AfterSend;
      ok, next := false, before;
      var noPackets := (packet.size + width - 1) / width;
      var active, locked := Active();
      if active {
        var underrun, overrun;
        ok, next, underrun, overrun := fifo.Send(t, noPackets * width);
      }
      if ok {
        var command := if packet.command == READ_REQ then READ_RESP else WRITE_RESP;
        responses := responses + [packet.(command := command, time := t + latency)];
        next := responses[0].time;
        refused := refused - {packet.uid};
      } else {
        if (locked || next == 0) && responses != [] {
          next := responses[0].time;
        }
        refused := refused + {packet.uid};
      }
    }

    method Send(t: nat, before: int) returns (response: seq<Packet>, ok: bool, locked: bool, next: int)
      requires Ready(State(), t)
      requires Due(State(), t) ==> fifo.ot == [] || Units(width, responses[0].size) <= F.Sum(fifo.ot)
      modifies this`responses, fifo
      ensures Sent(State(), response, ok, locked, next) == AfterSend(old(State()), t, before)
    {
      hide F.AfterReceive, F.Sum;
      response, ok, locked, next := [], false, false, before;
      if responses != [] {
        if responses[0].time <= t {
          var p := responses[0];
          responses := responses[1..];
          var noPackets := (p.size + width - 1) / width;
          var whole, unexpected, underrun, overrun := fifo.Receive(t, noPackets * width);
          response, ok := [p], true;
        }
        if responses != [] {
          next := responses[0].time;
        } else {
          locked, next := true, 0;
        }
      }
    }
  }

  function Created(maxOt: nat, width: nat, latency: nat, rate: nat, period: nat): SlaveState {
    SlaveState(maxOt, width, latency, F.Fresh(F.READ, rate, period, 0, maxOt * width), [], {})
  }

  function AfterReset(s: SlaveState): SlaveState {
    s.(fifo := F.AfterReset(s.fifo), responses := [])
  }

  // ------------------------------------------------------------------ invariant

  /** The FIFO and the queue agree element by element; responses leave in time order. */
  ghost predicate Lockstep(s: SlaveState) {
    && s.width > 0 && F.Consistent(s.fifo)
    && s.fifo.kind == F.READ && s.fifo.maxLevel == s.maxOt * s.width && s.fifo.startupLevel == 0
    && |s.fifo.ot| == |s.responses|
    && (forall i :: 0 <= i < |s.responses| ==> s.fifo.ot[i] == Units(s.width, s.responses[i].size))
    && (s.maxOt > 0 ==> |s.responses| <= s.maxOt)
    && Ordered(s)
  }

  predicate Ordered(s: SlaveState) {
    && (forall i, j :: 0 <= i < j < |s.responses| ==> s.responses[i].time <= s.responses[j].time)
    && (forall i :: 0 <= i < |s.responses| ==> s.responses[i].time <= s.fifo.time + s.latency)
  }

  /** Whole beats: enough for the packet, and less than one beat too many. */
  lemma UnitsBounds(width: nat, size: nat)
    requires width > 0
    ensures size <= Units(width, size) < size + width
    ensures Units(width, size) > 0 <==> size > 0
  {
    var q := (size + width - 1) / width;
    assert width * q + (size + width - 1) % width == size + width - 1;
    assert q * width == width * q;
  }

  /** A request keeps the lockstep exactly unless it is accepted with no size: the FIFO
      does not book it, but its response is queued. */
  lemma ReceiveKeepsLockstepIff(s: SlaveState, t: nat, p: Packet, before: int)
    requires Lockstep(s) && s.fifo.time <= t
    ensures var r := AfterReceive(s, t, p, before);
            Lockstep(r.s) <==> !r.ok || p.size > 0
  {
    hide F.AfterSend, F.Consistent, Units;
    UnitsBounds(s.width, p.size);
    F.SendAppends(s.fifo, t, Units(s.width, p.size));
  }

  lemma SettlesFront(f: F.FifoState, t: nat)
    requires F.Consistent(f) && f.time <= t && f.ot != []
    ensures f.ot[0] <= F.Sum(f.ot)
    ensures var r := F.AfterReceive(f, t, f.ot[0]);
            r.f.ot == f.ot[1..] && F.Consistent(r.f) && r.f.time == t && F.SameConfiguration(f, r.f) && !r.unexpected
  {
    F.SettleWhole(f.ot);
    F.ReceiveKeepsConsistent(f, t, f.ot[0]);
    F.UpdateKeepsConfiguration(F.Arrived(f, f.ot[0]), t);
  }

  lemma SendKeepsLockstep(s: SlaveState, t: nat, before: int)
    requires Lockstep(s) && s.fifo.time <= t
    ensures Due(s, t) ==> Units(s.width, s.responses[0].size) <= F.Sum(s.fifo.ot)
    ensures Lockstep(AfterSend(s, t, before).s)
  {
    hide F.AfterReceive, F.Consistent, Units;
    if Due(s, t) {
      assert F.Consistent(s.fifo);
      SettlesFront(s.fifo, t);
    }
  }

  lemma ResetKeepsLockstep(s: SlaveState)
    requires Lockstep(s)
    ensures Lockstep(AfterReset(s)) && AfterReset(s).fifo.time == 0
  {
    assert s.maxOt * s.width >= 0;
  }

  lemma CreatedLockstep(maxOt: nat, width: nat, latency: nat, rate: nat, period: nat)
    requires width > 0 && period > 0
    ensures Lockstep(Created(maxOt, width, latency, rate, period))
  {
    assert maxOt * width >= 0;
  }

  // ---------------------------------------------------------------------- runs

  /** A packet and the time it was accepted or delivered. */
  datatype Exchange = Exchange(packet: Packet, time: nat)

  /** A slave, the time, the requests it accepted, but those that a reset dropped, its
      deliveries, and what resets dropped. */
  datatype World = World(s: SlaveState, now: nat, accepted: seq<Exchange>, delivered: seq<Exchange>,
                         dropped: seq<Exchange>)

  datatype Op = Request(t: nat, packet: Packet, hint: int) | Poll(t: nat, hint: int) | Clear(t: nat)

  ghost predicate Step(w: World, op: Op, x: World) {
    && w.now <= op.t && Ready(w.s, op.t)
    && match op
       case Request(t, p, hint) =>
         && p.size > 0 && (p.command == READ_REQ || p.command == WRITE_REQ)
         && var r := AfterReceive(w.s, t, p, hint);
            x == World(r.s, t, if r.ok then w.accepted + [Exchange(p, t)] else w.accepted, w.delivered, w.dropped)
       case Poll(t, hint) =>
         && (Due(w.s, t) ==> w.s.fifo.ot == [] || Units(w.s.width, w.s.responses[0].size) <= F.Sum(w.s.fifo.ot))
         && var r := AfterSend(w.s, t, hint);
            x == World(r.s, t, w.accepted, if r.ok then w.delivered + [Exchange(r.response[0], t)] else w.delivered,
                       w.dropped)
       case Clear(t) =>
         && |w.delivered| <= |w.accepted|
         && x == World(AfterReset(w.s), t, w.accepted[..|w.delivered|], w.delivered,
                       w.dropped + w.accepted[|w.delivered|..])
  }

  ghost predicate Run(ops: seq<Op>, ws: seq<World>) {
    |ws| == |ops| + 1 && forall i :: 0 <= i < |ops| ==> Step(ws[i], ops[i], ws[i+1])
  }

  /** The response carries the request's UID, address and size; a read is answered as a
      read and a write as a write, the latency after it was accepted. */
  predicate Answers(response: Packet, request: Exchange, latency: nat) {
    && response.uid == request.packet.uid && response.address == request.packet.address
    && response.size == request.packet.size
    && (response.command == READ_RESP <==> request.packet.command == READ_REQ)
    && (response.command == WRITE_RESP <==> request.packet.command == WRITE_REQ)
    && response.time == request.time + latency
  }

  /** Requests accepted are the responses delivered, then those queued, one by one and in
      order; none was delivered early. */
  ghost predicate Conserved(w: World) {
    var done := |w.delivered|;
    && |w.accepted| == done + |w.s.responses|
    && (forall i :: 0 <= i < done ==> Answers(w.delivered[i].packet, w.accepted[i], w.s.latency))
    && (forall j :: 0 <= j < |w.s.responses| ==> Answers(w.s.responses[j], w.accepted[done + j], w.s.latency))
    && (forall i :: 0 <= i < done ==> w.accepted[i].time + w.s.latency <= w.delivered[i].time)
  }

  ghost predicate Sound(w: World) {
    Lockstep(w.s) && w.s.fifo.time <= w.now && Conserved(w)
  }

  lemma StepKeepsSound(w: World, op: Op, x: World)
    requires Sound(w) && Step(w, op, x)
    ensures Sound(x) && x.s.latency == w.s.latency
    ensures |x.dropped| == |w.dropped| + if op.Clear? then |w.s.responses| else 0
  {
    match op
    case Request(t, p, hint) =>
      ReceiveKeepsLockstepIff(w.s, t, p, hint);
      RequestConserves(w, t, p, hint);
    case Poll(t, hint) =>
      SendKeepsLockstep(w.s, t, hint);
      PollConserves(w, t, hint);
    case Clear(t) =>
      ResetKeepsLockstep(w.s);
      ClearConserves(w, t);
  }

  lemma ClearConserves(w: World, t: nat)
    requires Conserved(w) && |w.delivered| <= |w.accepted|
    ensures Conserved(World(AfterReset(w.s), t, w.accepted[..|w.delivered|], w.delivered,
                            w.dropped + w.accepted[|w.delivered|..]))
  {
    hide F.AfterReset;
  }

  lemma RequestConserves(w: World, t: nat, p: Packet, hint: int)
    requires Sound(w) && w.now <= t && (p.command == READ_REQ || p.command == WRITE_REQ)
    ensures var r := AfterReceive(w.s, t, p, hint);
            && r.s.fifo.time <= t && r.s.latency == w.s.latency
            && Conserved(World(r.s, t, if r.ok then w.accepted + [Exchange(p, t)] else w.accepted, w.delivered, w.dropped))
  {
    hide F.AfterSend, F.Consistent, F.SameConfiguration, Units, Conserved, Ordered;
    F.SendAppends(w.s.fifo, t, Units(w.s.width, p.size));
    var r := AfterReceive(w.s, t, p, hint);
    if r.ok {
      OneMore(w, r.s, t, p);
    } else {
      SameQueue(w, r.s, t);
    }
  }

  lemma OneMore(w: World, s: SlaveState, t: nat, p: Packet)
    requires Conserved(w) && s.latency == w.s.latency && (p.command == READ_REQ || p.command == WRITE_REQ)
    requires s.responses == w.s.responses + [Response(p, t, s.latency)]
    ensures Conserved(World(s, t, w.accepted + [Exchange(p, t)], w.delivered, w.dropped))
  {
    assert Answers(Response(p, t, s.latency), Exchange(p, t), s.latency);
    hide Response, Answers;
  }

  lemma SameQueue(w: World, s: SlaveState, t: nat)
    requires Conserved(w) && s.latency == w.s.latency && s.responses == w.s.responses
    ensures Conserved(World(s, t, w.accepted, w.delivered, w.dropped))
  {
  }

  lemma PollConserves(w: World, t: nat, hint: int)
    requires Sound(w) && w.now <= t
    requires Due(w.s, t) ==> Units(w.s.width, w.s.responses[0].size) <= F.Sum(w.s.fifo.ot)
    ensures var r := AfterSend(w.s, t, hint);
            && r.s.fifo.time <= t && r.s.latency == w.s.latency
            && (r.ok ==> |r.response| == 1)
            && Conserved(World(r.s, t, w.accepted, if r.ok then w.delivered + [Exchange(r.response[0], t)] else w.delivered,
                               w.dropped))
  {
    hide F.AfterReceive, F.Consistent, Units;
    if Due(w.s, t) {
      SettlesFront(w.s.fifo, t);
      assert Answers(w.s.responses[0], w.accepted[|w.delivered|], w.s.latency);
    }
  }

  ghost predicate Begins(w: World, maxOt: nat, width: nat, latency: nat, rate: nat, period: nat) {
    width > 0 && period > 0 && w == World(Created(maxOt, width, latency, rate, period), 0, [], [], [])
  }

  /** Over every run from a fresh slave, resets included: lockstep, and every accepted
      request that no reset dropped yields exactly one response, in order and not before
      its latency. */
  lemma {:induction false} RunSound(ops: seq<Op>, ws: seq<World>, maxOt: nat, width: nat, latency: nat, rate: nat,
                                    period: nat, k: nat)
    requires Run(ops, ws) && k < |ws| && Begins(ws[0], maxOt, width, latency, rate, period)
    ensures Sound(ws[k])
  {
    if k == 0 {
      CreatedLockstep(maxOt, width, latency, rate, period);
    } else {
      RunSound(ops, ws, maxOt, width, latency, rate, period, k - 1);
      hide Sound, Step;
      assert Step(ws[k-1], ops[k-1], ws[k]);
      StepKeepsSound(ws[k-1], ops[k-1], ws[k]);
    }
  }

  /** What is delivered in a run answers the accepted requests one by one, in order. */
  lemma RunAnswers(ops: seq<Op>, ws: seq<World>, maxOt: nat, width: nat, latency: nat, rate: nat, period: nat,
                   k: nat, i: nat)
    requires Run(ops, ws) && k < |ws| && Begins(ws[0], maxOt, width, latency, rate, period)
    requires i < |ws[k].delivered|
    ensures i < |ws[k].accepted|
    ensures var response, request := ws[k].delivered[i], ws[k].accepted[i];
            && response.packet.uid == request.packet.uid && response.packet.address == request.packet.address
            && response.packet.size == request.packet.size
            && (response.packet.command == READ_RESP <==> request.packet.command == READ_REQ)
            && (response.packet.command == WRITE_RESP <==> request.packet.command == WRITE_REQ)
            && response.packet.time == request.time + latency <= response.time
  {
    RunSound(ops, ws, maxOt, width, latency, rate, period, k);
    RunLatency(ops, ws, k);
    assert Answers(ws[k].delivered[i].packet, ws[k].accepted[i], ws[k].s.latency);
  }

  lemma {:induction false} RunLatency(ops: seq<Op>, ws: seq<World>, k: nat)
    requires Run(ops, ws) && k < |ws|
    ensures ws[k].s.latency == ws[0].s.latency
  {
    hide F.AfterSend, F.AfterReceive, F.AfterReset, Units, F.Consistent;
    if k > 0 {
      RunLatency(ops, ws, k - 1);
      assert Step(ws[k-1], ops[k-1], ws[k]);
    }
  }

  /** Every accepted request has been answered, or is queued, exactly if no reset came with
      responses queued. */
  lemma {:induction false} AllAnsweredIff(ops: seq<Op>, ws: seq<World>, maxOt: nat, width: nat, latency: nat,
                                          rate: nat, period: nat, k: nat)
    requires Run(ops, ws) && k < |ws| && Begins(ws[0], maxOt, width, latency, rate, period)
    ensures ws[k].dropped == [] <==> forall i :: 0 <= i < k && ops[i].Clear? ==> ws[i].s.responses == []
  {
    hide Sound, Step;
    if k > 0 {
      AllAnsweredIff(ops, ws, maxOt, width, latency, rate, period, k - 1);
      RunSound(ops, ws, maxOt, width, latency, rate, period, k - 1);
      assert Step(ws[k-1], ops[k-1], ws[k]);
      StepKeepsSound(ws[k-1], ops[k-1], ws[k]);
    }
  }

  /** A slave locked by its limit points the requester to its oldest response; once that
      has been polled there is room again. */
  lemma LockedHintSuffices(s: SlaveState, t: nat, p: Packet, before: int, later: nat)
    requires Lockstep(s) && Locked(s) && s.fifo.time <= t <= later
    requires AfterReceive(s, t, p, before).next <= later
    ensures var r := AfterReceive(s, t, p, before);
            && !r.ok && r.s.responses != [] && r.next == r.s.responses[0].time
            && Ready(r.s, later)
            && (Due(r.s, later) ==> Units(s.width, s.responses[0].size) <= F.Sum(s.fifo.ot))
            && AfterSend(r.s, later, 0).ok && !Locked(AfterSend(r.s, later, 0).s)
  {
    hide F.AfterSend, F.AfterReceive, F.Consistent, Units;
    var r := AfterReceive(s, t, p, before);
    assert r.s == s.(refused := r.s.refused);
    SendKeepsLockstep(r.s, later, 0);
    SettlesFront(s.fifo, later);
  }

  ghost function AfterRequest(s: SlaveState, t: nat, p: Packet): (r: SlaveState)
    requires Ready(s, t)
    ensures Ready(r, r.fifo.time)
  {
    F.SendAppends(s.fifo, t, Units(s.width, p.size));
    AfterReceive(s, t, p, 0).s
  }

  /** An accepted request is told when the oldest response is due; a poll is told when the
      next one is, or 0 and that the slave is locked once none is queued.  A poll delivers
      exactly from the time told on. */
  lemma ResponseHint(s: SlaveState, t: nat, p: Packet, before: int)
    requires Lockstep(s) && s.fifo.time <= t && AfterReceive(s, t, p, before).ok
    ensures var r := AfterReceive(s, t, p, before);
            r.s.responses != [] && forall later: nat :: Due(r.s, later) <==> later >= r.next
  {
    hide F.AfterSend, F.Consistent, Units;
  }

  lemma PollHint(s: SlaveState, t: nat, before: int)
    requires Lockstep(s) && s.fifo.time <= t
    requires Due(s, t) ==> s.fifo.ot == [] || Units(s.width, s.responses[0].size) <= F.Sum(s.fifo.ot)
    ensures var r := AfterSend(s, t, before);
            && (r.ok <==> Due(s, t))
            && (r.s.responses != [] ==> !r.locked && forall later: nat :: Due(r.s, later) <==> later >= r.next)
            && (s.responses != [] && r.s.responses == [] ==> r.locked && r.next == 0)
            && (s.responses == [] ==> r.next == before && !r.locked)
  {
    hide F.AfterReceive, F.Consistent, Units;
  }

  /** The last request with this UID was refused. */
  predicate LastRefused(ops: seq<Op>, ws: seq<World>, k: nat, uid: nat)
    requires k <= |ops| < |ws|
  {
    k > 0 && match ops[k-1]
      case Request(_, p, _) =>
        if p.uid == uid then |ws[k].accepted| == |ws[k-1].accepted| else LastRefused(ops, ws, k - 1, uid)
      case _ => LastRefused(ops, ws, k - 1, uid)
  }

  /** Over every run: the requests to be sent again are those refused when they came last. */
  lemma {:induction false} RefusedAreToRetry(ops: seq<Op>, ws: seq<World>, maxOt: nat, width: nat, latency: nat,
                                             rate: nat, period: nat, k: nat, uid: nat)
    requires Run(ops, ws) && k < |ws| && Begins(ws[0], maxOt, width, latency, rate, period)
    ensures uid in ws[k].s.refused <==> LastRefused(ops, ws, k, uid)
  {
    hide F.AfterSend, F.AfterReceive, F.AfterReset, F.Consistent, Units;
    if k > 0 {
      RefusedAreToRetry(ops, ws, maxOt, width, latency, rate, period, k - 1, uid);
      assert Step(ws[k-1], ops[k-1], ws[k]);
    }
  }

  /** Any request, at any time. */
  datatype Attempt = Attempt(t: nat, p: Packet)

  /** Every attempt is refused, in order, from state s on. */
  ghost predicate AllRefused(s: SlaveState, attempts: seq<Attempt>)
    requires Ready(s, s.fifo.time)
    decreases |attempts|, 0
  {
    attempts == [] ||
    (var last := attempts[|attempts|-1];
     && AllRefused(s, attempts[..|attempts|-1])
     && var r := AfterAttempts(s, attempts[..|attempts|-1]);
     && r.fifo.time <= last.t
     && !AfterReceive(r, last.t, last.p, 0).ok)
  }

  ghost function AfterAttempts(s: SlaveState, attempts: seq<Attempt>): (r: SlaveState)
    requires Ready(s, s.fifo.time) && AllRefused(s, attempts)
    ensures Ready(r, r.fifo.time)
    decreases |attempts|, 1
  {
    if attempts == [] then s
    else
      var last := attempts[|attempts|-1];
      var r := AfterAttempts(s, attempts[..|attempts|-1]);
      AfterRequest(r, last.t, last.p)
  }

  /** What the FIFO of the slave is asked for by the attempts. */
  function Polls(width: nat, attempts: seq<Attempt>): seq<R.Poll>
    requires width > 0
  {
    if attempts == [] then []
    else
      var last := attempts[|attempts|-1];
      Polls(width, attempts[..|attempts|-1]) + [R.Poll(last.t, Units(width, last.p.size))]
  }

  /** To the FIFO of a slave that is not locked, refused requests are denied polls. */
  lemma {:induction false} RefusedAreDenied(s: SlaveState, attempts: seq<Attempt>)
    requires Ready(s, s.fifo.time) && !Locked(s) && AllRefused(s, attempts)
    ensures var r, polls := AfterAttempts(s, attempts), Polls(s.width, attempts);
            && R.AllDenied(s.fifo, polls) && r.fifo == R.AfterPolls(s.fifo, polls)
            && !Locked(r) && r.width == s.width && r.maxOt == s.maxOt && r.responses == s.responses
  {
    hide F.AfterSend, F.Consistent, Units;
    if attempts != [] {
      var init, last := attempts[..|attempts|-1], attempts[|attempts|-1];
      RefusedAreDenied(s, init);
      var r := AfterAttempts(s, init);
      F.SendAppends(r.fifo, last.t, Units(r.width, last.p.size));
      var polls := Polls(s.width, attempts);
      assert polls[..|polls|-1] == Polls(s.width, init);
    }
  }

  /** A slave that refuses for want of bandwidth, not by its limit.  With exact rounding, and
      whatever other requests it refuses in between: if the request fits next to what is in
      flight, the time told suffices, and one more than a period before it does not;
      otherwise waiting does not help, and the requester is told the time of the oldest
      response, or 0. */
  lemma BandwidthHint(s: SlaveState, t: nat, p: Packet, before: int, attempts: seq<Attempt>, later: nat, hint: int)
    requires Lockstep(s) && !Locked(s) && s.fifo.time <= t && p.size > 0
    requires R.SelfActivated(s.fifo) && FifoRate.Exact(s.fifo.rate, s.fifo.period)
    requires !AfterReceive(s, t, p, before).ok
    requires AllRefused(AfterRequest(s, t, p), attempts)
    requires AfterAttempts(AfterRequest(s, t, p), attempts).fifo.time <= later
    ensures var r, now := AfterReceive(s, t, p, before), AfterAttempts(AfterRequest(s, t, p), attempts);
            && r.s == AfterRequest(s, t, p)
            && var again := AfterReceive(now, later, p, hint);
               if Units(s.width, p.size) + r.s.fifo.inFlight > s.maxOt * s.width then
                 !again.ok && r.next == if s.responses == [] then 0 else s.responses[0].time
               else
                 && r.next > t
                 && (later >= r.next ==> again.ok)
                 && (later + s.fifo.period + 1 <= r.next ==> !again.ok)
  {
    hide F.AfterUpdate, F.Sum, F.NextTransmissionTime, R.OnGrid, FifoRate.Exact, Units, R.Elapsed, FifoRate.WholeBytes;
    var data := Units(s.width, p.size);
    UnitsBounds(s.width, p.size);
    R.FirstDenied(s.fifo, t, data);
    var g := F.AfterSend(s.fifo, t, data).f;
    F.SendAppends(s.fifo, t, data);
    RefusedAreDenied(AfterRequest(s, t, p), attempts);
    R.PollsThenRequest(g, Polls(s.width, attempts), later, data);
    if R.Floor(g, data) <= 0 {
      R.PredictionMeaning(g, data, later);
    } else {
      R.NothingPredicted(g, data);
    }
  }

  /** Which it is in every run, if its rate is exact. */
  lemma {:induction false} RunActivated(ops: seq<Op>, ws: seq<World>, maxOt: nat, width: nat, latency: nat, rate: nat,
                                        period: nat, k: nat)
    requires Run(ops, ws) && k < |ws| && Begins(ws[0], maxOt, width, latency, rate, period)
    requires maxOt > 0 && rate > 0 && FifoRate.Exact(rate, period)
    ensures R.SelfActivated(ws[k].s.fifo) && FifoRate.Exact(ws[k].s.fifo.rate, ws[k].s.fifo.period)
  {
    hide Sound, Step, FifoRate.Exact, R.SelfActivated;
    if k == 0 {
      assert maxOt * width > 0;
      R.FreshSelfActivated(F.READ, rate, period, 0, maxOt * width);
    } else {
      RunActivated(ops, ws, maxOt, width, latency, rate, period, k - 1);
      RunSound(ops, ws, maxOt, width, latency, rate, period, k - 1);
      assert Step(ws[k-1], ops[k-1], ws[k]);
      StepActivated(ws[k-1], ops[k-1], ws[k]);
    }
  }

  lemma StepActivated(w: World, op: Op, x: World)
    requires Sound(w) && Step(w, op, x)
    requires R.SelfActivated(w.s.fifo) && FifoRate.Exact(w.s.fifo.rate, w.s.fifo.period)
    ensures R.SelfActivated(x.s.fifo) && FifoRate.Exact(x.s.fifo.rate, x.s.fifo.period)
  {
    hide F.AfterSend, F.AfterReceive, F.Consistent, F.Sum, R.OnGrid, FifoRate.Exact, Units, Conserved, Ordered;
    match op
    case Request(t, p, hint) =>
      var data := Units(w.s.width, p.size);
      UnitsBounds(w.s.width, p.size);
      R.ActivatedBySend(w.s.fifo, t, data);
    case Poll(t, hint) =>
      if Due(w.s, t) { R.ActivatedByReceive(w.s.fifo, t, Units(w.s.width, w.s.responses[0].size)); }
    case Clear(t) => R.ActivatedAfterReset(w.s.fifo);
  }

  /** A request larger than the limit allows is refused whatever the state of the slave. */
  lemma OversizedRefused(s: SlaveState, t: nat, p: Packet, before: int)
    requires Lockstep(s) && s.fifo.time <= t && s.maxOt > 0 && Units(s.width, p.size) > s.maxOt * s.width
    ensures !AfterReceive(s, t, p, before).ok
  {
    hide F.NextTransmissionTime, Units;
    F.UpdateKeepsConfiguration(s.fifo, t);
    assert s.maxOt * s.width > 0;
  }

  /** The slave after n polls at time t. */
  ghost function Polled(s: SlaveState, t: nat, n: nat): SlaveState
    requires Lockstep(s) && s.fifo.time <= t
    decreases n
  {
    if n == 0 then s
    else
      SendKeepsLockstep(s, t, 0);
      SendTime(s, t);
      Polled(AfterSend(s, t, 0).s, t, n - 1)
  }

  lemma SendTime(s: SlaveState, t: nat)
    requires Lockstep(s) && s.fifo.time <= t
    requires Due(s, t) ==> Units(s.width, s.responses[0].size) <= F.Sum(s.fifo.ot)
    ensures AfterSend(s, t, 0).s.fifo.time <= t
  {
    hide F.AfterReceive, F.Consistent, Units;
    if Due(s, t) { SettlesFront(s.fifo, t); }
  }

  /** Polled as often as it has responses, once they are due, a slave empties its queue. */
  lemma {:induction false} PollsDrain(s: SlaveState, t: nat)
    requires Lockstep(s) && s.fifo.time <= t
    requires s.responses != [] ==> s.responses[|s.responses|-1].time <= t
    ensures Polled(s, t, |s.responses|).responses == []
    decreases |s.responses|
  {
    if s.responses != [] {
      hide F.AfterReceive, F.Consistent, Units;
      assert s.responses[0].time <= s.responses[|s.responses|-1].time;
      SendKeepsLockstep(s, t, 0);
      SendTime(s, t);
      var x := AfterSend(s, t, 0).s;
      assert x.responses == s.responses[1..];
      PollsDrain(x, t);
    }
  }
}
