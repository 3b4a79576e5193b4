/** What a master keeps over every run, resets included: its own count and the FIFO's of
    the outstanding transactions agree, the manager's exceeds them by what resets left
    behind, its limits hold, it terminates once and for good, and the packets it sends
    carry the addresses of its descriptor in order. */
module MasterRuns {
  import opened Basics
  import opened MasterModel
  import F = FifoModel
  import P = PacketDescModel

  // ---------------------------------------------------------------- invariant

  /** Three records of what is outstanding; resets left `stranded` UIDs in the table. */
  ghost predicate Accounts(m: MasterState, table: Table, stranded: nat) {
    && |m.fifo.ot| == m.ot
    && |Registered(table, m.config.id)| == m.ot + stranded
    && (forall i :: 0 <= i < |m.fifo.ot| ==> m.fifo.ot[i] == m.config.size)
    && (!m.config.acknowledged ==> m.ot == 0)
    && UidsUsed(table)
  }

  predicate Limits(m: MasterState) {
    && (m.config.maxOt > 0 ==> m.ot <= m.config.maxOt)
    && (m.config.toSend > 0 ==> m.sent <= m.config.toSend)
  }

  /** Termination is fired once, with nothing outstanding and nothing left to do; a packet
      is pending only while there is data left to send. */
  predicate Lifecycle(m: MasterState, now: nat) {
    && (m.terminated ==> m.ot == 0 && m.started && AtEnd(m, now))
    && (m.sent > 0 ==> m.started)
    && m.fired[TERMINATION] == (if m.terminated then 1 else 0)
    && m.fired[ACTIVATION] == (if m.started then 1 else 0)
    && (Fresh(m) ==> !EndOfData(m))
  }

  /** Every packet sent, and the one pending, took the next address of the descriptor. */
  ghost predicate InOrder(m: MasterState, d: P.Desc) {
    && |m.addresses| == m.sent
    && (forall i :: 0 <= i < m.sent ==> m.addresses[i] == P.Address(d, i))
    && (Fresh(m) ==> m.pending.value == P.Address(d, m.sent))
    && m.desc == P.Iterate(d, if Fresh(m) then m.sent + 1 else m.sent)
    && (m.freed ==> m.pending.Some?)
  }

  /** A packet is pending, and it has not been freed. */
  predicate Fresh(m: MasterState) {
    m.pending.Some? && !m.freed
  }

  /** A reset finds room for the configured start level. */
  predicate Restartable(f: F.FifoState) {
    f.maxLevel > 0 ==> f.startupLevel <= f.maxLevel
  }

  ghost predicate Sound(w: World) {
    SoundAt(w.m, w.table, w.now, w.origin, w.stranded)
  }

  ghost predicate SoundAt(m: MasterState, table: Table, t: nat, d: P.Desc, stranded: nat) {
    && Ready(m, t) && Restartable(m.fifo)
    && Accounts(m, table, stranded) && Limits(m) && Lifecycle(m, t) && InOrder(m, d)
  }

  // ---------------------------------------------------------------------- runs

  /** A master, the table it shares with the other profiles, the time, and whether one of
      the program's error messages was reached, or a freed packet used; then what the
      proofs remember: the descriptor as the last start left it, and the UIDs that resets
      left behind. */
  datatype World = World(m: MasterState, table: Table, now: nat, error: bool, misused: bool, origin: P.Desc,
                         stranded: nat)

  /** The master is polled, gets the response to one of its packets, gets an event, or is
      reset; or the other profiles change the table. */
  datatype Op =
    | Poll(t: nat)
    | Response(t: nat, uid: nat)
    | Notice(t: nat, waits: nat, halted: bool)
    | Reset(t: nat, waits: nat)
    | Others(table: Table)

  /** A freed packet is sent, or freed once more: from there on anything may happen. */
  predicate Uses(w: World, op: Op) {
    w.m.freed && match op
                 case Poll(t) => AfterActive(w.m, t).active
                 case Reset(_, _) => w.m.pending.Some?
                 case _ => false
  }

  ghost predicate Step(w: World, op: Op, x: World) {
    && !w.misused
    && match op
       case Poll(t) =>
         && w.now <= t && Ready(w.m, t)
         && var s := AfterSend(w.m, w.table, t);
            if s.misused then x == w.(now := t, misused := true)
            else x == w.(m := s.m, table := s.table, now := t, error := w.error || s.breached)
       case Response(t, uid) =>
         && w.now <= t && Ready(w.m, t) && uid in Registered(w.table, w.m.config.id)
         && (w.m.fifo.ot == [] || w.m.config.size <= F.Sum(w.m.fifo.ot))
         && var r := AfterReceive(w.m, w.table, t, uid, w.m.config.size, true);
            x == w.(m := r.m, table := r.table, now := t,
                    error := w.error || r.negative || F.AfterReceive(w.m.fifo, t, w.m.config.size).unexpected)
       case Notice(t, waits, halted) =>
         w.now <= t && x == w.(m := AfterEvent(w.m, t, waits, halted), now := t)
       case Reset(t, waits) =>
         && w.now <= t
         && if w.m.pending.Some? && w.m.freed then x == w.(now := t, misused := true)
            else x == w.(m := AfterReset(w.m, waits), now := t, origin := P.AfterReset(w.origin),
                         stranded := w.stranded + w.m.ot)
       case Others(table) =>
         && UidsUsed(table) && Registered(table, w.m.config.id) == Registered(w.table, w.m.config.id)
         && x == w.(table := table)
  }

  ghost predicate Run(ops: seq<Op>, ws: seq<World>) {
    |ws| == |ops| + 1 && forall i :: 0 <= i < |ops| ==> Step(ws[i], ops[i], ws[i+1])
  }

  ghost predicate Start(w: World) {
    exists c, f: F.FifoState, waits ::
      && w.m == Created(c, f, w.origin, waits, w.now) && c.size > 0
      && F.Consistent(f) && Restartable(f) && f.ot == [] && f.time <= w.now
      && UidsUsed(w.table) && Registered(w.table, c.id) == {} && !w.error && !w.misused && w.stranded == 0
  }

  // -------------------------------------------------------------------- table

  lemma Registers(table: Table, c: Config)
    requires UidsUsed(table)
    ensures UidsUsed(Awaiting(table, c))
    ensures |Registered(Awaiting(table, c), c.id)|
         == |Registered(table, c.id)| + if c.acknowledged then 1 else 0
  {
    var after := Registered(Awaiting(table, c), c.id);
    assert after == Registered(table, c.id) + if c.acknowledged then {table.currentUid} else {};
  }

  lemma Signals(table: Table, id: nat, uid: nat)
    requires UidsUsed(table) && uid in Registered(table, id)
    ensures UidsUsed(WithSignal(table, uid))
    ensures |Registered(WithSignal(table, uid), id)| == |Registered(table, id)| - 1
  {
    assert Registered(WithSignal(table, uid), id) == Registered(table, id) - {uid};
  }

  // --------------------------------------------------------------------- FIFO

  /** A whole response settles the oldest transaction, whichever it answers. */
  lemma WholeResponse(f: F.FifoState, t: nat, size: nat)
    requires F.Consistent(f) && f.time <= t && f.ot != [] && f.ot[0] == size > 0
    ensures size <= F.Sum(f.ot)
    ensures var r := F.AfterReceive(f, t, size);
            r.whole && !r.unexpected && r.f.ot == f.ot[1..] && F.Consistent(r.f) && r.f.time == t
  {
    F.SettleWhole(f.ot);
    F.ReceiveKeepsConsistent(f, t, size);
  }

  lemma SendKeepsConfiguration(f: F.FifoState, t: nat, data: nat)
    requires F.Consistent(f) && f.time <= t
    ensures var g := F.AfterSend(f, t, data).f; g.startupLevel == f.startupLevel && g.maxLevel == f.maxLevel
  {
    hide F.AfterUpdate, F.Fits, F.NextTransmissionTime, F.Sum;
    F.UpdateKeepsConfiguration(f, t);
  }

  lemma ReceiveKeepsConfiguration(f: F.FifoState, t: nat, data: nat)
    requires F.Consistent(f) && f.time <= t && data <= F.Sum(f.ot)
    ensures var g := F.AfterReceive(f, t, data).f; g.startupLevel == f.startupLevel && g.maxLevel == f.maxLevel
  {
    hide F.AfterUpdate, F.Settle, F.Sum;
    F.UpdateKeepsConfiguration(if f.ot == [] then f else F.Arrived(f, data), t);
  }

  // ----------------------------------------------------------------- lifecycle

  /** Being polled keeps the accounts and the limits; afterwards the master has
      terminated exactly if it is at its end with nothing outstanding. */
  lemma ActiveKeeps(m: MasterState, now: nat, before: nat)
    requires Lifecycle(m, before) && before <= now
    ensures var a := AfterActive(m, now);
            && Lifecycle(a.m, now)
            && a.m == m.(terminated := a.m.terminated, halted := a.m.halted, fired := a.m.fired,
                         started := a.m.started, startTime := a.m.startTime)
            && (a.m.terminated <==> AtEnd(m, now) && m.ot == 0)
            && (a.active ==> a.m.started && !a.m.terminated && !EndOfData(a.m)
                             && (m.config.maxOt > 0 ==> m.ot < m.config.maxOt))
  {
  }

  /** A master that is neither active nor locked has terminated: the source's other
      answer for this case, one FIFO period later, is never given. */
  lemma IdleMeansTerminated(m: MasterState, now: nat)
    ensures var a := AfterActive(m, now);
            !a.active && !a.locked ==> a.m.terminated && AtEnd(m, now)
  {
  }

  lemma AnnounceKeeps(m: MasterState, ok: bool, now: nat)
    requires Lifecycle(m, now)
    ensures Lifecycle(Announce(m, ok), now)
    ensures Announce(m, ok) == m.(fired := Announce(m, ok).fired)
  {
  }

  // --------------------------------------------------------------------- sending

  lemma PacketInOrder(m: MasterState, d: P.Desc)
    requires InOrder(m, d) && !m.freed
    ensures InOrder(WithPacket(m), d) && Fresh(WithPacket(m))
  {
    hide P.AfterGet;
  }

  lemma TransmitKeeps(m: MasterState, table: Table, t: nat, d: P.Desc, stranded: nat)
    requires SoundAt(m, table, t, d, stranded) && MaySend(m)
    requires F.AfterSend(m.fifo, t, m.config.size).ok && Fresh(m)
    ensures SoundAt(Transmit(m, t), Awaiting(table, m.config), t, d, stranded)
  {
    hide F.AfterSend, F.AfterReceive, F.Consistent, P.Iterate, P.Address, Awaiting, AtEnd, Registered, UidsUsed, InOrder;
    Registers(table, m.config);
    BookedFifo(m, t);
    TransmitInOrder(m, t, d);
  }

  lemma BookedFifo(m: MasterState, t: nat)
    requires Ready(m, t) && F.AfterSend(m.fifo, t, m.config.size).ok
    requires !m.config.acknowledged ==> m.fifo.ot == []
    ensures F.Consistent(Booked(m, t)) && Booked(m, t).time == t
    ensures Booked(m, t).ot == if m.config.acknowledged then m.fifo.ot + [m.config.size] else []
    ensures Restartable(m.fifo) ==> Restartable(Booked(m, t))
  {
    hide F.AfterSend, F.AfterReceive;
    F.SendAppends(m.fifo, t, m.config.size);
    SendKeepsConfiguration(m.fifo, t, m.config.size);
    if !m.config.acknowledged {
      var f := F.AfterSend(m.fifo, t, m.config.size).f;
      WholeResponse(f, t, m.config.size);
      ReceiveKeepsConfiguration(f, t, m.config.size);
    }
  }

  lemma TransmitInOrder(m: MasterState, t: nat, d: P.Desc)
    requires Fresh(m) && Ready(m, t) && F.AfterSend(m.fifo, t, m.config.size).ok && InOrder(m, d)
    ensures InOrder(Transmit(m, t), d)
  {
    hide F.AfterSend, F.AfterReceive, F.Consistent, P.Iterate, P.Address, Booked;
  }

  lemma DeniedKeeps(m: MasterState, t: nat)
    requires Ready(m, t) && !F.AfterSend(m.fifo, t, m.config.size).ok
    ensures var f := F.AfterSend(m.fifo, t, m.config.size).f;
            Ready(m.(fifo := f), t) && f.ot == m.fifo.ot && (Restartable(m.fifo) ==> Restartable(f))
  {
    hide F.AfterSend;
    F.SendAppends(m.fifo, t, m.config.size);
    SendKeepsConfiguration(m.fifo, t, m.config.size);
  }

  /** A master may send: it runs, and its limits leave room for one more packet. */
  predicate MaySend(m: MasterState) {
    m.started && !m.terminated && !EndOfData(m) && (m.config.maxOt > 0 ==> m.ot < m.config.maxOt)
  }

  /** Offering a packet to the FIFO, accepted or denied. */
  lemma OfferKeeps(m: MasterState, table: Table, t: nat, d: P.Desc, stranded: nat)
    requires SoundAt(m, table, t, d, stranded) && MaySend(m) && !m.freed
    ensures var w := WithPacket(m);
            && Ready(w, t)
            && var s := F.AfterSend(w.fifo, t, w.config.size);
               if s.ok then
                 && SoundAt(Transmit(w, t), Awaiting(table, m.config), t, d, stranded)
                 && (m.config.toSend > 0 ==> Transmit(w, t).sent <= m.config.toSend)
               else SoundAt(w.(fifo := s.f), table, t, d, stranded)
  {
    hide F.AfterSend, P.AfterGet, P.Iterate, P.Address, Awaiting, AtEnd, Transmit, WithPacket, Registered, UidsUsed,
         F.Consistent;
    var w := WithPacket(m);
    PacketInOrder(m, d);
    PacketKeeps(m, t);
    PacketFields(m);
    ConsistentReady(w.fifo);
    if F.AfterSend(w.fifo, t, w.config.size).ok {
      TransmitKeeps(w, table, t, d, stranded);
      TransmitFields(w, t);
    } else {
      DeniedKeeps(w, t);
      AtEndFields(w, w.(fifo := F.AfterSend(w.fifo, t, w.config.size).f));
    }
  }

  lemma PacketFields(m: MasterState)
    ensures WithPacket(m) == m.(pending := WithPacket(m).pending, desc := WithPacket(m).desc)
    ensures EndOfData(WithPacket(m)) == EndOfData(m)
    ensures forall now :: AtEnd(WithPacket(m), now) == AtEnd(m, now)
  {
  }

  lemma ConsistentReady(f: F.FifoState)
    requires F.Consistent(f)
    ensures f.period > 0 && f.firstActivationTime <= f.time && (f.maxLevel > 0 ==> f.level <= f.maxLevel)
  {
  }

  lemma AtEndFields(m: MasterState, w: MasterState)
    requires w.config == m.config && w.sent == m.sent && w.started == m.started && w.startTime == m.startTime
    ensures forall now :: AtEnd(w, now) == AtEnd(m, now)
    ensures EndOfData(w) == EndOfData(m)
  {
  }

  lemma TransmitFields(m: MasterState, t: nat)
    requires Ready(m, t) && F.AfterSend(m.fifo, t, m.config.size).ok && m.pending.Some?
    ensures Transmit(m, t).config == m.config && Transmit(m, t).sent == m.sent + 1
  {
    hide F.AfterSend, F.AfterReceive;
  }

  lemma AnnounceSound(m: MasterState, table: Table, ok: bool, t: nat, d: P.Desc, stranded: nat)
    requires SoundAt(m, table, t, d, stranded)
    ensures SoundAt(Announce(m, ok), table, t, d, stranded) && Announce(m, ok).config == m.config
  {
    hide F.Consistent, P.Address, P.Iterate, Registered, UidsUsed;
    AnnounceKeeps(m, ok, t);
  }

  lemma ActiveSound(w: World, t: nat)
    requires Sound(w) && w.now <= t
    ensures SoundAt(AfterActive(w.m, t).m, w.table, t, w.origin, w.stranded) && AfterActive(w.m, t).m.config == w.m.config
    ensures AfterActive(w.m, t).active ==> MaySend(AfterActive(w.m, t).m)
  {
    hide F.Consistent, P.Address, P.Iterate, Registered, UidsUsed, AfterActive;
    ActiveKeeps(w.m, t, w.now);
  }

  lemma PollKeeps(w: World, t: nat)
    requires Sound(w) && w.now <= t && !AfterSend(w.m, w.table, t).misused
    ensures var s := AfterSend(w.m, w.table, t);
            !s.breached && SoundAt(s.m, s.table, t, w.origin, w.stranded) && s.m.config == w.m.config
  {
    hide F.AfterSend, F.Consistent, Accounts, Limits, Lifecycle, InOrder, Awaiting, AfterActive, Transmit, WithPacket, Announce;
    ActiveSound(w, t);
    ActiveKeeps(w.m, t, w.now) by { assert Lifecycle(w.m, w.now); }
    var a := AfterActive(w.m, t);
    if a.active {
      OfferKeeps(a.m, w.table, t, w.origin, w.stranded);
      PacketFields(a.m);
      var x := WithPacket(a.m);
      ConsistentReady(x.fifo);
      var s := F.AfterSend(x.fifo, t, x.config.size);
      if s.ok {
        TransmitFields(x, t);
        AnnounceSound(Transmit(x, t), Awaiting(w.table, a.m.config), true, t, w.origin, w.stranded);
      } else {
        AnnounceSound(x.(fifo := s.f), w.table, false, t, w.origin, w.stranded);
      }
    } else {
      AnnounceSound(a.m, w.table, false, t, w.origin, w.stranded);
    }
  }

  // ------------------------------------------------------- responses and events

  /** A response while something is outstanding: it is booked, its UID is forgotten, and
      the errors of a response to nothing do not occur. */
  lemma ResponseKeeps(w: World, t: nat, uid: nat)
    requires Sound(w) && w.now <= t && uid in Registered(w.table, w.m.config.id) && w.m.ot > 0
    ensures w.m.config.size <= F.Sum(w.m.fifo.ot)
    ensures var r := AfterReceive(w.m, w.table, t, uid, w.m.config.size, true);
            && r.ok && !r.negative && !F.AfterReceive(w.m.fifo, t, w.m.config.size).unexpected
            && SoundAt(r.m, r.table, t, w.origin, w.stranded) && r.m.config == w.m.config
            && r.m.ot == w.m.ot - 1 && uid !in r.table.waited
            && (r.m.terminated <==> AtEnd(w.m, t) && w.m.ot == 1)
  {
    hide F.AfterReceive, F.Consistent, P.Iterate, P.Address, AtEnd, EndOfData, AfterActive;
    WholeResponse(w.m.fifo, t, w.m.config.size);
    ReceiveKeepsConfiguration(w.m.fifo, t, w.m.config.size);
    ConsistentReady(w.m.fifo);
    Signals(w.table, w.m.config.id, uid);
    var x := w.m.(fifo := F.AfterReceive(w.m.fifo, t, w.m.config.size).f, ot := w.m.ot - 1);
    AtEndFields(w.m, x);
    ActiveKeeps(x, t, w.now);
  }

  /** A response while nothing is outstanding, to a packet sent before a reset: the FIFO
      reports it as an error, and its UID stays in the table. */
  lemma LateResponseKeeps(w: World, t: nat, uid: nat)
    requires Sound(w) && w.now <= t && uid in Registered(w.table, w.m.config.id) && w.m.ot == 0
    ensures w.stranded > 0 && w.m.fifo.ot == []
    ensures var r := AfterReceive(w.m, w.table, t, uid, w.m.config.size, true);
            && !r.negative && F.AfterReceive(w.m.fifo, t, w.m.config.size).unexpected
            && SoundAt(r.m, r.table, t, w.origin, w.stranded) && r.m.config == w.m.config
            && r.m.ot == 0 && r.m.sent == w.m.sent && r.table == w.table
  {
    hide F.AfterReceive, F.Consistent, P.Iterate, P.Address, AtEnd, EndOfData, AfterActive;
    NotEmpty(Registered(w.table, w.m.config.id), uid);
    ConsistentReady(w.m.fifo);
    UnexpectedResponse(w.m.fifo, t, w.m.config.size);
    var x := w.m.(fifo := F.AfterReceive(w.m.fifo, t, w.m.config.size).f);
    AtEndFields(w.m, x);
    ActiveKeeps(x, t, w.now);
  }

  lemma UnexpectedResponse(f: F.FifoState, t: nat, size: nat)
    requires F.Consistent(f) && f.time <= t && f.ot == [] && size > 0
    ensures var r := F.AfterReceive(f, t, size);
            && !r.whole && r.unexpected && F.Consistent(r.f) && r.f.time == t && r.f.ot == []
            && (Restartable(f) ==> Restartable(r.f))
  {
    F.UpdateKeepsConsistent(f, t);
  }

  lemma NotEmpty<T>(s: set<T>, x: T)
    requires x in s
    ensures |s| > 0
  {
  }

  lemma NoticeKeeps(w: World, t: nat, waits: nat, halted: bool)
    requires Sound(w) && w.now <= t
    ensures SoundAt(AfterEvent(w.m, t, waits, halted), w.table, t, w.origin, w.stranded)
    ensures AfterEvent(w.m, t, waits, halted).config == w.m.config
  {
    hide F.Consistent, P.Address, P.Iterate, Registered, UidsUsed;
  }

  lemma {:induction false} IterateKeepsConfiguration(d: P.Desc, n: nat)
    ensures P.AfterReset(P.Iterate(d, n)) == P.AfterReset(d)
  {
    if n > 0 { IterateKeepsConfiguration(d, n - 1); }
  }

  /** A reset starts the master over; what was outstanding stays in the table. */
  lemma ResetKeeps(w: World, t: nat, waits: nat)
    requires Sound(w) && w.now <= t && !w.m.freed
    ensures SoundAt(AfterReset(w.m, waits), w.table, t, P.AfterReset(w.origin), w.stranded + w.m.ot)
    ensures AfterReset(w.m, waits).config == w.m.config
  {
    hide P.AfterReset, P.Address, P.Iterate, Registered, UidsUsed, F.AfterReset;
    ResetFifo(w.m.fifo);
    ResetDescriptor(w.m, w.origin);
    var first := P.Iterate(P.AfterReset(w.origin), 0);
    assert first == P.AfterReset(w.origin) by { NoneYet(P.AfterReset(w.origin)); }
  }

  lemma NoneYet(d: P.Desc)
    ensures P.Iterate(d, 0) == d
  {
  }

  lemma ResetDescriptor(m: MasterState, d: P.Desc)
    requires InOrder(m, d)
    ensures P.AfterReset(m.desc) == P.AfterReset(d)
  {
    hide P.AfterReset, P.Iterate;
    IterateKeepsConfiguration(d, if Fresh(m) then m.sent + 1 else m.sent);
  }

  lemma ResetFifo(f: F.FifoState)
    requires F.Consistent(f) && Restartable(f)
    ensures F.Consistent(F.AfterReset(f)) && Restartable(F.AfterReset(f))
    ensures F.AfterReset(f).ot == [] && F.AfterReset(f).time == 0
  {
  }

  // ---------------------------------------------------------------- whole runs

  /** A freed packet is used exactly in the steps that do: then nothing else is said. */
  lemma StepMisuses(w: World, op: Op, x: World)
    requires Sound(w) && Step(w, op, x)
    ensures x.misused <==> Uses(w, op)
    ensures x.misused ==> x == w.(now := x.now, misused := true) && w.now <= x.now
    ensures op.Reset? && !x.misused ==> !w.m.freed && x.m.freed == w.m.pending.Some? && x.m.pending == w.m.pending
    ensures !op.Reset? && !x.misused ==> x.m.freed == w.m.freed
  {
    hide F.AfterSend, F.AfterReceive, F.Consistent, P.AfterGet, P.Address, P.Iterate, Registered, UidsUsed, Awaiting, Booked;
    match op
    case Poll(t) => ActiveKeeps(w.m, t, w.now);
    case Response(t, uid) =>
    case Notice(t, waits, halted) =>
    case Reset(t, waits) =>
    case Others(table) =>
  }

  lemma StillSound(w: World, now: nat)
    requires Sound(w) && w.now <= now
    ensures Sound(w.(now := now, misused := true))
  {
    hide F.Consistent, P.Address, P.Iterate, Registered, UidsUsed;
  }

  lemma StepKeepsSound(w: World, op: Op, x: World)
    requires Sound(w) && Step(w, op, x)
    ensures Sound(x) && x.now >= w.now && x.m.config == w.m.config
    ensures x.error == (w.error || (op.Response? && w.m.ot == 0))
    ensures !x.misused ==> x.stranded == w.stranded + if op.Reset? then w.m.ot else 0
    ensures x.misused ==> x.stranded == w.stranded && x.m == w.m && x.origin == w.origin
    ensures op.Response? && w.m.ot == 0 ==> w.stranded > 0
  {
    StepMisuses(w, op, x);
    hide AfterSend, AfterReceive, AfterReset, F.Consistent, InOrder, Lifecycle, Limits, P.AfterReset, Uses;
    if x.misused {
      StillSound(w, x.now);
    } else {
      match op
      case Poll(t) => PollKeeps(w, t);
      case Response(t, uid) => if w.m.ot > 0 { ResponseKeeps(w, t, uid); } else { LateResponseKeeps(w, t, uid); }
      case Notice(t, waits, halted) => NoticeKeeps(w, t, waits, halted);
      case Reset(t, waits) => ResetKeeps(w, t, waits);
      case Others(table) =>
    }
  }

  lemma StartSound(w: World)
    requires Start(w)
    ensures Sound(w)
  {
  }

  /** Over every run, with resets at any moment: the master's and the FIFO's count agree,
      the limits hold, and since its last start the packets carry the addresses of the
      descriptor in order. */
  lemma {:induction false} RunSound(ops: seq<Op>, ws: seq<World>, k: nat)
    requires Run(ops, ws) && Start(ws[0]) && k < |ws|
    ensures Sound(ws[k]) && ws[k].m.config == ws[0].m.config
    ensures !ws[k].misused ==> ws[k].origin == if NoResets(ops, k) then ws[0].origin else P.AfterReset(ws[0].origin)
    ensures ws[k].origin == ws[0].origin || ws[k].origin == P.AfterReset(ws[0].origin)
    ensures ws[k].error ==> ws[k].stranded > 0
  {
    hide Sound, Step, P.AfterReset;
    if k == 0 {
      StartSound(ws[0]);
    } else {
      RunSound(ops, ws, k - 1);
      assert Step(ws[k-1], ops[k-1], ws[k]);
      StepKeepsSound(ws[k-1], ops[k-1], ws[k]);
      OriginStep(ws[k-1], ops[k-1], ws[k], ws[0].origin);
    }
  }

  /** No reset among the first k steps. */
  predicate NoResets(ops: seq<Op>, k: nat)
    requires k <= |ops|
  {
    forall i :: 0 <= i < k ==> !ops[i].Reset?
  }

  lemma OriginStep(w: World, op: Op, x: World, d: P.Desc)
    requires Step(w, op, x)
    ensures !w.misused && x.origin == if op.Reset? && !x.misused then P.AfterReset(w.origin) else w.origin
    ensures P.AfterReset(P.AfterReset(d)) == P.AfterReset(d)
  {
    hide AfterSend, AfterReceive, AfterReset, F.Consistent;
  }

  /** The manager's table agrees with the master exactly as long as every reset came while
      nothing was outstanding; once it disagrees it does so for ever. */
  lemma AgreeIff(ops: seq<Op>, ws: seq<World>, k: nat)
    requires Run(ops, ws) && Start(ws[0]) && k < |ws| && !ws[k].misused
    ensures |Registered(ws[k].table, ws[k].m.config.id)| == ws[k].m.ot
       <==> forall i :: 0 <= i < k && ops[i].Reset? ==> ws[i].m.ot == 0
  {
    StrandedIff(ops, ws, k);
    RunSound(ops, ws, k);
    SoundMeans(ws[k]);
  }

  lemma {:induction false} StrandedIff(ops: seq<Op>, ws: seq<World>, k: nat)
    requires Run(ops, ws) && Start(ws[0]) && k < |ws| && !ws[k].misused
    ensures ws[k].stranded == 0 <==> forall i :: 0 <= i < k && ops[i].Reset? ==> ws[i].m.ot == 0
  {
    hide Sound, Step;
    if k > 0 {
      assert Step(ws[k-1], ops[k-1], ws[k]);
      OriginStep(ws[k-1], ops[k-1], ws[k], ws[0].origin);
      StrandedIff(ops, ws, k - 1);
      RunSound(ops, ws, k - 1);
      StepKeepsSound(ws[k-1], ops[k-1], ws[k]);
    }
  }

  /** An error message is reached exactly if a response arrives while the master counts
      nothing outstanding, which takes a reset that left something behind. */
  lemma {:induction false} ErrorIff(ops: seq<Op>, ws: seq<World>, k: nat)
    requires Run(ops, ws) && Start(ws[0]) && k < |ws|
    ensures ws[k].error <==> exists i :: 0 <= i < k && ops[i].Response? && ws[i].m.ot == 0
    ensures ws[k].error ==> exists i :: 0 <= i < k && ops[i].Reset? && ws[i].m.ot > 0
  {
    hide Sound, Step;
    if k > 0 {
      ErrorIff(ops, ws, k - 1);
      RunSound(ops, ws, k - 1);
      assert Step(ws[k-1], ops[k-1], ws[k]);
      OriginStep(ws[k-1], ops[k-1], ws[k], ws[0].origin);
      StepKeepsSound(ws[k-1], ops[k-1], ws[k]);
      StrandedIff(ops, ws, k - 1);
    }
  }

  /** Nothing more is sent or outstanding after termination. */
  predicate Over(m: MasterState, x: MasterState) {
    m.terminated ==> x.terminated && x.ot == 0 && x.sent == m.sent && x.addresses == m.addresses
  }

  lemma StepStaysOver(w: World, op: Op, x: World)
    requires Sound(w) && Step(w, op, x) && !op.Reset?
    ensures Over(w.m, x.m)
  {
    hide F.Consistent, F.AfterSend, F.AfterReceive, InOrder, P.Iterate, P.Address;
    match op
    case Poll(t) => if w.m.terminated { TerminatedPoll(w.m, w.table, t, w.now); }
    case Response(t, uid) =>
      if w.m.terminated {
        LateResponseKeeps(w, t, uid);
      }
    case Notice(t, waits, halted) =>
    case Others(table) =>
  }

  lemma TerminatedPoll(m: MasterState, table: Table, t: nat, before: nat)
    requires Ready(m, t) && Lifecycle(m, before) && before <= t && m.terminated
    ensures var s := AfterSend(m, table, t); !s.ok && s.m == m && s.table == table
  {
    hide F.Consistent;
  }

  /** Termination is for good until a reset: after it nothing is outstanding and nothing
      more is sent. */
  lemma {:induction false} TerminatedForever(ops: seq<Op>, ws: seq<World>, j: nat, k: nat)
    requires Run(ops, ws) && Start(ws[0]) && j <= k < |ws| && ws[j].m.terminated
    requires forall i :: j <= i < k ==> !ops[i].Reset?
    ensures Over(ws[j].m, ws[k].m)
  {
    hide Sound, Step;
    if j == k {
      RunSound(ops, ws, k);
      assert ws[k].m.ot == 0 by { SoundMeans(ws[k]); }
    } else {
      TerminatedForever(ops, ws, j, k - 1);
      RunSound(ops, ws, k - 1);
      assert Step(ws[k-1], ops[k-1], ws[k]);
      StepStaysOver(ws[k-1], ops[k-1], ws[k]);
    }
  }

  lemma SoundMeans(w: World)
    requires Sound(w)
    ensures w.m.terminated ==> w.m.ot == 0
    ensures w.m.config.toSend > 0 ==> w.m.sent <= w.m.config.toSend
    ensures |w.m.addresses| == w.m.sent
    ensures forall i :: 0 <= i < w.m.sent ==> w.m.addresses[i] == P.Address(w.origin, i)
    ensures |Registered(w.table, w.m.config.id)| == w.m.ot + w.stranded
  {
    hide P.Address, P.Iterate;
  }

  /** A master limited to toSend packets, whose descriptor was given the range computed
      for them, sends the addresses of the unlimited sequence after every start: every one
      in its window, none wrapped, whatever else happens. */
  lemma LimitedAddresses(ops: seq<Op>, ws: seq<World>, k: nat, i: nat)
    requires Run(ops, ws) && Start(ws[0]) && k < |ws| && i < |ws[k].m.addresses|
    requires var d, toSend := ws[0].origin, ws[0].m.config.toSend;
             && toSend > 0 && P.Regular(d) && P.AtStart(d) && P.Computable(d)
             && P.ExactRange(d, toSend) < P.U64 && d.range == P.NewRange(d, toSend)
    ensures P.Regular(ws[k].origin) && P.AtStart(ws[k].origin)
    ensures ws[k].m.addresses[i] == P.Unwrapped(ws[k].origin, i)
    ensures ws[0].origin.base <= ws[k].m.addresses[i] < ws[0].origin.base + ws[0].origin.range
  {
    hide Sound, Step, P.Address, P.Unwrapped, P.Regular, P.Computable, P.ExactRange, P.NewRange;
    RunSound(ops, ws, k);
    SoundMeans(ws[k]);
    ResetCalculates(ws[0].origin, ws[0].m.config.toSend);
    P.AutoRangeSuffices(ws[k].origin, ws[0].m.config.toSend, i);
  }

  /** What the range calculator reads, a reset keeps. */
  lemma ResetCalculates(d: P.Desc, toSend: nat)
    requires P.Regular(d) && P.Computable(d)
    ensures var r := P.AfterReset(d);
            && P.Regular(r) && P.Computable(r) && P.AtStart(r) && r.base == d.base && r.range == d.range
            && P.ExactRange(r, toSend) == P.ExactRange(d, toSend) && P.NewRange(r, toSend) == P.NewRange(d, toSend)
  {
  }

  /** A reset does not clear the table: the accounts survive it exactly if nothing was
      outstanding. */
  lemma ResetKeepsAccountsIff(m: MasterState, table: Table, waits: nat, stranded: nat)
    requires Accounts(m, table, stranded)
    ensures Accounts(AfterReset(m, waits), table, stranded) <==> m.ot == 0
  {
  }

  // ------------------------------------------------- a reset after the stop time

  /** The start time survives a reset.  So a master reset without waits terminates at its
      next poll, nothing sent, exactly if its time to stop is over. */
  lemma ResetTooLateIff(m: MasterState, waits: nat, t: nat)
    ensures AfterActive(AfterReset(m, waits), t).m.terminated
       <==> waits == 0 && m.config.toStop > 0 && t >= m.startTime + m.config.toStop
  {
    hide F.AfterReset, P.AfterReset;
  }

  /** Reset without waits when its time is over. */
  predicate Spent(w: World) {
    && w.m.started && w.m.config.toStop > 0 && w.now >= w.m.startTime + w.m.config.toStop
    && w.m.sent == 0 && w.m.addresses == []
  }

  lemma StepStaysSpent(w: World, op: Op, x: World)
    requires Spent(w) && Step(w, op, x) && !op.Reset?
    ensures Spent(x)
  {
    hide F.Consistent, F.AfterSend, F.AfterReceive, P.AfterGet, Awaiting, Transmit;
  }

  /** Such a master sends nothing until it is reset again, in every run. */
  lemma {:induction false} ResetTooLateSendsNothing(ops: seq<Op>, ws: seq<World>, i: nat, k: nat)
    requires Run(ops, ws) && i < k < |ws| && ops[i].Reset? && ops[i].waits == 0 && !ws[i+1].misused
    requires forall j :: i < j < k ==> !ops[j].Reset?
    requires ws[i].m.config.toStop > 0 && ops[i].t >= ws[i].m.startTime + ws[i].m.config.toStop
    ensures Spent(ws[k])
  {
    hide Step, Spent;
    assert Step(ws[k-1], ops[k-1], ws[k]);
    if i + 1 == k {
      SpentAfterReset(ws[i], ops[i], ws[k]);
    } else {
      ResetTooLateSendsNothing(ops, ws, i, k - 1);
      StepStaysSpent(ws[k-1], ops[k-1], ws[k]);
    }
  }

  lemma SpentAfterReset(w: World, op: Op, x: World)
    requires Step(w, op, x) && op.Reset? && op.waits == 0 && !x.misused
    requires w.m.config.toStop > 0 && op.t >= w.m.startTime + w.m.config.toStop
    ensures Spent(x)
  {
    hide F.AfterReset, P.AfterReset;
  }

  // --------------------------------------------------- a reset with a packet pending

  lemma {:induction false} FreedByReset(ops: seq<Op>, ws: seq<World>, k: nat)
    requires Run(ops, ws) && Start(ws[0]) && k < |ws| && ws[k].m.freed
    ensures exists i :: 0 <= i < k && ops[i].Reset? && ws[i].m.pending.Some?
  {
    hide Step, Sound;
    NothingFreed(ws[0]);
    if k > 0 {
      RunSound(ops, ws, k - 1);
      assert Step(ws[k-1], ops[k-1], ws[k]);
      StepMisuses(ws[k-1], ops[k-1], ws[k]);
      if ws[k-1].m.freed { FreedByReset(ops, ws, k - 1); }
    }
  }

  lemma NothingFreed(w: World)
    requires Start(w)
    ensures !w.m.freed && !w.misused
  {
  }

  /** From a reset with a packet pending until the first use the packet stays freed. */
  lemma {:induction false} FreedUntilUsed(ops: seq<Op>, ws: seq<World>, i: nat, k: nat)
    requires Run(ops, ws) && Start(ws[0]) && i < k < |ws| && ops[i].Reset? && ws[i].m.pending.Some?
    ensures ws[k].misused || ws[k].m.freed
  {
    hide Step, Sound;
    RunSound(ops, ws, k - 1);
    assert Step(ws[k-1], ops[k-1], ws[k]);
    StepMisuses(ws[k-1], ops[k-1], ws[k]);
    if i < k - 1 {
      FreedUntilUsed(ops, ws, i, k - 1);
      OriginStep(ws[k-1], ops[k-1], ws[k], ws[0].origin);
    }
  }

  /** A freed packet is used if and only if, after a reset that came with a packet pending,
      the master is polled while active, or reset again. */
  lemma MisusedIff(ops: seq<Op>, ws: seq<World>, k: nat)
    requires Run(ops, ws) && Start(ws[0]) && k < |ws|
    ensures ws[k].misused <==>
              exists i, j :: 0 <= i < j < k && ops[i].Reset? && ws[i].m.pending.Some? && PollsOrResets(ws[j], ops[j])
  {
    hide Step, Sound, PollsOrResets;
    NothingFreed(ws[0]);
    if ws[k].misused {
      RunSound(ops, ws, k - 1);
      assert Step(ws[k-1], ops[k-1], ws[k]);
      OriginStep(ws[k-1], ops[k-1], ws[k], ws[0].origin);
      StepMisuses(ws[k-1], ops[k-1], ws[k]);
      UseMeans(ws[k-1], ops[k-1]);
      FreedByReset(ops, ws, k - 1);
    }
    if i, j :| 0 <= i < j < k && ops[i].Reset? && ws[i].m.pending.Some? && PollsOrResets(ws[j], ops[j]) {
      FreedUntilUsed(ops, ws, i, j);
      RunSound(ops, ws, j);
      assert Step(ws[j], ops[j], ws[j+1]);
      OriginStep(ws[j], ops[j], ws[j+1], ws[0].origin);
      StepMisuses(ws[j], ops[j], ws[j+1]);
      FreedPending(ws[j], ops[j]);
      if j + 1 < k {
        assert Step(ws[j+1], ops[j+1], ws[j+2]);
        OriginStep(ws[j+1], ops[j+1], ws[j+2], ws[0].origin);
      }
    }
  }

  /** What uses a freed packet, if there is one. */
  predicate PollsOrResets(w: World, op: Op) {
    match op
    case Poll(t) => AfterActive(w.m, t).active
    case Reset(_, _) => true
    case _ => false
  }

  lemma UseMeans(w: World, op: Op)
    requires Uses(w, op)
    ensures PollsOrResets(w, op) && w.m.freed
  {
  }

  lemma FreedPending(w: World, op: Op)
    requires Sound(w) && w.m.freed && PollsOrResets(w, op)
    ensures Uses(w, op)
  {
    hide F.Consistent, P.Address, P.Iterate, Registered, UidsUsed;
  }

  /** A poll at the stop time terminates a master with its packet still pending. */
  lemma StopLeavesPending(m: MasterState, t: nat)
    requires m.started && !m.terminated && m.ot == 0 && m.config.toStop > 0 && t >= m.startTime + m.config.toStop
    ensures var a := AfterActive(m, t); a.m.terminated && a.m.pending == m.pending && a.m.freed == m.freed
  {
  }

  /** Without a stop time a terminated master has no packet pending. */
  lemma NoStopNothingPending(w: World)
    requires Sound(w) && w.m.terminated && w.m.config.toStop == 0
    ensures !Fresh(w.m)
  {
    hide F.Consistent, P.Address, P.Iterate, Registered, UidsUsed;
  }

  /** Resets come only after termination, as an adapter orders them. */
  predicate ResetsAfterEnd(ops: seq<Op>, ws: seq<World>)
    requires |ops| < |ws|
  {
    forall i :: 0 <= i < |ops| && ops[i].Reset? ==> ws[i].m.terminated
  }

  /** So a master without a stop time, reset only after it terminated, never uses a freed
      packet. */
  lemma {:induction false} NoStopNeverMisuses(ops: seq<Op>, ws: seq<World>, k: nat)
    requires Run(ops, ws) && Start(ws[0]) && k < |ws| && ResetsAfterEnd(ops, ws) && ws[0].m.config.toStop == 0
    ensures !ws[k].misused && !ws[k].m.freed
  {
    hide Step, Sound, Uses;
    if k == 0 {
      NothingFreed(ws[0]);
    } else {
      NoStopNeverMisuses(ops, ws, k - 1);
      RunSound(ops, ws, k - 1);
      assert Step(ws[k-1], ops[k-1], ws[k]);
      StepMisuses(ws[k-1], ops[k-1], ws[k]);
      if Uses(ws[k-1], ops[k-1]) { UseMeans(ws[k-1], ops[k-1]); }
      if ops[k-1].Reset? { NoStopNothingPending(ws[k-1]); }
    }
  }

  /** With one it may: a master with a packet pending terminates at its stop time, is reset,
      terminates again for the same reason, and the next reset frees the packet again. */
  lemma StopMisuses(w: World, t: nat) returns (ops: seq<Op>, ws: seq<World>)
    requires Sound(w) && !w.misused && Fresh(w.m) && w.m.started && !w.m.terminated && w.m.ot == 0
    requires w.m.config.toStop > 0 && t >= w.now && t >= w.m.startTime + w.m.config.toStop
    ensures Run(ops, ws) && ws[0] == w && ResetsAfterEnd(ops, ws) && ws[|ops|].misused
  {
    hide F.Consistent, F.AfterReset, F.AfterSend, P.AfterReset, P.Address, P.Iterate, Registered, UidsUsed, Accounts;
    var poll, reset := Poll(t), Reset(t, 0);
    StopLeavesPending(w.m, t);
    var s := AfterSend(w.m, w.table, t);
    var w1 := w.(m := s.m, table := s.table, now := t, error := w.error || s.breached);
    var w2 := w1.(m := AfterReset(w1.m, 0), origin := P.AfterReset(w1.origin), stranded := w1.stranded + w1.m.ot);
    StepKeepsSound(w, poll, w1);
    assert Step(w1, reset, w2);
    StepKeepsSound(w1, reset, w2);
    ResetTooLateIff(w1.m, 0, t);
    var s2 := AfterSend(w2.m, w2.table, t);
    var w3 := w2.(m := s2.m, table := s2.table, error := w2.error || s2.breached);
    StepKeepsSound(w2, poll, w3);
    var w4 := w3.(misused := true);
    ops, ws := [poll, reset, poll, reset], [w, w1, w2, w3, w4];
    FourSteps(ops, ws);
  }

  lemma FourSteps(ops: seq<Op>, ws: seq<World>)
    requires |ops| == 4 && |ws| == 5
    requires Step(ws[0], ops[0], ws[1]) && Step(ws[1], ops[1], ws[2])
    requires Step(ws[2], ops[2], ws[3]) && Step(ws[3], ops[3], ws[4])
    ensures Run(ops, ws)
  {
    hide Step;
  }

  // ---------------------------------------------------- when a master sends, spelled out

  /** A poll sends a packet if and only if the master waits for no profile, is not halted,
      has not reached its limit of outstanding transactions, has data left and time left, and
      its FIFO grants the packet. */
  lemma SendsIff(m: MasterState, table: Table, t: nat)
    requires Ready(m, t)
    ensures AfterSend(m, table, t).ok <==>
              && (m.terminated || (m.waits == 0 && !m.halted && (m.config.maxOt > 0 ==> m.ot < m.config.maxOt)))
              && (m.config.toSend > 0 ==> m.sent != m.config.toSend)
              && (m.started && m.config.toStop > 0 ==> t < m.startTime + m.config.toStop)
              && F.AfterSend(m.fifo, t, m.config.size).ok
  {
    hide F.AfterSend, P.AfterGet, Transmit, F.Reserved;
  }

  /** After every poll the master says whether it sent, once, unless it has terminated. */
  lemma AnnouncesRight(m: MasterState, table: Table, t: nat)
    requires Ready(m, t)
    ensures var s := AfterSend(m, table, t);
            && s.m.fired[UNLOCKED] == m.fired[UNLOCKED] + (if s.ok && !s.m.terminated then 1 else 0)
            && s.m.fired[LOCKED] == m.fired[LOCKED] + (if !s.ok && !s.m.terminated then 1 else 0)
  {
    hide F.AfterSend, AfterActive, WithPacket, Transmit, Awaiting, Announce, F.Reserved, F.Sum;
    var a := AfterActive(m, t);
    StatusUntouched(m, t);
    AfterPoll(m, t);
    PacketKeeps(a.m, t);
    AnnounceCounts(a.m, false);
    var w := WithPacket(a.m);
    if a.active {
      if F.AfterSend(w.fifo, t, w.config.size).ok {
        AnnounceCounts(Transmit(w, t), true);
        TransmitUntouched(w, t);
      } else {
        AnnounceCounts(w.(fifo := F.AfterSend(w.fifo, t, w.config.size).f), false);
      }
    }
  }

  lemma StatusUntouched(m: MasterState, t: nat)
    ensures var n := AfterActive(m, t).m;
            && n.fired[UNLOCKED] == m.fired[UNLOCKED] && n.fired[LOCKED] == m.fired[LOCKED]
            && WithPacket(n).fired == n.fired && WithPacket(n).terminated == n.terminated
  {
    hide P.AfterGet, AtEnd;
  }

  lemma AnnounceCounts(m: MasterState, ok: bool)
    ensures var n := Announce(m, ok);
            && n.terminated == m.terminated
            && n.fired[UNLOCKED] == m.fired[UNLOCKED] + (if ok && !m.terminated then 1 else 0)
            && n.fired[LOCKED] == m.fired[LOCKED] + (if !ok && !m.terminated then 1 else 0)
  {
  }

  lemma TransmitUntouched(w: MasterState, t: nat)
    requires w.pending.Some? && Ready(w, t) && F.AfterSend(w.fifo, t, w.config.size).ok
    ensures Transmit(w, t).fired == w.fired && Transmit(w, t).terminated == w.terminated
  {
    hide F.AfterSend, Booked, F.Reserved, F.Sum;
  }

  /** A response is followed by a poll at once, unless it was the last. */
  lemma ResponseHint(m: MasterState, table: Table, t: nat, uid: nat)
    requires Ready(m, t) && !m.terminated && (m.fifo.ot == [] || m.config.size <= F.Sum(m.fifo.ot))
    ensures var r := AfterReceive(m, table, t, uid, m.config.size, true);
            if r.m.terminated then r.next == 0 else r.next == t
  {
    hide F.AfterReceive, F.Sum, F.Reserved;
  }

  /** The errors are reported exactly where they are made: a packet more than there are to
      send, the use of a freed packet, a response with nothing outstanding. */
  lemma ErrorsReported(m: MasterState, table: Table, t: nat, uid: nat)
    requires Ready(m, t) && (m.fifo.ot == [] || m.config.size <= F.Sum(m.fifo.ot))
    ensures var s := AfterSend(m, table, t);
            && (s.misused <==> m.freed && AfterActive(m, t).active)
            && (s.breached <==> s.ok && m.config.toSend > 0 && m.sent >= m.config.toSend)
    ensures var r := AfterReceive(m, table, t, uid, m.config.size, true);
            r.negative <==> m.ot == 0 && F.AfterReceive(m.fifo, t, m.config.size).whole
  {
    hide F.AfterReceive, F.AfterSend, F.Sum, F.Reserved, AtEnd, Booked, P.AfterGet, Awaiting;
  }
}
