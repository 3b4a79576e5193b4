/** A master traffic profile: transaction accounting on top of its FIFO, its address
    generator and the manager's table of awaited responses. */
module MasterModel {
  import opened Basics
  import F = FifoModel
  import P = PacketDescModel

  // ------------------------------------------------------- awaited responses

  /** Who a response is for; responses nobody waits for are discarded. */
  datatype Owner = Discarded | Profile(id: nat)

  /** The manager's table of awaited responses by packet UID, and its UID counter. */
  datatype Table = Table(waited: map<nat, Owner>, currentUid: nat)

  function Registered(table: Table, id: nat): set<nat> {
    set uid | uid in table.waited && table.waited[uid] == Profile(id)
  }

  predicate UidsUsed(table: Table) {
    forall uid :: uid in table.waited ==> uid < table.currentUid
  }

  function WithWait(table: Table, owner: Owner, uid: nat): Table {
    if uid in table.waited then table else table.(waited := table.waited[uid := owner])
  }

  function WithSignal(table: Table, uid: nat): Table {
    table.(waited := table.waited - {uid})
  }

  class ResponseTable {
    var waited: map<nat, Owner>
    var currentUid: nat

    function State(): Table
      reads this
    {
      Table(waited, currentUid)
    }

    constructor ()
      ensures State() == Table(map[], 0)
    {
      waited, currentUid := map[], 0;
    }

    method Tag() returns (uid: nat)
      modifies this`currentUid
      ensures uid == old(currentUid) && State() == old(State()).(currentUid := uid + 1)
    {
      uid := currentUid;
      currentUid := currentUid + 1;
    }

    method Wait(owner: Owner, uid: nat)
      modifies this`waited
      ensures State() == WithWait(old(State()), owner, uid)
    {
      if uid !in waited {
        waited := waited[uid := owner];
      }
    }

    method Signal(uid: nat)
      modifies this`waited
      ensures State() == WithSignal(old(State()), uid)
    {
      waited := waited - {uid};
    }
  }

  // ---------------------------------------------------------------- the master

  /** `acknowledged` tells whether its requests expect a response. */
  datatype Config = Config(id: nat, size: nat, toSend: nat, toStop: nat, maxOt: nat, acknowledged: bool)

  /** The events a master fires. */
  datatype Signal = ACTIVATION | TERMINATION | LOCKED | UNLOCKED

  /** The value of a master; `waits` is the number of PROFILE events it waits for,
      `fired` what it has fired, `addresses` what it has sent. */
  datatype MasterState = MasterState(
    config: Config, fifo: F.FifoState, desc: P.Desc, pending: Option<nat>, freed: bool,
    sent: nat, ot: nat, halted: bool, started: bool, startTime: nat, terminated: bool, waits: nat,
    fired: multiset<Signal>, addresses: seq<nat>)

  datatype Activity = Activity(m: MasterState, active: bool, locked: bool)
  datatype Sent = Sent(m: MasterState, table: Table, ok: bool, locked: bool, next: int, breached: bool,
                       misused: bool)
  datatype Received = Received(m: MasterState, table: Table, ok: bool, next: nat, negative: bool)

  predicate EndOfData(m: MasterState) {
    m.sent == m.config.toSend && m.config.toSend > 0
  }

  predicate EndOfTime(m: MasterState, now: nat) {
    m.started && m.config.toStop > 0 && now >= m.startTime + m.config.toStop
  }

  predicate AtEnd(m: MasterState, now: nat) { EndOfData(m) || EndOfTime(m, now) }

  function Activate(m: MasterState, now: nat): MasterState {
    m.(started := true, startTime := now, fired := m.fired + multiset{ACTIVATION})
  }

  function AfterActive(m: MasterState, now: nat): Activity {
    var ended := AtEnd(m, now);
    var w := if ended && !m.terminated && m.ot == 0
             then m.(terminated := true, halted := false, fired := m.fired + multiset{TERMINATION}) else m;
    var locked := !w.terminated
                  && (w.waits > 0 || w.halted || (m.config.maxOt > 0 && m.ot >= m.config.maxOt) || (ended && m.ot > 0));
    var active := !(locked || ended);
    Activity(if active && !w.started then Activate(w, now) else w, active, locked)
  }

  /** The packet to send next: the one the FIFO denied before, or a new one. */
  function WithPacket(m: MasterState): (r: MasterState)
    ensures r.pending.Some?
  {
    if m.pending.Some? then m else m.(pending := Some(m.desc.nextAddress), desc := P.AfterGet(m.desc))
  }

  /** A master with a fixed positive packet size and a consistent FIFO that is not ahead
      of time. */
  ghost predicate Ready(m: MasterState, t: nat) {
    m.config.size > 0 && F.Consistent(m.fifo) && m.fifo.time <= t
  }

  /** The FIFO with the transaction booked; settled at once if nothing acknowledges it. */
  function Booked(m: MasterState, t: nat): (f: F.FifoState)
    requires Ready(m, t) && F.AfterSend(m.fifo, t, m.config.size).ok
    ensures F.Consistent(f) && f.time == t
  {
    var f := F.AfterSend(m.fifo, t, m.config.size).f;
    F.SendAppends(m.fifo, t, m.config.size);
    if m.config.acknowledged then f
    else
      F.ReceiveKeepsConsistent(f, t, m.config.size);
      F.AfterReceive(f, t, m.config.size).f
  }

  /** The pending packet goes out, accepted by the FIFO. */
  function Transmit(m: MasterState, t: nat): MasterState
    requires m.pending.Some? && Ready(m, t) && F.AfterSend(m.fifo, t, m.config.size).ok
  {
    Counted(m).(fifo := Booked(m, t))
  }

  function Counted(m: MasterState): MasterState
    requires m.pending.Some?
  {
    m.(pending := None, freed := false, sent := m.sent + 1, ot := if m.config.acknowledged then m.ot + 1 else m.ot,
       addresses := m.addresses + [m.pending.value])
  }

  function Awaiting(table: Table, config: Config): Table {
    WithWait(table.(currentUid := table.currentUid + 1),
             if config.acknowledged then Profile(config.id) else Discarded, table.currentUid)
  }

  function Announce(m: MasterState, ok: bool): MasterState {
    if m.terminated then m else m.(fired := m.fired + multiset{if ok then UNLOCKED else LOCKED})
  }

  function AfterSend(m: MasterState, table: Table, t: nat): Sent
    requires Ready(m, t)
  {
    var a := AfterActive(m, t);
    if !a.active then
      Sent(Announce(a.m, false), table, false, a.locked, 0, false, false)
    else
      var w := WithPacket(a.m);
      var s := F.AfterSend(w.fifo, t, w.config.size);
      if s.ok then
        var x := Transmit(w, t);
        Sent(Announce(x, true), Awaiting(table, m.config), true, a.locked, 0,
             x.config.toSend > 0 && x.sent > x.config.toSend, a.m.freed)
      else
        Sent(Announce(w.(fifo := s.f), false), table, false, a.locked, s.next, false, a.m.freed)
  }

  /** A poll leaves the packet and the FIFO alone; who is idle after it has terminated. */
  lemma AfterPoll(m: MasterState, t: nat)
    ensures var a := AfterActive(m, t);
            && a.m.config == m.config && a.m.freed == m.freed && (Ready(m, t) ==> Ready(a.m, t))
            && (!a.active && !a.locked ==> a.m.terminated)
  {
  }

  /** A response of `size` bytes for this master; `matches` is whether its command is the
      awaited one.  `negative` is the error of a response nobody is waiting for. */
  function AfterReceive(m: MasterState, table: Table, t: nat, uid: nat, size: nat, matches: bool): Received
    requires Ready(m, t) && (m.fifo.ot == [] || size <= F.Sum(m.fifo.ot))
  {
    var r := F.AfterReceive(m.fifo, t, size);
    var whole := matches && r.whole;
    var w := if !matches then m
             else m.(fifo := r.f, ot := if whole && m.ot > 0 then m.ot - 1 else m.ot);
    var a := AfterActive(w, t);
    Received(a.m, if whole then WithSignal(table, uid) else table, matches,
             if !a.active && !a.locked then 0 else t, whole && m.ot == 0)
  }

  /** An event arrives: `waits` PROFILE events are left to wait for, and the status is
      `halted`.  A master that waits for nothing starts. */
  function AfterEvent(m: MasterState, t: nat, waits: nat, halted: bool): MasterState {
    var w := m.(waits := waits, halted := halted);
    if !w.started && waits == 0 then Activate(w, t) else w
  }

  function Forgotten(m: MasterState): MasterState {
    m.(sent := 0, ot := 0, halted := false, terminated := false, addresses := [])
  }

  function Begun(m: MasterState, waits: nat): MasterState {
    m.(freed := m.pending.Some?, waits := waits, started := waits == 0,
       fired := if waits == 0 then multiset{ACTIVATION} else multiset{})
  }

  function Restarted(m: MasterState, waits: nat): MasterState { Begun(Forgotten(m), waits) }

  /** A reset frees the packet that is pending, but keeps the pointer to it; the start time
      stays. */
  function AfterReset(m: MasterState, waits: nat): MasterState {
    Restarted(m, waits).(fifo := F.AfterReset(m.fifo), desc := P.AfterReset(m.desc))
  }

  lemma CountedFields(w: MasterState, t: nat)
    requires w.pending.Some? && Ready(w, t) && F.AfterSend(w.fifo, t, w.config.size).ok
    ensures Transmit(w, t) == Counted(w.(fifo := F.AfterSend(w.fifo, t, w.config.size).f)).(fifo := Booked(w, t))
  {
  }

  lemma PacketKeeps(m: MasterState, t: nat)
    requires Ready(m, t)
    ensures Ready(WithPacket(m), t) && WithPacket(m).config == m.config && WithPacket(m).fifo == m.fifo
  {
  }

  lemma NextIfDenied(f: F.FifoState, t: nat, data: nat)
    requires F.Consistent(f) && f.time <= t && data > 0
    ensures F.AfterSend(f, t, data).ok ==> F.AfterSend(f, t, data).next == 0
  {
  }

  class TrafficProfileMaster {
    const config: Config
    const fifo: F.Fifo
    const desc: P.PacketDesc
    const table: ResponseTable
    var pending: Option<nat>
    var freed: bool
    var sent: nat
    var ot: nat
    var halted: bool
    var started: bool
    var startTime: nat
    var terminated: bool
    var waits: nat
    ghost var fired: multiset<Signal>
    ghost var addresses: seq<nat>

    ghost function State(): MasterState
      reads this, fifo, desc
    {
      With(fifo.State(), desc.State())
    }

    /** The state, next to given states of FIFO and descriptor. */
    ghost function With(f: F.FifoState, d: P.Desc): MasterState
      reads this
    {
      MasterState(config, f, d, pending, freed, sent, ot, halted, started, startTime, terminated, waits, fired, addresses)
    }

    constructor (c: Config, f: F.Fifo, d: P.PacketDesc, r: ResponseTable, profileWaits: nat, now: nat)
      ensures fifo == f && desc == d && table == r
      ensures State() == Created(c, f.State(), d.State(), profileWaits, now)
    {
      config, fifo, desc, table := c, f, d, r;
      pending, freed, sent, ot, halted, terminated, waits := None, false, 0, 0, false, false, profileWaits;
      started, startTime := profileWaits == 0, if profileWaits == 0 then now else 0;
      fired, addresses := if profileWaits == 0 then multiset{ACTIVATION} else multiset{}, [];
    }

    method FireActivation(now: nat)
      modifies this`started, this`startTime, this`fired
      ensures State() == Activate(old(State()), now)
    {
      fired := fired + multiset{ACTIVATION};
      started := true;
      startTime := now;
    }

    method Active(now: nat) returns (active: bool, locked: bool)
      modifies this`started, this`startTime, this`fired, this`terminated, this`halted
      ensures Activity(State(), active, locked) == AfterActive(old(State()), now)
    {
      var endOfData := sent == config.toSend && config.toSend > 0;
      var endOfTime := started && config.toStop > 0 && now >= startTime + config.toStop;
      var waitingForResponses := (endOfData || endOfTime) && ot > 0;
      if (endOfData || endOfTime) && !(terminated || waitingForResponses) {
        fired := fired + multiset{TERMINATION};
        terminated := true;
        halted := false;
      }
      var maxOtReached := ot >= config.maxOt && config.maxOt > 0;
      locked := !terminated && (waits > 0 || halted || maxOtReached || waitingForResponses);
      active := !(locked || endOfData || endOfTime);
      if active && !started {
        FireActivation(now);
      }
    }

    /** Returns the UID of the packet sent, if any. */
    method Send(t: nat) returns (ok: bool, locked: bool, next: int, breached: bool, misused: bool)
      requires Ready(State(), t)
      modifies this, fifo, desc, table
      ensures Sent(State(), table.State(), ok, locked, next, breached, misused)
           == AfterSend(old(State()), old(table.State()), t)
    {
      hide F.AfterSend, F.AfterReceive, P.AfterGet, F.Consistent, AtEnd;
      ok, next, breached, misused := false, 0, false, false;
      var active;
      active, locked := Active(t);
      ghost var a := AfterActive(old(State()), t);
      AfterPoll(old(State()), t);
      hide AfterActive, WithPacket, Transmit, Awaiting;
      if active {
        misused := freed;
        ok, next, breached := Offer(t);
      } else if !locked && !halted && !terminated {
        // one FIFO period later, in the source; IdleMeansTerminated tells why never
        assert false;
      }
      if !terminated {
        fired := fired + multiset{if ok then UNLOCKED else LOCKED};
      }
    }

    /** Generates a packet unless one is pending. */
    method Prepare()
      modifies this`pending, desc
      ensures State() == WithPacket(old(State()))
    {
      hide P.AfterGet;
      if pending.None? {
        var address := desc.GetAddress();
        pending := Some(address);
      }
    }

    /** Offers a packet to the FIFO, and sends it if accepted. */
    method Offer(t: nat) returns (ok: bool, next: int, breached: bool)
      requires Ready(State(), t)
      modifies this`pending, this`freed, this`sent, this`ot, this`addresses, fifo, desc, table
      ensures var w := WithPacket(old(State()));
              var s := F.AfterSend(w.fifo, t, w.config.size);
              && ok == s.ok && next == (if s.ok then 0 else s.next)
              && State() == (if s.ok then Transmit(w, t) else w.(fifo := s.f))
              && table.State() == (if s.ok then Awaiting(old(table.State()), config) else old(table.State()))
              && breached == (s.ok && config.toSend > 0 && sent > config.toSend)
    {
      hide F.AfterSend, P.AfterGet, Transmit, Awaiting, WithPacket, P.PacketDesc.State;
      breached := false;
      Prepare();
      ghost var w := State();
      PacketKeeps(old(State()), t);
      var underrun, overrun;
      ok, next, underrun, overrun := fifo.Send(t, config.size);
      assert State() == w.(fifo := F.AfterSend(w.fifo, t, config.size).f);
      if ok {
        NextIfDenied(w.fifo, t, config.size);
        Account(t, w);
        breached := sent > config.toSend && config.toSend > 0;
      }
    }

    /** Accounts for the packet that the FIFO has just accepted. */
    method Account(t: nat, ghost w: MasterState)
      requires Ready(w, t) && w.pending.Some? && F.AfterSend(w.fifo, t, w.config.size).ok
      requires State() == w.(fifo := F.AfterSend(w.fifo, t, w.config.size).f)
      modifies this`pending, this`freed, this`sent, this`ot, this`addresses, fifo, table
      ensures State() == Transmit(w, t) && table.State() == Awaiting(old(table.State()), config)
    {
      hide F.Fifo.State, P.PacketDesc.State, F.Consistent, Awaiting, Booked, Counted;
      Await();
      Count();
      Book(t, w);
      CountedFields(w, t);
    }

    method Count()
      requires pending.Some?
      modifies this`pending, this`freed, this`sent, this`ot, this`addresses
      ensures State() == Counted(old(State()))
    {
      hide F.Fifo.State, P.PacketDesc.State;
      if config.acknowledged {
        ot := ot + 1;
      }
      addresses := addresses + [pending.value];
      pending := None;
      freed := false;
      sent := sent + 1;
    }

    /** Data that nothing will acknowledge is settled at once. */
    method Book(t: nat, ghost w: MasterState)
      requires Ready(w, t) && w.config == config && F.AfterSend(w.fifo, t, config.size).ok
      requires fifo.State() == F.AfterSend(w.fifo, t, config.size).f
      modifies fifo
      ensures fifo.State() == Booked(w, t)
    {
      hide F.AfterReceive, F.AfterSend, F.Sum;
      F.SendAppends(w.fifo, t, config.size);
      if !config.acknowledged {
        var whole, unexpected, underrun, overrun := fifo.Receive(t, config.size);
      }
    }

    /** Tags the packet and registers who its response is for. */
    method Await()
      modifies table
      ensures table.State() == Awaiting(old(table.State()), config)
    {
      var uid := table.Tag();
      if config.acknowledged {
        table.Wait(Profile(config.id), uid);
      } else {
        table.Wait(Discarded, uid);
      }
    }

    method Receive(t: nat, uid: nat, size: nat, matches: bool) returns (ok: bool, next: nat, negative: bool)
      requires Ready(State(), t) && (fifo.ot == [] || size <= F.Sum(fifo.ot))
      modifies this, fifo, table
      ensures Received(State(), table.State(), ok, next, negative)
           == AfterReceive(old(State()), old(table.State()), t, uid, size, matches)
    {
      hide F.AfterReceive, F.Sum, AtEnd;
      ok, next, negative := false, 0, false;
      if matches {
        var whole, unexpected, underrun, overrun := fifo.Receive(t, size);
        if whole {
          if ot == 0 {
            negative := true;
          } else {
            ot := ot - 1;
          }
          table.Signal(uid);
        }
        ok := true;
      }
      var active, locked := Active(t);
      if active || locked {
        next := t;
      }
    }

    method ReceiveEvent(t: nat, profileWaits: nat, status: bool)
      modifies this
      ensures State() == AfterEvent(old(State()), t, profileWaits, status)
    {
      waits, halted := profileWaits, status;
      if !started && waits == 0 {
        FireActivation(t);
      }
    }

    /** `misused` tells that the packet to be freed had been freed before. */
    method Reset(profileWaits: nat) returns (misused: bool)
      modifies this, fifo, desc
      ensures State() == AfterReset(old(State()), profileWaits)
      ensures misused == (old(pending.Some?) && old(freed))
    {
      hide F.AfterReset, P.AfterReset, F.Fifo.State, P.PacketDesc.State;
      misused := false;
      fifo.Reset();
      desc.Reset();
      if pending.Some? {
        misused := freed;
      }
      Restart(profileWaits, fifo.State(), desc.State());
    }

    /** The part of a reset that concerns the profile itself. */
    method Restart(profileWaits: nat, ghost f: F.FifoState, ghost d: P.Desc)
      modifies this
      ensures With(f, d) == Restarted(old(With(f, d)), profileWaits)
    {
      hide Begun, Forgotten;
      Forget(f, d);
      Begin(profileWaits, f, d);
    }

    /** Counts and flags. */
    method Forget(ghost f: F.FifoState, ghost d: P.Desc)
      modifies this
      ensures With(f, d) == Forgotten(old(With(f, d)))
    {
      sent := 0;
      ot := 0;
      halted := false;
      terminated := false;
      addresses := [];
    }

    method Begin(profileWaits: nat, ghost f: F.FifoState, ghost d: P.Desc)
      modifies this
      ensures With(f, d) == Begun(old(With(f, d)), profileWaits)
    {
      freed := pending.Some?;
      waits := profileWaits;
      started := waits == 0;
      fired := if started then multiset{ACTIVATION} else multiset{};
    }
  }

  /** A master as its configuration leaves it. */
  function Created(c: Config, f: F.FifoState, d: P.Desc, waits: nat, now: nat): MasterState {
    MasterState(c, f, d, None, false, 0, 0, false, waits == 0, if waits == 0 then now else 0, false, waits,
                if waits == 0 then multiset{ACTIVATION} else multiset{}, [])
  }
}
