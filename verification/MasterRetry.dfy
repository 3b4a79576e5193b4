/** What a master is told when its FIFO denies a packet: the time from which on the same
    packet goes out, whatever polls are denied and whatever events arrive in between. */
module MasterRetry {
  import opened Basics
  import opened MasterModel
  import F = FifoModel
  import P = PacketDescModel
  import FifoRate
  import R = FifoRetry
  import Runs = MasterRuns

  /** The master is polled, or gets an event that leaves it with these waits. */
  datatype Happening = Poll(t: nat) | Notice(t: nat, waits: nat, halted: bool)

  /** Every poll is denied, in order, from state m on. */
  ghost predicate NothingSent(m: MasterState, table: Table, hs: seq<Happening>)
    requires Ready(m, m.fifo.time)
    decreases |hs|, 0
  {
    hs == [] ||
    (var last := hs[|hs|-1];
     && NothingSent(m, table, hs[..|hs|-1])
     && var n := AfterAll(m, table, hs[..|hs|-1]);
     && n.fifo.time <= last.t
     && (last.Poll? ==> !AfterSend(n, table, last.t).ok))
  }

  ghost function AfterAll(m: MasterState, table: Table, hs: seq<Happening>): (n: MasterState)
    requires Ready(m, m.fifo.time) && NothingSent(m, table, hs)
    ensures Ready(n, n.fifo.time)
    decreases |hs|, 1
  {
    if hs == [] then m
    else
      var last := hs[|hs|-1];
      var n := AfterAll(m, table, hs[..|hs|-1]);
      match last
      case Poll(t) => DeniedReady(n, table, t); AfterSend(n, table, t).m
      case Notice(t, waits, halted) => AfterEvent(n, t, waits, halted)
  }

  /** What the FIFO is asked: the polls at which the master is active. */
  ghost function FifoPolls(m: MasterState, table: Table, hs: seq<Happening>): seq<R.Poll>
    requires Ready(m, m.fifo.time) && NothingSent(m, table, hs)
  {
    if hs == [] then []
    else
      var last, init := hs[|hs|-1], hs[..|hs|-1];
      FifoPolls(m, table, init)
      + if last.Poll? && AfterActive(AfterAll(m, table, init), last.t).active then [R.Poll(last.t, m.config.size)] else []
  }

  /** The packet that is to go out next. */
  function NextPacket(m: MasterState): nat { WithPacket(m).pending.value }

  /** A poll that sends nothing: an inactive master leaves its FIFO alone and is told
      nothing; an active one asks it for its packet, which stays, and hands on the time. */
  lemma DeniedPoll(m: MasterState, table: Table, t: nat)
    requires Ready(m, t) && !AfterSend(m, table, t).ok
    ensures var s, f := AfterSend(m, table, t), F.AfterSend(m.fifo, t, m.config.size);
            && s.m.config == m.config && NextPacket(s.m) == NextPacket(m) && s.table == table
            && s.m.addresses == m.addresses
            && (!AfterActive(m, t).active ==> s.m.fifo == m.fifo && s.next == 0)
            && (AfterActive(m, t).active ==> !f.ok && s.m.fifo == f.f && s.next == f.next)
  {
    hide F.AfterSend, AfterActive, Transmit, Awaiting, WithPacket, Announce, F.Reserved, F.Sum;
    ActiveKeepsPacket(m, t);
    PacketStays(m, AfterActive(m, t).m);
    var w := WithPacket(AfterActive(m, t).m);
    var f := F.AfterSend(m.fifo, t, m.config.size).f;
    AnnounceKeepsPacket(AfterActive(m, t).m);
    AnnounceKeepsPacket(w.(fifo := f));
  }

  lemma ActiveKeepsPacket(m: MasterState, t: nat)
    ensures var n := AfterActive(m, t).m;
            && n.config == m.config && n.fifo == m.fifo && n.addresses == m.addresses
            && n.pending == m.pending && n.desc == m.desc
  {
    hide AtEnd;
  }

  lemma PacketStays(m: MasterState, n: MasterState)
    requires n.pending == m.pending && n.desc == m.desc
    ensures NextPacket(n) == NextPacket(m)
    ensures forall f :: NextPacket(WithPacket(n).(fifo := f)) == NextPacket(m)
    ensures var w := WithPacket(n); w.config == n.config && w.fifo == n.fifo && w.addresses == n.addresses
  {
    hide P.AfterGet;
  }

  lemma AnnounceKeepsPacket(m: MasterState)
    ensures var n := Announce(m, false);
            && n.config == m.config && n.fifo == m.fifo && n.addresses == m.addresses && NextPacket(n) == NextPacket(m)
  {
    hide P.AfterGet;
  }

  /** A poll that sends: the packet that was next goes out, and no time is told. */
  lemma GrantedPoll(m: MasterState, table: Table, t: nat)
    requires Ready(m, t)
    ensures var s := AfterSend(m, table, t);
            && (s.ok <==> AfterActive(m, t).active && F.AfterSend(m.fifo, t, m.config.size).ok)
            && (s.ok ==> s.m.addresses == m.addresses + [NextPacket(m)] && s.next == 0)
  {
    hide F.AfterSend, AfterActive, Transmit, Booked, Awaiting, WithPacket, Announce, F.Reserved, F.Sum;
    ActiveKeepsPacket(m, t);
    var n := AfterActive(m, t).m;
    PacketStays(m, n);
    var w := WithPacket(n);
    if AfterSend(m, table, t).ok {
      TransmitSends(w, t);
      assert w.pending.value == NextPacket(m) by { PacketIsNext(n); }
    }
  }

  lemma TransmitSends(w: MasterState, t: nat)
    requires w.pending.Some? && Ready(w, t) && F.AfterSend(w.fifo, t, w.config.size).ok
    ensures Announce(Transmit(w, t), true).addresses == w.addresses + [w.pending.value]
  {
    hide Booked, F.AfterSend;
  }

  lemma PacketIsNext(m: MasterState)
    ensures WithPacket(m).pending.value == NextPacket(m)
  {
    hide P.AfterGet;
  }

  lemma DeniedReady(m: MasterState, table: Table, t: nat)
    requires Ready(m, t) && !AfterSend(m, table, t).ok
    ensures var n := AfterSend(m, table, t).m; Ready(n, n.fifo.time)
  {
    hide F.AfterSend, AfterSend, F.Consistent;
    DeniedPoll(m, table, t);
    F.SendAppends(m.fifo, t, m.config.size);
  }

  lemma {:induction false} DeniedArePolls(m: MasterState, table: Table, hs: seq<Happening>)
    requires Ready(m, m.fifo.time) && NothingSent(m, table, hs)
    ensures var n, polls := AfterAll(m, table, hs), FifoPolls(m, table, hs);
            && R.AllDenied(m.fifo, polls) && n.fifo == R.AfterPolls(m.fifo, polls)
            && n.config == m.config && NextPacket(n) == NextPacket(m) && n.addresses == m.addresses
  {
    hide F.AfterSend, F.Consistent, AfterSend, AfterActive;
    if hs != [] {
      var last, init := hs[|hs|-1], hs[..|hs|-1];
      DeniedArePolls(m, table, init);
      var n := AfterAll(m, table, init);
      var polls := FifoPolls(m, table, init);
      if last.Poll? {
        DeniedPoll(n, table, last.t);
        var more := polls + [R.Poll(last.t, m.config.size)];
        assert more[..|more|-1] == polls;
        assert polls + [] == polls;
      } else {
        assert polls + [] == polls;
      }
    }
  }

  /** An active master is denied a packet by a FIFO with an exact rate.  If the packet fits
      next to what is in flight, the time it is told suffices, and one more than a period
      before it does not, whatever polls are denied and events arrive in between, as long
      as the master is active then; the packet that goes out is the one denied.  Otherwise
      it is told 0, and waiting does not help. */
  lemma RetryPromise(m: MasterState, table: Table, t: nat, hs: seq<Happening>, later: nat)
    requires Ready(m, t) && AfterActive(m, t).active && !AfterSend(m, table, t).ok
    requires R.SelfActivated(m.fifo) && FifoRate.Exact(m.fifo.rate, m.fifo.period)
    requires NothingSent(Denied(m, table, t), table, hs)
    requires AfterAll(Denied(m, table, t), table, hs).fifo.time <= later
    requires AfterActive(AfterAll(Denied(m, table, t), table, hs), later).active
    ensures var s, n := AfterSend(m, table, t), AfterAll(Denied(m, table, t), table, hs);
            var again := AfterSend(n, table, later);
            && s.m == Denied(m, table, t)
            && (again.ok ==> again.m.addresses == m.addresses + [NextPacket(m)])
            && if m.config.size + s.m.fifo.inFlight > m.fifo.maxLevel then
                 !again.ok && s.next == 0
               else
                 && s.next > t
                 && (later >= s.next ==> again.ok)
                 && (later + m.fifo.period + 1 <= s.next ==> !again.ok)
  {
    hide F.AfterSend, F.AfterUpdate, F.NextTransmissionTime, R.OnGrid, FifoRate.Exact, R.Elapsed, FifoRate.WholeBytes,
         AfterSend, AfterActive;
    var data := m.config.size;
    DeniedPoll(m, table, t);
    R.FirstDenied(m.fifo, t, data);
    var g := F.AfterSend(m.fifo, t, data).f;
    var d := Denied(m, table, t);
    DeniedArePolls(d, table, hs);
    GrantedPoll(AfterAll(d, table, hs), table, later);
    R.PollsThenRequest(g, FifoPolls(d, table, hs), later, data);
    if R.Floor(g, data) <= 0 {
      R.PredictionMeaning(g, data, later);
    } else {
      R.NothingPredicted(g, data);
    }
  }

  ghost function Denied(m: MasterState, table: Table, t: nat): (n: MasterState)
    requires Ready(m, t) && !AfterSend(m, table, t).ok
    ensures Ready(n, n.fifo.time)
  {
    DeniedReady(m, table, t);
    AfterSend(m, table, t).m
  }

  // ------------------------------------------------------------------- whole runs

  lemma PollActivated(m: MasterState, table: Table, t: nat)
    requires Ready(m, t) && R.SelfActivated(m.fifo) && FifoRate.Exact(m.fifo.rate, m.fifo.period)
    ensures var g := AfterSend(m, table, t).m.fifo; R.SelfActivated(g) && F.SameConfiguration(m.fifo, g)
  {
    hide F.AfterSend, F.AfterReceive, AfterActive, R.OnGrid, FifoRate.Exact, AfterSend, F.Sum, F.Reserved;
    R.ActivatedBySend(m.fifo, t, m.config.size);
    var s := F.AfterSend(m.fifo, t, m.config.size);
    GrantedPoll(m, table, t);
    if AfterSend(m, table, t).ok {
      F.SendAppends(m.fifo, t, m.config.size);
      F.ReceiveKeepsConsistent(s.f, t, m.config.size);
      R.ActivatedByReceive(s.f, t, m.config.size);
      GrantedFifo(m, table, t);
    } else {
      DeniedPoll(m, table, t);
    }
  }

  /** What the FIFO is after a packet went out. */
  lemma GrantedFifo(m: MasterState, table: Table, t: nat)
    requires Ready(m, t) && AfterSend(m, table, t).ok
    ensures F.AfterSend(m.fifo, t, m.config.size).ok && AfterSend(m, table, t).m.fifo == Booked(m, t)
  {
    hide F.AfterSend, AfterActive, Awaiting, WithPacket, F.AfterReceive, F.Reserved, F.Sum;
    ActiveKeepsPacket(m, t);
    PacketStays(m, AfterActive(m, t).m);
  }

  lemma ReceiveActivated(f: F.FifoState, t: nat, data: nat)
    requires R.SelfActivated(f) && FifoRate.Exact(f.rate, f.period) && f.time <= t && (f.ot == [] || data <= F.Sum(f.ot))
    ensures var g := F.AfterReceive(f, t, data).f; R.SelfActivated(g) && F.SameConfiguration(f, g)
  {
    if f.ot == [] {
      R.UpdateKeepsSelfActivated(f, t);
    } else {
      R.ActivatedByReceive(f, t, data);
    }
  }

  lemma StepActivated(w: Runs.World, op: Runs.Op, x: Runs.World)
    requires Runs.Sound(w) && Runs.Step(w, op, x)
    requires R.SelfActivated(w.m.fifo) && FifoRate.Exact(w.m.fifo.rate, w.m.fifo.period)
    ensures R.SelfActivated(x.m.fifo) && FifoRate.Exact(x.m.fifo.rate, x.m.fifo.period)
  {
    hide AfterSend, F.AfterReceive, AfterActive, R.SelfActivated, FifoRate.Exact, F.Sum, F.Reserved, Runs.InOrder,
         Runs.Accounts, Runs.Lifecycle;
    match op
    case Poll(t) =>
      PollActivated(w.m, w.table, t);
    case Response(t, uid) =>
      ReceiveActivated(w.m.fifo, t, w.m.config.size);
      ResponseFifo(w.m, w.table, t, uid);
    case Notice(t, waits, halted) =>
    case Reset(t, waits) =>
      StartsInside(w.m.fifo);
      R.ActivatedAfterReset(w.m.fifo);
    case Others(table) =>
  }

  lemma ResponseFifo(m: MasterState, table: Table, t: nat, uid: nat)
    requires Ready(m, t) && (m.fifo.ot == [] || m.config.size <= F.Sum(m.fifo.ot))
    ensures AfterReceive(m, table, t, uid, m.config.size, true).m.fifo == F.AfterReceive(m.fifo, t, m.config.size).f
  {
    hide F.AfterReceive, F.Sum;
  }

  lemma StartsInside(f: F.FifoState)
    requires R.SelfActivated(f) && Runs.Restartable(f)
    ensures f.startupLevel <= f.maxLevel
  {
  }

  /** In every run of a master whose FIFO was fresh, or had activated itself, with an exact
      rate and a maximum level, resets included, the promise applies. */
  lemma {:induction false} RunActivated(ops: seq<Runs.Op>, ws: seq<Runs.World>, k: nat)
    requires Runs.Run(ops, ws) && Runs.Start(ws[0]) && k < |ws|
    requires R.SelfActivated(ws[0].m.fifo) && FifoRate.Exact(ws[0].m.fifo.rate, ws[0].m.fifo.period)
    ensures R.SelfActivated(ws[k].m.fifo) && FifoRate.Exact(ws[k].m.fifo.rate, ws[k].m.fifo.period)
  {
    hide Runs.Sound, Runs.Step, Runs.Start, R.SelfActivated, FifoRate.Exact;
    if k > 0 {
      RunActivated(ops, ws, k - 1);
      Runs.RunSound(ops, ws, k - 1);
      assert Runs.Step(ws[k-1], ops[k-1], ws[k]);
      StepActivated(ws[k-1], ops[k-1], ws[k]);
    }
  }
}
