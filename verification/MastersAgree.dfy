/** The master seen by the traffic profile manager and the master with its FIFO and its
    table of responses are the same master: polls, responses, events and resets agree. */
module MastersAgree {
  import opened EventModel
  import opened ProfileModel
  import F = FifoModel
  import G = ManagerModel
  import M = MasterModel

  /** The same configuration and progress; the waits of the one are counted in the other. */
  predicate Same(x: Profile, m: M.MasterState) {
    && x.role == MASTER
    && x.toSend == m.config.toSend && x.toStop == m.config.toStop && x.maxOt == m.config.maxOt
    && x.acknowledged == m.config.acknowledged
    && x.sent == m.sent && x.ot == m.ot && x.halted == m.halted
    && x.started == m.started && x.startTime == m.startTime && x.terminated == m.terminated
    && WaitCount(x, PROFILE) == m.waits
  }

  function Started(x: Profile, now: nat): Profile {
    if x.started then x else x.(started := true, startTime := now)
  }

  /** What a poll makes of a master apart from the events it sends. */
  function Polled(x: Profile, now: nat): Profile {
    var y := if Finishes(x, now) then x.(terminated := true, halted := false) else x;
    if ActiveMaster(x, now) then Started(y, now) else y
  }

  lemma ActivityAgrees(x: Profile, m: M.MasterState, now: nat)
    requires Same(x, m)
    ensures var a := M.AfterActive(m, now);
            a.active == ActiveMaster(x, now) && a.locked == LockedMaster(x, now) && Same(Polled(x, now), a.m)
  {
  }

  /** A poll sends a packet in the one exactly if it does in the other, and adds the same
      to the counts. */
  lemma PollAgrees(x: Profile, m: M.MasterState, table: M.Table, t: nat)
    requires Same(x, m) && M.Ready(m, t)
    ensures var s := M.AfterSend(m, table, t);
            && s.ok == (ActiveMaster(x, t) && F.AfterSend(m.fifo, t, m.config.size).ok)
            && Same(G.Progressed(Polled(x, t), s.ok), s.m)
  {
    hide F.AfterSend, F.Sum, M.Transmit, M.WithPacket, M.AfterActive, M.Announce, M.Awaiting, Polled, ActiveMaster,
         LockedMaster, Same, G.Progressed;
    ActivityAgrees(x, m, t);
    ActiveFields(m, t);
    var a, y := M.AfterActive(m, t), Polled(x, t);
    if a.active {
      OfferAgrees(y, a.m, t);
      var w := M.WithPacket(a.m);
      var s := F.AfterSend(w.fifo, t, w.config.size);
      if s.ok {
        AnnounceAgrees(G.Progressed(y, true), M.Transmit(w, t), true);
      } else {
        AnnounceAgrees(G.Progressed(y, false), w.(fifo := s.f), false);
      }
    } else {
      NothingSent(y);
      AnnounceAgrees(y, a.m, false);
    }
  }

  lemma NothingSent(x: Profile)
    ensures G.Progressed(x, false) == x
  {
  }

  lemma OfferAgrees(x: Profile, m: M.MasterState, t: nat)
    requires Same(x, m) && M.Ready(m, t)
    ensures var w := M.WithPacket(m);
            && M.Ready(w, t) && w.config == m.config && w.fifo == m.fifo
            && var s := F.AfterSend(w.fifo, t, w.config.size);
               && Same(G.Progressed(x, false), w.(fifo := s.f))
               && (s.ok ==> Same(G.Progressed(x, true), M.Transmit(w, t)))
  {
    hide F.AfterSend, F.AfterReceive;
  }

  lemma AnnounceAgrees(x: Profile, m: M.MasterState, ok: bool)
    requires Same(x, m)
    ensures Same(x, M.Announce(m, ok))
  {
  }

  lemma ActiveFields(m: M.MasterState, t: nat)
    ensures var a := M.AfterActive(m, t);
            a.m.fifo == m.fifo && a.m.config == m.config && a.m.pending == m.pending && a.m.desc == m.desc
  {
  }

  lemma ResponseAgrees(x: Profile, m: M.MasterState, table: M.Table, t: nat, uid: nat, size: nat)
    requires Same(x, m) && M.Ready(m, t) && m.ot > 0 && (m.fifo.ot == [] || size <= F.Sum(m.fifo.ot))
    requires F.AfterReceive(m.fifo, t, size).whole
    ensures Same(Polled(x.(ot := x.ot - 1), t), M.AfterReceive(m, table, t, uid, size, true).m)
  {
    hide F.AfterReceive, Polled;
    ActivityAgrees(x.(ot := x.ot - 1), m.(fifo := F.AfterReceive(m.fifo, t, size).f, ot := m.ot - 1), t);
  }

  /** The waits left and the halting that the one master takes as inputs are those the
      event manager of the other computes. */
  lemma EventAgrees(x: Profile, m: M.MasterState, ev: Event, now: nat)
    requires Same(x, m) && Counted(x.em)
    ensures var y := Receipt(x, ev);
            Same(if WaitCount(y, PROFILE) == 0 then Started(y, now) else y,
                 M.AfterEvent(m, now, WaitCount(y, PROFILE), y.halted))
  {
    hide EventModel.Released;
  }

  lemma ResetAgrees(x: Profile, m: M.MasterState)
    requires Same(x, m)
    ensures var y := G.Cleared(x);
            Same(y.(started := WaitCount(y, PROFILE) == 0), M.AfterReset(m, WaitCount(y, PROFILE)))
  {
    hide EventModel.AfterReset, F.AfterReset;
  }
}
