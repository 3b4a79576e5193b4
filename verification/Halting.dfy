/** Halting: a master that waits for the status events of other profiles stops sending
    between their PROFILE_LOCKED and their PROFILE_UNLOCKED. */
module HaltModel {
  import opened Basics
  import opened EventModel
  import opened ProfileModel

  /** Halted exactly while some profile is waited for to unlock. */
  ghost predicate HaltRight(x: Profile) {
    x.halted <==> exists id: nat :: Event(PROFILE_UNLOCKED, id) in x.em.waited
  }

  ghost predicate Sound(x: Profile) {
    x.role == MASTER && Counted(x.em) && OneOfEach(x.em.waited)
  }

  function Status(waited: set<Event>): set<Event> { Of(waited, SEND_STATUS) }

  /** What a reception leaves of the status waits: a switched event is replaced by its
      opposite, and nothing is added otherwise. */
  lemma ReceiptWaits(x: Profile, ev: Event)
    requires Sound(x)
    ensures Sound(Receipt(x, ev)) && Receipt(x, ev).em.count[SEND_STATUS] <= x.em.count[SEND_STATUS]
    ensures var w := Receipt(x, ev).em.waited;
            w == if Switches(x, ev) then x.em.waited - {ev} + {Opposite(ev)}
                 else x.em.waited - ReleasedBy(x.em.waited, ev)
  {
    if Switches(x, ev) { SwitchWaits(x, ev); } else { PlainWaits(x, ev); }
  }

  lemma SwitchWaits(x: Profile, ev: Event)
    requires Sound(x) && Switches(x, ev)
    ensures Sound(Receipt(x, ev)) && Receipt(x, ev).em.count[SEND_STATUS] <= x.em.count[SEND_STATUS]
    ensures Receipt(x, ev).em.waited == x.em.waited - {ev} + {Opposite(ev)}
  {
    CountedCovered(x.em);
    var m := AfterReceive(x.em, ev);
    assert Opposite(Opposite(ev)) == ev && m.waited == x.em.waited - {ev};
    WaitCounted(m, Opposite(ev));
    Replaced(x.em.waited, ev);
    OneOfEachSwitched(x.em.waited, ev);
    assert Receipt(x, ev).em == AfterWait(m, Opposite(ev));
    assert Counted(AfterWait(m, Opposite(ev)));
    hide Receipt, Covered, AfterReceive;
  }

  lemma OneOfEachSwitched(waited: set<Event>, ev: Event)
    requires OneOfEach(waited) && CategoryOf(ev.kind) == SEND_STATUS && ev in waited
    ensures OneOfEach(waited - {ev} + {Opposite(ev)})
  {
  }

  lemma PlainWaits(x: Profile, ev: Event)
    requires Sound(x) && !Switches(x, ev)
    ensures Sound(Receipt(x, ev)) && Receipt(x, ev).em.count[SEND_STATUS] <= x.em.count[SEND_STATUS]
    ensures Receipt(x, ev).em.waited == x.em.waited - ReleasedBy(x.em.waited, ev)
  {
    SubsetSize(Status(Receipt(x, ev).em.waited), Status(x.em.waited));
  }

  lemma Replaced(waited: set<Event>, ev: Event)
    requires ev in waited && CategoryOf(ev.kind) == SEND_STATUS && Opposite(ev) !in waited
    ensures |Status(waited - {ev} + {Opposite(ev)})| == |Status(waited)|
  {
    assert Status(waited - {ev} + {Opposite(ev)}) == Status(waited) - {ev} + {Opposite(ev)};
  }

  /** One status wait: it is the only one. */
  lemma OnlyStatus(x: Profile, e: Event, f: Event)
    requires Sound(x) && x.em.count[SEND_STATUS] <= 1
    requires e in x.em.waited && f in x.em.waited && CategoryOf(e.kind) == CategoryOf(f.kind) == SEND_STATUS
    ensures e == f
  {
    if e != f {
      assert {e, f} <= Status(x.em.waited);
      SubsetSize({e, f}, Status(x.em.waited));
    }
  }

  lemma StatusCount(x: Profile)
    requires Sound(x)
    ensures x.em.count[SEND_STATUS] != 0 <==> exists e :: e in x.em.waited && CategoryOf(e.kind) == SEND_STATUS
  {
    CountZero(x.em, SEND_STATUS);
  }

  lemma SwitchKeepsHalt(x: Profile, ev: Event)
    requires Sound(x) && HaltRight(x) && (!x.halted || x.em.count[SEND_STATUS] == 1) && Switches(x, ev)
    requires Receipt(x, ev).em.waited == x.em.waited - {ev} + {Opposite(ev)}
    requires Receipt(x, ev).halted == !x.halted
    ensures HaltRight(Receipt(x, ev))
  {
    hide Counted, Receipt;
    var y := Receipt(x, ev);
    if x.halted {
      forall i: nat ensures Event(PROFILE_UNLOCKED, i) !in y.em.waited {
        var id: nat :| Event(PROFILE_UNLOCKED, id) in x.em.waited;
        OnlyStatus(x, ev, Event(PROFILE_UNLOCKED, id));
        if Event(PROFILE_UNLOCKED, i) in x.em.waited {
          OnlyStatus(x, ev, Event(PROFILE_UNLOCKED, i));
        }
      }
    } else {
      assert ev.kind == PROFILE_LOCKED by { assert ev == Event(ev.kind, ev.id); }
      assert Event(PROFILE_UNLOCKED, ev.id) in y.em.waited;
    }
  }

  lemma OtherKeepsHalt(x: Profile, ev: Event)
    requires Sound(x) && HaltRight(x) && (!x.halted || x.em.count[SEND_STATUS] == 1)
    requires var y := Receipt(x, ev);
             && y.em.waited <= x.em.waited
             && (y.halted <==> x.halted && exists e :: e in y.em.waited && CategoryOf(e.kind) == SEND_STATUS)
    ensures HaltRight(Receipt(x, ev))
  {
    hide Counted, Receipt;
    var y := Receipt(x, ev);
    if x.halted {
      var id: nat :| Event(PROFILE_UNLOCKED, id) in x.em.waited;
      forall e | e in y.em.waited && CategoryOf(e.kind) == SEND_STATUS ensures e == Event(PROFILE_UNLOCKED, id) {
        OnlyStatus(x, e, Event(PROFILE_UNLOCKED, id));
      }
    }
  }

  lemma ReceiptKeepsHalt(x: Profile, ev: Event)
    requires Sound(x) && HaltRight(x) && (!x.halted || x.em.count[SEND_STATUS] == 1)
    ensures HaltRight(Receipt(x, ev))
  {
    hide HaltRight;
    ReceiptWaits(x, ev);
    StatusCount(Receipt(x, ev));
    if Switches(x, ev) {
      assert Opposite(ev) in Receipt(x, ev).em.waited;
      SwitchKeepsHalt(x, ev);
    } else {
      OtherKeepsHalt(x, ev);
    }
  }

  /** A halted master with another status wait: some event makes its status wrong. */
  lemma HaltLost(x: Profile) returns (ev: Event)
    requires Sound(x) && HaltRight(x) && x.halted && x.em.count[SEND_STATUS] != 1
    ensures !HaltRight(Receipt(x, ev))
  {
    var id: nat :| Event(PROFILE_UNLOCKED, id) in x.em.waited;
    var u := Event(PROFILE_UNLOCKED, id);
    assert u in Status(x.em.waited);
    var other := Another(Status(x.em.waited), u);
    ev := if other.kind == PROFILE_LOCKED then other else u;
    assert Opposite(u) !in x.em.waited;
    ReceiptWaits(x, ev);
    var y := Receipt(x, ev);
    assert !y.halted;
    assert (if other.kind == PROFILE_LOCKED then u else other) in y.em.waited;
    assert other.kind == PROFILE_UNLOCKED ==> other == Event(PROFILE_UNLOCKED, other.id);
  }

  lemma Another(s: set<Event>, u: Event) returns (other: Event)
    requires u in s && |s| != 1
    ensures other in s && other != u
  {
    assert s == {u} ==> |s| == 1;
    assert s - {u} != {};
    other :| other in s - {u};
  }

  /** The status survives every next event if and only if the master is not halted or has
      no second profile to wait for: the flag is toggled, so two locks cancel out. */
  lemma HaltKeptIff(x: Profile)
    requires Sound(x) && HaltRight(x)
    ensures (forall ev :: HaltRight(Receipt(x, ev))) <==> (!x.halted || x.em.count[SEND_STATUS] == 1)
  {
    if !x.halted || x.em.count[SEND_STATUS] == 1 {
      forall ev ensures HaltRight(Receipt(x, ev)) {
        ReceiptKeepsHalt(x, ev);
      }
    } else {
      var ev := HaltLost(x);
    }
  }

  /** The master after a sequence of events. */
  ghost function Receipts(x: Profile, evs: seq<Event>): Profile
    requires Sound(x)
    decreases |evs|
  {
    if evs == [] then x
    else
      ReceiptWaits(x, evs[0]);
      Receipts(Receipt(x, evs[0]), evs[1..])
  }

  /** A master that follows a single profile is halted exactly between its lock and its
      unlock, over every sequence of events. */
  lemma {:induction false} SingleSourceHalts(x: Profile, evs: seq<Event>)
    requires Sound(x) && HaltRight(x) && x.em.count[SEND_STATUS] <= 1
    ensures HaltRight(Receipts(x, evs))
    decreases |evs|
  {
    if evs != [] {
      ReceiptWaits(x, evs[0]);
      if x.halted { StatusCount(x); }
      ReceiptKeepsHalt(x, evs[0]);
      SingleSourceHalts(Receipt(x, evs[0]), evs[1..]);
    }
  }

  /** A master halted by a profile that terminates, while it follows another one, stays
      halted although no unlock is awaited any more. */
  lemma StuckAfterTermination(x: Profile, a: nat, b: nat)
    requires Sound(x) && x.halted && a != b
    requires Status(x.em.waited) == {Event(PROFILE_UNLOCKED, a), Event(PROFILE_LOCKED, b)}
    ensures var y := Receipt(x, Event(TERMINATION, a));
            y.halted && Status(y.em.waited) == {Event(PROFILE_LOCKED, b)}
  {
    var y := Receipt(x, Event(TERMINATION, a));
    ReceiptWaits(x, Event(TERMINATION, a));
    assert Event(PROFILE_LOCKED, b) in Status(x.em.waited) && Event(PROFILE_UNLOCKED, a) in Status(x.em.waited);
    assert Event(PROFILE_LOCKED, b) in Status(y.em.waited);
    forall e | e in Status(y.em.waited) ensures e == Event(PROFILE_LOCKED, b) {
      assert e in Status(x.em.waited);
    }
  }
}
