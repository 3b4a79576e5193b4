/** Events, and what one profile waits for: the waited set, the number of waits of each
    category, and the filter on the events it emits. */
module EventModel {

  datatype EventType =
    | NONE | ACTIVATION | TERMINATION
    | FIFO_EMPTY | FIFO_FULL | FIFO_NOT_EMPTY | FIFO_NOT_FULL
    | PROFILE_LOCKED | PROFILE_UNLOCKED | PACKET_REQUEST_RETRY | TICK

  datatype Category = NO_CATEGORY | PROFILE | FIFO_LEVEL | SEND_STATUS | PACKET | CLOCK

  function CategoryOf(t: EventType): Category {
    match t
    case NONE => NO_CATEGORY
    case ACTIVATION | TERMINATION => PROFILE
    case FIFO_EMPTY | FIFO_FULL | FIFO_NOT_EMPTY | FIFO_NOT_FULL => FIFO_LEVEL
    case PROFILE_LOCKED | PROFILE_UNLOCKED => SEND_STATUS
    case PACKET_REQUEST_RETRY => PACKET
    case TICK => CLOCK
  }

  predicate AllowConcurrency(c: Category) {
    c == NO_CATEGORY || c == PROFILE || c == PACKET
  }

  /** An event of type `kind` of the profile `id`: what is waited for, and what is sent. */
  datatype Event = Event(kind: EventType, id: nat)

  /** The last event sent in a category. */
  datatype Last = Last(kind: EventType, time: nat)

  /** The event manager of one profile, as a value. */
  datatype Waits = Waits(waited: set<Event>, count: map<Category, nat>, sent: map<Category, Last>,
                         retained: seq<Event>)

  // ------------------------------------------------------------ specification

  function Categories(): (all: set<Category>)
    ensures forall c: Category :: c in all
  {
    var all := {NO_CATEGORY, PROFILE, FIFO_LEVEL, SEND_STATUS, PACKET, CLOCK};
    EveryCategory(all);
    all
  }

  lemma EveryCategory(all: set<Category>)
    requires all == {NO_CATEGORY, PROFILE, FIFO_LEVEL, SEND_STATUS, PACKET, CLOCK}
    ensures forall c: Category :: c in all
  {
    forall c: Category ensures c in all {
      match c
      case NO_CATEGORY =>
      case PROFILE =>
      case FIFO_LEVEL =>
      case SEND_STATUS =>
      case PACKET =>
      case CLOCK =>
    }
  }

  function NoCounts(): map<Category, nat> {
    map c | c in Categories() :: 0
  }

  function NothingSent(): map<Category, Last> {
    map c | c in Categories() :: Last(NONE, 0)
  }

  /** The counters and the sent table have an entry for every category. */
  predicate Total(m: Waits) {
    && (forall c: Category :: c in m.count)
    && (forall c: Category :: c in m.sent)
  }

  function AfterWait(m: Waits, e: Event): Waits
    requires Total(m)
  {
    if e.kind == NONE then m
    else m.(waited := m.waited + {e}, count := m.count[CategoryOf(e.kind) := m.count[CategoryOf(e.kind)] + 1])
  }

  function AfterWaits(m: Waits, es: seq<Event>): (r: Waits)
    requires Total(m)
    ensures Total(r)
  {
    if es == [] then m else AfterWait(AfterWaits(m, es[..|es|-1]), es[|es|-1])
  }

  function Of(waited: set<Event>, c: Category): set<Event> {
    set e | e in waited && CategoryOf(e.kind) == c
  }

  function From(waited: set<Event>, id: nat): set<Event> {
    set e | e in waited && e.id == id
  }

  /** Decrements each category by the number of its events among the released ones. */
  function Released(count: map<Category, nat>, gone: set<Event>): map<Category, int>
    requires forall c: Category :: c in count
  {
    map c: Category | c in count :: count[c] - |Of(gone, c)|
  }

  /** What an arriving event releases: itself, and on a TERMINATION every other event
      that is waited for from the same profile. */
  function ReleasedBy(waited: set<Event>, e: Event): set<Event> {
    if e.kind == TERMINATION then From(waited, e.id) else if e in waited then {e} else {}
  }

  predicate MayEmit(m: Waits, kind: EventType, now: nat)
    requires Total(m)
  {
    var last := m.sent[CategoryOf(kind)];
    kind != NONE && (last.kind == NONE || (last.kind != kind && (last.time < now || AllowConcurrency(CategoryOf(kind)))))
  }

  // ------------------------------------------------------------------ invariant

  /** How many waits too many the counter of a category holds. */
  function Excess(m: Waits, c: Category): int
    requires Total(m)
  {
    m.count[c] - |Of(m.waited, c)|
  }

  /** The counters count at least what is waited for. */
  ghost predicate Covered(m: Waits) {
    && Total(m)
    && (forall c: Category :: m.count[c] >= |Of(m.waited, c)|)
    && (forall e :: e in m.waited ==> e.kind != NONE)
  }

  /** No counter is further off than before. */
  ghost predicate SameExcess(m: Waits, r: Waits)
    requires Total(m) && Total(r)
  {
    forall c: Category :: r.count[c] - |Of(r.waited, c)| == m.count[c] - |Of(m.waited, c)|
  }

  /** The counters count what is waited for. */
  ghost predicate Counted(m: Waits) {
    && Total(m)
    && (forall c: Category :: m.count[c] == |Of(m.waited, c)|)
    && (forall e :: e in m.waited ==> e.kind != NONE)
  }

  function AfterReceive(m: Waits, e: Event): (r: Waits)
    requires Covered(m)
    ensures Total(r) && (Counted(m) ==> Counted(r))
    ensures r.waited == m.waited - ReleasedBy(m.waited, e) && r.sent == m.sent && r.retained == m.retained
  {
    var gone := ReleasedBy(m.waited, e);
    ReleaseCounted(m.waited, m.count, gone);
    ReleasedNat(m.waited, m.count, gone);
    m.(waited := m.waited - gone, count := Released(m.count, gone))
  }

  /** Whatever the counters hold too much, a reception leaves. */
  lemma ReceiveExcess(m: Waits, e: Event)
    requires Covered(m)
    ensures Covered(AfterReceive(m, e)) && SameExcess(m, AfterReceive(m, e))
  {
    ReleaseCounted(m.waited, m.count, ReleasedBy(m.waited, e));
  }

  lemma ReleasedNat(waited: set<Event>, count: map<Category, nat>, gone: set<Event>)
    requires gone <= waited
    requires forall c: Category :: c in count && count[c] >= |Of(waited, c)|
    ensures forall c: Category :: c in Released(count, gone) && Released(count, gone)[c] >= |Of(waited - gone, c)|
  {
    ReleaseCounted(waited, count, gone);
  }

  lemma ReleaseCounted(waited: set<Event>, count: map<Category, nat>, gone: set<Event>)
    requires gone <= waited
    requires forall c: Category :: c in count
    ensures forall c: Category :: c in Released(count, gone)
              && Released(count, gone)[c] - |Of(waited - gone, c)| == count[c] - |Of(waited, c)|
  {
    forall c: Category ensures Released(count, gone)[c] - |Of(waited - gone, c)| == count[c] - |Of(waited, c)| {
      assert Of(waited, c) == Of(waited - gone, c) + Of(gone, c);
      assert Of(waited - gone, c) !! Of(gone, c);
    }
  }

  /** A new wait keeps the count; a duplicate one does not. */
  lemma WaitCounted(m: Waits, e: Event)
    requires Counted(m) && e.kind != NONE
    ensures Counted(AfterWait(m, e)) <==> e !in m.waited
  {
    var r, k := AfterWait(m, e), CategoryOf(e.kind);
    forall c: Category ensures c != k || e !in m.waited ==> r.count[c] == |Of(r.waited, c)| {
      OfInsert(m.waited, e, c);
    }
    OfInsert(m.waited, e, k);
  }

  lemma OfInsert(waited: set<Event>, e: Event, c: Category)
    ensures Of(waited + {e}, c) == Of(waited, c) + (if CategoryOf(e.kind) == c then {e} else {})
    ensures e in waited && CategoryOf(e.kind) == c ==> Of(waited + {e}, c) == Of(waited, c)
    ensures e !in waited && CategoryOf(e.kind) == c ==> |Of(waited + {e}, c)| == |Of(waited, c)| + 1
  {
  }

  predicate NoneRepeated(es: seq<Event>) {
    forall i, j :: 0 <= i < j < |es| ==> es[i] != es[j]
  }

  predicate NoDuplicates(es: seq<Event>) {
    NoneRepeated(es) && forall i :: 0 <= i < |es| ==> es[i].kind != NONE
  }

  function Elements(es: seq<Event>): set<Event> {
    set i | 0 <= i < |es| :: es[i]
  }

  lemma {:induction false} AgainRetained(m: Waits, es: seq<Event>)
    requires Total(m)
    ensures AfterWaits(m, es).retained == m.retained && AfterWaits(m, es).sent == m.sent
  {
    if es != [] { AgainRetained(m, es[..|es|-1]); }
  }

  /** After a reset: nothing waited for or sent but the retained events, waited again. */
  function AfterReset(m: Waits): Waits {
    AfterWaits(Waits({}, NoCounts(), NothingSent(), m.retained), m.retained)
  }

  lemma ResetCounted(m: Waits)
    requires NoDuplicates(m.retained)
    ensures Counted(AfterReset(m)) && AfterReset(m).waited == Elements(m.retained)
    ensures AfterReset(m).retained == m.retained && AfterReset(m).sent == NothingSent()
  {
    ResetCountedIff(m);
    AgainRetained(Waits({}, NoCounts(), NothingSent(), m.retained), m.retained);
  }

  // a repeated wait spoils the counters until the next reset

  lemma WaitExcess(m: Waits, e: Event)
    requires Covered(m)
    ensures Covered(AfterWait(m, e))
    ensures forall c: Category :: Excess(AfterWait(m, e), c)
              == Excess(m, c) + if e in m.waited && c == CategoryOf(e.kind) then 1 else 0
  {
    if e.kind != NONE {
      var r := AfterWait(m, e);
      forall c: Category
        ensures Excess(r, c) == Excess(m, c) + if e in m.waited && c == CategoryOf(e.kind) then 1 else 0
        ensures r.count[c] >= |Of(r.waited, c)|
      {
        OfInsert(m.waited, e, c);
      }
    }
  }

  lemma CountedIff(m: Waits)
    requires Covered(m)
    ensures Counted(m) <==> forall c: Category :: Excess(m, c) == 0
  {
    if forall c: Category :: Excess(m, c) == 0 {
      forall c: Category ensures m.count[c] == |Of(m.waited, c)| {
        assert Excess(m, c) == 0;
      }
    }
  }

  /** An event manager waits for an event, or receives one. */
  datatype Move = Wait(e: Event) | Receive(e: Event)

  function AfterMoves(m: Waits, moves: seq<Move>): (r: Waits)
    requires Covered(m)
    ensures Covered(r)
  {
    if moves == [] then m
    else
      var before := AfterMoves(m, moves[..|moves|-1]);
      match moves[|moves|-1]
      case Wait(e) => WaitExcess(before, e); AfterWait(before, e)
      case Receive(e) => ReceiveExcess(before, e); AfterReceive(before, e)
  }

  /** A wait too many is never made good: whatever is received or waited for afterwards,
      the counter of its category does not return to 0. */
  lemma {:induction false} ExcessStays(m: Waits, moves: seq<Move>, c: Category)
    requires Covered(m)
    ensures Excess(AfterMoves(m, moves), c) >= Excess(m, c)
    ensures Excess(m, c) > 0 ==> AfterMoves(m, moves).count[c] > 0 && !Counted(AfterMoves(m, moves))
  {
    if moves != [] {
      ExcessStays(m, moves[..|moves|-1], c);
      var before := AfterMoves(m, moves[..|moves|-1]);
      match moves[|moves|-1]
      case Wait(e) => WaitExcess(before, e);
      case Receive(e) => ReceiveExcess(before, e);
    }
  }

  lemma {:induction false} WaitsCountedIff(m: Waits, es: seq<Event>)
    requires Counted(m) && m.waited == {} && forall i :: 0 <= i < |es| ==> es[i].kind != NONE
    ensures Covered(AfterWaits(m, es)) && (Counted(AfterWaits(m, es)) <==> NoneRepeated(es))
    ensures AfterWaits(m, es).waited == Elements(es)
  {
    hide Of, Elements;
    if es == [] {
      assert Elements(es) == {} by { NoElements(); }
      CountedIff(m);
    } else {
      var init, e := es[..|es|-1], es[|es|-1];
      WaitsCountedIff(m, init);
      ElementsGrow(es);
      var r := AfterWaits(m, init);
      WaitExcess(r, e);
      CountedIff(r);
      CountedIff(AfterWait(r, e));
      if e in r.waited {
        assert Excess(AfterWait(r, e), CategoryOf(e.kind)) > 0;
      } else {
        assert forall c: Category :: Excess(AfterWait(r, e), c) == Excess(r, c);
      }
    }
  }

  lemma NoElements()
    ensures Elements([]) == {}
  {
  }

  lemma ElementsGrow(es: seq<Event>)
    requires es != []
    ensures Elements(es) == Elements(es[..|es|-1]) + {es[|es|-1]}
    ensures NoneRepeated(es) <==> NoneRepeated(es[..|es|-1]) && es[|es|-1] !in Elements(es[..|es|-1])
  {
    var init, last := es[..|es|-1], |es| - 1;
    forall x ensures x in Elements(es) <==> x in Elements(init) || x == es[last] {
      if x in Elements(init) {
        var i :| 0 <= i < |init| && init[i] == x;
        assert es[i] == x;
      }
      if x in Elements(es) && x != es[last] {
        var i :| 0 <= i < |es| && es[i] == x;
        assert init[i] == x;
      }
    }
    if NoneRepeated(init) && es[last] !in Elements(init) {
      forall i, j | 0 <= i < j < |es| ensures es[i] != es[j] {
        assert init[i] in Elements(init);
        assert j < last ==> init[i] != init[j];
      }
    }
    if NoneRepeated(es) {
      forall i | 0 <= i < |init| ensures init[i] != es[last] {
        assert es[i] != es[last];
      }
    }
  }

  /** After a reset the counters count what is waited for exactly if no event is retained
      twice, as one is that is both configured and registered by a checker. */
  lemma ResetCountedIff(m: Waits)
    requires forall i :: 0 <= i < |m.retained| ==> m.retained[i].kind != NONE
    ensures Covered(AfterReset(m)) && (Counted(AfterReset(m)) <==> NoneRepeated(m.retained))
    ensures AfterReset(m).waited == Elements(m.retained)
  {
    var clear := Waits({}, NoCounts(), NothingSent(), m.retained);
    NothingCounted(clear);
    WaitsCountedIff(clear, m.retained);
  }

  lemma NothingCounted(clear: Waits)
    requires clear.waited == {} && clear.count == NoCounts() && clear.sent == NothingSent()
    ensures Counted(clear)
  {
    forall c: Category ensures c in clear.count && c in clear.sent && clear.count[c] == |Of({}, c)| {
      assert Of({}, c) == {};
    }
  }

  /** A profile waits for something exactly when one of its counters is not zero. */
  lemma WaitingIffCounted(m: Waits)
    requires Counted(m)
    ensures m.waited != {} <==> exists c: Category :: m.count[c] > 0
  {
    if m.waited != {} {
      var e :| e in m.waited;
      assert e in Of(m.waited, CategoryOf(e.kind));
    }
    if c: Category :| m.count[c] > 0 {
      assert Of(m.waited, c) != {};
      var e :| e in Of(m.waited, c);
      assert e in m.waited;
    }
  }

  lemma CountZero(m: Waits, c: Category)
    requires Counted(m)
    ensures m.count[c] == 0 <==> forall e :: e in m.waited ==> CategoryOf(e.kind) != c
  {
    if m.count[c] == 0 {
      assert forall e :: e in m.waited && CategoryOf(e.kind) == c ==> e in Of(m.waited, c);
    } else {
      var e :| e in Of(m.waited, c);
    }
  }

  // ------------------------------------------------------------ what is emitted over time

  /** An event that a profile wants to send at a time. */
  datatype Request = Request(kind: EventType, now: nat)

  function AfterEmit(m: Waits, r: Request): (n: Waits)
    requires Total(m)
    ensures Total(n)
  {
    if MayEmit(m, r.kind, r.now) then m.(sent := m.sent[CategoryOf(r.kind) := Last(r.kind, r.now)]) else m
  }

  function AfterEmits(m: Waits, rs: seq<Request>): (n: Waits)
    requires Total(m)
    ensures Total(n)
  {
    if rs == [] then m else AfterEmit(AfterEmits(m, rs[..|rs|-1]), rs[|rs|-1])
  }

  /** The events of a category that go out. */
  function Emitted(m: Waits, rs: seq<Request>, c: Category): seq<Request>
    requires Total(m)
  {
    if rs == [] then []
    else
      var init, last := rs[..|rs|-1], rs[|rs|-1];
      Emitted(m, init, c)
      + if CategoryOf(last.kind) == c && MayEmit(AfterEmits(m, init), last.kind, last.now) then [last] else []
  }

  /** No event goes out twice in a row, and without concurrency at most one in each time
      unit. */
  predicate Alternate(es: seq<Request>, concurrent: bool) {
    && (forall i :: 0 < i < |es| ==> es[i].kind != es[i-1].kind)
    && (!concurrent ==> forall i, j :: 0 <= i < j < |es| ==> es[i].now < es[j].now)
  }

  lemma OneMoreAlternates(es: seq<Request>, r: Request, concurrent: bool)
    requires Alternate(es, concurrent)
    requires es != [] ==> r.kind != es[|es|-1].kind && (!concurrent ==> es[|es|-1].now < r.now)
    ensures Alternate(es + [r], concurrent)
  {
    forall i | 0 <= i < |es| && !concurrent ensures es[i].now < r.now {
      if i < |es| - 1 { assert es[i].now < es[|es|-1].now; }
    }
  }

  /** From a start with nothing sent in the category, what goes out alternates, and what was
      sent last is what went out last. */
  lemma {:induction false} EmissionsAlternate(m: Waits, rs: seq<Request>, c: Category)
    requires Total(m) && m.sent[c].kind == NONE
    ensures var es := Emitted(m, rs, c);
            && Alternate(es, AllowConcurrency(c))
            && (es != [] ==> es[|es|-1].kind != NONE)
            && AfterEmits(m, rs).sent[c] == if es == [] then m.sent[c] else Last(es[|es|-1].kind, es[|es|-1].now)
  {
    hide AllowConcurrency, Alternate;
    if rs == [] {
      assert Alternate([], AllowConcurrency(c)) by { NoneAlternate(AllowConcurrency(c)); }
    } else {
      var init, last := rs[..|rs|-1], rs[|rs|-1];
      EmissionsAlternate(m, init, c);
      assert Emitted(m, init, c) + [] == Emitted(m, init, c);
      if CategoryOf(last.kind) == c && MayEmit(AfterEmits(m, init), last.kind, last.now) {
        OneMoreAlternates(Emitted(m, init, c), last, AllowConcurrency(c));
      }
    }
  }

  lemma NoneAlternate(concurrent: bool)
    ensures Alternate([], concurrent)
  {
  }

  /** So a profile tells its status at most once in each time unit, and its activation and
      termination as often as they alternate, even in one. */
  lemma StatusOncePerTime(m: Waits, rs: seq<Request>, i: nat, j: nat)
    requires Total(m) && m.sent[SEND_STATUS].kind == NONE
    requires i < j < |Emitted(m, rs, SEND_STATUS)|
    ensures Emitted(m, rs, SEND_STATUS)[i].now < Emitted(m, rs, SEND_STATUS)[j].now
  {
    EmissionsAlternate(m, rs, SEND_STATUS);
  }

  /** An ACTIVATION or TERMINATION that differs from the last one goes out at once. */
  lemma ProfileEventsConcur(m: Waits, kind: EventType, now: nat)
    requires Total(m) && CategoryOf(kind) == PROFILE
    ensures MayEmit(m, kind, now) <==> m.sent[PROFILE].kind != kind
  {
  }

  // ------------------------------------------------------------ the manager object

  /** Keeps the waited events in sets indexed by the profile they come from; a set that
      becomes empty is dropped. */
  class EventManager {
    var waited: map<nat, set<EventType>>
    var waitedCount: map<Category, nat>
    var sent: map<Category, Last>
    var retainedEvents: seq<Event>

    ghost function Waited(): set<Event>
      reads this
    {
      Flat(waited)
    }

    ghost function State(): Waits
      reads this
    {
      Waits(Waited(), waitedCount, sent, retainedEvents)
    }

    /** What every method keeps; the counters may be too high. */
    ghost predicate Shaped()
      reads this
    {
      Covered(State()) && forall id :: id in waited ==> waited[id] != {}
    }

    ghost predicate Valid()
      reads this
    {
      Shaped() && Counted(State())
    }

    constructor ()
      ensures Valid() && State() == Waits({}, NoCounts(), NothingSent(), [])
    {
      waited, waitedCount, sent, retainedEvents := map[], NoCounts(), NothingSent(), [];
      new;
      ResetCounted(Waits({}, NoCounts(), NothingSent(), []));
    }

    /** NONE is not waited for; waiting again for the same event spoils the counters. */
    method WaitEvent(kind: EventType, id: nat, retain: bool)
      requires Shaped()
      modifies this
      ensures Shaped()
      ensures State() == AfterWait(old(State()), Event(kind, id)).(
                retained := old(retainedEvents) + if retain && kind != NONE then [Event(kind, id)] else [])
      ensures old(Valid()) ==> (Valid() <==> kind == NONE || Event(kind, id) !in old(Waited()))
    {
      hide Of, Flat, Counted, Covered;
      ghost var was := State();
      assert Total(was) by { CoveredTotal(was); }
      if kind != NONE {
        if Counted(was) { WaitCounted(was, Event(kind, id)); }
        WaitExcess(was, Event(kind, id));
        FlatInsert(waited, kind, id);
        waited := waited[id := (if id in waited then waited[id] else {}) + {kind}];
        waitedCount := waitedCount[CategoryOf(kind) := waitedCount[CategoryOf(kind)] + 1];
        if retain {
          retainedEvents := retainedEvents + [Event(kind, id)];
        }
      }
      assert State() == AfterWait(was, Event(kind, id)).(retained := retainedEvents);
      CountedButRetained(AfterWait(was, Event(kind, id)), State());
    }

    /** True if the event was waited for. */
    method ReceiveEvent(kind: EventType, id: nat) returns (ok: bool)
      requires Shaped() && kind != NONE
      modifies this
      ensures Shaped() && (old(Valid()) ==> Valid()) && ok == (Event(kind, id) in old(Waited()))
      ensures State() == AfterReceive(old(State()), Event(kind, id))
    {
      hide Of, Flat, SameExcess;
      ghost var before := State();
      FlatMember(waited, kind, id);
      ok := false;
      SameExcessSelf(before);
      if id in waited && kind in waited[id] {
        Erase(kind, id);
        ok := true;
      }
      ghost var mid := State();
      SameExcessSelf(mid);
      if id !in waited { FlatWithout(waited, id); }
      if kind == TERMINATION && id in waited {
        ReleaseAll(id);
      }
      SameExcessAlong(before, mid, State());
      ReceiveInSteps(before, Event(kind, id), ok, State());
    }

    method Erase(kind: EventType, id: nat)
      requires Shaped() && id in waited && kind in waited[id]
      modifies this`waited, this`waitedCount
      ensures Shaped() && SameExcess(old(State()), State())
      ensures Waited() == old(Waited()) - {Event(kind, id)}
    {
      FlatErase(waited, kind, id);
      FlatMember(waited, kind, id);
      hide Of, Flat;
      ReleaseOne(Waited(), waitedCount, Event(kind, id));
      if waited[id] == {kind} {
        waited := waited - {id};
      } else {
        waited := waited[id := waited[id] - {kind}];
      }
      waitedCount := waitedCount[CategoryOf(kind) := waitedCount[CategoryOf(kind)] - 1];
    }

    /** Releases every event still waited for from profile id. */
    method ReleaseAll(id: nat)
      requires Shaped() && id in waited
      modifies this`waited, this`waitedCount
      ensures Shaped() && SameExcess(old(State()), State())
      ensures Waited() == old(Waited()) - From(old(Waited()), id)
    {
      hide Of, Flat, From, EventsOf;
      var todo := waited[id];
      ghost var all, start := Waited(), waitedCount;
      ghost var base := all - From(all, id);
      FlatFrom(waited, id);
      assert base + EventsOf(todo, id) == all by { FromWithin(all, id); }
      while todo != {}
        invariant id in waited && todo <= waited[id] && waited == old(waited)
        invariant EventsOf(todo, id) !! base
        invariant forall c: Category :: c in waitedCount && waitedCount[c] >= |Of(base + EventsOf(todo, id), c)|
        invariant forall c: Category ::
                    waitedCount[c] - |Of(base + EventsOf(todo, id), c)| == start[c] - |Of(all, c)|
      {
        var k :| k in todo;
        EventsOfLess(todo, k, id);
        ReleaseOne(base + EventsOf(todo, id), waitedCount, Event(k, id));
        assert (base + EventsOf(todo, id)) - {Event(k, id)} == base + EventsOf(todo - {k}, id);
        waitedCount := waitedCount[CategoryOf(k) := waitedCount[CategoryOf(k)] - 1];
        todo := todo - {k};
      }
      assert base + EventsOf({}, id) == base by { NoEventsOf(id); }
      FlatRemove(waited, id);
      waited := waited - {id};
    }

    /** Records the event and says whether it is to be broadcast. */
    method EmitEvent(kind: EventType, now: nat) returns (emitted: bool)
      requires Shaped()
      modifies this`sent
      ensures Shaped() && (old(Valid()) ==> Valid()) && emitted == MayEmit(old(State()), kind, now)
      ensures sent == if emitted then old(sent)[CategoryOf(kind) := Last(kind, now)] else old(sent)
    {
      emitted := false;
      if kind != NONE {
        var cat := CategoryOf(kind);
        var last := sent[cat];
        if last.kind == NONE || (last.kind != kind && (last.time < now || AllowConcurrency(cat))) {
          sent := sent[cat := Last(kind, now)];
          emitted := true;
        }
      }
    }

    method Reset()
      modifies this
      ensures Shaped() && State() == AfterReset(old(State()))
      ensures (forall i :: 0 <= i < |retainedEvents| ==> retainedEvents[i].kind != NONE) ==>
                (Valid() <==> NoneRepeated(retainedEvents))
    {
      var retained := retainedEvents;
      ghost var was := State();
      waited, waitedCount, sent := map[], NoCounts(), NothingSent();
      ghost var clear := Waits({}, NoCounts(), NothingSent(), retained);
      assert State() == clear;
      WaitAgain(retained, clear);
      AgainRetained(clear, retained);
      if forall i :: 0 <= i < |retained| ==> retained[i].kind != NONE {
        ResetCountedIff(was);
      }
    }

    /** Restores the waits for the retained events, one by one. */
    method WaitAgain(retained: seq<Event>, ghost clear: Waits)
      requires Shaped() && State() == clear
      modifies this
      ensures Shaped() && State() == AfterWaits(clear, retained)
    {
      hide Of, Flat, Elements, Counted;
      var i := 0;
      assert retained[..0] == [];
      while i < |retained|
        invariant i <= |retained|
        invariant Shaped() && State() == AfterWaits(clear, retained[..i])
      {
        var upTo := retained[..i+1];
        assert upTo[..i] == retained[..i] && upTo[i] == retained[i];
        assert retained[i] == Event(retained[i].kind, retained[i].id);
        WaitEvent(retained[i].kind, retained[i].id, false);
        assert retainedEvents + [] == retainedEvents;
        i := i + 1;
      }
      assert retained[..|retained|] == retained;
    }

    method Waiting() returns (w: bool)
      requires Shaped()
      ensures w <==> Waited() != {}
    {
      w := waited != map[];
      if w {
        var id :| id in waited;
        var k :| k in waited[id];
        assert Event(k, id) in Waited();
      }
    }
  }

  function Flat(waited: map<nat, set<EventType>>): set<Event> {
    set id, k | id in waited && k in waited[id] :: Event(k, id)
  }

  lemma FlatInsert(w: map<nat, set<EventType>>, k: EventType, id: nat)
    ensures Flat(w[id := (if id in w then w[id] else {}) + {k}]) == Flat(w) + {Event(k, id)}
  {
  }

  lemma FlatWithout(w: map<nat, set<EventType>>, id: nat)
    requires id !in w
    ensures From(Flat(w), id) == {}
  {
  }

  lemma SameExcessSelf(m: Waits)
    requires Total(m)
    ensures SameExcess(m, m)
  {
  }

  lemma SameExcessAlong(a: Waits, b: Waits, c: Waits)
    requires Total(a) && Total(b) && Total(c) && SameExcess(a, b) && SameExcess(b, c)
    ensures SameExcess(a, c)
  {
  }

  lemma FlatMember(w: map<nat, set<EventType>>, k: EventType, id: nat)
    ensures Event(k, id) in Flat(w) <==> id in w && k in w[id]
  {
  }

  lemma FlatErase(w: map<nat, set<EventType>>, k: EventType, id: nat)
    requires id in w && k in w[id]
    ensures Flat(if w[id] == {k} then w - {id} else w[id := w[id] - {k}]) == Flat(w) - {Event(k, id)}
  {
  }

  lemma FlatRemove(w: map<nat, set<EventType>>, id: nat)
    ensures Flat(w - {id}) == Flat(w) - From(Flat(w), id)
  {
  }

  function EventsOf(kinds: set<EventType>, id: nat): set<Event> {
    set k | k in kinds :: Event(k, id)
  }

  lemma EventsOfLess(kinds: set<EventType>, k: EventType, id: nat)
    requires k in kinds
    ensures Event(k, id) in EventsOf(kinds, id)
    ensures EventsOf(kinds - {k}, id) == EventsOf(kinds, id) - {Event(k, id)}
  {
  }

  lemma NoEventsOf(id: nat)
    ensures EventsOf({}, id) == {}
  {
  }

  lemma FromWithin(waited: set<Event>, id: nat)
    ensures From(waited, id) <= waited
  {
  }

  lemma FlatFrom(w: map<nat, set<EventType>>, id: nat)
    requires id in w
    ensures From(Flat(w), id) == EventsOf(w[id], id)
  {
  }

  lemma CountedButRetained(a: Waits, b: Waits)
    requires b == a.(retained := b.retained)
    ensures (Counted(b) <==> Counted(a)) && (Covered(b) <==> Covered(a))
  {
  }

  lemma CountedTotal(m: Waits)
    requires Counted(m)
    ensures Total(m)
  {
  }

  lemma CountedCovered(m: Waits)
    requires Counted(m)
    ensures Covered(m)
  {
  }

  lemma CoveredTotal(m: Waits)
    requires Covered(m)
    ensures Total(m)
  {
  }

  /** Releasing one event that is waited for takes one off its counter. */
  lemma ReleaseOne(waited: set<Event>, count: map<Category, nat>, e: Event)
    requires e in waited && forall c: Category :: c in count && count[c] >= |Of(waited, c)|
    ensures count[CategoryOf(e.kind)] > 0
    ensures var less := count[CategoryOf(e.kind) := count[CategoryOf(e.kind)] - 1];
            forall c: Category :: c in less && less[c] >= |Of(waited - {e}, c)|
                                  && less[c] - |Of(waited - {e}, c)| == count[c] - |Of(waited, c)|
  {
    assert e in Of(waited, CategoryOf(e.kind));
    ReleasedNat(waited, count, {e});
    ReleaseCounted(waited, count, {e});
    SingleRelease(count, e);
  }

  lemma SingleRelease(count: map<Category, nat>, e: Event)
    requires forall c: Category :: c in count
    requires count[CategoryOf(e.kind)] > 0
    ensures forall c: Category :: Released(count, {e})[c]
              == count[CategoryOf(e.kind) := count[CategoryOf(e.kind)] - 1][c]
  {
    forall c: Category ensures |Of({e}, c)| == if c == CategoryOf(e.kind) then 1 else 0 {
      assert Of({e}, c) == if c == CategoryOf(e.kind) then {e} else {};
    }
  }

  /** Erasing the event itself and then, on a TERMINATION, the rest of its profile. */
  lemma ReceiveInSteps(before: Waits, e: Event, ok: bool, after: Waits)
    requires Covered(before) && Covered(after) && SameExcess(before, after)
    requires after.sent == before.sent && after.retained == before.retained
    requires after.waited == before.waited - ReleasedBy(before.waited, e)
    requires after.count.Keys == before.count.Keys
    ensures after == AfterReceive(before, e)
  {
    hide Of, ReleasedBy;
    var r := AfterReceive(before, e);
    ReceiveExcess(before, e);
    assert r.waited == after.waited;
    assert forall c: Category :: after.count[c] == r.count[c];
    assert after.count == r.count;
  }
}
