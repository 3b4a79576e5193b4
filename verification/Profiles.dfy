/** The profiles of a traffic profile manager as values, and what every completed step
    of the event protocol keeps: no wait is lost, no TERMINATION wait is dropped before
    its profile terminates, and the termination counters count. */
module ProfileModel {
  import opened Basics
  import opened EventModel

  datatype Role = MASTER | CHECKER | SLAVE | DELAY

  /** A profile: its configuration, its event manager, and its own progress.  Requests of
      a master that is not `acknowledged` expect no response.  The manager tells the
      checkers of a profile about its packets in the order in which they are `asked`.  A
      delay keeps the time of its last poll in `clock` and counts from a start of its own, which
      an activation from outside does not set. */
  datatype Profile = Profile(
    role: Role, master: nat, toSend: nat, toStop: nat, maxOt: nat, acknowledged: bool, delay: nat,
    checkers: set<nat>, asked: seq<nat>,
    em: Waits, started: bool, startTime: nat, terminated: bool,
    sent: nat, ot: nat, halted: bool, clock: nat, ownStart: nat)

  type Profiles = map<nat, Profile>
  type Subscribers = map<Event, set<nat>>

  // ------------------------------------------------------- invariants of a profile

  ghost predicate NoProfileWaits(x: Profile) {
    forall e :: e in x.em.waited ==> CategoryOf(e.kind) != PROFILE
  }

  function Opposite(e: Event): Event {
    Event(if e.kind == PROFILE_LOCKED then PROFILE_UNLOCKED else PROFILE_LOCKED, e.id)
  }

  /** A profile is halted by at most one of the two send-status events of another. */
  ghost predicate OneOfEach(waited: set<Event>) {
    forall e :: e in waited && CategoryOf(e.kind) == SEND_STATUS ==> Opposite(e) !in waited
  }

  /** A profile only makes progress, and only terminates, once it has been released from
      all the profiles it waits for. */
  ghost predicate Released(x: Profile) {
    && (x.terminated ==> NoProfileWaits(x))
    && ((x.role == MASTER || x.role == DELAY) && x.started ==> NoProfileWaits(x))
    && (x.role == SLAVE ==> !x.terminated)
    && (x.role == MASTER && x.sent > 0 ==> x.started)
    && (x.role == MASTER && x.terminated ==> x.started)
  }

  /** Limits of a master: outstanding transactions, transactions sent, none outstanding
      once it has terminated, or if no response is expected. */
  predicate WithinLimits(x: Profile) {
    x.role == MASTER ==>
      && (x.maxOt > 0 ==> x.ot <= x.maxOt)
      && (x.toSend > 0 ==> x.sent <= x.toSend)
      && (x.terminated || !x.acknowledged ==> x.ot == 0)
  }

  // ---------------------------------------------------------- progress of a master

  predicate EndOfData(x: Profile) {
    x.sent == x.toSend && x.toSend > 0
  }

  predicate EndOfTime(x: Profile, now: nat) {
    x.started && x.toStop > 0 && now >= x.startTime + x.toStop
  }

  predicate AtEnd(x: Profile, now: nat) {
    EndOfData(x) || EndOfTime(x, now)
  }

  /** A master terminates at its end, once nothing is outstanding. */
  predicate Finishes(x: Profile, now: nat) {
    AtEnd(x, now) && x.ot == 0 && !x.terminated
  }

  function WaitCount(x: Profile, c: Category): nat {
    if c in x.em.count then x.em.count[c] else 0
  }

  predicate LockedMaster(x: Profile, now: nat) {
    && !x.terminated && !Finishes(x, now)
    && (|| WaitCount(x, PROFILE) > 0
        || x.halted
        || (x.maxOt > 0 && x.ot >= x.maxOt)
        || (AtEnd(x, now) && x.ot > 0))
  }

  predicate ActiveMaster(x: Profile, now: nat) {
    !LockedMaster(x, now) && !AtEnd(x, now)
  }

  /** What keeps a master from sending: a profile it waits for, a status that halts it, its
      limit of outstanding transactions, the end of its data or of its time. */
  lemma ActiveMasterIff(x: Profile, now: nat)
    requires !x.terminated
    ensures ActiveMaster(x, now) <==>
              && WaitCount(x, PROFILE) == 0 && !x.halted && (x.maxOt > 0 ==> x.ot < x.maxOt)
              && (x.toSend > 0 ==> x.sent != x.toSend)
              && (x.started && x.toStop > 0 ==> now < x.startTime + x.toStop)
  {
  }

  /** A terminated master is at its end, and stays there as time goes on. */
  predicate StaysAtEnd(x: Profile, now: nat) {
    x.role == MASTER && x.terminated ==> AtEnd(x, now)
  }

  ghost predicate Good(x: Profile) {
    && Counted(x.em) && NoDuplicates(x.em.retained)
    && OneOfEach(x.em.waited) && OneOfEach(Elements(x.em.retained))
    && (forall e :: e in x.em.waited && e.kind == TERMINATION ==> e in Elements(x.em.retained))
    && Released(x) && WithinLimits(x)
  }

  predicate SameConfiguration(x: Profile, y: Profile) {
    && y.role == x.role && y.master == x.master && y.toSend == x.toSend && y.toStop == x.toStop
    && y.maxOt == x.maxOt && y.acknowledged == x.acknowledged && y.delay == x.delay
    && y.checkers == x.checkers && y.asked == x.asked && y.em.retained == x.em.retained
  }

  // ------------------------------------------------- invariants across profiles

  /** Nothing waited for is lost: it is still subscribed, except as listed. */
  ghost predicate Subscribed(ps: Profiles, subs: Subscribers, except: set<(nat, Event)>) {
    forall p, e :: p in ps && e in ps[p].em.waited && (p, e) !in except ==> e in subs && p in subs[e]
  }

  /** Subscribers are profiles, and TERMINATION subscriptions are configured waits. */
  ghost predicate FromConfiguration(ps: Profiles, subs: Subscribers) {
    && (forall e :: e in subs ==> subs[e] != {})
    && (forall e, p :: e in subs && p in subs[e] ==> p in ps)
    && (forall e, p :: e in subs && e.kind == TERMINATION && p in subs[e] ==>
          p in ps && e in Elements(ps[p].em.retained))
  }

  /** A configured TERMINATION wait is pending until the profile it names terminates. */
  ghost predicate Chained(ps: Profiles, dying: set<nat>, exempt: set<nat>) {
    forall p, e :: p in ps && p !in exempt && e in Elements(ps[p].em.retained) && e.kind == TERMINATION ==>
      e in ps[p].em.waited || (e.id in ps && (ps[e.id].terminated || e.id in dying))
  }

  /** The profiles of master m that have not terminated. */
  ghost function Live(ps: Profiles, m: nat, dying: set<nat>): set<nat> {
    set p | p in ps && ps[p].role != SLAVE && ps[p].master == m && !ps[p].terminated && p !in dying
  }

  function Count(nt: map<nat, nat>, m: nat): nat {
    if m in nt then nt[m] else 0
  }

  ghost predicate Counters(ps: Profiles, nt: map<nat, nat>, dying: set<nat>) {
    forall m :: Count(nt, m) == |Live(ps, m, dying)|
  }

  /** The last PROFILE event a profile sent is a TERMINATION only if it has terminated. */
  ghost predicate SentOnce(ps: Profiles, dying: set<nat>) {
    forall p :: p in ps && p !in dying && PROFILE in ps[p].em.sent && ps[p].em.sent[PROFILE].kind == TERMINATION ==>
      ps[p].terminated
  }

  /** Those registered as checkers are, and are configured to wait for what they check. */
  ghost predicate CheckersWait(ps: Profiles) {
    forall p, c :: p in ps && c in ps[p].checkers ==>
      c in ps && ps[c].role == CHECKER && Event(TERMINATION, p) in Elements(ps[c].em.retained)
  }

  /** The manager asks the checkers of a profile one after the other, each once. */
  ghost predicate AskedInOrder(ps: Profiles) {
    forall p :: p in ps ==>
      && (forall c :: c in ps[p].asked <==> c in ps[p].checkers)
      && forall i, j :: 0 <= i < j < |ps[p].asked| ==> ps[p].asked[i] != ps[p].asked[j]
  }

  ghost predicate Valid(ps: Profiles, subs: Subscribers, nt: map<nat, nat>,
                        dying: set<nat>, except: set<(nat, Event)>, exempt: set<nat>) {
    && (forall p :: p in ps ==> Good(ps[p]))
    && Subscribed(ps, subs, except)
    && FromConfiguration(ps, subs)
    && Chained(ps, dying, exempt)
    && Counters(ps, nt, dying)
    && SentOnce(ps, dying)
    && CheckersWait(ps)
  }

  /** No terminated profile has subscribers to its TERMINATION left. */
  ghost predicate Cleaned(ps: Profiles, subs: Subscribers) {
    forall e :: e in subs && e.kind == TERMINATION && e.id in ps ==> !ps[e.id].terminated
  }

  /** How far an event broadcast may change a profile: its configuration, its progress
      and its termination stay, it waits for no more than before, but `grow` if it is a
      master, and it keeps the TERMINATION waits of profiles that have not `ended`. */
  ghost predicate Evolves(x: Profile, y: Profile, grow: set<Event>, ended: set<nat>) {
    && y == x.(em := y.em, started := y.started, startTime := y.startTime, halted := y.halted)
    && y.em.retained == x.em.retained
    && y.em.waited <= x.em.waited + grow
    && (x.role != MASTER ==> y.em.waited <= x.em.waited)
    && (forall e :: e in x.em.waited && e.kind == TERMINATION && e.id !in ended ==> e in y.em.waited)
    && (Activated(x) ==> Activated(y)) && (Heralded(x) ==> Heralded(y))
    && (x.started ==> y.started && y.startTime == x.startTime)
  }

  /** The profile has announced its activation since its last reset. */
  predicate Activated(x: Profile) {
    PROFILE in x.em.sent && x.em.sent[PROFILE].kind == ACTIVATION
  }

  /** The profile has announced its activation since its last reset, whatever it announced
      after that. */
  predicate Heralded(x: Profile) {
    PROFILE in x.em.sent && (x.em.sent[PROFILE].kind == ACTIVATION || x.em.sent[PROFILE].kind == TERMINATION)
  }

  /** Nothing keeps the profile from running.  A checker never runs of itself. */
  ghost predicate Free(x: Profile) {
    x.role == SLAVE || (x.role != CHECKER && NoProfileWaits(x))
  }

  /** It runs: it has announced so, and but for a delay, which starts when it is polled, it
      has started. */
  predicate Up(x: Profile) {
    Heralded(x) && (x.role != DELAY ==> x.started)
  }

  ghost predicate AllEvolve(a: Profiles, b: Profiles, grow: set<Event>, ended: set<nat>) {
    && a.Keys == b.Keys
    && forall p :: p in a ==> Evolves(a[p], b[p], grow, ended)
  }

  lemma EvolveTransitive(a: Profiles, b: Profiles, c: Profiles, grow: set<Event>, ended: set<nat>)
    requires AllEvolve(a, b, grow, ended) && AllEvolve(b, c, grow, ended)
    ensures AllEvolve(a, c, grow, ended)
  {
  }

  lemma EvolveWeaken(a: Profiles, b: Profiles, grow: set<Event>, ended: set<nat>)
    requires AllEvolve(a, b, {}, {})
    ensures AllEvolve(a, b, grow, ended)
  {
  }

  lemma EvolveOne(a: Profiles, p: nat, y: Profile, grow: set<Event>, ended: set<nat>)
    requires p in a && Evolves(a[p], y, grow, ended)
    ensures AllEvolve(a, a[p := y], grow, ended)
  {
  }

  /** A profile that an event released from the last profile it waited for is up, and
      whatever has started did so now. */
  ghost predicate Woken(a: Profiles, b: Profiles, now: nat) {
    forall q :: q in a && q in b ==>
      && (Free(b[q]) && !Free(a[q]) ==> Up(b[q]))
      && (b[q].started && !a[q].started ==> b[q].startTime == now)
  }

  /** No wakeup is lost: every profile but those of `asleep` is up, or something keeps it
      from running. */
  ghost predicate AwakeBut(ps: Profiles, asleep: set<nat>) {
    forall q :: q in ps && q !in asleep && Free(ps[q]) ==> Up(ps[q])
  }

  lemma WokenSelf(a: Profiles, now: nat)
    ensures Woken(a, a, now)
  {
  }

  lemma WokenTransitive(a: Profiles, b: Profiles, c: Profiles, grow: set<Event>, ended: set<nat>, now: nat)
    requires Woken(a, b, now) && Woken(b, c, now) && a.Keys == b.Keys && AllEvolve(b, c, grow, ended)
    ensures Woken(a, c, now)
  {
    hide NoProfileWaits;
  }

  /** An update that keeps what the profile waits for, or brings it up. */
  lemma WokenUpdate(a: Profiles, p: nat, y: Profile, now: nat)
    requires p in a && y.role == a[p].role && (y.em.waited == a[p].em.waited || Up(y))
    requires y.started && !a[p].started ==> y.startTime == now
    ensures Woken(a, a[p := y], now)
  {
  }

  lemma AwakeKept(a: Profiles, b: Profiles, asleep: set<nat>, grow: set<Event>, ended: set<nat>, now: nat)
    requires AwakeBut(a, asleep) && Woken(a, b, now) && AllEvolve(a, b, grow, ended)
    ensures AwakeBut(b, asleep)
  {
    hide NoProfileWaits;
  }

  lemma AwakeUpdate(a: Profiles, asleep: set<nat>, p: nat, y: Profile)
    requires AwakeBut(a, asleep) && p in a && y.role == a[p].role
    requires Up(y) || (y.em.waited == a[p].em.waited && (Up(a[p]) ==> Up(y)))
    ensures AwakeBut(a[p := y], asleep)
  {
  }

  // ------------------------------------------------ what a broadcast does at most

  predicate SameStatus(x: Profile, y: Profile) {
    SEND_STATUS in x.em.sent && SEND_STATUS in y.em.sent && x.em.sent[SEND_STATUS] == y.em.sent[SEND_STATUS]
  }

  /** A wait disappears only if it is one of `gone`, a wait on one of `ended`, or a wait for
      an activation that has been announced; no status is sent; and nobody subscribes to
      a TERMINATION. */
  ghost predicate AtMost(a: Profiles, sa: Subscribers, b: Profiles, sb: Subscribers,
                         gone: set<Event>, ended: set<nat>) {
    && a.Keys == b.Keys
    && WaitsKept(a, b, gone, ended)
    && (forall p :: p in a ==> SameStatus(a[p], b[p]))
    && (forall e :: e in sb && e.kind == TERMINATION ==> e in sa)
  }

  ghost predicate WaitsKept(a: Profiles, b: Profiles, gone: set<Event>, ended: set<nat>) {
    forall p, e :: p in a && p in b && e in a[p].em.waited && e !in b[p].em.waited ==> Excused(b, e, gone, ended)
  }

  predicate Excused(b: Profiles, e: Event, gone: set<Event>, ended: set<nat>) {
    e in gone || e.id in ended || (e.kind == ACTIVATION && e.id in b && Activated(b[e.id]))
  }

  lemma AtMostSelf(a: Profiles, sa: Subscribers, gone: set<Event>, ended: set<nat>)
    requires forall p :: p in a ==> Good(a[p])
    ensures AtMost(a, sa, a, sa, gone, ended)
  {
    hide NoDuplicates, OneOfEach, Released, WithinLimits;
  }

  lemma AtMostTransitive(a: Profiles, sa: Subscribers, b: Profiles, sb: Subscribers, c: Profiles, sc: Subscribers,
                         gone: set<Event>, ended: set<nat>, grow: set<Event>, over: set<nat>)
    requires AtMost(a, sa, b, sb, gone, ended) && AtMost(b, sb, c, sc, gone, ended)
    requires AllEvolve(b, c, grow, over)
    ensures AtMost(a, sa, c, sc, gone, ended)
  {
    hide Excused, WaitsKept;
    WaitsKeptTransitive(a, b, c, gone, ended, grow, over);
  }

  lemma WaitsKeptTransitive(a: Profiles, b: Profiles, c: Profiles, gone: set<Event>, ended: set<nat>,
                            grow: set<Event>, over: set<nat>)
    requires WaitsKept(a, b, gone, ended) && WaitsKept(b, c, gone, ended)
    requires a.Keys == b.Keys && AllEvolve(b, c, grow, over)
    ensures WaitsKept(a, c, gone, ended)
  {
    hide Excused;
    forall p, e | p in a && e in a[p].em.waited && e !in c[p].em.waited ensures Excused(c, e, gone, ended) {
      if e !in b[p].em.waited {
        ExcusedStays(b, c, e, gone, ended, grow, over);
      }
    }
  }

  lemma ExcusedStays(b: Profiles, c: Profiles, e: Event, gone: set<Event>, ended: set<nat>, grow: set<Event>,
                     over: set<nat>)
    requires Excused(b, e, gone, ended) && AllEvolve(b, c, grow, over)
    ensures Excused(c, e, gone, ended)
  {
    hide NoProfileWaits;
    if e.id in b { assert Evolves(b[e.id], c[e.id], grow, over); }
  }

  lemma AtMostWeaken(a: Profiles, sa: Subscribers, b: Profiles, sb: Subscribers, less: set<Event>, gone: set<Event>,
                     ended: set<nat>)
    requires AtMost(a, sa, b, sb, less, {}) && less <= gone
    ensures AtMost(a, sa, b, sb, gone, ended)
  {
    forall p, e | p in a && e in a[p].em.waited && e !in b[p].em.waited ensures Excused(b, e, gone, ended) {
      assert Excused(b, e, less, {});
    }
  }

  lemma AtMostUpdate(a: Profiles, sa: Subscribers, p: nat, y: Profile, sb: Subscribers, gone: set<Event>,
                     ended: set<nat>)
    requires (forall q :: q in a ==> Good(a[q])) && p in a && SameStatus(a[p], y)
    requires forall e :: e in a[p].em.waited && e !in y.em.waited ==> e in gone || e.id in ended
    requires forall e :: e in sb && e.kind == TERMINATION ==> e in sa
    ensures AtMost(a, sa, a[p := y], sb, gone, ended)
  {
    AtMostSelf(a, sa, gone, ended);
    hide Good;
  }

  /** An update of p that leaves its event manager alone. */
  lemma WaitsKeptUpdate(a: Profiles, b: Profiles, p: nat, y: Profile, gone: set<Event>, ended: set<nat>)
    requires WaitsKept(a, b, gone, ended) && p in b && y.em == b[p].em
    ensures WaitsKept(a, b[p := y], gone, ended)
  {
    forall q, e | q in a && q in b && e in a[q].em.waited && e !in b[p := y][q].em.waited
      ensures Excused(b[p := y], e, gone, ended)
    {
      assert Excused(b, e, gone, ended);
    }
  }

  /** The activation of p itself needs no mention once p is activated. */
  lemma AtMostActivated(a: Profiles, sa: Subscribers, b: Profiles, sb: Subscribers, p: nat)
    requires AtMost(a, sa, b, sb, {Event(ACTIVATION, p)}, {}) && p in b && Activated(b[p])
    ensures AtMost(a, sa, b, sb, {}, {})
  {
    forall q, e | q in a && e in a[q].em.waited && e !in b[q].em.waited ensures Excused(b, e, {}, {}) {
      assert Excused(b, e, {Event(ACTIVATION, p)}, {});
    }
  }

  predicate Running(x: Profile) { x.started || Activated(x) }

  /** The manager polls every profile that runs, but those of `skip`. */
  predicate Listed(ps: Profiles, list: seq<nat>, skip: set<nat>) {
    forall q :: q in ps && q !in skip && Running(ps[q]) ==> q in list
  }

  lemma ListedUpdate(ps: Profiles, list: seq<nat>, skip: set<nat>, p: nat, y: Profile)
    requires Running(y) ==> p in skip || (p in ps && Running(ps[p]))
    ensures Listed(ps, list, skip) ==> Listed(ps[p := y], list, skip)
  {
  }

  lemma ListedMore(ps: Profiles, list: seq<nat>, skip: set<nat>, more: seq<nat>)
    ensures Listed(ps, list, skip) ==> Listed(ps, list + more, skip)
  {
  }

  /** A profile that starts to run is left out until it is pushed to the list. */
  lemma ListedSkip(ps: Profiles, list: seq<nat>, p: nat)
    ensures Listed(ps, list, {}) ==> Listed(ps, list, {p})
  {
  }

  lemma ListedPush(ps: Profiles, list: seq<nat>, p: nat)
    ensures Listed(ps, list, {p}) ==> Listed(ps, list + [p], {})
  {
  }

  // ----------------------------------------------------------- receiving an event

  /** A status event that a master waits for: it waits for the opposite one next. */
  predicate Switches(x: Profile, ev: Event) {
    x.role == MASTER && ev in x.em.waited && CategoryOf(ev.kind) == SEND_STATUS
  }

  /** A profile after its event manager received an event; a master is halted by a status
      event, and not halted once it waits for none. */
  function Receipt(x: Profile, ev: Event): Profile
    requires Counted(x.em)
  {
    var r := AfterReceive(x.em, ev);
    if x.role != MASTER then x.(em := r)
    else if Switches(x, ev) then
      var m := AfterWait(r, Opposite(ev));
      x.(em := m, halted := m.count[SEND_STATUS] != 0 && !x.halted)
    else x.(em := r, halted := r.count[SEND_STATUS] != 0 && x.halted)
  }

  /** Profiles that may still announce their activation: the measure of a cascade. */
  ghost function Quiet(ps: Profiles): set<nat> {
    set p | p in ps && !Activated(ps[p])
  }

  lemma QuietShrinks(a: Profiles, b: Profiles, grow: set<Event>, ended: set<nat>)
    requires AllEvolve(a, b, grow, ended)
    ensures Quiet(b) <= Quiet(a) && |Quiet(b)| <= |Quiet(a)|
  {
    assert Quiet(b) <= Quiet(a);
    SubsetSize(Quiet(b), Quiet(a));
  }

  // --------------------------------------------------------- updating one profile

  /** A step of one profile that keeps its termination status keeps everything, if what
      it still waits for is subscribed and no TERMINATION wait is dropped too early. */
  lemma UpdateOne(ps: Profiles, subs: Subscribers, nt: map<nat, nat>, dying: set<nat>,
                  before: set<(nat, Event)>, after: set<(nat, Event)>, exempt: set<nat>, p: nat, y: Profile)
    requires Valid(ps, subs, nt, dying, before, exempt) && p in ps && Good(y)
    requires y.role == ps[p].role && y.master == ps[p].master && y.terminated == ps[p].terminated
    requires y.em.retained == ps[p].em.retained && y.checkers == ps[p].checkers
    requires y.em.sent[PROFILE].kind == TERMINATION ==> ps[p].em.sent[PROFILE].kind == TERMINATION || p in dying
    requires forall q, e :: (q, e) in before && q != p ==> (q, e) in after
    requires forall e :: e in y.em.waited && (p, e) !in after ==> e in subs && p in subs[e]
    requires forall e :: e in ps[p].em.waited && e.kind == TERMINATION && e !in y.em.waited ==>
               e.id in ps && (ps[e.id].terminated || e.id in dying)
    ensures Valid(ps[p := y], subs, nt, dying, after, exempt)
  {
    assert Good(ps[p]) && PROFILE in ps[p].em.sent;
    hide Good, NoProfileWaits;
    var qs := ps[p := y];
    forall m ensures Live(qs, m, dying) == Live(ps, m, dying) {}
    assert Chained(qs, dying, exempt) by { ChainedUpdate(ps, dying, exempt, p, y); }
  }

  lemma ChainedUpdate(ps: Profiles, dying: set<nat>, exempt: set<nat>, p: nat, y: Profile)
    requires Chained(ps, dying, exempt) && p in ps
    requires y.terminated == ps[p].terminated && y.em.retained == ps[p].em.retained
    requires forall e :: e in ps[p].em.waited && e.kind == TERMINATION && e !in y.em.waited ==>
               e.id in ps && (ps[e.id].terminated || e.id in dying)
    ensures Chained(ps[p := y], dying, exempt)
  {
  }

  /** Adding subscriptions of configured or transient waits keeps everything. */
  lemma SubscribeOne(ps: Profiles, subs: Subscribers, nt: map<nat, nat>, dying: set<nat>,
                     except: set<(nat, Event)>, exempt: set<nat>, p: nat, e: Event)
    requires Valid(ps, subs, nt, dying, except, exempt) && p in ps
    requires e.kind == TERMINATION ==> e in Elements(ps[p].em.retained)
    ensures Valid(ps, WithSubscriber(subs, e, p), nt, dying, except, exempt)
  {
    hide Good, Chained, Counters;
  }

  function WithSubscriber(subs: Subscribers, e: Event, p: nat): Subscribers {
    subs[e := (if e in subs then subs[e] else {}) + {p}]
  }

  /** Receiving an event releases waits and nothing else. */
  lemma ReceiveGood(x: Profile, ev: Event)
    requires Good(x)
    ensures Good(x.(em := AfterReceive(x.em, ev)))
  {
  }

  lemma ToggleGood(x: Profile, ev: Event)
    requires Good(x) && CategoryOf(ev.kind) == SEND_STATUS && ev in x.em.waited
    ensures var m := AfterReceive(x.em, ev);
            Opposite(ev) !in m.waited && Good(x.(em := AfterWait(m, Opposite(ev))))
  {
    hide Covered, NoDuplicates, Of;
    assert Covered(x.em) by { CountedCovered(x.em); }
    var m := AfterReceive(x.em, ev);
    WaitCounted(m, Opposite(ev));
    assert Opposite(Opposite(ev)) == ev;
  }

  /** No lost wakeup: between steps, whatever a profile waits for it is subscribed to, its
      counters count its waits by category, and it is waiting exactly if one of them is
      not zero. */
  lemma NoLostWakeup(ps: Profiles, subs: Subscribers, nt: map<nat, nat>, p: nat)
    requires Valid(ps, subs, nt, {}, {}, {}) && p in ps
    ensures forall e :: e in ps[p].em.waited ==> e in subs && p in subs[e]
    ensures forall c: Category :: c in ps[p].em.count && ps[p].em.count[c] == |Of(ps[p].em.waited, c)|
    ensures ps[p].em.waited != {} <==> exists c: Category :: ps[p].em.count[c] > 0
  {
    hide Valid, Good;
    ValidParts(ps, subs, nt, p);
    GoodCounts(ps[p]);
    WaitingIffCounted(ps[p].em);
  }

  lemma ValidParts(ps: Profiles, subs: Subscribers, nt: map<nat, nat>, p: nat)
    requires Valid(ps, subs, nt, {}, {}, {}) && p in ps
    ensures Good(ps[p]) && Subscribed(ps, subs, {})
  {
    hide Good;
  }

  lemma GoodCounts(x: Profile)
    requires Good(x)
    ensures Counted(x.em)
  {
  }

  /** A master that waited twice for the same profile event before it started is locked for
      good: whatever it receives or waits for, until its next reset. */
  lemma RepeatedWaitLocks(x: Profile, e: Event, moves: seq<Move>, now: nat)
    requires x.role == MASTER && !x.started && x.sent == 0 && !x.terminated
    requires Covered(x.em) && e in x.em.waited && CategoryOf(e.kind) == PROFILE
    ensures Covered(AfterWait(x.em, e))
    ensures LockedMaster(x.(em := AfterMoves(AfterWait(x.em, e), moves)), now)
  {
    WaitExcess(x.em, e);
    ExcessStays(AfterWait(x.em, e), moves, PROFILE);
  }
}
