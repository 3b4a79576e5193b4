/** The traffic profile manager: subscriptions, broadcasts, termination, streams. */
module ManagerModel {
  import opened EventModel
  import opened ProfileModel
  import opened StreamModel

  /** Waits that a broadcast of ev may add to its receivers. */
  function Grow(ev: Event): set<Event> {
    if CategoryOf(ev.kind) == SEND_STATUS then {Opposite(ev)} else {}
  }

  function Ended(ev: Event): set<nat> {
    if ev.kind == TERMINATION then {ev.id} else {}
  }

  lemma MoreExceptions(ps: Profiles, subs: Subscribers, nt: map<nat, nat>, dying: set<nat>,
                       a: set<(nat, Event)>, b: set<(nat, Event)>, exempt: set<nat>)
    requires ProfileModel.Valid(ps, subs, nt, dying, a, exempt) && a <= b
    ensures ProfileModel.Valid(ps, subs, nt, dying, b, exempt)
  {
  }

  /** Taking an event off the map leaves exactly its subscribers to be told. */
  lemma TakeOff(ps: Profiles, subs: Subscribers, nt: map<nat, nat>, dying: set<nat>,
                except: set<(nat, Event)>, exempt: set<nat>, ev: Event)
    requires ProfileModel.Valid(ps, subs, nt, dying, except, exempt) && ev in subs
    ensures ProfileModel.Valid(ps, subs - {ev}, nt, dying, except + Told(subs[ev], ev), exempt)
  {
    hide Good, Chained, Counters;
  }

  function Told(todo: set<nat>, ev: Event): set<(nat, Event)> {
    set q | q in todo :: (q, ev)
  }

  /** None of the given profiles waits for ev. */
  ghost predicate NoneWaits(ps: Profiles, qs: set<nat>, ev: Event) {
    forall q :: q in qs && q in ps ==> ev !in ps[q].em.waited
  }

  lemma NoneYet(ps: Profiles, ev: Event)
    ensures NoneWaits(ps, {}, ev)
  {
  }

  lemma NoneWaitsMore(a: Profiles, b: Profiles, all: set<nat>, todo: set<nat>, p: nat, ev: Event)
    requires AllEvolve(a, b, Grow(ev), Ended(ev)) && NoneWaits(a, all - todo, ev)
    requires p in b && ev !in b[p].em.waited
    ensures NoneWaits(b, all - (todo - {p}), ev)
  {
    forall q | q in all - (todo - {p}) && q in b ensures ev !in b[q].em.waited {
      assert Evolves(a[q], b[q], Grow(ev), Ended(ev));
    }
  }

  /** Once the subscribers have been told, nobody waits for the event. */
  lemma NobodyLeft(a: Profiles, b: Profiles, subs: Subscribers, nt: map<nat, nat>, dying: set<nat>,
                   except: set<(nat, Event)>, exempt: set<nat>, ev: Event)
    requires AllEvolve(a, b, Grow(ev), {}) && ProfileModel.Valid(a, subs, nt, dying, except, exempt)
    requires ev in subs ==> NoneWaits(b, subs[ev], ev)
    ensures except == {} ==> NoneWaits(b, b.Keys, ev)
  {
    hide Good, Chained, Counters, FromConfiguration, SentOnce, CheckersWait;
    if except == {} {
      forall q | q in b ensures ev !in b[q].em.waited {
        assert Evolves(a[q], b[q], Grow(ev), {});
      }
    }
  }

  lemma EachGood(ps: Profiles, subs: Subscribers, nt: map<nat, nat>, dying: set<nat>, except: set<(nat, Event)>,
                 exempt: set<nat>)
    requires ProfileModel.Valid(ps, subs, nt, dying, except, exempt)
    ensures forall p :: p in ps ==> Good(ps[p])
  {
  }

  lemma AtMostShrink(a: Profiles, sa: Subscribers, sb: Subscribers, gone: set<Event>)
    requires (forall p :: p in a ==> Good(a[p])) && forall e :: e in sb ==> e in sa
    ensures AtMost(a, sa, a, sb, gone, {})
  {
    AtMostSelf(a, sa, gone, {});
    hide Good;
  }

  lemma ReceiptAtMost(ps: Profiles, subs: Subscribers, p: nat, ev: Event, now: Subscribers)
    requires (forall q :: q in ps ==> Good(ps[q])) && p in ps && Counted(ps[p].em)
    requires forall e :: e in now && e.kind == TERMINATION ==> e in subs
    ensures AtMost(ps, subs, ps[p := Receipt(ps[p], ev)], now, {ev}, Ended(ev))
  {
    hide NoDuplicates, OneOfEach, EventModel.Released, WithinLimits;
    AtMostUpdate(ps, subs, p, Receipt(ps[p], ev), now, {ev}, Ended(ev));
  }

  lemma StartEvolves(a: Profiles, p: nat, y: Profile)
    requires p in a && !a[p].started && y == a[p].(started := true, startTime := y.startTime)
    ensures AllEvolve(a, a[p := y], {}, {})
  {
  }

  /** The TERMINATION of p is a wait on p. */
  lemma AtMostTold(a: Profiles, sa: Subscribers, b: Profiles, sb: Subscribers, p: nat)
    requires AtMost(a, sa, b, sb, {Event(TERMINATION, p)}, {p})
    ensures AtMost(a, sa, b, sb, {}, {p})
  {
    forall q, e | q in a && e in a[q].em.waited && e !in b[q].em.waited ensures Excused(b, e, {}, {p}) {
      assert Excused(b, e, {Event(TERMINATION, p)}, {p});
    }
  }

  lemma AtMostWithout(a: Profiles, sa: Subscribers, b: Profiles, sb: Subscribers, p: nat)
    requires AtMost(a, sa, b, sb, {}, {p})
    ensures AtMost(a, sa, b, Without(sb, p), {}, {p})
  {
    hide Excused;
  }

  lemma ToldLess(todo: set<nat>, p: nat, ev: Event)
    requires p in todo
    ensures Told(todo, ev) == Told(todo - {p}, ev) + {(p, ev)}
  {
  }

  class TrafficProfileManager {
    var time: nat
    var profiles: Profiles
    var waitEventMap: Subscribers
    var activeList: seq<nat>
    var nonTerminatedProfiles: map<nat, nat>
    var streamCache: map<nat, seq<(nat, bool)>>
    var streamLeavesCache: map<nat, seq<nat>>

    ghost predicate Ok(dying: set<nat>, except: set<(nat, Event)>, exempt: set<nat>)
      reads this
    {
      ProfileModel.Valid(profiles, waitEventMap, nonTerminatedProfiles, dying, except, exempt)
    }

    /** What holds between calls: the protocol's invariants, every master that waits for no
        profile has started, every profile that runs is polled, and a master that has
        terminated is at its end. */
    ghost predicate Valid()
      reads this
    {
      && Ok({}, {}, {})
      && AwakeBut(profiles, {}) && Listed(profiles, activeList, {})
      && forall p :: p in profiles ==> StaysAtEnd(profiles[p], time)
    }

    // ----------------------------------------------------------- configuration

    constructor ()
      ensures Valid() && Cached() && profiles == map[] && time == 0
    {
      time, profiles, waitEventMap, activeList, nonTerminatedProfiles := 0, map[], map[], [], map[];
      streamCache, streamLeavesCache := map[], map[];
      new;
      assert forall m :: Live(profiles, m, {}) == {};
    }

    /** Creates a profile with its configured waits.  Profiles it waits for, and profiles
        that wait for it, may be created before or after it. */
    method CreateProfile(id: nat, x: Profile)
      requires Valid() && Cached() && id !in profiles
      requires NoDuplicates(x.em.retained) && OneOfEach(Elements(x.em.retained))
      requires x == Blank(x.role, x.master, x.toSend, x.toStop, x.maxOt, x.acknowledged, x.delay, x.em.retained)
      modifies this`profiles, this`waitEventMap, this`activeList, this`nonTerminatedProfiles
      ensures Valid() && Cached()
      ensures AllEvolve(old(profiles)[id := Cleared(x)], profiles, {}, {})
      ensures id in profiles && StartedUpAs(profiles[id], Cleared(x), time)
      ensures old(AskedInOrder(profiles)) ==> AskedInOrder(profiles)
    {
      hide ProfileModel.Valid, Good, AllEvolve, Cleared, Blank, AwakeBut, StaysAtEnd, NoDuplicates, OneOfEach, Elements,
           Listed, StartedUpAs, AskedInOrder;
      ghost var start := profiles;
      AddProfile(id, x);
      ghost var before := profiles;
      ClearedStarts(x);
      AllGood(profiles, waitEventMap, nonTerminatedProfiles);
      StartUp(id);
      CreatedStay(start, before, profiles, id, time);
      CreatedAsked(start, profiles, id, x);
      KeysStay(before, profiles, {}, {});
    }

    /** The new profile joins the others and its master, with its waits subscribed. */
    method AddProfile(id: nat, x: Profile)
      requires Valid() && id !in profiles
      requires NoDuplicates(x.em.retained) && OneOfEach(Elements(x.em.retained))
      requires x == Blank(x.role, x.master, x.toSend, x.toStop, x.maxOt, x.acknowledged, x.delay, x.em.retained)
      modifies this`profiles, this`waitEventMap, this`activeList, this`nonTerminatedProfiles
      ensures Ok({}, {}, {}) && profiles == old(profiles)[id := Cleared(x)]
      ensures AwakeBut(profiles, {id}) && Listed(profiles, activeList, {})
    {
      hide ProfileModel.Valid, Good, Cleared, Blank, AwakeBut, StaysAtEnd, NoDuplicates, OneOfEach, Elements, Listed;
      AwakeBefore(profiles, id, Cleared(x));
      BlankRests(x);
      ListedUpdate(profiles, activeList, {}, id, x);
      AddStep(profiles, waitEventMap, nonTerminatedProfiles, id, x, time);
      profiles := profiles[id := x];
      if x.role != SLAVE {
        nonTerminatedProfiles := nonTerminatedProfiles[x.master := Count(nonTerminatedProfiles, x.master) + 1];
      }
      ResetBase(id, {id});
      LessExempt(profiles, waitEventMap, nonTerminatedProfiles, {id} - {id}, {});
      assert profiles == old(profiles)[id := Cleared(x)];
    }

    /** A checker is registered with a profile that it was configured to wait for. */
    method RegisterChecker(p: nat, c: nat)
      requires Valid() && p in profiles && c in profiles && profiles[c].role == CHECKER
      requires Event(TERMINATION, p) in Elements(profiles[c].em.retained)
      modifies this`profiles
      ensures Valid()
      ensures profiles == old(profiles)[p := Checked(old(profiles)[p], c)]
      ensures old(AskedInOrder(profiles)) ==> AskedInOrder(profiles)
    {
      hide ProfileModel.Valid, Good, AwakeBut, Listed, AskedInOrder;
      RegisterAsked(profiles, p, c);
      RegisterStep(profiles, waitEventMap, nonTerminatedProfiles, p, c);
      AwakeUpdate(profiles, {}, p, Checked(profiles[p], c));
      ListedUpdate(profiles, activeList, {}, p, Checked(profiles[p], c));
      profiles := profiles[p := Checked(profiles[p], c)];
    }

    /** What the constructor of a profile does last, by role. */
    method StartUp(id: nat)
      requires Ok({}, {}, {}) && id in profiles && !profiles[id].started
      modifies this`profiles, this`waitEventMap, this`activeList
      ensures Ok({}, {}, {}) && AllEvolve(old(profiles), profiles, {}, {})
      ensures AwakeBut(old(profiles), {id}) ==> AwakeBut(profiles, {})
      ensures id in profiles && StartedUpAs(profiles[id], old(profiles)[id], time)
      ensures Listed(old(profiles), old(activeList), {}) ==> Listed(profiles, activeList, {})
    {
      hide Good, Chained, Counters, Subscribed, FromConfiguration, SentOnce, CheckersWait, AllEvolve, Woken, AwakeBut, Listed;
      assert Good(profiles[id]);
      MasterFacts(profiles[id]);
      EvolveSelf(profiles);
      WokenSelf(profiles, time);
      ghost var before := profiles;
      var x := profiles[id];
      CountZero(x.em, PROFILE);
      if x.role == SLAVE || (x.role == MASTER && x.em.count[PROFILE] == 0) {
        CountZero(profiles[id].em, PROFILE);
        Activate(id, {}, {}, {});
      } else if x.role == DELAY && x.em.count[PROFILE] == 0 {
        EmitActivation(id, {}, {}, {});
      }
      if AwakeBut(before, {id}) {
        AwakeKept(before, profiles, {id}, {}, {}, time);
        EvolvesAt(before, profiles, id, {}, {});
        CountZero(x.em, PROFILE);
        StartedUp(before, profiles, id);
      }
    }

    /** The adapter starts a root that waits for nothing but its own activation. */
    method ActivateRoot(p: nat)
      requires Valid() && p in profiles && !profiles[p].started && !Activated(profiles[p])
      requires forall e :: e in profiles[p].em.waited && CategoryOf(e.kind) == PROFILE ==> e == Event(ACTIVATION, p)
      modifies this`profiles, this`waitEventMap, this`activeList
      ensures Valid() && AllEvolve(old(profiles), profiles, {}, {})
      ensures profiles[p].started && NoProfileWaits(profiles[p])
    {
      hide Good, Chained, Counters, Subscribed, FromConfiguration, SentOnce, CheckersWait, AllEvolve, Woken, AwakeBut, Listed;
      ghost var start := profiles;
      assert forall q :: q in profiles ==> Good(profiles[q]);
      EmitActivation(p, {}, {}, {});
      EvolvesAt(start, profiles, p, {}, {});
      assert NoProfileWaits(profiles[p]);
      AwakeKept(start, profiles, {}, {}, {}, time);
      ghost var before := profiles;
      if !profiles[p].started {
        AwakeUpdate(profiles, {}, p, profiles[p].(started := true, startTime := time));
        ListedUpdate(profiles, activeList, {}, p, profiles[p].(started := true, startTime := time));
        StartStep(profiles[p], profiles, waitEventMap, nonTerminatedProfiles, {}, {}, {}, p, time);
        profiles := profiles[p := profiles[p].(started := true, startTime := time)];
        EvolveTransitive(start, before, profiles, {}, {});
      }
      EvolveStaysPlain(start, profiles, time);
    }

    // --------------------------------------------------- subscribe and broadcast

    method Subscribe(p: nat, e: Event, ghost dying: set<nat>, ghost except: set<(nat, Event)>, ghost exempt: set<nat>)
      requires Ok(dying, except, exempt) && p in profiles
      requires e.kind == TERMINATION ==> e in Elements(profiles[p].em.retained)
      modifies this`waitEventMap, this`activeList
      ensures Ok(dying, except, exempt)
      ensures waitEventMap == WithSubscriber(old(waitEventMap), e, p)
      ensures activeList == old(activeList) + if e.kind == ACTIVATION then [p] else []
    {
      if e.kind == ACTIVATION {
        activeList := activeList + [p];
      }
      SubscribeOne(profiles, waitEventMap, nonTerminatedProfiles, dying, except, exempt, p, e);
      waitEventMap := waitEventMap[e := (if e in waitEventMap then waitEventMap[e] else {}) + {p}];
    }

    /** Broadcasts an event that is not a TERMINATION to its subscribers. */
    method Broadcast(ev: Event, ghost dying: set<nat>, ghost except: set<(nat, Event)>, ghost exempt: set<nat>)
      requires Ok(dying, except, exempt) && ev.kind != NONE && ev.kind != TERMINATION
      modifies this`profiles, this`waitEventMap, this`activeList
      ensures Ok(dying, except, exempt)
      ensures AllEvolve(old(profiles), profiles, Grow(ev), {})
      ensures ev in old(waitEventMap) ==> NoneWaits(profiles, old(waitEventMap)[ev], ev)
      ensures Woken(old(profiles), profiles, time)
      ensures Listed(old(profiles), old(activeList), if ev.kind == ACTIVATION then {ev.id} else {}) ==>
                Listed(profiles, activeList, {})
      ensures AtMost(old(profiles), old(waitEventMap), profiles, waitEventMap, {ev}, {})
      ensures except == {} ==> NoneWaits(profiles, profiles.Keys, ev)
      decreases |Quiet(profiles)|, 4
    {
      hide ProfileModel.Valid, Woken, Listed, AllEvolve, Quiet, AtMost, NoneWaits, Good;
      EvolveSelf(profiles);
      EvolveWeaken(profiles, profiles, Grow(ev), {});
      WokenSelf(profiles, time);
      ghost var start, subs := profiles, waitEventMap;
      EachGood(profiles, waitEventMap, nonTerminatedProfiles, dying, except, exempt);
      AtMostSelf(profiles, waitEventMap, {ev}, {});
      ghost var listed := Listed(profiles, activeList, if ev.kind == ACTIVATION then {ev.id} else {});
      if ev.kind == ACTIVATION {
        ListedPush(profiles, activeList, ev.id);
        activeList := activeList + [ev.id];
      }
      if ev in waitEventMap {
        var todo := waitEventMap[ev];
        TakeOff(profiles, waitEventMap, nonTerminatedProfiles, dying, except, exempt, ev);
        SubscribersAreProfiles(profiles, waitEventMap, nonTerminatedProfiles, dying, except, exempt, ev);
        waitEventMap := waitEventMap - {ev};
        AtMostShrink(start, subs, waitEventMap, {ev});
        assert subs[ev] - todo == {};
        NoneYet(profiles, ev);
        while todo != {}
          invariant Ok(dying, except + Told(todo, ev), exempt)
          invariant todo <= old(profiles).Keys
          invariant AllEvolve(old(profiles), profiles, Grow(ev), {})
          invariant NoneWaits(profiles, old(waitEventMap)[ev] - todo, ev)
          invariant Woken(old(profiles), profiles, time)
          invariant listed ==> Listed(profiles, activeList, {})
          invariant AtMost(start, subs, profiles, waitEventMap, {ev}, {})
          decreases todo
        {
          var p :| p in todo;
          ghost var before, now := profiles, waitEventMap;
          KeysStay(old(profiles), before, Grow(ev), {});
          QuietShrinks(old(profiles), profiles, Grow(ev), {});
          ToldLess(todo, p, ev);
          assert except + Told(todo, ev) == (except + Told(todo - {p}, ev)) + {(p, ev)};
          ReceiveEvent(p, ev, dying, except + Told(todo - {p}, ev), exempt);
          EvolveTransitive(old(profiles), before, profiles, Grow(ev), {});
          AtMostTransitive(start, subs, before, now, profiles, waitEventMap, {ev}, {}, Grow(ev), {});
          WokenTransitive(old(profiles), before, profiles, Grow(ev), {}, time);
          NoneWaitsMore(before, profiles, old(waitEventMap)[ev], todo, p, ev);
          todo := todo - {p};
        }
        assert except + Told({}, ev) == except;
        assert subs[ev] - {} == subs[ev];
      }
      NobodyLeft(start, profiles, subs, nonTerminatedProfiles, dying, except, exempt, ev);
    }

    /** One profile receives an event. */
    method ReceiveEvent(p: nat, ev: Event, ghost dying: set<nat>, ghost except: set<(nat, Event)>, ghost exempt: set<nat>)
      requires Ok(dying, except + {(p, ev)}, exempt) && p in profiles && ev.kind != NONE
      requires ev.kind == TERMINATION ==> ev.id in profiles && ev.id in dying
      modifies this`profiles, this`waitEventMap, this`activeList
      ensures Ok(dying, except, exempt)
      ensures AllEvolve(old(profiles), profiles, Grow(ev), Ended(ev))
      ensures p in profiles && ev !in profiles[p].em.waited
      ensures ev.kind == TERMINATION ==> forall e :: e in profiles[p].em.waited ==> e.id != ev.id
      ensures Woken(old(profiles), profiles, time)
      ensures Listed(old(profiles), old(activeList), {}) ==> Listed(profiles, activeList, {})
      ensures AtMost(old(profiles), old(waitEventMap), profiles, waitEventMap, {ev}, Ended(ev))
      decreases |Quiet(profiles)|, 3
    {
      hide ProfileModel.Valid, Good, Woken, Listed, AllEvolve, Quiet, Receipt, AtMost, Free, Up;
      EachGood(profiles, waitEventMap, nonTerminatedProfiles, dying, except + {(p, ev)}, exempt);
      ReceiptFields(profiles[p], ev);
      var released := Release(p, ev, dying, except, exempt);
      OnlyRestingFreed(old(profiles)[p], profiles[p]);
      ghost var before, subs := profiles, waitEventMap;
      QuietShrinks(old(profiles), profiles, Grow(ev), Ended(ev));
      Wake(p, dying, except, exempt);
      EvolvesAt(before, profiles, p, {}, {});
      EvolveWeaken(before, profiles, Grow(ev), Ended(ev));
      EvolveTransitive(old(profiles), before, profiles, Grow(ev), Ended(ev));
      AtMostWeaken(before, subs, profiles, waitEventMap, {}, {ev}, Ended(ev));
      AtMostTransitive(old(profiles), old(waitEventMap), before, subs, profiles, waitEventMap, {ev}, Ended(ev), {}, {});
      EventWakes(old(profiles), before, profiles, p, Grow(ev), Ended(ev), time);
    }

    /** What a profile does once it has received an event: a master that waits for no profile
        starts, and a delay that does announces its activation. */
    method Wake(p: nat, ghost dying: set<nat>, ghost except: set<(nat, Event)>, ghost exempt: set<nat>)
      requires Ok(dying, except, exempt) && p in profiles
      modifies this`profiles, this`waitEventMap, this`activeList
      ensures Ok(dying, except, exempt) && AllEvolve(old(profiles), profiles, {}, {})
      ensures p in profiles && (Free(old(profiles)[p]) && old(profiles)[p].role == DELAY ==> Up(profiles[p]))
      ensures Free(old(profiles)[p]) && old(profiles)[p].role == MASTER && !old(profiles)[p].started ==> Up(profiles[p])
      ensures Woken(old(profiles), profiles, time)
      ensures Listed(old(profiles), old(activeList), {}) ==> Listed(profiles, activeList, {})
      ensures AtMost(old(profiles), old(waitEventMap), profiles, waitEventMap, {}, {})
      decreases |Quiet(profiles)|, 2
    {
      hide ProfileModel.Valid, Good, Woken, Listed, AllEvolve, Quiet, AtMost;
      EachGood(profiles, waitEventMap, nonTerminatedProfiles, dying, except, exempt);
      AtMostSelf(profiles, waitEventMap, {}, {});
      WokenSelf(profiles, time);
      EvolveSelf(profiles);
      ghost var before := profiles;
      var x := profiles[p];
      assert Counted(x.em) by { GoodCounted(x); }
      CountZero(x.em, PROFILE);
      if x.role == MASTER {
        if !x.started && x.em.count[PROFILE] == 0 {
          Activate(p, dying, except, exempt);
        }
      } else if x.role == DELAY {
        if x.em.count[PROFILE] == 0 {
          EmitActivation(p, dying, except, exempt);
        }
      }
      EvolvesAt(before, profiles, p, {}, {});
    }

    /** What a reception leaves of the waits, and the halting of a master: a status event is
        exchanged for its opposite. */
    method Halt(p: nat, ev: Event, ghost dying: set<nat>, ghost except: set<(nat, Event)>, ghost exempt: set<nat>)
      returns (m: Waits, halted: bool)
      requires Ok(dying, except, exempt) && p in profiles && ev.kind != NONE && Counted(profiles[p].em)
      modifies this`waitEventMap, this`activeList
      ensures Ok(dying, except, exempt)
      ensures profiles[p].(em := m, halted := halted) == Receipt(profiles[p], ev)
      ensures Switches(profiles[p], ev) ==> Opposite(ev) in waitEventMap && p in waitEventMap[Opposite(ev)]
      ensures forall e :: e in waitEventMap && e.kind == TERMINATION ==> e in old(waitEventMap)
      ensures Listed(profiles, old(activeList), {}) ==> Listed(profiles, activeList, {})
    {
      hide ProfileModel.Valid, Listed, EventModel.Released, ReleasedBy;
      var x := profiles[p];
      m, halted := AfterReceive(x.em, ev), x.halted;
      if x.role == MASTER {
        if ev in x.em.waited && CategoryOf(ev.kind) == SEND_STATUS {
          Subscribe(p, Opposite(ev), dying, except, exempt);
          ListedMore(profiles, old(activeList), {}, []);
          m := AfterWait(m, Opposite(ev));
          halted := !halted;
        }
        if m.count[SEND_STATUS] == 0 {
          halted := false;
        }
      }
    }

    /** The event manager part of a reception, and the halting of a master. */
    method Release(p: nat, ev: Event, ghost dying: set<nat>, ghost except: set<(nat, Event)>, ghost exempt: set<nat>)
      returns (ok: bool)
      requires Ok(dying, except + {(p, ev)}, exempt) && p in profiles && ev.kind != NONE
      requires ev.kind == TERMINATION ==> ev.id in profiles && ev.id in dying
      modifies this`profiles, this`waitEventMap, this`activeList
      ensures Ok(dying, except, exempt) && ok == (ev in old(profiles)[p].em.waited)
      ensures Counted(old(profiles)[p].em) && profiles == old(profiles)[p := Receipt(old(profiles)[p], ev)]
      ensures AllEvolve(old(profiles), profiles, Grow(ev), Ended(ev))
      ensures p in profiles && ev !in profiles[p].em.waited
      ensures ev.kind == TERMINATION ==> forall e :: e in profiles[p].em.waited ==> e.id != ev.id
      ensures Listed(old(profiles), old(activeList), {}) ==> Listed(profiles, activeList, {})
      ensures AtMost(old(profiles), old(waitEventMap), profiles, waitEventMap, {ev}, Ended(ev))
    {
      hide Good, Chained, Counters, Subscribed, FromConfiguration, SentOnce, AllEvolve, Listed, AtMost, CheckersWait,
           Counted, Receipt, Opposite;
      var x := profiles[p];
      ok := ev in x.em.waited;
      assert Good(x);
      GoodCounted(x);
      ghost var subs := waitEventMap;
      var m, halted := Halt(p, ev, dying, except + {(p, ev)}, exempt);
      ReceiptFields(x, ev);
      EachGood(profiles, waitEventMap, nonTerminatedProfiles, dying, except + {(p, ev)}, exempt);
      ReceiptAtMost(profiles, subs, p, ev, waitEventMap);
      ReleaseStep(profiles, waitEventMap, nonTerminatedProfiles, dying, except, exempt, p, ev);
      ListedUpdate(profiles, activeList, {}, p, Receipt(x, ev));
      profiles := profiles[p := x.(em := m, halted := halted)];
    }

    /** Announces a profile's activation, unless that was its last PROFILE event. */
    method EmitActivation(p: nat, ghost dying: set<nat>, ghost except: set<(nat, Event)>, ghost exempt: set<nat>)
      requires Ok(dying, except, exempt) && p in profiles
      modifies this`profiles, this`waitEventMap, this`activeList
      ensures Ok(dying, except, exempt)
      ensures AllEvolve(old(profiles), profiles, {}, {})
      ensures p in profiles
      ensures except == {} && !Activated(old(profiles)[p]) ==>
                NoneWaits(profiles, profiles.Keys, Event(ACTIVATION, p))
      ensures Woken(old(profiles), profiles, time) && Activated(profiles[p])
      ensures Listed(old(profiles), old(activeList), {}) ==> Listed(profiles, activeList, {})
      ensures AtMost(old(profiles), old(waitEventMap), profiles, waitEventMap, {}, {})
      decreases |Quiet(profiles)|, 0
    {
      hide Good, Chained, Counters, Subscribed, FromConfiguration, SentOnce, AllEvolve, Quiet, Woken, Listed, AtMost;
      WokenSelf(profiles, time);
      EachGood(profiles, waitEventMap, nonTerminatedProfiles, dying, except, exempt);
      AtMostSelf(profiles, waitEventMap, {}, {});
      var x := profiles[p];
      assert Good(x);
      assert Counted(x.em) by { GoodCounted(x); }
      EvolveSelf(profiles);
      if MayEmit(x.em, ACTIVATION, time) {
        AnnounceStep(profiles, waitEventMap, nonTerminatedProfiles, dying, except, exempt, p, time);
        ListedSkip(profiles, activeList, p);
        ListedUpdate(profiles, activeList, {p}, p, Announced(x, time));
        profiles := profiles[p := Announced(x, time)];
        ghost var before := profiles;
        ghost var subs := waitEventMap;
        AtMostUpdate(old(profiles), subs, p, Announced(x, time), subs, {Event(ACTIVATION, p)}, {});
        Broadcast(Event(ACTIVATION, p), dying, except, exempt);
        EvolveTransitive(old(profiles), before, profiles, {}, {});
        WokenUpdate(old(profiles), p, Announced(x, time), time);
        WokenTransitive(old(profiles), before, profiles, {}, {}, time);
        EvolvesAt(before, profiles, p, {}, {});
        AtMostTransitive(old(profiles), subs, before, subs, profiles, waitEventMap, {Event(ACTIVATION, p)}, {}, {}, {});
        AtMostActivated(old(profiles), subs, profiles, waitEventMap, p);
      }
      KeysStay(old(profiles), profiles, {}, {});
    }

    /** First activation: announce it, then start the clock of the profile. */
    method Activate(p: nat, ghost dying: set<nat>, ghost except: set<(nat, Event)>, ghost exempt: set<nat>)
      requires Ok(dying, except, exempt) && p in profiles && !profiles[p].started
      requires profiles[p].role == MASTER || profiles[p].role == DELAY ==> NoProfileWaits(profiles[p])
      modifies this`profiles, this`waitEventMap, this`activeList
      ensures Ok(dying, except, exempt)
      ensures AllEvolve(old(profiles), profiles, {}, {})
      ensures profiles[p].started && profiles[p].startTime == time && Activated(profiles[p])
      ensures Woken(old(profiles), profiles, time)
      ensures Listed(old(profiles), old(activeList), {}) ==> Listed(profiles, activeList, {})
      ensures AtMost(old(profiles), old(waitEventMap), profiles, waitEventMap, {}, {})
      decreases |Quiet(profiles)|, 1
    {
      hide Good, Chained, Counters, Subscribed, FromConfiguration, SentOnce, AllEvolve, Quiet, Woken, Listed, AtMost;
      EmitActivation(p, dying, except, exempt);
      EvolvesAt(old(profiles), profiles, p, {}, {});
      ghost var before := profiles;
      StartedNow(old(profiles), profiles, time, p);
      if !profiles[p].started {
        StartStep(old(profiles)[p], profiles, waitEventMap, nonTerminatedProfiles, dying, except, exempt, p, time);
        ListedUpdate(profiles, activeList, {}, p, profiles[p].(started := true, startTime := time));
        assert Good(profiles[p]);
        GoodCounted(profiles[p]);
        EachGood(profiles, waitEventMap, nonTerminatedProfiles, dying, except, exempt);
        AtMostUpdate(before, waitEventMap, p, profiles[p].(started := true, startTime := time), waitEventMap, {}, {});
        profiles := profiles[p := profiles[p].(started := true, startTime := time)];
        EvolveTransitive(old(profiles), before, profiles, {}, {});
        StartEvolves(before, p, profiles[p]);
        AtMostTransitive(old(profiles), old(waitEventMap), before, waitEventMap, profiles, waitEventMap, {}, {}, {}, {});
        WokenUpdate(before, p, profiles[p], time);
        WokenTransitive(old(profiles), before, profiles, {}, {}, time);
      }
    }

    /** The same between two calls. */
    method StartProfile(p: nat)
      requires Ok({}, {}, {}) && p in profiles && !profiles[p].started
      requires profiles[p].role == MASTER || profiles[p].role == DELAY ==> NoProfileWaits(profiles[p])
      modifies this`profiles, this`waitEventMap, this`activeList
      ensures Ok({}, {}, {}) && AllEvolve(old(profiles), profiles, {}, {})
      ensures p in profiles && profiles[p].started && SameStatus(old(profiles)[p], profiles[p])
      ensures profiles[p].startTime == time
      ensures WaitsKept(old(profiles), profiles, {}, {p})
      ensures Cleaned(old(profiles), old(waitEventMap)) ==> Cleaned(profiles, waitEventMap)
      ensures AwakeBut(old(profiles), {}) ==> AwakeBut(profiles, {})
      ensures Listed(old(profiles), old(activeList), {}) ==> Listed(profiles, activeList, {})
    {
      hide ProfileModel.Valid, NoProfileWaits, AllEvolve, Woken, AwakeBut, Listed, AtMost, WaitsKept, Cleaned;
      ghost var before, now := profiles, waitEventMap;
      Activate(p, {}, {}, {});
      AtMostWeaken(before, now, profiles, waitEventMap, {}, {}, {p});
      NothingLost(before, now, profiles, waitEventMap, {}, {p});
      CleanedStays(before, now, profiles, waitEventMap, {}, {p}, {}, {});
      KeysStay(before, profiles, {}, {});
      if AwakeBut(before, {}) { AwakeKept(before, profiles, {}, {}, {}, time); }
    }

    // ------------------------------------------------------------- termination

    /** A profile emits its TERMINATION: it is announced, and counted as terminated. */
    method EmitTermination(p: nat)
      requires Ok({}, {}, {}) && p in profiles && MayTerminate(profiles[p])
      modifies this`profiles, this`nonTerminatedProfiles
      ensures Ok({p}, {}, {}) && profiles == old(profiles)[p := Dying(old(profiles)[p], time)]
      ensures AtMost(old(profiles), waitEventMap, profiles, waitEventMap, {}, {p})
      ensures AwakeBut(old(profiles), {}) ==> AwakeBut(profiles, {})
      ensures Listed(old(profiles), activeList, {}) ==> Listed(profiles, activeList, {})
    {
      hide Good, Chained, Counters, Subscribed, FromConfiguration, SentOnce, Listed, AtMost, AwakeBut;
      ghost var x := profiles[p];
      assert Good(x);
      assert Counted(x.em) by { GoodCounted(x); }
      assert MayEmit(x.em, TERMINATION, time) by { NotSentYet(profiles, p); }
      CountIsPositive(profiles, nonTerminatedProfiles, p);
      EachGood(profiles, waitEventMap, nonTerminatedProfiles, {}, {}, {});
      AtMostUpdate(profiles, waitEventMap, p, Dying(profiles[p], time), waitEventMap, {}, {p});
      DyingStep(profiles, waitEventMap, nonTerminatedProfiles, p, time);
      ListedUpdate(profiles, activeList, {}, p, Dying(profiles[p], time));
      if AwakeBut(profiles, {}) { AwakeUpdate(profiles, {}, p, Dying(profiles[p], time)); }
      var master := profiles[p].master;
      profiles := profiles[p := Dying(profiles[p], time)];
      nonTerminatedProfiles := nonTerminatedProfiles[master := nonTerminatedProfiles[master] - 1];
    }

    /** A profile announces its TERMINATION, every profile that waits for anything from
        it is released from that, and the profile is marked terminated. */
    method Terminate(p: nat)
      requires Ok({}, {}, {}) && p in profiles && MayTerminate(profiles[p])
      modifies this`profiles, this`waitEventMap, this`activeList, this`nonTerminatedProfiles
      ensures Ok({}, {}, {})
      ensures AllEvolve(old(profiles)[p := Dying(old(profiles)[p], time).(terminated := true)], profiles, {}, {p})
      ensures AwakeBut(old(profiles), {}) ==> AwakeBut(profiles, {})
      ensures Listed(old(profiles), old(activeList), {}) ==> Listed(profiles, activeList, {})
      ensures p in profiles && forall q :: q in profiles ==> ReleasedFrom(profiles, q, p)
      ensures forall e :: e in waitEventMap ==> e.id != p
      ensures (forall q :: q in old(profiles) ==> q in profiles && SameStatus(old(profiles)[q], profiles[q]))
      ensures WaitsKept(old(profiles), profiles, {}, {p})
      ensures Cleaned(old(profiles), old(waitEventMap)) ==> Cleaned(profiles, waitEventMap)
    {
      hide ProfileModel.Valid, MayTerminate, AllEvolve, Woken, AwakeBut, Listed, AtMost, WaitsKept, Cleaned, ReleasedFrom, Dying, SameStatus;
      ghost var start, subs := profiles, waitEventMap;
      EmitTermination(p);
      ghost var before := profiles;
      TellTermination(p);
      KeysStay(before, profiles, {}, {p});
      AtMostTransitive(start, subs, before, subs, profiles, waitEventMap, {}, {p}, {}, {p});
      TerminationStep(start, subs, before, profiles, waitEventMap, p, profiles[p].(terminated := true, halted := false));
      StillMayTerminate(start[p], time);
      FinishStep(before, profiles, waitEventMap, nonTerminatedProfiles, p);
      if AwakeBut(start, {}) {
        AwakeKept(before, profiles, {}, {}, {p}, time);
        AwakeUpdate(profiles, {}, p, profiles[p].(terminated := true, halted := false));
      }
      ListedUpdate(profiles, activeList, {}, p, profiles[p].(terminated := true, halted := false));
      profiles := profiles[p := profiles[p].(terminated := true, halted := false)];
      assert before[p := before[p].(terminated := true)] == start[p := before[p].(terminated := true)];
    }

    /** Delivers TERMINATION of p to every subscriber of any event of p, then drops all
        events of p from the map. */
    method TellTermination(p: nat)
      requires Ok({p}, {}, {}) && p in profiles
      modifies this`profiles, this`waitEventMap, this`activeList
      ensures Ok({p}, {}, {})
      ensures AllEvolve(old(profiles), profiles, {}, {p})
      ensures forall e :: e in waitEventMap ==> e.id != p
      ensures Woken(old(profiles), profiles, time)
      ensures Listed(old(profiles), old(activeList), {}) ==> Listed(profiles, activeList, {})
      ensures AtMost(old(profiles), old(waitEventMap), profiles, waitEventMap, {}, {p})
      ensures p in profiles && forall q :: q in profiles ==> ReleasedFrom(profiles, q, p)
    {
      hide Good, Chained, Counters, FromConfiguration, SentOnce, AllEvolve, Subscribed, Woken, Listed, AtMost;
      WokenSelf(profiles, time);
      ghost var all := Listeners(waitEventMap, p);
      var todo := Listeners(waitEventMap, p);
      var ev := Event(TERMINATION, p);
      ghost var start, subs := profiles, waitEventMap;
      EachGood(profiles, waitEventMap, nonTerminatedProfiles, {p}, {}, {});
      AtMostSelf(profiles, waitEventMap, {}, {p});
      assert AllEvolve(start, profiles, {}, {p}) by { EvolveSelf(profiles); EvolveWeaken(profiles, profiles, {}, {p}); }
      ListenersKnown(profiles, waitEventMap, nonTerminatedProfiles, {p}, p);
      while todo != {}
        invariant Ok({p}, {}, {}) && todo <= all && p in profiles
        invariant forall l :: l in all ==> l.1 in profiles
        invariant AllEvolve(start, profiles, {}, {p})
        invariant forall l :: l in all - todo ==> ReleasedFrom(profiles, l.1, p)
        invariant start.Keys == profiles.Keys && Woken(start, profiles, time)
        invariant AtMost(start, subs, profiles, waitEventMap, {}, {p})
        invariant Listed(old(profiles), old(activeList), {}) ==> Listed(profiles, activeList, {})
        decreases todo
      {
        var l :| l in todo;
        ghost var before, now := profiles, waitEventMap;
        MoreExceptions(profiles, waitEventMap, nonTerminatedProfiles, {p}, {}, {} + {(l.1, ev)}, {});
        ReceiveEvent(l.1, ev, {p}, {}, {});
        StillReleased(before, profiles, all - todo, p);
        EvolveTransitive(start, before, profiles, {}, {p});
        KeysStay(before, profiles, {}, {p});
        AtMostTold(before, now, profiles, waitEventMap, p);
        AtMostTransitive(start, subs, before, now, profiles, waitEventMap, {}, {p}, {}, {p});
        WokenTransitive(start, before, profiles, {}, {p}, time);
        todo := todo - {l};
      }
      NobodyWaits(start, profiles, subs, waitEventMap, nonTerminatedProfiles, all, p);
      AtMostWithout(start, subs, profiles, waitEventMap, p);
      waitEventMap := Without(waitEventMap, p);
    }

    /** A master checks whether it is active; at its end, with nothing outstanding, it
        terminates. */
    method MasterActive(p: nat) returns (active: bool, locked: bool)
      requires Valid() && p in profiles && profiles[p].role == MASTER
      modifies this`profiles, this`waitEventMap, this`activeList, this`nonTerminatedProfiles
      ensures Valid()
      ensures active == ActiveMaster(old(profiles)[p], time) && locked == LockedMaster(old(profiles)[p], time)
      ensures OthersEvolve(old(profiles), profiles, p)
      ensures profiles[p].terminated == (old(profiles)[p].terminated || Finishes(old(profiles)[p], time))
      ensures active ==> profiles[p].started
      ensures p in profiles && SameStatus(old(profiles)[p], profiles[p])
      ensures EndsReleased(old(profiles), profiles, p)
      ensures WaitsKept(old(profiles), profiles, {}, {p})
      ensures Cleaned(old(profiles), old(waitEventMap)) ==> Cleaned(profiles, waitEventMap)
    {
      hide ProfileModel.Valid, Good, AllEvolve, Woken, AwakeBut, Listed, AtMost, WaitsKept, Cleaned, SameStatus,
           OthersEvolve, StaysAtEnd;
      ghost var start := profiles;
      ghost var x0 := profiles[p];
      EachGood(profiles, waitEventMap, nonTerminatedProfiles, {}, {}, {});
      MasterFacts(x0);
      var endOfData := profiles[p].sent == profiles[p].toSend && profiles[p].toSend > 0;
      var endOfTime := profiles[p].started && profiles[p].toStop > 0 && time >= profiles[p].startTime + profiles[p].toStop;
      var waitingForResponses := (endOfData || endOfTime) && profiles[p].ot > 0;
      OthersSelf(profiles, p);
      NothingLostSelf(profiles, p);
      if (endOfData || endOfTime) && !(profiles[p].terminated || waitingForResponses) {
        Terminate(p);
        TerminateOthers(start, profiles, p, time);
      }
      var x := profiles[p];
      var maxOtReached := x.ot >= x.maxOt && x.maxOt > 0;
      locked := !x.terminated && (x.em.count[PROFILE] > 0 || x.halted || maxOtReached || waitingForResponses);
      active := !(locked || endOfData || endOfTime);
      assert active == ActiveMaster(x0, time) && locked == LockedMaster(x0, time);
      hide ActiveMaster, LockedMaster;
      if active && !x.started {
        assert !x.terminated;
        CountZero(x.em, PROFILE);
        ghost var before := profiles;
        StartProfile(p);
        OthersKeys(start, before, p);
        WaitsKeptTransitive(start, before, profiles, {}, {p}, {}, {});
        EvolveOthers(start, before, profiles, p);
      }
      OthersStay(start, profiles, p, time);
    }

    /** Sending on a master: `accepted` is the answer of its FIFO. */
    method MasterSend(p: nat, accepted: bool) returns (ok: bool)
      requires Valid() && p in profiles && profiles[p].role == MASTER
      modifies this`profiles, this`waitEventMap, this`activeList, this`nonTerminatedProfiles
      ensures Valid()
      ensures ok == (ActiveMaster(old(profiles)[p], time) && accepted)
      ensures OthersEvolve(old(profiles)[p := Progressed(old(profiles)[p], ok)], profiles, p)
      ensures profiles[p].terminated == (old(profiles)[p].terminated || Finishes(old(profiles)[p], time))
      ensures EndsReleased(old(profiles), profiles, p)
      ensures WaitsKept(old(profiles), profiles, {}, {p})
      ensures Cleaned(old(profiles), old(waitEventMap)) ==> Cleaned(profiles, waitEventMap)
      ensures var kind := if ok then PROFILE_UNLOCKED else PROFILE_LOCKED;
              !profiles[p].terminated ==>
                && StatusSent(old(profiles)[p], profiles[p], kind, time)
                && (MayEmitStatus(old(profiles)[p], kind, time) ==> NoneWaits(profiles, profiles.Keys, Event(kind, p)))
    {
      hide Good, Chained, Counters, Subscribed, FromConfiguration, SentOnce, AllEvolve, OthersEvolve, LockedMaster,
           AtEnd, AwakeBut, Listed, AtMost, WaitsKept, Cleaned, NoneWaits, StatusSent, MayEmitStatus, SameStatus;
      ghost var start := profiles;
      assert Good(profiles[p]);
      ok := MasterOffer(p, accepted);
      ghost var before := profiles;
      OthersKeys(start[p := Progressed(start[p], ok)], before, p);
      SameStatusSent(start[p], before[p], before[p], if ok then PROFILE_UNLOCKED else PROFILE_LOCKED, time);
      EachGood(profiles, waitEventMap, nonTerminatedProfiles, {}, {}, {});
      NothingLostSelf(profiles, p);
      EvolveAny(profiles);
      if !profiles[p].terminated {
        EmitStatus(p, if ok then PROFILE_UNLOCKED else PROFILE_LOCKED);
      }
      WaitsKeptSome(start, before, profiles, p);
      EvolveStays(before, profiles, time);
      EvolveOthersAny(start[p := Progressed(start[p], ok)], before, profiles, p);
    }

    /** The part of a send before the status is told: the packet goes out if it may. */
    method MasterOffer(p: nat, accepted: bool) returns (ok: bool)
      requires Valid() && p in profiles && profiles[p].role == MASTER
      modifies this`profiles, this`waitEventMap, this`activeList, this`nonTerminatedProfiles
      ensures Valid() && p in profiles
      ensures ok == (ActiveMaster(old(profiles)[p], time) && accepted)
      ensures OthersEvolve(old(profiles)[p := Progressed(old(profiles)[p], ok)], profiles, p)
      ensures profiles[p].terminated == (old(profiles)[p].terminated || Finishes(old(profiles)[p], time))
      ensures EndsReleased(old(profiles), profiles, p)
      ensures WaitsKept(old(profiles), profiles, {}, {p})
      ensures Cleaned(old(profiles), old(waitEventMap)) ==> Cleaned(profiles, waitEventMap)
      ensures SameStatus(old(profiles)[p], profiles[p])
    {
      hide Good, Chained, Counters, Subscribed, FromConfiguration, SentOnce, AllEvolve, OthersEvolve, LockedMaster,
           AtEnd, AwakeBut, Listed, AtMost, WaitsKept, Cleaned, SameStatus;
      ghost var start := profiles;
      assert Good(profiles[p]);
      var active, locked := MasterActive(p);
      ok := active && accepted;
      ghost var mid := profiles;
      OthersKeys(start, mid, p);
      if ok {
        SendStep(start, profiles, waitEventMap, nonTerminatedProfiles, p, time);
        AwakeUpdate(profiles, {}, p, Progressed(profiles[p], true));
        ListedUpdate(profiles, activeList, {}, p, Progressed(profiles[p], true));
        profiles := profiles[p := Progressed(profiles[p], true)];
      }
      OthersCounted(start, mid, p, ok);
      WaitsKeptUpdate(start, mid, p, profiles[p], {}, {p});
      SameEvents(start[p], mid[p], profiles[p]);
      CleanedUpdate(mid, waitEventMap, p, profiles[p]);
      assert profiles == mid[p := Progressed(mid[p], ok)];
    }

    method EmitStatus(p: nat, kind: EventType)
      requires Ok({}, {}, {}) && p in profiles && CategoryOf(kind) == SEND_STATUS
      modifies this`profiles, this`waitEventMap, this`activeList
      ensures Ok({}, {}, {})
      ensures EvolvesSome(old(profiles), profiles)
      ensures AwakeBut(old(profiles), {}) ==> AwakeBut(profiles, {})
      ensures Listed(old(profiles), old(activeList), {}) ==> Listed(profiles, activeList, {})
      ensures WaitsKept(old(profiles), profiles, {}, {p})
      ensures Cleaned(old(profiles), old(waitEventMap)) ==> Cleaned(profiles, waitEventMap)
      ensures p in profiles && StatusSent(old(profiles)[p], profiles[p], kind, time)
      ensures MayEmitStatus(old(profiles)[p], kind, time) ==> NoneWaits(profiles, profiles.Keys, Event(kind, p))
    {
      hide ProfileModel.Valid, Good, AllEvolve, Woken, AwakeBut, Listed, AtMost, WaitsKept, Cleaned, NoneWaits, Counted,
           StatusSent;
      var x := profiles[p];
      EachGood(profiles, waitEventMap, nonTerminatedProfiles, {}, {}, {});
      assert Counted(x.em) && Total(x.em) by { GoodCounted(x); CountedTotal(x.em); }
      EvolveAny(profiles);
      NothingLostSelf(profiles, p);
      StatusNoted(x, kind, time);
      if MayEmit(x.em, kind, time) {
        ghost var start := profiles;
        StatusStep(profiles, waitEventMap, nonTerminatedProfiles, p, kind, time);
        profiles := profiles[p := x.(em := x.em.(sent := x.em.sent[SEND_STATUS := Last(kind, time)]))];
        ListedUpdate(start, activeList, {}, p, profiles[p]);
        ghost var before, subs := profiles, waitEventMap;
        Broadcast(Event(kind, p), {}, {}, {});
        StatusTold(start, before, subs, profiles, waitEventMap, p, kind, time);
      }
    }

    /** A whole response to a master. */
    method MasterReceive(p: nat)
      requires Valid() && p in profiles && profiles[p].role == MASTER && profiles[p].ot > 0
      modifies this`profiles, this`waitEventMap, this`activeList, this`nonTerminatedProfiles
      ensures Valid()
      ensures var x := old(profiles)[p].(ot := old(profiles)[p].ot - 1);
              && OthersEvolve(old(profiles)[p := x], profiles, p)
              && profiles[p].terminated == Finishes(x, time)
      ensures EndsReleased(old(profiles), profiles, p)
      ensures WaitsKept(old(profiles), profiles, {}, {p})
      ensures Cleaned(old(profiles), old(waitEventMap)) ==> Cleaned(profiles, waitEventMap)
    {
      hide Good, Chained, Counters, Subscribed, FromConfiguration, SentOnce, AllEvolve, Woken, AwakeBut, Listed, WaitsKept, Cleaned;
      assert Good(profiles[p]);
      ReceiveStep(profiles, waitEventMap, nonTerminatedProfiles, p, time);
      AwakeUpdate(profiles, {}, p, profiles[p].(ot := profiles[p].ot - 1));
      ListedUpdate(profiles, activeList, {}, p, profiles[p].(ot := profiles[p].ot - 1));
      ghost var start := profiles;
      profiles := profiles[p := profiles[p].(ot := profiles[p].ot - 1)];
      CleanedUpdate(start, waitEventMap, p, profiles[p]);
      ghost var before := profiles;
      var active, locked := MasterActive(p);
      WaitsKeptFrom(start, before, profiles, p);
    }

    /** A delay profile is polled: it starts once released, terminates once its delay has
        passed, and until then says when that will be. */
    method DelaySend(p: nat) returns (active: bool, next: nat)
      requires Valid() && p in profiles && profiles[p].role == DELAY
      modifies this`profiles, this`waitEventMap, this`activeList, this`nonTerminatedProfiles
      ensures Valid()
      ensures OthersEvolve(old(profiles)[p := Ticked(old(profiles)[p], time)], profiles, p)
      ensures profiles[p].terminated == (old(profiles)[p].terminated || Expired(profiles[p]))
      ensures WaitCount(old(profiles)[p], PROFILE) == 0 ==> profiles[p].started
      ensures WaitCount(old(profiles)[p], PROFILE) == 0 && !old(profiles)[p].started ==> profiles[p].startTime == time
      ensures active == (WaitCount(old(profiles)[p], PROFILE) == 0 && !Expired(profiles[p]))
      ensures next == if active then profiles[p].ownStart + profiles[p].delay else 0
      ensures EndsReleased(old(profiles), profiles, p)
      ensures WaitsKept(old(profiles), profiles, {}, {p})
      ensures Cleaned(old(profiles), old(waitEventMap)) ==> Cleaned(profiles, waitEventMap)
    {
      hide Good, Chained, Counters, Subscribed, FromConfiguration, SentOnce, AllEvolve, Woken, AwakeBut, Listed, WaitsKept, Cleaned;
      assert Good(profiles[p]);
      DelayStep(profiles, waitEventMap, nonTerminatedProfiles, p, time);
      AwakeUpdate(profiles, {}, p, Ticked(profiles[p], time));
      ListedUpdate(profiles, activeList, {}, p, Ticked(profiles[p], time));
      ghost var start := profiles;
      profiles := profiles[p := Ticked(profiles[p], time)];
      CleanedUpdate(start, waitEventMap, p, profiles[p]);
      ghost var before := profiles;
      active := DelayActive(p);
      next := if active then profiles[p].ownStart + profiles[p].delay else 0;
      WaitsKeptFrom(start, before, profiles, p);
    }

    method DelayActive(p: nat) returns (active: bool)
      requires Valid() && p in profiles && profiles[p].role == DELAY
      modifies this`profiles, this`waitEventMap, this`activeList, this`nonTerminatedProfiles
      ensures Valid() && OthersEvolve(old(profiles), profiles, p)
      ensures profiles[p].terminated == (old(profiles)[p].terminated || Expired(profiles[p]))
      ensures WaitCount(old(profiles)[p], PROFILE) == 0 ==> profiles[p].started
      ensures WaitCount(old(profiles)[p], PROFILE) == 0 && !old(profiles)[p].started ==> profiles[p].startTime == time
      ensures active == (WaitCount(old(profiles)[p], PROFILE) == 0 && !Expired(profiles[p]))
      ensures EndsReleased(old(profiles), profiles, p)
      ensures WaitsKept(old(profiles), profiles, {}, {p})
      ensures Cleaned(old(profiles), old(waitEventMap)) ==> Cleaned(profiles, waitEventMap)
    {
      hide Good, Chained, Counters, Subscribed, FromConfiguration, SentOnce, AllEvolve, Woken, AwakeBut, Listed, AtMost, WaitsKept, Cleaned, SameStatus, OthersEvolve, StaysAtEnd;
      ghost var start := profiles;
      assert Good(profiles[p]);
      MasterFacts(profiles[p]);
      OthersSelf(profiles, p);
      EachGood(profiles, waitEventMap, nonTerminatedProfiles, {}, {}, {});
      NothingLostSelf(profiles, p);
      var locked := profiles[p].em.count[PROFILE] > 0;
      if !locked && !profiles[p].started {
        CountZero(profiles[p].em, PROFILE);
        StartProfile(p);
        EvolveOthers(start, start, profiles, p);
      }
      var expired := profiles[p].started && profiles[p].clock >= profiles[p].ownStart + profiles[p].delay;
      active := !locked && !expired;
      OthersStay(start, profiles, p, time);
      ghost var mid := profiles;
      if expired && !profiles[p].terminated {
        assert Good(profiles[p]);
        MasterFacts(profiles[p]);
        Terminate(p);
        TerminateOthers(mid, profiles, p, time);
        OthersTransitive(start, mid, profiles, p);
        OthersKeys(start, mid, p);
        WaitsKeptEnds(start, mid, profiles, p, Dying(mid[p], time).(terminated := true));
        OthersStay(mid, profiles, p, time);
      }
    }

    /** A checker is asked: it terminates if it waits for nothing.  When it is asked is in
        `CheckerRuns`. */
    method CheckerActive(p: nat) returns (active: bool)
      requires Valid() && p in profiles && profiles[p].role == CHECKER
      modifies this`profiles, this`waitEventMap, this`activeList, this`nonTerminatedProfiles
      ensures Valid()
      ensures active == (old(profiles)[p].em.waited != {})
      ensures OthersEvolve(old(profiles), profiles, p)
      ensures profiles[p].terminated == (old(profiles)[p].terminated || !active)
      ensures EndsReleased(old(profiles), profiles, p)
      ensures WaitsKept(old(profiles), profiles, {}, {p})
      ensures Cleaned(old(profiles), old(waitEventMap)) ==> Cleaned(profiles, waitEventMap)
    {
      hide Good, Chained, Counters, Subscribed, FromConfiguration, SentOnce, AllEvolve, Woken, AwakeBut, Listed, AtMost, WaitsKept, Cleaned;
      ghost var start := profiles;
      assert Good(profiles[p]);
      OthersSelf(profiles, p);
      EachGood(profiles, waitEventMap, nonTerminatedProfiles, {}, {}, {});
      NothingLostSelf(profiles, p);
      active := profiles[p].em.waited != {};
      if !active && !profiles[p].terminated {
        Terminate(p);
        TerminateOthers(start, profiles, p, time);
        OthersStay(start, profiles, p, time);
      }
    }

    method SetTime(t: nat)
      requires Valid() && t >= time
      modifies this`time
      ensures Valid() && time == t
    {
      time := t;
    }

    /** All profiles of a master have terminated. */
    method IsTerminated(m: nat) returns (terminated: bool)
      requires Valid()
      ensures terminated <==> forall p :: p in profiles && profiles[p].role != SLAVE && profiles[p].master == m ==>
                                profiles[p].terminated
    {
      terminated := !(m in nonTerminatedProfiles && nonTerminatedProfiles[m] > 0);
      assert Count(nonTerminatedProfiles, m) == |Live(profiles, m, {})|;
      assert forall p :: p in profiles && profiles[p].role != SLAVE && profiles[p].master == m && !profiles[p].terminated
                         ==> p in Live(profiles, m, {});
      if !terminated {
        ghost var p :| p in Live(profiles, m, {});
      }
    }

    // ---------------------------------------------------------------- streams

    /** The leaves of a cached stream are cached with it, unless it has none. */
    ghost predicate Cached()
      reads this
    {
      forall r :: r in streamCache ==>
        && (forall v :: v in Nodes(streamCache[r]) ==> v in profiles)
        && (if r in streamLeavesCache then streamLeavesCache[r] == Leaves(streamCache[r]) else Leaves(streamCache[r]) == [])
    }

    /** The stream of a root, searched on the first call only. */
    method GetStream(root: nat) returns (stream: seq<(nat, bool)>)
      requires Valid() && Cached() && root in profiles
      modifies this`streamCache, this`streamLeavesCache
      ensures Valid() && Cached() && root in streamCache && stream == streamCache[root]
      ensures root in old(streamCache) ==> streamCache == old(streamCache)
      ensures root !in old(streamCache) ==>
                streamCache == old(streamCache)[root := stream] && IsSearchResult(waitEventMap, root, stream)
      ensures (root !in old(streamCache) && forall v :: v in Nodes(stream) ==> !profiles[v].terminated) ==>
                IsStream(profiles, stream)
      ensures root !in old(streamCache) && Cleaned(profiles, waitEventMap) ==>
                (IsStream(profiles, stream) <==>
                   forall v :: v in Nodes(stream) && profiles[v].terminated ==> Waiters(profiles, v) == {})
    {
      hide ProfileModel.Valid, IsStream, IsSearchResult, Next, Leaves, Listed, Cleaned, Waiters, AwakeBut, StaysAtEnd, Nodes;
      if root !in streamCache {
        NextInProfiles(profiles, waitEventMap, nonTerminatedProfiles);
        var found, leaves := Search(waitEventMap, root, profiles.Keys);
        ReachedAreProfiles(profiles, waitEventMap, root, found);
        streamCache := streamCache[root := found];
        if leaves != [] {
          streamLeavesCache := streamLeavesCache[root := leaves];
        } else {
          streamLeavesCache := streamLeavesCache - {root};
        }
        if Cleaned(profiles, waitEventMap) {
          SearchedAsConfiguredIff(profiles, waitEventMap, nonTerminatedProfiles, root, found);
        }
        if forall v :: v in Nodes(found) ==> !profiles[v].terminated {
          SearchedIsConfigured(profiles, waitEventMap, nonTerminatedProfiles, root, found);
        }
      }
      stream := streamCache[root];
    }

    method TestLeaves(leaves: seq<nat>) returns (terminated: bool)
      requires forall v :: v in leaves ==> v in profiles
      ensures terminated <==> forall k :: 0 <= k < |leaves| ==> profiles[leaves[k]].terminated
    {
      terminated := true;
      for i := 0 to |leaves|
        invariant terminated <==> forall k :: 0 <= k < i ==> profiles[leaves[k]].terminated
      {
        terminated := terminated && profiles[leaves[i]].terminated;
      }
    }

    /** Tests the leaves of a stream; `known` is false if it has none, which the program
        does not expect.  For a stream cached as configured, all of whose profiles lead to
        a leaf, the answer is about all of them. */
    method StreamTerminated(root: nat) returns (known: bool, terminated: bool)
      requires Valid() && Cached() && root in profiles
      modifies this`streamCache, this`streamLeavesCache
      ensures Valid() && Cached() && root in streamCache
      ensures known ==> (terminated <==> LeavesTerminated(profiles, streamCache[root]))
      ensures var stream := streamCache[root];
              IsStream(profiles, stream) && stream != [] && AllLead(profiles, stream) ==>
                known && (terminated <==> AllTerminated(profiles, stream))
    {
      hide ProfileModel.Valid, IsStream, IsSearchResult, AllLead, AllTerminated, Leaves, Nodes, Listed;
      var stream := GetStream(root);
      assert Possible(profiles) by { ValidPossible(profiles, waitEventMap, nonTerminatedProfiles); }
      hide Good;
      known, terminated := root in streamLeavesCache, true;
      if known {
        var leaves := streamLeavesCache[root];
        LeavesAreProfiles(profiles, stream);
        terminated := TestLeaves(leaves);
        LeavesTest(profiles, stream);
      }
      if IsStream(profiles, stream) && stream != [] && AllLead(profiles, stream) {
        WholeStream(profiles, stream);
      }
    }

    // ------------------------------------------------------------------- reset

    /** Puts a profile back to its configured waits and no progress. */
    method ResetBase(p: nat, ghost exempt: set<nat>)
      requires Ok({}, {}, exempt) && p in profiles
      requires forall q :: q in Waiters(profiles, p) && q != p && q !in exempt ==> Event(TERMINATION, p) in profiles[q].em.waited
      modifies this`profiles, this`waitEventMap, this`activeList, this`nonTerminatedProfiles
      ensures Ok({}, {}, exempt - {p})
      ensures profiles == old(profiles)[p := Cleared(old(profiles)[p])]
      ensures Listed(old(profiles), old(activeList), {}) ==> Listed(profiles, activeList, {})
    {
      hide Good, Chained, Counters, Subscribed, FromConfiguration, SentOnce, CheckersWait, Listed;
      var x := profiles[p];
      assert Good(x);
      GoodRetained(x);
      SubscribeAll(p, x.em.retained, exempt);
      ClearStep(profiles, waitEventMap, nonTerminatedProfiles, exempt, p);
      if x.terminated {
        nonTerminatedProfiles := nonTerminatedProfiles[x.master := Count(nonTerminatedProfiles, x.master) + 1];
      }
      ClearedRests(x);
      ListedUpdate(profiles, activeList, {}, p, Cleared(x));
      profiles := profiles[p := Cleared(x)];
    }

    method SubscribeAll(p: nat, es: seq<Event>, ghost exempt: set<nat>)
      requires Ok({}, {}, exempt) && p in profiles && es == profiles[p].em.retained
      modifies this`waitEventMap, this`activeList
      ensures Ok({}, {}, exempt)
      ensures forall i :: 0 <= i < |es| ==> es[i] in waitEventMap && p in waitEventMap[es[i]]
      ensures Listed(old(profiles), old(activeList), {}) ==> Listed(profiles, activeList, {})
    {
      hide ProfileModel.Valid, Listed;
      var i := 0;
      while i < |es|
        invariant i <= |es| && Ok({}, {}, exempt)
        invariant forall k :: 0 <= k < i ==> es[k] in waitEventMap && p in waitEventMap[es[k]]
        invariant Listed(old(profiles), old(activeList), {}) ==> Listed(profiles, activeList, {})
      {
        assert es[i] in Elements(es);
        ListedMore(profiles, activeList, {}, if es[i].kind == ACTIVATION then [p] else []);
        Subscribe(p, es[i], {}, {}, exempt);
        i := i + 1;
      }
    }

    /** The reset of one profile, by role. */
    method ResetProfile(p: nat, ghost exempt: set<nat>)
      requires Ok({}, {}, exempt) && p in profiles && p in exempt
      requires ResetAllowed(profiles, p, exempt)
      requires forall c :: c in profiles[p].checkers ==> c in profiles && ResetAllowed(profiles, c, exempt)
      modifies this`profiles, this`waitEventMap, this`activeList, this`nonTerminatedProfiles
      ensures Ok({}, {}, exempt - {p})
      ensures AfterResets(old(profiles), profiles, {p} + old(profiles)[p].checkers)
      ensures Restored(profiles, p)
      ensures old(profiles)[p].role == MASTER ==> AllRestored(profiles, old(profiles)[p].checkers)
      ensures AwakeBut(old(profiles), {}) ==> AwakeBut(profiles, {})
      ensures Listed(old(profiles), old(activeList), {}) ==> Listed(profiles, activeList, {})
    {
      hide Good, Chained, Counters, Subscribed, FromConfiguration, SentOnce, CheckersWait, AllEvolve, AfterResets,
           AwakeBut, Listed, AllRestored;
      ghost var start, done := profiles, {p} + profiles[p].checkers;
      ResetBase(p, exempt);
      ghost var now := exempt - {p};
      AfterOneReset(start, p, done);
      if AwakeBut(start, {}) { AwakeBefore(start, p, Cleared(start[p])); }
      if profiles[p].role == MASTER {
        ResetCheckers(p, start, now);
      }
      ghost var mid := profiles;
      ResetKeys(start, mid, done, p);
      ActivateAfterReset(p, now);
      ResetsEvolve(start, mid, profiles, done, p);
      if start[p].role == MASTER { RestoredEvolve(mid, profiles, start[p].checkers); }
    }

    /** A profile that waits for no other is active again at once. */
    method ActivateAfterReset(p: nat, ghost exempt: set<nat>)
      requires Ok({}, {}, exempt) && p in profiles
      modifies this`profiles, this`waitEventMap, this`activeList
      ensures Ok({}, {}, exempt) && AllEvolve(old(profiles), profiles, {}, {})
      ensures AwakeBut(old(profiles), {p}) ==> AwakeBut(profiles, {})
      ensures Listed(old(profiles), old(activeList), {}) ==> Listed(profiles, activeList, {})
    {
      hide Good, Chained, Counters, Subscribed, FromConfiguration, SentOnce, CheckersWait, AllEvolve, Woken, AwakeBut, Listed, SameStatus, AtMost, WaitsKept;
      ghost var mid := profiles;
      assert Good(profiles[p]);
      MasterFacts(profiles[p]);
      EvolveSelf(profiles);
      WokenSelf(profiles, time);
      if profiles[p].role == SLAVE || (profiles[p].role != CHECKER && profiles[p].em.count[PROFILE] == 0) {
        CountZero(profiles[p].em, PROFILE);
        EmitActivation(p, {}, {}, exempt);
        EvolvesAt(mid, profiles, p, {}, {});
        if profiles[p].role != DELAY && !profiles[p].started {
          ghost var before := profiles;
          StartStep(mid[p], profiles, waitEventMap, nonTerminatedProfiles, {}, {}, exempt, p, profiles[p].startTime);
          ListedUpdate(profiles, activeList, {}, p, profiles[p].(started := true));
          profiles := profiles[p := profiles[p].(started := true)];
          EvolveTransitive(mid, before, profiles, {}, {});
          if AwakeBut(mid, {p}) {
            AwakeKept(mid, before, {p}, {}, {}, time);
            AwakeUpdate(before, {p}, p, profiles[p]);
          }
        } else if AwakeBut(mid, {p}) {
          AwakeKept(mid, profiles, {p}, {}, {}, time);
        }
      }
      if AwakeBut(mid, {p}) {
        EvolvesAt(mid, profiles, p, {}, {});
        CountZero(mid[p].em, PROFILE);
        StartedUp(mid, profiles, p);
      }
    }

    method ResetCheckers(p: nat, ghost start: Profiles, ghost exempt: set<nat>)
      requires Ok({}, {}, exempt) && p in profiles && p in start && p !in exempt
      requires AfterResets(start, profiles, {p} + start[p].checkers) && Restored(profiles, p)
      requires profiles[p].checkers == start[p].checkers
      requires forall c :: c in start[p].checkers ==> c in profiles && ResetAllowed(profiles, c, exempt)
      modifies this`profiles, this`waitEventMap, this`activeList, this`nonTerminatedProfiles
      ensures Ok({}, {}, exempt)
      ensures AfterResets(start, profiles, {p} + start[p].checkers) && Restored(profiles, p)
      ensures AllRestored(profiles, start[p].checkers)
      ensures profiles[p].role == old(profiles)[p].role
      ensures AwakeBut(old(profiles), {p}) ==> AwakeBut(profiles, {p})
      ensures Listed(old(profiles), old(activeList), {}) ==> Listed(profiles, activeList, {})
    {
      hide ProfileModel.Valid, Good, AfterResets, AwakeBut, Listed, AllRestored;
      assert AllRestored(profiles, {}) by { NoneRestored(profiles); }
      ghost var done := {p} + start[p].checkers;
      var todo := profiles[p].checkers;
      assert start[p].checkers - todo == {};
      while todo != {}
        invariant todo <= start[p].checkers && p in profiles
        invariant Ok({}, {}, exempt) && AfterResets(start, profiles, done) && Restored(profiles, p)
        invariant AllRestored(profiles, start[p].checkers - todo)
        invariant forall c :: c in start[p].checkers ==> c in profiles && ResetAllowed(profiles, c, exempt)
        invariant profiles[p].role == old(profiles)[p].role && profiles[p].checkers == start[p].checkers
        invariant AwakeBut(old(profiles), {p}) ==> AwakeBut(profiles, {p})
        invariant Listed(old(profiles), old(activeList), {}) ==> Listed(profiles, activeList, {})
        decreases todo
      {
        var c :| c in todo;
        ghost var before := profiles;
        ValidGood(profiles, waitEventMap, nonTerminatedProfiles, exempt, c);
        CheckerNotAwake(profiles, waitEventMap, nonTerminatedProfiles, exempt, p, c);
        ResetBase(c, exempt);
        LessExempt(profiles, waitEventMap, nonTerminatedProfiles, exempt - {c}, exempt);
        ResetAgain(start, before, done, c, p);
        OneMoreRestored(before, start[p].checkers - todo, c);
        assert start[p].checkers - (todo - {c}) == (start[p].checkers - todo) + {c};
        ClearKeepsAllowed(before, c, exempt, start[p].checkers);
        todo := todo - {c};
      }
      assert start[p].checkers - todo == start[p].checkers;
    }

    /** Resets every profile of a stream that is cached as configured. */
    method StreamReset(root: nat)
      requires Valid() && Cached() && root in streamCache && IsStream(profiles, streamCache[root])
      modifies this`profiles, this`waitEventMap, this`activeList, this`nonTerminatedProfiles
      ensures Valid() && Cached() && IsStream(profiles, streamCache[root])
      ensures AfterResets(old(profiles), profiles, SetOf(Nodes(streamCache[root])))
      ensures forall v :: v in Nodes(streamCache[root]) ==> Restored(profiles, v)
    {
      hide ProfileModel.Valid, Good, AfterResets, IsStream, Restored, AwakeBut, Listed;
      AllGood(profiles, waitEventMap, nonTerminatedProfiles);
      var stream := streamCache[root];
      ghost var start, all := profiles, SetOf(Nodes(stream));
      var i := 0;
      LessExempt(profiles, waitEventMap, nonTerminatedProfiles, {}, Rest(stream, 0));
      NoResets(start, all);
      NodesAt(stream);
      while i < |stream|
        invariant i <= |stream| && Ok({}, {}, Rest(stream, i))
        invariant profiles.Keys == start.Keys && IsStream(profiles, stream)
        invariant AfterResets(start, profiles, all)
        invariant forall k :: 0 <= k < i ==> Restored(profiles, stream[k].0)
        invariant AwakeBut(profiles, {}) && Listed(profiles, activeList, {})
      {
        ResetNode(stream, i, start, all);
        i := i + 1;
      }
      LessExempt(profiles, waitEventMap, nonTerminatedProfiles, Rest(stream, |stream|), {});
      ResetsStay(start, profiles, all, time);
    }

    method ResetNode(stream: seq<(nat, bool)>, i: nat, ghost start: Profiles, ghost all: set<nat>)
      requires i < |stream| && Ok({}, {}, Rest(stream, i)) && all == SetOf(Nodes(stream))
      requires profiles.Keys == start.Keys && IsStream(profiles, stream) && AfterResets(start, profiles, all)
      requires forall k :: 0 <= k < i ==> Restored(profiles, stream[k].0)
      modifies this`profiles, this`waitEventMap, this`activeList, this`nonTerminatedProfiles
      ensures Ok({}, {}, Rest(stream, i + 1))
      ensures profiles.Keys == start.Keys && IsStream(profiles, stream) && AfterResets(start, profiles, all)
      ensures forall k :: 0 <= k <= i ==> Restored(profiles, stream[k].0)
      ensures AwakeBut(old(profiles), {}) ==> AwakeBut(profiles, {})
      ensures Listed(old(profiles), old(activeList), {}) ==> Listed(profiles, activeList, {})
    {
      hide ProfileModel.Valid, Good, AfterResets, IsStream, Restored, AwakeBut, Listed;
      var p := stream[i].0;
      ghost var before := profiles;
      LessExempt(profiles, waitEventMap, nonTerminatedProfiles, Rest(stream, i), Rest(stream, i) + {p});
      StreamAllows(profiles, waitEventMap, nonTerminatedProfiles, stream, i);
      ResetProfile(p, Rest(stream, i) + {p});
      LessExempt(profiles, waitEventMap, nonTerminatedProfiles, (Rest(stream, i) + {p}) - {p}, Rest(stream, i + 1));
      ResetsTransitive(start, before, profiles, {p} + before[p].checkers, all);
      ResetsKeepStream(before, profiles, {p} + before[p].checkers, stream, i);
      ResetKeys(before, profiles, {p} + before[p].checkers, p);
    }
  }

  /** A checker that is reset waits for the profile it checks. */
  lemma CheckerNotAwake(ps: Profiles, subs: Subscribers, nt: map<nat, nat>, exempt: set<nat>, p: nat, c: nat)
    requires ProfileModel.Valid(ps, subs, nt, {}, {}, exempt) && p in ps && c in ps[p].checkers && c in ps
    ensures AwakeBut(ps, {p}) ==> AwakeBut(ps[c := Cleared(ps[c])], {p})
    ensures Cleared(ps[c]).checkers == ps[c].checkers
  {
    hide Chained, Counters, Subscribed, FromConfiguration, SentOnce, Cleared;
    ClearedGood(ps[c]);
    assert Event(TERMINATION, p) in Cleared(ps[c]).em.waited;
    assert !NoProfileWaits(Cleared(ps[c]));
  }

  /** A slave starts at once, a master that waits for no profile as well; a delay that does
      not only announces its activation. */
  ghost predicate StartedUpAs(y: Profile, x: Profile, now: nat) {
    && (x.role == SLAVE || (x.role == MASTER && NoProfileWaits(x)) ==>
          y.started && y.startTime == now && Activated(y))
    && (x.role == DELAY && NoProfileWaits(x) ==> Activated(y))
  }

  lemma BlankRests(x: Profile)
    requires x == Blank(x.role, x.master, x.toSend, x.toStop, x.maxOt, x.acknowledged, x.delay, x.em.retained)
    ensures !Running(x)
  {
  }

  lemma AwakeBefore(a: Profiles, id: nat, y: Profile)
    requires AwakeBut(a, {})
    ensures AwakeBut(a[id := y], {id})
  {
  }

  /** A profile that has started up is awake like the others. */
  lemma StartedUp(a: Profiles, b: Profiles, id: nat)
    requires AwakeBut(b, {id}) && id in a && id in b
    requires Free(b[id]) && !Free(a[id]) ==> Up(b[id])
    requires Free(a[id]) ==> Up(b[id])
    ensures AwakeBut(b, {})
  {
    hide NoProfileWaits;
  }

  lemma ReceiptFields(x: Profile, ev: Event)
    requires Good(x)
    ensures Counted(x.em)
    ensures var y := Receipt(x, ev);
            y.role == x.role && y.started == x.started && y.startTime == x.startTime && Running(y) == Running(x)
  {
  }

  /** Whatever nothing keeps from running is polled, and has announced its activation,
      until it terminates. */
  lemma FreeIsPolled(ps: Profiles, subs: Subscribers, nt: map<nat, nat>, list: seq<nat>, p: nat)
    requires ProfileModel.Valid(ps, subs, nt, {}, {}, {}) && AwakeBut(ps, {}) && Listed(ps, list, {})
    requires p in ps && Free(ps[p]) && !ps[p].terminated
    ensures p in list && Activated(ps[p])
  {
    hide Good, Chained, Counters, Subscribed, FromConfiguration, CheckersWait;
  }

  /** A profile that has just been released from the last one is a delay, or a master that
      has not started. */
  lemma OnlyRestingFreed(x: Profile, y: Profile)
    requires Good(x) && y.role == x.role && y.started == x.started
    ensures Free(y) && !Free(x) ==> y.role == DELAY || (y.role == MASTER && !y.started)
  {
  }

  /** Event p received, then the activations that followed: p has started if it was
      released from the last profile it waited for. */
  lemma EventWakes(a: Profiles, b: Profiles, c: Profiles, p: nat, grow: set<Event>, ended: set<nat>, now: nat)
    requires p in a && p in b && p in c && b == a[p := b[p]] && AllEvolve(b, c, grow, ended) && Woken(b, c, now)
    requires b[p].role == a[p].role && (Free(b[p]) && !Free(a[p]) ==> Up(c[p]))
    requires b[p].started == a[p].started && b[p].startTime == a[p].startTime
    ensures Woken(a, c, now)
  {
    hide NoProfileWaits;
  }

  predicate MayEmitStatus(x: Profile, kind: EventType, now: nat) {
    Total(x.em) && MayEmit(x.em, kind, now)
  }

  /** The status is recorded as sent, unless the filter stops it. */
  predicate StatusSent(x: Profile, y: Profile, kind: EventType, now: nat) {
    && SEND_STATUS in x.em.sent && SEND_STATUS in y.em.sent
    && y.em.sent[SEND_STATUS] == if MayEmitStatus(x, kind, now) then Last(kind, now) else x.em.sent[SEND_STATUS]
  }

  lemma StatusNoted(x: Profile, kind: EventType, now: nat)
    requires Total(x.em) && CategoryOf(kind) == SEND_STATUS
    ensures if MayEmit(x.em, kind, now)
            then StatusSent(x, x.(em := x.em.(sent := x.em.sent[SEND_STATUS := Last(kind, now)])), kind, now)
            else StatusSent(x, x, kind, now)
  {
  }

  /** p has noted its status, and it has been broadcast. */
  lemma StatusTold(start: Profiles, before: Profiles, sa: Subscribers, b: Profiles, sb: Subscribers, p: nat,
                   kind: EventType, now: nat)
    requires AllEvolve(start, before, {}, {}) && AllEvolve(before, b, Grow(Event(kind, p)), {})
    requires AtMost(before, sa, b, sb, {Event(kind, p)}, {}) && Woken(before, b, now)
    requires p in start && p in before && before == start[p := before[p]] && before[p].em.waited == start[p].em.waited
    requires before[p].terminated == start[p].terminated && StatusSent(start[p], before[p], kind, now)
    ensures EvolvesSome(start, b) && WaitsKept(start, b, {}, {p})
    ensures p in b && StatusSent(start[p], b[p], kind, now)
    ensures Cleaned(start, sa) ==> Cleaned(b, sb)
    ensures AwakeBut(start, {}) ==> AwakeBut(b, {})
  {
    hide AllEvolve, AtMost, Woken, AwakeBut, WaitsKept, Cleaned, StatusSent, Free;
    StatusLost(start, before, sa, b, sb, p, kind);
    StatusStays(start[p], before[p], b[p], kind, now);
    EvolveWeaken(start, before, Grow(Event(kind, p)), {});
    EvolveTransitive(start, before, b, Grow(Event(kind, p)), {});
    if AwakeBut(start, {}) {
      EvolvesAt(start, before, p, {}, {});
      UpStays(start, before, p);
      AwakeUpdate(start, {}, p, before[p]);
      AwakeKept(before, b, {}, Grow(Event(kind, p)), {}, now);
    }
  }

  lemma UpStays(a: Profiles, b: Profiles, p: nat)
    requires AllEvolve(a, b, {}, {}) && p in a
    ensures p in b && b[p].role == a[p].role && (Up(a[p]) ==> Up(b[p]))
  {
    assert Evolves(a[p], b[p], {}, {});
  }

  lemma StatusStays(x: Profile, y: Profile, z: Profile, kind: EventType, now: nat)
    requires StatusSent(x, y, kind, now) && SameStatus(y, z)
    ensures StatusSent(x, z, kind, now)
  {
  }

  lemma SameStatusSent(x: Profile, y: Profile, z: Profile, kind: EventType, now: nat)
    requires SameStatus(x, y) && z.em == y.em && Good(x) && Good(z) && CategoryOf(kind) == SEND_STATUS
    ensures MayEmitStatus(x, kind, now) == MayEmitStatus(z, kind, now)
    ensures forall w :: StatusSent(z, w, kind, now) ==> StatusSent(x, w, kind, now)
  {
    hide NoDuplicates, OneOfEach, EventModel.Released, WithinLimits;
  }

  lemma CleanedUpdate(a: Profiles, subs: Subscribers, p: nat, y: Profile)
    requires p in a && y.terminated == a[p].terminated
    ensures Cleaned(a, subs) ==> Cleaned(a[p := y], subs)
  {
  }

  /** What is lost when a status is recorded and then broadcast. */
  lemma StatusLost(start: Profiles, before: Profiles, sa: Subscribers, b: Profiles, sb: Subscribers, p: nat,
                   kind: EventType)
    requires AtMost(before, sa, b, sb, {Event(kind, p)}, {}) && AllEvolve(before, b, Grow(Event(kind, p)), {})
    requires p in start && p in before && before == start[p := before[p]] && before[p].em.waited == start[p].em.waited
    requires before[p].terminated == start[p].terminated
    ensures p in b && WaitsKept(start, b, {}, {p}) && SameStatus(before[p], b[p])
    ensures Cleaned(start, sa) ==> Cleaned(b, sb)
  {
    hide NoProfileWaits;
    CleanedUpdate(start, sa, p, before[p]);
    CleanedStays(before, sa, b, sb, {Event(kind, p)}, {}, Grow(Event(kind, p)), {});
    forall q, e | q in start && e in start[q].em.waited && e !in b[q].em.waited ensures Excused(b, e, {}, {p}) {
      assert Excused(b, e, {Event(kind, p)}, {});
    }
  }

  lemma WaitsKeptSome(a: Profiles, b: Profiles, c: Profiles, p: nat)
    requires WaitsKept(a, b, {}, {p}) && WaitsKept(b, c, {}, {p}) && a.Keys == b.Keys && EvolvesSome(b, c)
    ensures WaitsKept(a, c, {}, {p})
  {
    hide AllEvolve;
    var grow :| AllEvolve(b, c, grow, {});
    WaitsKeptTransitive(a, b, c, {}, {p}, grow, {});
  }

  /** An update of p that leaves its event manager alone, then a step. */
  lemma WaitsKeptFrom(a: Profiles, b: Profiles, c: Profiles, p: nat)
    requires p in a && p in b && b == a[p := b[p]] && b[p].em == a[p].em && WaitsKept(b, c, {}, {p})
    ensures WaitsKept(a, c, {}, {p})
  {
    hide Excused;
  }

  lemma StartedNow(a: Profiles, b: Profiles, now: nat, p: nat)
    requires Woken(a, b, now) && p in a && p in b && !a[p].started
    ensures b[p].started ==> b[p].startTime == now
  {
    hide NoProfileWaits;
  }

  lemma NothingLost(a: Profiles, sa: Subscribers, b: Profiles, sb: Subscribers, gone: set<Event>, ended: set<nat>)
    requires AtMost(a, sa, b, sb, gone, ended)
    ensures WaitsKept(a, b, gone, ended) && forall q :: q in a ==> q in b && SameStatus(a[q], b[q])
  {
  }

  lemma NothingLostSelf(a: Profiles, p: nat)
    requires forall q :: q in a ==> Good(a[q])
    ensures WaitsKept(a, a, {}, {p}) && forall q :: q in a ==> SameStatus(a[q], a[q])
  {
    AtMostSelf(a, map[], {}, {p});
    hide Good;
  }

  lemma CleanedStays(a: Profiles, sa: Subscribers, b: Profiles, sb: Subscribers, gone: set<Event>, ended: set<nat>,
                     grow: set<Event>, over: set<nat>)
    requires AtMost(a, sa, b, sb, gone, ended) && AllEvolve(a, b, grow, over)
    ensures Cleaned(a, sa) ==> Cleaned(b, sb)
  {
    hide WaitsKept;
  }

  /** A profile that has been announced and released by everyone is marked terminated. */
  lemma TerminationStep(a: Profiles, sa: Subscribers, before: Profiles, b: Profiles, sb: Subscribers, p: nat, y: Profile)
    requires AtMost(a, sa, b, sb, {}, {p}) && p in a && p in b && y.em == b[p].em
    requires a.Keys == before.Keys && AllEvolve(before, b, {}, {p})
    requires forall q :: q in a && q != p ==> before[q] == a[q]
    requires forall q :: q in b ==> ReleasedFrom(b, q, p)
    requires forall e :: e in sb ==> e.id != p
    ensures var c := b[p := y];
            && WaitsKept(a, c, {}, {p})
            && (forall q :: q in a ==> q in c && SameStatus(a[q], c[q]))
            && (forall q :: q in c ==> ReleasedFrom(c, q, p))
            && (Cleaned(a, sa) ==> Cleaned(c, sb))
  {
    hide WaitsKept, Cleaned, AllEvolve, SameStatus, ReleasedFrom;
    WaitsKeptUpdate(a, b, p, y, {}, {p});
    TerminationCleans(a, sa, before, b, sb, p, y);
    SameEvents(a[p], b[p], y);
    var c := b[p := y];
    forall q | q in c ensures ReleasedFrom(c, q, p) {
      ReleasedSame(b, q, p, y);
    }
  }

  lemma SameEvents(x: Profile, y: Profile, z: Profile)
    requires SameStatus(x, y) && z.em == y.em
    ensures SameStatus(x, z)
  {
  }

  lemma ReleasedSame(b: Profiles, q: nat, p: nat, y: Profile)
    requires p in b && y.em == b[p].em && ReleasedFrom(b, q, p)
    ensures ReleasedFrom(b[p := y], q, p)
  {
  }

  lemma TerminationCleans(a: Profiles, sa: Subscribers, before: Profiles, b: Profiles, sb: Subscribers, p: nat, y: Profile)
    requires AtMost(a, sa, b, sb, {}, {p}) && p in a && p in b
    requires a.Keys == before.Keys && AllEvolve(before, b, {}, {p})
    requires forall q :: q in a && q != p ==> before[q] == a[q]
    requires forall e :: e in sb ==> e.id != p
    ensures Cleaned(a, sa) ==> Cleaned(b[p := y], sb)
  {
    hide WaitsKept, SameStatus;
  }

  /** Waits lost in two steps, the second of which ends p. */
  lemma WaitsKeptEnds(a: Profiles, b: Profiles, c: Profiles, p: nat, y: Profile)
    requires WaitsKept(a, b, {}, {p}) && WaitsKept(b, c, {}, {p}) && a.Keys == b.Keys && p in b
    requires AllEvolve(b[p := y], c, {}, {p})
    ensures WaitsKept(a, c, {}, {p})
  {
    hide Evolves;
    forall q, e | q in a && q in c && e in a[q].em.waited && e !in c[q].em.waited ensures Excused(c, e, {}, {p}) {
      if e in b[q].em.waited {
      } else if e.id != p {
        assert Excused(b, e, {}, {p});
        ActivatedStays(b[p := y], c, e.id, {}, {p});
      }
    }
  }

  lemma ActivatedStays(a: Profiles, b: Profiles, q: nat, grow: set<Event>, ended: set<nat>)
    requires AllEvolve(a, b, grow, ended)
    ensures q in a && Activated(a[q]) ==> q in b && Activated(b[q])
  {
    if q in a { assert Evolves(a[q], b[q], grow, ended); }
  }

  lemma GoodCounted(x: Profile)
    requires Good(x)
    ensures Counted(x.em)
  {
  }

  lemma EvolveSelf(ps: Profiles)
    ensures AllEvolve(ps, ps, {}, {})
  {
  }

  lemma KeysStay(a: Profiles, b: Profiles, grow: set<Event>, ended: set<nat>)
    requires AllEvolve(a, b, grow, ended)
    ensures a.Keys == b.Keys
  {
  }

  lemma EvolvesAt(a: Profiles, b: Profiles, p: nat, grow: set<Event>, ended: set<nat>)
    requires AllEvolve(a, b, grow, ended) && p in a
    ensures p in b && Evolves(a[p], b[p], grow, ended)
  {
  }

  function Announced(x: Profile, now: nat): Profile {
    x.(em := x.em.(sent := x.em.sent[PROFILE := Last(ACTIVATION, now)]))
  }

  lemma AnnounceStep(ps: Profiles, subs: Subscribers, nt: map<nat, nat>, dying: set<nat>,
                     except: set<(nat, Event)>, exempt: set<nat>, p: nat, now: nat)
    requires ProfileModel.Valid(ps, subs, nt, dying, except, exempt) && p in ps
    requires Total(ps[p].em) && MayEmit(ps[p].em, ACTIVATION, now)
    ensures var qs := ps[p := Announced(ps[p], now)];
            && ProfileModel.Valid(qs, subs, nt, dying, except, exempt)
            && AllEvolve(ps, qs, {}, {})
            && |Quiet(qs)| < |Quiet(ps)|
  {
    hide Chained, Counters, FromConfiguration;
    var x, y := ps[p], Announced(ps[p], now);
    SentGood(x, y);
    assert forall e :: e in x.em.waited && (p, e) !in except ==> e in subs && p in subs[e];
    UpdateOne(ps, subs, nt, dying, except, except, exempt, p, y);
    EvolveOne(ps, p, y, {}, {});
    QuietLess(ps, p, y);
  }

  lemma StartStep(was: Profile, ps: Profiles, subs: Subscribers, nt: map<nat, nat>, dying: set<nat>,
                  except: set<(nat, Event)>, exempt: set<nat>, p: nat, now: nat)
    requires ProfileModel.Valid(ps, subs, nt, dying, except, exempt) && p in ps && !ps[p].started
    requires Evolves(was, ps[p], {}, {})
    requires was.role == MASTER || was.role == DELAY ==> NoProfileWaits(was)
    ensures var qs := ps[p := ps[p].(started := true, startTime := now)];
            ProfileModel.Valid(qs, subs, nt, dying, except, exempt) && AllEvolve(ps, qs, {}, {})
  {
    hide Chained, Counters, FromConfiguration;
    var x, y := ps[p], ps[p].(started := true, startTime := now);
    StartedGood(was, x, y);
    assert forall e :: e in x.em.waited && (p, e) !in except ==> e in subs && p in subs[e];
    UpdateOne(ps, subs, nt, dying, except, except, exempt, p, y);
    EvolveOne(ps, p, y, {}, {});
  }

  lemma ReceiptGood(x: Profile, ev: Event)
    requires Good(x) && Counted(x.em)
    ensures Good(Receipt(x, ev))
  {
    hide Good, Counted;
    ReceiveGood(x, ev);
    if Switches(x, ev) {
      ToggleGood(x, ev);
    }
    GoodButHalted(x.(em := Receipt(x, ev).em), Receipt(x, ev));
  }

  lemma ReceiptEvolves(x: Profile, ev: Event)
    requires Good(x) && Counted(x.em) && ev.kind != NONE
    ensures var y := Receipt(x, ev);
            && Evolves(x, y, Grow(ev), Ended(ev)) && ev !in y.em.waited && y.em.sent == x.em.sent
            && (forall e :: e in y.em.waited ==> e in x.em.waited || (Switches(x, ev) && e == Opposite(ev)))
            && (ev.kind == TERMINATION ==> forall e :: e in y.em.waited ==> e.id != ev.id)
            && y.role == x.role && y.master == x.master && y.terminated == x.terminated && y.checkers == x.checkers
            && y.em.retained == x.em.retained
            && forall e :: e in x.em.waited && e.kind == TERMINATION && e !in y.em.waited ==>
                 ev.kind == TERMINATION && e.id == ev.id
  {
    hide Good, Counted, Receipt;
    ReceiptParts(x, ev);
  }

  lemma ReceiptParts(x: Profile, ev: Event)
    requires Counted(x.em) && ev.kind != NONE
    ensures var y := Receipt(x, ev);
            && y == x.(em := y.em, halted := y.halted) && y.em.retained == x.em.retained && y.em.sent == x.em.sent
            && y.em.waited == x.em.waited - ReleasedBy(x.em.waited, ev) + if Switches(x, ev) then {Opposite(ev)} else {}
  {
    CountedCovered(x.em);
    hide Counted, Covered, ReleasedBy;
  }

  lemma ReleaseStep(ps: Profiles, subs: Subscribers, nt: map<nat, nat>, dying: set<nat>,
                    except: set<(nat, Event)>, exempt: set<nat>, p: nat, ev: Event)
    requires ProfileModel.Valid(ps, subs, nt, dying, except + {(p, ev)}, exempt) && p in ps && ev.kind != NONE
    requires ev.kind == TERMINATION ==> ev.id in ps && ev.id in dying
    requires Counted(ps[p].em)
    requires Switches(ps[p], ev) ==> Opposite(ev) in subs && p in subs[Opposite(ev)]
    ensures var y := Receipt(ps[p], ev);
            && ProfileModel.Valid(ps[p := y], subs, nt, dying, except, exempt)
            && AllEvolve(ps, ps[p := y], Grow(ev), Ended(ev))
            && ev !in y.em.waited
            && (ev.kind == TERMINATION ==> forall e :: e in y.em.waited ==> e.id != ev.id)
  {
    hide Chained, Counters, FromConfiguration, Good, Counted, SentOnce, CheckersWait, Receipt, Evolves;
    var x, y := ps[p], Receipt(ps[p], ev);
    assert Good(x);
    ReceiptGood(x, ev);
    ReceiptEvolves(x, ev);
    assert forall e :: e in y.em.waited && (p, e) !in except ==> e in subs && p in subs[e];
    UpdateOne(ps, subs, nt, dying, except + {(p, ev)}, except, exempt, p, y);
    EvolveOne(ps, p, y, Grow(ev), Ended(ev));
  }

  lemma SubscribersAreProfiles(ps: Profiles, subs: Subscribers, nt: map<nat, nat>, dying: set<nat>,
                               except: set<(nat, Event)>, exempt: set<nat>, ev: Event)
    requires ProfileModel.Valid(ps, subs, nt, dying, except, exempt) && ev in subs
    ensures subs[ev] <= ps.Keys
  {
  }

  lemma GoodButHalted(x: Profile, y: Profile)
    requires Good(x) && y == x.(halted := y.halted)
    ensures Good(y)
  {
  }

  lemma SentGood(x: Profile, y: Profile)
    requires Good(x) && y == x.(em := x.em.(sent := y.em.sent)) && x.em.sent.Keys <= y.em.sent.Keys
    ensures Good(y)
  {
  }

  lemma StartedGood(was: Profile, x: Profile, y: Profile)
    requires Good(x) && Evolves(was, x, {}, {})
    requires was.role == MASTER || was.role == DELAY ==> NoProfileWaits(was)
    requires y == x.(started := true, startTime := y.startTime)
    ensures Good(y)
  {
  }

  lemma QuietLess(ps: Profiles, p: nat, y: Profile)
    requires p in ps && !Activated(ps[p]) && Activated(y)
    ensures |Quiet(ps[p := y])| < |Quiet(ps)|
  {
    assert p in Quiet(ps);
    assert Quiet(ps[p := y]) == Quiet(ps) - {p};
  }

  // ------------------------------------------------------ steps of a termination

  ghost predicate MayTerminate(x: Profile) {
    x.role != SLAVE && !x.terminated && NoProfileWaits(x) && (x.role == MASTER ==> x.ot == 0 && x.started)
  }

  function Dying(x: Profile, now: nat): Profile {
    x.(em := x.em.(sent := x.em.sent[PROFILE := Last(TERMINATION, now)]))
  }

  function Listeners(subs: Subscribers, p: nat): set<(Event, nat)> {
    set e, q | e in subs && e.id == p && q in subs[e] :: (e, q)
  }

  function Without(subs: Subscribers, p: nat): Subscribers {
    map e | e in subs && e.id != p :: subs[e]
  }

  ghost predicate ReleasedFrom(ps: Profiles, q: nat, p: nat) {
    q in ps && forall e :: e in ps[q].em.waited ==> e.id != p
  }

  lemma StillMayTerminate(x: Profile, now: nat)
    requires MayTerminate(x)
    ensures MayTerminate(Dying(x, now))
  {
  }

  lemma NotSentYet(ps: Profiles, p: nat)
    requires SentOnce(ps, {}) && p in ps && !ps[p].terminated && Counted(ps[p].em)
    ensures ps[p].em.sent[PROFILE].kind != TERMINATION
  {
  }

  /** The duplicate-termination error cannot occur: the counter is positive. */
  lemma CountIsPositive(ps: Profiles, nt: map<nat, nat>, p: nat)
    requires Counters(ps, nt, {}) && p in ps && ps[p].role != SLAVE && !ps[p].terminated
    ensures ps[p].master in nt && nt[ps[p].master] > 0
  {
    assert p in Live(ps, ps[p].master, {});
    assert Count(nt, ps[p].master) == |Live(ps, ps[p].master, {})|;
  }

  lemma DyingStep(ps: Profiles, subs: Subscribers, nt: map<nat, nat>, p: nat, now: nat)
    requires ProfileModel.Valid(ps, subs, nt, {}, {}, {}) && p in ps && MayTerminate(ps[p])
    requires ps[p].master in nt && nt[ps[p].master] > 0
    ensures var m := ps[p].master;
            ProfileModel.Valid(ps[p := Dying(ps[p], now)], subs, nt[m := nt[m] - 1], {p}, {}, {})
  {
    var y, m := Dying(ps[p], now), ps[p].master;
    var qs := ps[p := y];
    SentGood(ps[p], y);
    CountersDying(ps, nt, p, y);
    ChainedDying(ps, p, y);
    DyingWaits(ps, subs, p, y);
    KeepsCheckers(ps, p, y);
    hide Good, Counters, Chained, Subscribed, FromConfiguration, SentOnce, CheckersWait;
    assert forall q :: q in qs ==> Good(qs[q]);
  }

  lemma DyingWaits(ps: Profiles, subs: Subscribers, p: nat, y: Profile)
    requires p in ps && y.em.waited == ps[p].em.waited && y.em.retained == ps[p].em.retained
    requires Subscribed(ps, subs, {}) && FromConfiguration(ps, subs) && SentOnce(ps, {})
    ensures Subscribed(ps[p := y], subs, {}) && FromConfiguration(ps[p := y], subs) && SentOnce(ps[p := y], {p})
  {
  }

  lemma CountersDying(ps: Profiles, nt: map<nat, nat>, p: nat, y: Profile)
    requires Counters(ps, nt, {}) && p in ps && ps[p].role != SLAVE && !ps[p].terminated
    requires ps[p].master in nt && nt[ps[p].master] > 0
    requires y == ps[p].(em := y.em)
    ensures var m := ps[p].master;
            Counters(ps[p := y], nt[m := nt[m] - 1], {p})
  {
    var qs, m := ps[p := y], ps[p].master;
    forall k ensures Count(nt[m := nt[m] - 1], k) == |Live(qs, k, {p})| {
      assert Live(qs, k, {p}) == Live(ps, k, {}) - (if k == m then {p} else {});
      assert Count(nt, k) == |Live(ps, k, {})|;
      assert p in Live(ps, m, {});
    }
  }

  lemma ChainedDying(ps: Profiles, p: nat, y: Profile)
    requires Chained(ps, {}, {}) && p in ps && y.terminated == ps[p].terminated
    requires y.em.waited == ps[p].em.waited && y.em.retained == ps[p].em.retained
    ensures Chained(ps[p := y], {p}, {})
  {
  }

  lemma ListenersKnown(ps: Profiles, subs: Subscribers, nt: map<nat, nat>, dying: set<nat>, p: nat)
    requires ProfileModel.Valid(ps, subs, nt, dying, {}, {})
    ensures forall l :: l in Listeners(subs, p) ==> l.1 in ps
  {
  }

  lemma StillReleased(a: Profiles, b: Profiles, done: set<(Event, nat)>, p: nat)
    requires AllEvolve(a, b, {}, {p})
    requires forall l :: l in done ==> ReleasedFrom(a, l.1, p)
    ensures forall l :: l in done ==> ReleasedFrom(b, l.1, p)
  {
    forall l | l in done ensures ReleasedFrom(b, l.1, p) {
      assert ReleasedFrom(a, l.1, p);
    }
  }

  /** Once every listener has been told, nobody waits for anything from p. */
  lemma NobodyWaits(start: Profiles, ps: Profiles, subs: Subscribers, now: Subscribers, nt: map<nat, nat>,
                    all: set<(Event, nat)>, p: nat)
    requires AllEvolve(start, ps, {}, {p}) && all == Listeners(subs, p)
    requires Subscribed(start, subs, {})
    requires forall l :: l in all ==> ReleasedFrom(ps, l.1, p)
    requires ProfileModel.Valid(ps, now, nt, {p}, {}, {})
    ensures ProfileModel.Valid(ps, Without(now, p), nt, {p}, {}, {})
    ensures forall q :: q in ps ==> ReleasedFrom(ps, q, p)
  {
    hide Good, Counters, Chained, SentOnce, FromConfiguration;
    forall q, e | q in ps && e in ps[q].em.waited ensures e.id != p {
      assert Evolves(start[q], ps[q], {}, {p});
      assert e in start[q].em.waited;
      assert e.id == p ==> (e, q) in all && ReleasedFrom(ps, (e, q).1, p);
    }
    WithoutValid(ps, now, nt, p);
  }

  lemma WithoutValid(ps: Profiles, subs: Subscribers, nt: map<nat, nat>, p: nat)
    requires ProfileModel.Valid(ps, subs, nt, {p}, {}, {})
    requires forall q, e :: q in ps && e in ps[q].em.waited ==> e.id != p
    ensures ProfileModel.Valid(ps, Without(subs, p), nt, {p}, {}, {})
  {
    hide Good, Counters, Chained, SentOnce;
  }

  lemma FinishStep(before: Profiles, ps: Profiles, subs: Subscribers, nt: map<nat, nat>, p: nat)
    requires ProfileModel.Valid(ps, subs, nt, {p}, {}, {}) && p in before && p in ps && AllEvolve(before, ps, {}, {p})
    requires MayTerminate(before[p])
    ensures var qs := ps[p := ps[p].(terminated := true, halted := false)];
            && ProfileModel.Valid(qs, subs, nt, {}, {}, {})
            && AllEvolve(before[p := before[p].(terminated := true)], qs, {}, {p})
  {
    hide Good, Counters, Chained, AllEvolve, Evolves, Subscribed, FromConfiguration, SentOnce, MayTerminate;
    var y := ps[p].(terminated := true, halted := false);
    var qs := ps[p := y];
    EvolvesAt(before, ps, p, {}, {p});
    assert Good(ps[p]);
    FinishedGood(before[p], ps[p], y, p);
    CountersFinished(ps, nt, p, y);
    ChainedFinished(ps, p, y);
    EvolveFinished(before, ps, p);
    SameWaits(ps, subs, p, y);
    KeepsCheckers(ps, p, y);
  }

  lemma KeepsCheckers(ps: Profiles, p: nat, y: Profile)
    requires p in ps && y.em.retained == ps[p].em.retained && y.checkers == ps[p].checkers && y.role == ps[p].role
    requires CheckersWait(ps)
    ensures CheckersWait(ps[p := y])
  {
  }

  lemma SameWaits(ps: Profiles, subs: Subscribers, p: nat, y: Profile)
    requires p in ps && y.em == ps[p].em && y.terminated
    requires Subscribed(ps, subs, {}) && FromConfiguration(ps, subs) && SentOnce(ps, {p})
    ensures Subscribed(ps[p := y], subs, {}) && FromConfiguration(ps[p := y], subs) && SentOnce(ps[p := y], {})
  {
  }

  lemma FinishedGood(was: Profile, x: Profile, y: Profile, p: nat)
    requires Good(x) && Evolves(was, x, {}, {p}) && MayTerminate(was)
    requires y == x.(terminated := true, halted := false)
    ensures Good(y)
  {
  }

  lemma EvolveFinished(before: Profiles, ps: Profiles, p: nat)
    requires p in before && p in ps && AllEvolve(before, ps, {}, {p})
    ensures AllEvolve(before[p := before[p].(terminated := true)],
                      ps[p := ps[p].(terminated := true, halted := false)], {}, {p})
  {
    var a, b := before[p := before[p].(terminated := true)], ps[p := ps[p].(terminated := true, halted := false)];
    forall q | q in a ensures Evolves(a[q], b[q], {}, {p}) {
      assert Evolves(before[q], ps[q], {}, {p});
    }
  }

  lemma CountersFinished(ps: Profiles, nt: map<nat, nat>, p: nat, y: Profile)
    requires Counters(ps, nt, {p}) && p in ps
    requires y.role == ps[p].role && y.master == ps[p].master && y.terminated
    ensures Counters(ps[p := y], nt, {})
  {
    forall k ensures Count(nt, k) == |Live(ps[p := y], k, {})| {
      assert Live(ps[p := y], k, {}) == Live(ps, k, {p});
    }
  }

  lemma ChainedFinished(ps: Profiles, p: nat, y: Profile)
    requires Chained(ps, {p}, {}) && p in ps && y.terminated
    requires y.em == ps[p].em
    ensures Chained(ps[p := y], {}, {})
  {
  }

  // ------------------------------------------------------------ frames of calls

  /** Beside p's termination status, a call changes profiles as broadcasts do. */
  ghost predicate OthersEvolve(a: Profiles, b: Profiles, p: nat) {
    && a.Keys == b.Keys
    && (forall q :: q in a ==>
          && b[q] == a[q].(em := b[q].em, started := b[q].started, startTime := b[q].startTime, halted := b[q].halted,
                           terminated := b[q].terminated)
          && b[q].em.retained == a[q].em.retained
          && (q != p ==> b[q].terminated == a[q].terminated)
          && (a[q].role != MASTER ==> b[q].em.waited <= a[q].em.waited)
          && (a[q].started ==> b[q].started && b[q].startTime == a[q].startTime))
  }

  /** If p ends in a call, it was released from all profiles when the call came; no call
      undoes a termination. */
  ghost predicate EndsReleased(a: Profiles, b: Profiles, p: nat) {
    && p in a && p in b && (a[p].terminated ==> b[p].terminated)
    && (b[p].terminated && !a[p].terminated ==> NoProfileWaits(a[p]) && a[p].role != SLAVE)
  }

  /** A broadcast of some event happened, or nothing. */
  ghost predicate EvolvesSome(a: Profiles, b: Profiles) {
    exists grow :: AllEvolve(a, b, grow, {})
  }

  lemma EvolveAny(a: Profiles)
    ensures EvolvesSome(a, a)
  {
    EvolveSelf(a);
  }

  lemma OthersKeys(a: Profiles, b: Profiles, p: nat)
    requires OthersEvolve(a, b, p)
    ensures a.Keys == b.Keys
  {
  }

  lemma OthersSelf(a: Profiles, p: nat)
    ensures OthersEvolve(a, a, p)
  {
  }

  lemma OthersTransitive(a: Profiles, b: Profiles, c: Profiles, p: nat)
    requires OthersEvolve(a, b, p) && OthersEvolve(b, c, p)
    ensures OthersEvolve(a, c, p)
  {
  }

  /** A delay profile takes the time of the poll; until it starts, so does its start. */
  function Ticked(x: Profile, now: nat): Profile {
    x.(clock := now, ownStart := if x.started then x.ownStart else now)
  }

  predicate Expired(x: Profile) {
    x.started && x.clock >= x.ownStart + x.delay
  }

  lemma TerminateOthers(a: Profiles, b: Profiles, p: nat, now: nat)
    requires p in a && AllEvolve(a[p := Dying(a[p], now).(terminated := true)], b, {}, {p})
    ensures OthersEvolve(a, b, p) && b[p].terminated
  {
    forall q | q in a
      ensures b[q] == a[q].(em := b[q].em, started := b[q].started, startTime := b[q].startTime, halted := b[q].halted,
                            terminated := b[q].terminated)
              && b[q].em.retained == a[q].em.retained
              && (q != p ==> b[q].terminated == a[q].terminated)
              && (a[q].started ==> b[q].started && b[q].startTime == a[q].startTime)
    {
      var c := a[p := Dying(a[p], now).(terminated := true)];
      assert Evolves(c[q], b[q], {}, {p});
    }
    var c := a[p := Dying(a[p], now).(terminated := true)];
    assert Evolves(c[p], b[p], {}, {p});
  }

  lemma EvolveOthers(a: Profiles, b: Profiles, c: Profiles, p: nat)
    requires OthersEvolve(a, b, p) && AllEvolve(b, c, {}, {})
    ensures OthersEvolve(a, c, p) && (p in b ==> p in c && c[p].terminated == b[p].terminated)
  {
  }

  lemma EvolveOthersAny(a: Profiles, b: Profiles, c: Profiles, p: nat)
    requires OthersEvolve(a, b, p) && EvolvesSome(b, c)
    ensures OthersEvolve(a, c, p) && (p in b ==> p in c && c[p].terminated == b[p].terminated)
  {
  }

  lemma OthersStay(a: Profiles, b: Profiles, p: nat, now: nat)
    requires OthersEvolve(a, b, p) && p in a
    requires forall q :: q in a ==> StaysAtEnd(a[q], now)
    requires forall q :: q in a ==> Good(a[q])
    requires b[p].role == MASTER && b[p].terminated && !a[p].terminated ==> AtEnd(a[p], now)
    ensures forall q :: q in b ==> StaysAtEnd(b[q], now)
  {
  }

  lemma EvolveStays(a: Profiles, b: Profiles, now: nat)
    requires EvolvesSome(a, b)
    requires forall q :: q in a ==> StaysAtEnd(a[q], now) && Good(a[q])
    ensures forall q :: q in b ==> StaysAtEnd(b[q], now)
  {
  }

  lemma MasterFacts(x: Profile)
    requires Good(x)
    ensures Counted(x.em)
    ensures (x.role == MASTER || x.role == DELAY) && x.started ==> NoProfileWaits(x)
    ensures x.role == MASTER && (x.sent > 0 || x.terminated) ==> x.started
    ensures WithinLimits(x)
  {
  }

  /** What a send adds to the counts of a master. */
  function Progressed(x: Profile, sent: bool): Profile {
    x.(sent := x.sent + (if sent then 1 else 0), ot := x.ot + (if sent && x.acknowledged then 1 else 0))
  }

  lemma PlainUpdate(ps: Profiles, subs: Subscribers, nt: map<nat, nat>, p: nat, y: Profile)
    requires ProfileModel.Valid(ps, subs, nt, {}, {}, {}) && p in ps && Good(y)
    requires y.em == ps[p].em && y.role == ps[p].role && y.master == ps[p].master
    requires y.terminated == ps[p].terminated && y.checkers == ps[p].checkers
    ensures ProfileModel.Valid(ps[p := y], subs, nt, {}, {}, {})
  {
    assert forall e :: e in y.em.waited ==> e in subs && p in subs[e];
    UpdateOne(ps, subs, nt, {}, {}, {}, {}, p, y);
  }

  lemma SendStep(start: Profiles, ps: Profiles, subs: Subscribers, nt: map<nat, nat>, p: nat, now: nat)
    requires ProfileModel.Valid(ps, subs, nt, {}, {}, {}) && p in ps && p in start && OthersEvolve(start, ps, p)
    requires start[p].role == MASTER && ActiveMaster(start[p], now) && StaysAtEnd(start[p], now) && Good(start[p])
    requires ps[p].started && ps[p].terminated == (start[p].terminated || Finishes(start[p], now))
    requires forall q :: q in ps ==> StaysAtEnd(ps[q], now)
    ensures var y := Progressed(ps[p], true);
            && ProfileModel.Valid(ps[p := y], subs, nt, {}, {}, {}) && !y.terminated
            && forall q :: q in ps[p := y] ==> StaysAtEnd(if q == p then y else ps[q], now)
  {
    hide Chained, Counters, Subscribed, FromConfiguration, SentOnce;
    var y := Progressed(ps[p], true);
    assert Good(y);
    PlainUpdate(ps, subs, nt, p, y);
  }

  lemma OthersCounted(a: Profiles, b: Profiles, p: nat, sent: bool)
    requires OthersEvolve(a, b, p) && p in a
    ensures p in b
    ensures OthersEvolve(a[p := Progressed(a[p], sent)], b[p := Progressed(b[p], sent)], p)
    ensures !sent ==> b[p := Progressed(b[p], sent)] == b
  {
    OneCounted(a[p], b[p], sent);
    hide Progressed;
  }

  lemma OneCounted(x: Profile, y: Profile, sent: bool)
    requires y == x.(em := y.em, started := y.started, startTime := y.startTime, halted := y.halted,
                     terminated := y.terminated)
    ensures var u, v := Progressed(x, sent), Progressed(y, sent);
            && v == u.(em := v.em, started := v.started, startTime := v.startTime, halted := v.halted,
                       terminated := v.terminated)
            && u.em == x.em && v.em == y.em && u.role == x.role && u.started == x.started && v.started == y.started
            && u.startTime == x.startTime && v.startTime == y.startTime && u.terminated == x.terminated
            && v.terminated == y.terminated && (!sent ==> v == y)
  {
  }

  lemma StatusStep(ps: Profiles, subs: Subscribers, nt: map<nat, nat>, p: nat, kind: EventType, now: nat)
    requires ProfileModel.Valid(ps, subs, nt, {}, {}, {}) && p in ps && Total(ps[p].em)
    ensures var y := ps[p].(em := ps[p].em.(sent := ps[p].em.sent[SEND_STATUS := Last(kind, now)]));
            ProfileModel.Valid(ps[p := y], subs, nt, {}, {}, {}) && AllEvolve(ps, ps[p := y], {}, {})
  {
    hide Chained, Counters, FromConfiguration;
    var y := ps[p].(em := ps[p].em.(sent := ps[p].em.sent[SEND_STATUS := Last(kind, now)]));
    SentGood(ps[p], y);
    assert forall e :: e in y.em.waited ==> e in subs && p in subs[e];
    UpdateOne(ps, subs, nt, {}, {}, {}, {}, p, y);
    EvolveOne(ps, p, y, {}, {});
  }

  lemma ReceiveStep(ps: Profiles, subs: Subscribers, nt: map<nat, nat>, p: nat, now: nat)
    requires ProfileModel.Valid(ps, subs, nt, {}, {}, {}) && p in ps && ps[p].role == MASTER && ps[p].ot > 0
    requires forall q :: q in ps ==> StaysAtEnd(ps[q], now)
    ensures !ps[p].terminated
    ensures var qs := ps[p := ps[p].(ot := ps[p].ot - 1)];
            ProfileModel.Valid(qs, subs, nt, {}, {}, {}) && forall q :: q in qs ==> StaysAtEnd(qs[q], now)
  {
    hide Chained, Counters, Subscribed, FromConfiguration, SentOnce;
    var y := ps[p].(ot := ps[p].ot - 1);
    assert Good(ps[p]) && Good(y);
    PlainUpdate(ps, subs, nt, p, y);
  }

  lemma DelayStep(ps: Profiles, subs: Subscribers, nt: map<nat, nat>, p: nat, now: nat)
    requires ProfileModel.Valid(ps, subs, nt, {}, {}, {}) && p in ps && ps[p].role == DELAY
    requires forall q :: q in ps ==> StaysAtEnd(ps[q], now)
    ensures var qs := ps[p := Ticked(ps[p], now)];
            ProfileModel.Valid(qs, subs, nt, {}, {}, {}) && forall q :: q in qs ==> StaysAtEnd(qs[q], now)
  {
    hide Chained, Counters, Subscribed, FromConfiguration, SentOnce;
    var y := Ticked(ps[p], now);
    assert Good(ps[p]) && Good(y);
    PlainUpdate(ps, subs, nt, p, y);
  }

  // ------------------------------------------------------------- when a delay is kept

  /** Whenever it is polled after its activation, the delay does not end too early. */
  ghost predicate DelayKept(x: Profile) {
    forall t: nat :: t >= x.startTime && Expired(Ticked(x, t)) ==> t >= x.startTime + x.delay
  }

  /** A running delay is kept exactly if its own start is that of its activation. */
  lemma DelayKeptIff(x: Profile)
    requires x.started && x.ownStart <= x.startTime
    ensures DelayKept(x) <==> x.ownStart == x.startTime || x.delay == 0
  {
    if x.ownStart < x.startTime && x.delay > 0 {
      var t := if x.startTime >= x.ownStart + x.delay then x.startTime else x.ownStart + x.delay;
      assert Expired(Ticked(x, t));
    }
  }

  /** The time an active delay says it ends is the time from which on a poll ends it. */
  lemma DelayHintSuffices(x: Profile, later: nat)
    requires x.role == DELAY && x.started && !Expired(x) && x.clock <= later
    ensures x.ownStart + x.delay > x.clock
    ensures Expired(Ticked(x, later)) <==> later >= x.ownStart + x.delay
  {
  }

  /** A delay polled at the given times. */
  function PolledAt(x: Profile, ts: seq<nat>): Profile {
    if ts == [] then x else Ticked(PolledAt(x, ts[..|ts|-1]), ts[|ts|-1])
  }

  lemma {:induction false} PolledFields(x: Profile, ts: seq<nat>)
    requires !x.started
    ensures var y := PolledAt(x, ts);
            && !y.started && y.delay == x.delay
            && y.ownStart == if ts == [] then x.ownStart else ts[|ts|-1]
  {
    if ts != [] { PolledFields(x, ts[..|ts|-1]); }
  }

  /** After a reset and any polls, an activation from outside at time s keeps the delay
      exactly if the last poll was at that very time; without a poll, exactly at time 0,
      and then it ends at once if its length is no more than the time. */
  lemma OutsideActivationIff(x: Profile, ts: seq<nat>, s: nat)
    requires x.role == DELAY && (ts != [] ==> ts[|ts|-1] <= s)
    ensures var y := PolledAt(Cleared(x), ts).(started := true, startTime := s);
            && (DelayKept(y) <==> s == (if ts == [] then 0 else ts[|ts|-1]) || x.delay == 0)
            && (ts == [] ==> (Expired(Ticked(y, s)) <==> s >= x.delay))
  {
    hide AfterReset;
    PolledFields(Cleared(x), ts);
    DelayKeptIff(PolledAt(Cleared(x), ts).(started := true, startTime := s));
  }

  /** An activation by its own poll keeps it. */
  lemma OwnActivationKeeps(x: Profile, t: nat)
    requires !x.started
    ensures DelayKept(Ticked(x, t).(started := true, startTime := t))
  {
    DelayKeptIff(Ticked(x, t).(started := true, startTime := t));
  }

  // ------------------------------------------------------------ lemmas on streams

  lemma NextInProfiles(ps: Profiles, subs: Subscribers, nt: map<nat, nat>)
    requires ProfileModel.Valid(ps, subs, nt, {}, {}, {})
    ensures forall q :: Next(subs, q) <= ps.Keys
  {
  }

  lemma ReachedAreProfiles(ps: Profiles, subs: Subscribers, root: nat, stream: seq<(nat, bool)>)
    requires root in ps && IsSearchResult(subs, root, stream)
    requires forall q :: Next(subs, q) <= ps.Keys
    ensures forall v :: v in Nodes(stream) ==> v in ps
  {
    ClosedHoldsReachable(subs, root, ps.Keys);
  }

  lemma LeavesAreProfiles(ps: Profiles, stream: seq<(nat, bool)>)
    requires forall v :: v in Nodes(stream) ==> v in ps
    ensures forall v :: v in Leaves(stream) ==> v in ps
  {
    forall v | v in Leaves(stream) ensures v in ps {
      LeavesMember(stream, v);
      var i :| 0 <= i < |stream| && stream[i] == (v, true);
      assert Nodes(stream)[i] == v;
    }
  }

  lemma LeavesTest(ps: Profiles, stream: seq<(nat, bool)>)
    requires forall v :: v in Nodes(stream) ==> v in ps
    requires forall v :: v in Leaves(stream) ==> v in ps
    ensures (forall k :: 0 <= k < |Leaves(stream)| ==> ps[Leaves(stream)[k]].terminated) <==> LeavesTerminated(ps, stream)
  {
    var leaves := Leaves(stream);
    if LeavesTerminated(ps, stream) {
      forall k | 0 <= k < |leaves| ensures ps[leaves[k]].terminated {
        LeavesMember(stream, leaves[k]);
      }
    } else {
      var i :| 0 <= i < |stream| && stream[i].1 && !(stream[i].0 in ps && ps[stream[i].0].terminated);
      LeavesMember(stream, stream[i].0);
      assert stream[i] == (stream[i].0, true);
      var k :| 0 <= k < |leaves| && leaves[k] == stream[i].0;
      assert !ps[Leaves(stream)[k]].terminated;
    }
  }

  /** The leaf test of a stream all of whose profiles lead to a leaf. */
  lemma WholeStream(ps: Profiles, stream: seq<(nat, bool)>)
    requires Possible(ps) && IsStream(ps, stream) && stream != [] && AllLead(ps, stream)
    ensures Leaves(stream) != []
    ensures LeavesTerminated(ps, stream) <==> AllTerminated(ps, stream)
  {
    hide Possible, IsStream, LeadsToLeaf;
    SomeLeaf(ps, stream, 0);
    var j :| 0 <= j < |stream| && stream[j].1;
    assert stream[j] == (stream[j].0, true);
    LeavesMember(stream, stream[j].0);
    if LeavesTerminated(ps, stream) {
      LeafTestMeans(ps, stream);
    }
  }

  lemma ValidPossible(ps: Profiles, subs: Subscribers, nt: map<nat, nat>)
    requires ProfileModel.Valid(ps, subs, nt, {}, {}, {})
    ensures Possible(ps)
  {
  }

  /** A reset of one profile keeps the chain of waits if and only if nobody that waits for
      it has been released by it. */
  lemma ResetKeepsChainIff(ps: Profiles, p: nat)
    requires Possible(ps) && p in ps
    ensures Chained(ps[p := Cleared(ps[p])], {}, {}) <==>
              forall q :: q in Waiters(ps, p) && q != p ==> Event(TERMINATION, p) in ps[q].em.waited
  {
    hide Good, Cleared;
    var qs := ps[p := Cleared(ps[p])];
    ClearedGood(ps[p]);
    forall q | q in Waiters(ps, p) && q != p && Event(TERMINATION, p) !in ps[q].em.waited
      ensures !Chained(qs, {}, {})
    {
      assert q in qs && Event(TERMINATION, p) in Elements(qs[q].em.retained);
    }
    if forall q :: q in Waiters(ps, p) && q != p ==> Event(TERMINATION, p) in ps[q].em.waited {
      forall q, e | q in qs && e in Elements(qs[q].em.retained) && e.kind == TERMINATION
        ensures e in qs[q].em.waited || (e.id in qs && qs[e.id].terminated)
      {
        if q != p && e.id == p {
          assert e == Event(TERMINATION, p) && q in Waiters(ps, p);
        }
      }
    }
  }

  lemma NodesAt(stream: seq<(nat, bool)>)
    ensures forall k :: 0 <= k < |stream| ==> Nodes(stream)[k] == stream[k].0 && stream[k].0 in Nodes(stream)
  {
    forall k | 0 <= k < |stream| ensures Nodes(stream)[k] == stream[k].0 && stream[k].0 in Nodes(stream) {
      assert Nodes(stream)[k] in Nodes(stream);
    }
  }

  // -------------------------------------------------------------- lemmas on resets

  /** What a reset leaves: the configured waits, nothing sent, no progress. */
  function Cleared(x: Profile): Profile
  {
    var y := x.(em := AfterReset(x.em), ot := 0, started := false, terminated := false);
    match x.role
    case MASTER => y.(sent := 0, halted := false)
    case DELAY => y.(ownStart := 0, clock := 0)
    case CHECKER => y
    case SLAVE => y
  }

  /** Every configured TERMINATION wait of p is pending. */
  ghost predicate TerminationsAwaited(ps: Profiles, p: nat) {
    p in ps && forall e :: e in Elements(ps[p].em.retained) && e.kind == TERMINATION ==> e in ps[p].em.waited
  }

  /** p has been reset and its configured waits are pending. */
  ghost predicate Restored(ps: Profiles, p: nat) {
    TerminationsAwaited(ps, p) && IsReset(ps[p])
  }

  ghost predicate AllRestored(ps: Profiles, done: set<nat>) {
    forall q :: q in done ==> Restored(ps, q)
  }

  lemma NoneRestored(ps: Profiles)
    ensures AllRestored(ps, {})
  {
  }

  lemma OneMoreRestored(ps: Profiles, done: set<nat>, c: nat)
    requires AllRestored(ps, done) && c in ps && Good(ps[c])
    ensures AllRestored(ps[c := Cleared(ps[c])], done + {c})
  {
    hide Cleared, Good;
    ClearedFields(ps[c]);
  }

  lemma RestoredEvolve(a: Profiles, b: Profiles, done: set<nat>)
    requires AllRestored(a, done) && AllEvolve(a, b, {}, {})
    ensures AllRestored(b, done)
  {
    hide AllEvolve, IsReset;
    forall q | q in done ensures Restored(b, q) {
      assert Restored(a, q);
      AwaitedStays(a, b, q);
      StillReset(a, b, q);
    }
  }

  /** p may be reset: whoever was released by its termination is to be reset as well. */
  ghost predicate ResetAllowed(ps: Profiles, p: nat, exempt: set<nat>) {
    forall q :: q in Waiters(ps, p) && q != p && q !in exempt ==> Event(TERMINATION, p) in ps[q].em.waited
  }

  lemma GoodRetained(x: Profile)
    requires Good(x)
    ensures NoDuplicates(x.em.retained)
  {
  }

  lemma ClearedGood(x: Profile)
    requires Good(x)
    ensures Good(Cleared(x)) && Cleared(x).em.waited == Elements(x.em.retained)
    ensures Cleared(x).em.retained == x.em.retained && Cleared(x).em.sent == NothingSent()
    ensures var y := Cleared(x);
            y.role == x.role && y.master == x.master && y.checkers == x.checkers && !y.terminated && !y.started
  {
    ResetCounted(x.em);
    hide Counted, AfterReset, NoDuplicates;
  }

  /** A reset leaves a profile as its creation did, but for the checkers registered since,
      and for the time a master, checker or slave started, which stays. */
  lemma ResetAsCreated(x: Profile)
    ensures var y := Blank(x.role, x.master, x.toSend, x.toStop, x.maxOt, x.acknowledged, x.delay, x.em.retained);
            var z := Cleared(x);
            && z.em == AfterReset(y.em) && !z.started && !z.terminated && z.ot == 0
            && (x.role == MASTER ==> z == y.(em := z.em, checkers := x.checkers, asked := x.asked,
                                             startTime := x.startTime, clock := x.clock, ownStart := x.ownStart))
            && (x.role == DELAY ==> z == y.(em := z.em, checkers := x.checkers, asked := x.asked,
                                            startTime := x.startTime, sent := x.sent, halted := x.halted))
  {
    ResetForgets(x.em, Waits({}, NoCounts(), NothingSent(), x.em.retained));
  }

  /** Only the retained events outlast a reset. */
  lemma ResetForgets(m: Waits, n: Waits)
    requires m.retained == n.retained
    ensures AfterReset(m) == AfterReset(n)
  {
  }

  lemma ClearStep(ps: Profiles, subs: Subscribers, nt: map<nat, nat>, exempt: set<nat>, p: nat)
    requires ProfileModel.Valid(ps, subs, nt, {}, {}, exempt) && p in ps
    requires var es := ps[p].em.retained; forall i :: 0 <= i < |es| ==> es[i] in subs && p in subs[es[i]]
    requires ResetAllowed(ps, p, exempt)
    ensures ProfileModel.Valid(ps[p := Cleared(ps[p])], subs, AfterSignal(nt, ps[p]), {}, {}, exempt - {p})
  {
    hide Good, Counters, Chained, Subscribed, FromConfiguration, SentOnce, CheckersWait, Cleared;
    var x, y := ps[p], Cleared(ps[p]);
    assert Good(x);
    ClearedGood(x);
    KeepsCheckers(ps, p, y);
    ClearedCounters(ps, nt, p, y);
    ClearedWaits(ps, subs, exempt, p, y);
  }

  function AfterSignal(nt: map<nat, nat>, x: Profile): map<nat, nat> {
    if x.terminated then nt[x.master := Count(nt, x.master) + 1] else nt
  }

  lemma ClearedCounters(ps: Profiles, nt: map<nat, nat>, p: nat, y: Profile)
    requires Counters(ps, nt, {}) && p in ps && Good(ps[p])
    requires y.role == ps[p].role && y.master == ps[p].master && !y.terminated
    ensures Counters(ps[p := y], AfterSignal(nt, ps[p]), {})
  {
    var x, qs := ps[p], ps[p := y];
    forall k ensures Count(AfterSignal(nt, x), k) == |Live(qs, k, {})| {
      assert Count(nt, k) == |Live(ps, k, {})|;
      if x.terminated && k == x.master {
        assert x.role != SLAVE;
        assert Live(qs, k, {}) == Live(ps, k, {}) + {p};
      } else {
        assert Live(qs, k, {}) == Live(ps, k, {});
      }
    }
  }

  lemma ClearedWaits(ps: Profiles, subs: Subscribers, exempt: set<nat>, p: nat, y: Profile)
    requires p in ps && y.em.retained == ps[p].em.retained && y.em.waited == Elements(y.em.retained)
    requires y.em.sent == NothingSent() && !y.terminated
    requires forall i :: 0 <= i < |y.em.retained| ==> y.em.retained[i] in subs && p in subs[y.em.retained[i]]
    requires Subscribed(ps, subs, {}) && FromConfiguration(ps, subs) && SentOnce(ps, {}) && Chained(ps, {}, exempt)
    requires ResetAllowed(ps, p, exempt)
    ensures var qs := ps[p := y];
            Subscribed(qs, subs, {}) && FromConfiguration(qs, subs) && SentOnce(qs, {}) && Chained(qs, {}, exempt - {p})
  {
    var qs := ps[p := y];
    forall q, e | q in qs && q !in exempt - {p} && e in Elements(qs[q].em.retained) && e.kind == TERMINATION
      ensures e in qs[q].em.waited || (e.id in qs && (qs[e.id].terminated || e.id in {}))
    {
      if q != p && e.id == p {
        assert q in Waiters(ps, p);
        assert e == Event(TERMINATION, p);
      }
    }
  }

  lemma ValidGood(ps: Profiles, subs: Subscribers, nt: map<nat, nat>, exempt: set<nat>, p: nat)
    requires ProfileModel.Valid(ps, subs, nt, {}, {}, exempt) && p in ps
    ensures Good(ps[p])
  {
  }

  lemma LessExempt(ps: Profiles, subs: Subscribers, nt: map<nat, nat>, a: set<nat>, b: set<nat>)
    requires ProfileModel.Valid(ps, subs, nt, {}, {}, a) && a <= b
    ensures ProfileModel.Valid(ps, subs, nt, {}, {}, b)
  {
  }

  /** Profiles in `done` have been reset, and possibly activated, and the others have at
      most received events. */
  ghost predicate AfterResets(a: Profiles, b: Profiles, done: set<nat>) {
    && a.Keys == b.Keys
    && forall p :: p in a ==>
         && ResetOrEvolved(a[p], b[p], p in done)
         && (TerminationsAwaited(a, p) ==> TerminationsAwaited(b, p))
  }

  ghost predicate ResetOrEvolved(x: Profile, y: Profile, mayReset: bool) {
    && SameConfiguration(x, y)
    && (Evolves(x, y, {}, {}) || (mayReset && IsReset(y)))
    && (IsReset(x) ==> IsReset(y))
    && (y.terminated ==> x.terminated)
  }

  /** No progress, and nothing outstanding. */
  predicate IsReset(x: Profile) {
    !x.terminated && x.ot == 0 && (x.role == MASTER ==> x.sent == 0)
  }

  lemma NoResets(a: Profiles, done: set<nat>)
    ensures AfterResets(a, a, done)
  {
  }

  lemma AfterOneReset(a: Profiles, p: nat, done: set<nat>)
    requires p in a && p in done && Good(a[p])
    ensures AfterResets(a, a[p := Cleared(a[p])], done) && Restored(a[p := Cleared(a[p])], p)
  {
    ClearedGood(a[p]);
  }

  lemma ResetAgain(a: Profiles, b: Profiles, done: set<nat>, c: nat, p: nat)
    requires AfterResets(a, b, done) && c in b && c in done && Good(b[c]) && p in b && Restored(b, p)
    ensures AfterResets(a, b[c := Cleared(b[c])], done) && Restored(b[c := Cleared(b[c])], p)
  {
    hide Cleared, Evolves, Good;
    ClearedFields(b[c]);
    var d := b[c := Cleared(b[c])];
    forall q ensures TerminationsAwaited(b, q) ==> TerminationsAwaited(d, q) {}
  }

  lemma ClearedFields(x: Profile)
    requires Good(x)
    ensures IsReset(Cleared(x)) && SameConfiguration(x, Cleared(x)) && Cleared(x).em.waited == Elements(x.em.retained)
  {
    ClearedGood(x);
  }

  lemma ResetKeys(a: Profiles, b: Profiles, done: set<nat>, p: nat)
    requires AfterResets(a, b, done) && p in a
    ensures a.Keys == b.Keys && SameConfiguration(a[p], b[p])
  {
  }

  lemma ClearKeepsAllowed(ps: Profiles, c: nat, exempt: set<nat>, cs: set<nat>)
    requires c in ps && Good(ps[c])
    requires forall d :: d in cs ==> d in ps && ResetAllowed(ps, d, exempt)
    ensures forall d :: d in cs ==> d in ps[c := Cleared(ps[c])] && ResetAllowed(ps[c := Cleared(ps[c])], d, exempt)
  {
    ClearedGood(ps[c]);
    var qs := ps[c := Cleared(ps[c])];
    forall d | d in cs ensures ResetAllowed(qs, d, exempt) {
      assert ResetAllowed(ps, d, exempt);
      assert Waiters(qs, d) == Waiters(ps, d);
    }
  }

  lemma ResetsEvolve(a: Profiles, b: Profiles, c: Profiles, done: set<nat>, p: nat)
    requires AfterResets(a, b, done) && AllEvolve(b, c, {}, {}) && p in b && Restored(b, p)
    ensures AfterResets(a, c, done) && Restored(c, p)
  {
    hide ResetOrEvolved, Evolves, TerminationsAwaited;
    forall q | q in b ensures TerminationsAwaited(b, q) ==> TerminationsAwaited(c, q) {
      AwaitedStays(b, c, q);
    }
    forall q | q in a ensures ResetOrEvolved(a[q], c[q], q in done) {
      ResetThenEvolved(a[q], b[q], c[q], q in done);
    }
    StillReset(b, c, p);
  }

  lemma StillReset(a: Profiles, b: Profiles, q: nat)
    requires AllEvolve(a, b, {}, {}) && q in a && IsReset(a[q])
    ensures q in b && IsReset(b[q])
  {
    assert Evolves(a[q], b[q], {}, {});
  }

  lemma AwaitedStays(a: Profiles, b: Profiles, q: nat)
    requires AllEvolve(a, b, {}, {}) && q in a
    ensures TerminationsAwaited(a, q) ==> TerminationsAwaited(b, q)
  {
    assert Evolves(a[q], b[q], {}, {});
  }

  lemma ResetThenEvolved(x: Profile, y: Profile, z: Profile, mayReset: bool)
    requires ResetOrEvolved(x, y, mayReset) && Evolves(y, z, {}, {})
    ensures ResetOrEvolved(x, z, mayReset)
  {
  }

  lemma ResetTwice(x: Profile, y: Profile, z: Profile, first: bool, second: bool)
    requires ResetOrEvolved(x, y, first) && ResetOrEvolved(y, z, second) && (second ==> first)
    ensures ResetOrEvolved(x, z, first)
  {
  }

  lemma ResetsTransitive(a: Profiles, b: Profiles, c: Profiles, more: set<nat>, done: set<nat>)
    requires AfterResets(a, b, done) && AfterResets(b, c, more) && more <= done
    ensures AfterResets(a, c, done)
  {
    hide TerminationsAwaited, ResetOrEvolved;
    forall q | q in a ensures ResetOrEvolved(a[q], c[q], q in done) {
      ResetTwice(a[q], b[q], c[q], q in done, q in more);
    }
  }

  /** The nodes of a stream from position i on. */
  function Rest(stream: seq<(nat, bool)>, i: nat): set<nat> {
    set k | i <= k < |stream| :: stream[k].0
  }

  /** Part of the way through the reset of a stream, the next node, and the checkers of
      the next node, may be reset. */
  lemma StreamAllows(ps: Profiles, subs: Subscribers, nt: map<nat, nat>, stream: seq<(nat, bool)>, i: nat)
    requires ProfileModel.Valid(ps, subs, nt, {}, {}, Rest(stream, i))
    requires IsStream(ps, stream) && i < |stream|
    requires forall k :: 0 <= k < i ==> Restored(ps, stream[k].0)
    ensures var p, exempt := stream[i].0, Rest(stream, i) + {stream[i].0};
            && p in ps && ResetAllowed(ps, p, exempt)
            && ({p} + ps[p].checkers) <= SetOf(Nodes(stream))
            && forall c :: c in ps[p].checkers ==> c in ps && ResetAllowed(ps, c, exempt)
  {
    hide Good, Chained, Counters, Subscribed, FromConfiguration, SentOnce;
    var p, exempt := stream[i].0, Rest(stream, i) + {stream[i].0};
    assert InStream(stream, p);
    NodeAllowed(ps, stream, i, exempt, p);
    forall c | c in ps[p].checkers ensures c in ps && ResetAllowed(ps, c, exempt) && c in Nodes(stream) {
      assert c in Waiters(ps, p);
      assert InStream(stream, c);
      NodeAllowed(ps, stream, i, exempt, c);
    }
  }

  lemma RestMembers(stream: seq<(nat, bool)>, i: nat)
    ensures forall k :: i <= k < |stream| ==> stream[k].0 in Rest(stream, i)
  {
  }

  lemma NodeAllowed(ps: Profiles, stream: seq<(nat, bool)>, i: nat, exempt: set<nat>, v: nat)
    requires IsStream(ps, stream) && i < |stream| && InStream(stream, v) && Rest(stream, i) <= exempt
    requires forall k :: 0 <= k < i ==> Restored(ps, stream[k].0)
    ensures ResetAllowed(ps, v, exempt) && v in Nodes(stream)
  {
    var j :| 0 <= j < |stream| && stream[j].0 == v;
    assert Nodes(stream)[j] == v;
    RestMembers(stream, i);
    forall q | q in Waiters(ps, v) && q !in exempt ensures Event(TERMINATION, v) in ps[q].em.waited {
      assert InStream(stream, q);
      var k :| 0 <= k < |stream| && stream[k].0 == q;
      assert Restored(ps, stream[k].0);
    }
  }

  lemma AllGood(ps: Profiles, subs: Subscribers, nt: map<nat, nat>)
    requires ProfileModel.Valid(ps, subs, nt, {}, {}, {})
    ensures forall p :: p in ps ==> Good(ps[p])
    ensures Chained(ps, {}, {})
  {
  }

  lemma ResetsKeepStream(a: Profiles, b: Profiles, done: set<nat>, stream: seq<(nat, bool)>, i: nat)
    requires AfterResets(a, b, done) && IsStream(a, stream) && i < |stream|
    requires forall k :: 0 <= k < i ==> Restored(a, stream[k].0)
    ensures IsStream(b, stream)
    ensures forall k :: 0 <= k < i ==> Restored(b, stream[k].0)
  {
    forall k | 0 <= k < i ensures Restored(b, stream[k].0) {
      assert Restored(a, stream[k].0);
    }
    forall q ensures Waiters(a, q) == Waiters(b, q) {
      forall p | p in a ensures b[p].em.retained == a[p].em.retained {
        assert SameConfiguration(a[p], b[p]);
      }
    }
  }

  lemma ResetsStay(a: Profiles, b: Profiles, done: set<nat>, now: nat)
    requires AfterResets(a, b, done)
    requires forall p :: p in a ==> StaysAtEnd(a[p], now) && Good(a[p])
    ensures forall p :: p in b ==> StaysAtEnd(b[p], now)
  {
  }

  // ------------------------------------------------------------ lemmas on creation

  function Blank(role: Role, master: nat, toSend: nat, toStop: nat, maxOt: nat, acknowledged: bool, delay: nat,
                 retained: seq<Event>): Profile
  {
    Profile(role, master, toSend, toStop, maxOt, acknowledged, delay, {}, [], Waits({}, NoCounts(), NothingSent(), retained),
            false, 0, false, 0, 0, false, 0, 0)
  }

  lemma BlankGood(x: Profile)
    requires NoDuplicates(x.em.retained) && OneOfEach(Elements(x.em.retained))
    requires x == Blank(x.role, x.master, x.toSend, x.toStop, x.maxOt, x.acknowledged, x.delay, x.em.retained)
    ensures Good(x)
  {
    ResetCounted(Waits({}, NoCounts(), NothingSent(), []));
    CountedButRetained(Waits({}, NoCounts(), NothingSent(), []), x.em);
  }

  lemma AddStep(ps: Profiles, subs: Subscribers, nt: map<nat, nat>, id: nat, x: Profile, now: nat)
    requires ProfileModel.Valid(ps, subs, nt, {}, {}, {}) && id !in ps
    requires NoDuplicates(x.em.retained) && OneOfEach(Elements(x.em.retained))
    requires x == Blank(x.role, x.master, x.toSend, x.toStop, x.maxOt, x.acknowledged, x.delay, x.em.retained)
    ensures var more := if x.role == SLAVE then nt else nt[x.master := Count(nt, x.master) + 1];
            ProfileModel.Valid(ps[id := x], subs, more, {}, {}, {id})
    ensures ResetAllowed(ps[id := x], id, {id})
  {
    BlankGood(x);
    AddCounters(ps, nt, id, x);
    AddWaits(ps, subs, id, x);
    hide Good, Counters, Chained, Subscribed, FromConfiguration, SentOnce, CheckersWait;
    var qs := ps[id := x];
    assert forall q :: q in qs ==> Good(qs[q]);
  }

  lemma AddWaits(ps: Profiles, subs: Subscribers, id: nat, x: Profile)
    requires id !in ps && x.em.waited == {} && x.em.sent == NothingSent() && x.checkers == {}
    requires Subscribed(ps, subs, {}) && FromConfiguration(ps, subs) && SentOnce(ps, {}) && Chained(ps, {}, {})
    requires CheckersWait(ps)
    ensures var qs := ps[id := x];
            && Subscribed(qs, subs, {}) && FromConfiguration(qs, subs) && SentOnce(qs, {}) && Chained(qs, {}, {id})
            && CheckersWait(qs) && ResetAllowed(qs, id, {id})
  {
    var qs := ps[id := x];
    forall q | q in Waiters(qs, id) && q != id ensures Event(TERMINATION, id) in qs[q].em.waited {
      assert Event(TERMINATION, id) in Elements(ps[q].em.retained);
    }
  }

  lemma AddCounters(ps: Profiles, nt: map<nat, nat>, id: nat, x: Profile)
    requires Counters(ps, nt, {}) && id !in ps && !x.terminated
    ensures Counters(ps[id := x], if x.role == SLAVE then nt else nt[x.master := Count(nt, x.master) + 1], {})
  {
    var more := if x.role == SLAVE then nt else nt[x.master := Count(nt, x.master) + 1];
    forall k ensures Count(more, k) == |Live(ps[id := x], k, {})| {
      assert Count(nt, k) == |Live(ps, k, {})|;
      assert id !in Live(ps, k, {});
      if x.role != SLAVE && x.master == k {
        assert Live(ps[id := x], k, {}) == Live(ps, k, {}) + {id};
      } else {
        assert Live(ps[id := x], k, {}) == Live(ps, k, {});
      }
    }
  }

  /** The profile with one more checker, which is asked after those it has. */
  function Checked(x: Profile, c: nat): Profile {
    x.(checkers := x.checkers + {c}, asked := if c in x.asked then x.asked else x.asked + [c])
  }

  lemma RegisterAsked(ps: Profiles, p: nat, c: nat)
    requires p in ps
    ensures AskedInOrder(ps) ==> AskedInOrder(ps[p := Checked(ps[p], c)])
  {
  }

  lemma CreatedAsked(a: Profiles, b: Profiles, id: nat, x: Profile)
    requires AllEvolve(a[id := Cleared(x)], b, {}, {})
    requires x == Blank(x.role, x.master, x.toSend, x.toStop, x.maxOt, x.acknowledged, x.delay, x.em.retained)
    ensures AskedInOrder(a) ==> AskedInOrder(b)
  {
    var c := a[id := Cleared(x)];
    assert Cleared(x).asked == [] && Cleared(x).checkers == {};
    forall p | p in b ensures p in c && b[p].asked == c[p].asked && b[p].checkers == c[p].checkers {
      EvolvesAsked(c, b, p);
    }
    hide Evolves, Cleared, Blank;
  }

  lemma EvolvesAsked(a: Profiles, b: Profiles, p: nat)
    requires AllEvolve(a, b, {}, {}) && p in b
    ensures p in a && b[p].asked == a[p].asked && b[p].checkers == a[p].checkers
  {
    assert Evolves(a[p], b[p], {}, {});
  }

  lemma RegisterStep(ps: Profiles, subs: Subscribers, nt: map<nat, nat>, p: nat, c: nat)
    requires ProfileModel.Valid(ps, subs, nt, {}, {}, {}) && p in ps && c in ps && ps[c].role == CHECKER
    requires Event(TERMINATION, p) in Elements(ps[c].em.retained)
    ensures ProfileModel.Valid(ps[p := Checked(ps[p], c)], subs, nt, {}, {}, {})
  {
    hide Good, Counters, Chained, Subscribed, FromConfiguration, SentOnce, CheckersWait;
    var y := Checked(ps[p], c);
    var qs := ps[p := y];
    assert Good(ps[p]);
    CheckersGood(ps[p], y);
    RegisterCounters(ps, nt, p, y);
    ChainedUpdate(ps, {}, {}, p, y);
    RegisterWaits(ps, subs, p, c, y);
    assert forall q :: q in qs ==> Good(qs[q]);
  }

  lemma CheckersGood(x: Profile, y: Profile)
    requires Good(x) && y == x.(checkers := y.checkers, asked := y.asked)
    ensures Good(y)
  {
  }

  lemma RegisterWaits(ps: Profiles, subs: Subscribers, p: nat, c: nat, y: Profile)
    requires p in ps && c in ps && ps[c].role == CHECKER && y == Checked(ps[p], c)
    requires Event(TERMINATION, p) in Elements(ps[c].em.retained)
    requires Subscribed(ps, subs, {}) && FromConfiguration(ps, subs) && SentOnce(ps, {}) && CheckersWait(ps)
    ensures var qs := ps[p := y];
            Subscribed(qs, subs, {}) && FromConfiguration(qs, subs) && SentOnce(qs, {}) && CheckersWait(qs)
  {
  }

  lemma RegisterCounters(ps: Profiles, nt: map<nat, nat>, p: nat, y: Profile)
    requires Counters(ps, nt, {}) && p in ps
    requires y.role == ps[p].role && y.master == ps[p].master && y.terminated == ps[p].terminated
    ensures Counters(ps[p := y], nt, {})
  {
    forall k ensures Count(nt, k) == |Live(ps[p := y], k, {})| {
      assert Live(ps[p := y], k, {}) == Live(ps, k, {});
    }
  }

  lemma ClearedStarts(x: Profile)
    ensures !Cleared(x).started && Cleared(x).role == x.role && !Cleared(x).terminated
  {
  }

  lemma ClearedRests(x: Profile)
    requires Good(x)
    ensures !Running(Cleared(x))
  {
    ClearedGood(x);
  }

  lemma CreatedStay(start: Profiles, before: Profiles, ps: Profiles, id: nat, now: nat)
    requires before.Keys == start.Keys + {id} && AllEvolve(before, ps, {}, {})
    requires forall p :: p in start && p != id ==> before[p] == start[p]
    requires forall p :: p in start ==> StaysAtEnd(start[p], now)
    requires forall p :: p in before ==> Good(before[p])
    requires !before[id].terminated
    ensures forall p :: p in ps ==> StaysAtEnd(ps[p], now)
  {
    hide Good, AllEvolve;
    forall p | p in before ensures StaysAtEnd(before[p], now) {
      if p != id { assert p in start; }
    }
    EvolveStaysPlain(before, ps, now);
  }

  lemma EvolveStaysPlain(a: Profiles, b: Profiles, now: nat)
    requires AllEvolve(a, b, {}, {})
    requires forall q :: q in a ==> StaysAtEnd(a[q], now) && Good(a[q])
    ensures forall q :: q in b ==> StaysAtEnd(b[q], now)
  {
    hide Good, StaysAtEnd;
    EvolveAny(a);
    assert EvolvesSome(a, b);
    EvolveStays(a, b, now);
  }
}
