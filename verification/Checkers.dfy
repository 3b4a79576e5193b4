/** When a checker terminates.  The manager never polls a checker: it asks it only when a
    packet of a master it checks has passed, sent or answered. */
module CheckerRuns {
  import opened EventModel
  import opened ProfileModel
  import opened StreamModel
  import opened ManagerModel
  import opened StreamRuns

  /** The manager, the checkers still to be told of the packet that passes, in order, and
      the master it belongs to. */
  datatype World = World(s: Managed, toAsk: seq<nat>, source: nat)

  datatype Op =
    | Sent(m: nat)
    | Received(m: nat)
    | Ask(c: nat)
    | Other

  ghost predicate Sane(s: Managed) {
    Sound(s) && Cleaned(s.ps, s.subs) && AskedInOrder(s.ps)
  }

  /** A call on a profile that is not a checker. */
  ghost predicate NoCheckerCalled(a: Profiles, b: Profiles) {
    exists p, x :: Called(a, b, p, x) && p in a && a[p].role != CHECKER
  }

  /** What the calls promise; the checkers of a packet are asked before anything else. */
  ghost predicate Goes(w: World, op: Op, v: World) {
    var a, b := w.s, v.s;
    && a.now <= b.now
    && match op
       case Sent(m) =>
         && w.toAsk == [] && m in a.ps && a.ps[m].role == MASTER && ActiveMaster(a.ps[m], a.now)
         && Called(a.ps, b.ps, m, Progressed(a.ps[m], true))
         && b.ps[m].terminated == (a.ps[m].terminated || Finishes(a.ps[m], a.now))
         && v.toAsk == a.ps[m].asked && v.source == m
       case Received(m) =>
         && w.toAsk == [] && m in a.ps && a.ps[m].role == MASTER && a.ps[m].ot > 0
         && Called(a.ps, b.ps, m, a.ps[m].(ot := a.ps[m].ot - 1))
         && v.toAsk == a.ps[m].asked && v.source == m
       case Ask(c) =>
         && w.toAsk != [] && c == w.toAsk[0] && c in a.ps && a.ps[c].role == CHECKER
         && Called(a.ps, b.ps, c, a.ps[c])
         && b.ps[c].terminated == (a.ps[c].terminated || a.ps[c].em.waited == {})
         && v.toAsk == w.toAsk[1..] && v.source == w.source
       case Other =>
         && w.toAsk == [] && v.toAsk == []
         && (NoCheckerCalled(a.ps, b.ps) || SomeBroadcast(a.ps, b.ps))
  }

  /** No reset, so that no subscription to what has terminated is left. */
  ghost predicate Step(w: World, op: Op, v: World) {
    Goes(w, op, v) && Sane(v.s)
  }

  ghost predicate Run(ops: seq<Op>, ws: seq<World>) {
    && |ws| == |ops| + 1 && Sane(ws[0].s) && ws[0].toAsk == []
    && forall i :: 0 <= i < |ops| ==> Step(ws[i], ops[i], ws[i+1])
  }

  /** c is a checker that waits for TERMINATIONs only. */
  ghost predicate IsChecker(s: Managed, c: nat) {
    && c in s.ps && s.ps[c].role == CHECKER
    && forall e :: e in s.ps[c].em.waited ==> e.kind == TERMINATION
  }

  /** All that c is configured to wait for has terminated. */
  predicate AllEnded(s: Managed, c: nat)
    requires c in s.ps
  {
    AwaitedEnds(s.ps, s.ps[c])
  }

  /** A checker waits for nothing exactly when all it watches has terminated. */
  lemma WaitsForNothingIff(s: Managed, c: nat)
    requires Sane(s) && IsChecker(s, c)
    ensures s.ps[c].em.waited == {} <==> AllEnded(s, c)
  {
    assert Good(s.ps[c]);
    hide Good;
    forall e | e in s.ps[c].em.waited
      ensures e in Elements(s.ps[c].em.retained) && e.kind == TERMINATION && (e.id in s.ps ==> !s.ps[e.id].terminated)
    {
      StillWaited(s, c, e);
    }
  }

  /** What is needed of a state to follow the waits of one profile. */
  lemma StateFacts(s: Managed, c: nat)
    requires Sane(s) && c in s.ps
    ensures Subscribed(s.ps, s.subs, {}) && Cleaned(s.ps, s.subs)
    ensures forall e :: e in s.ps[c].em.waited && e.kind == TERMINATION ==> e in Elements(s.ps[c].em.retained)
  {
    hide Subscribed, FromConfiguration, Chained, Counters, SentOnce, CheckersWait, Cleaned, AskedInOrder;
    assert Good(s.ps[c]);
  }

  lemma StillSubscribed(ps: Profiles, subs: Subscribers, c: nat, e: Event)
    requires Subscribed(ps, subs, {}) && Cleaned(ps, subs)
    requires c in ps && e in ps[c].em.waited && e.kind == TERMINATION
    ensures e.id in ps ==> !ps[e.id].terminated
  {
    assert e in subs && c in subs[e];
  }

  lemma StillWaited(s: Managed, c: nat, e: Event)
    requires Sane(s) && IsChecker(s, c) && e in s.ps[c].em.waited
    ensures e in Elements(s.ps[c].em.retained) && e.kind == TERMINATION && (e.id in s.ps ==> !s.ps[e.id].terminated)
  {
    hide Sane, Subscribed, Cleaned;
    StateFacts(s, c);
    StillSubscribed(s.ps, s.subs, c, e);
  }

  /** What a step does to a checker. */
  ghost predicate CheckerStep(a: Managed, b: Managed, c: nat)
    requires c in a.ps
  {
    && c in b.ps && SameConfiguration(a.ps[c], b.ps[c]) && b.ps[c].em.waited <= a.ps[c].em.waited
    && (AllEnded(a, c) ==> AllEnded(b, c))
    && (a.ps[c].terminated ==> b.ps[c].terminated)
  }

  lemma CallKeeps(a: Profiles, b: Profiles, p: nat, x: Profile, q: nat)
    requires Called(a, b, p, x) && q in a
    ensures q in b && SameConfiguration(a[q], b[q]) && (a[q].terminated ==> b[q].terminated)
    ensures q != p ==> b[q].terminated == a[q].terminated
    ensures a[q].role != MASTER && (q == p ==> x.em == a[q].em) ==> b[q].em.waited <= a[q].em.waited
  {
    hide NoProfileWaits;
    var c := a[p := x];
    assert q in c;
  }

  lemma CallSteps(a: Managed, b: Managed, p: nat, x: Profile, c: nat)
    requires IsChecker(a, c) && Called(a.ps, b.ps, p, x) && (p == c ==> x.em == a.ps[c].em)
    ensures CheckerStep(a, b, c) && (c != p ==> b.ps[c].terminated == a.ps[c].terminated)
  {
    hide Called, SameConfiguration;
    CallKeeps(a.ps, b.ps, p, x, c);
    SameRetained(a.ps[c], b.ps[c]);
    forall e | AllEnded(a, c) && e in Elements(b.ps[c].em.retained) && e.kind == TERMINATION
      ensures e.id in b.ps && b.ps[e.id].terminated
    {
      CallKeeps(a.ps, b.ps, p, x, e.id);
    }
  }

  lemma SameRetained(x: Profile, y: Profile)
    requires SameConfiguration(x, y)
    ensures x.em.retained == y.em.retained && x.checkers == y.checkers && x.role == y.role
  {
  }

  lemma BroadcastSteps(a: Managed, b: Managed, c: nat)
    requires IsChecker(a, c) && SomeBroadcast(a.ps, b.ps)
    ensures CheckerStep(a, b, c) && b.ps[c].terminated == a.ps[c].terminated
  {
    var grow, ended :| AllEvolve(a.ps, b.ps, grow, ended);
    assert forall q :: q in a.ps ==> Evolves(a.ps[q], b.ps[q], grow, ended);
    hide NoProfileWaits, Activated;
  }

  // --------------------------------------------------------------------- single steps

  /** The packet that passes is one that its master has just sent, not the last of it. */
  ghost predicate SourceLives(w: World) {
    && w.source in w.s.ps && w.s.ps[w.source].role == MASTER && !w.s.ps[w.source].terminated
    && forall c :: c in w.toAsk ==> c in w.s.ps[w.source].checkers
  }

  /** The packet that passes is a response. */
  predicate OfResponse(ops: seq<Op>, k: nat)
    requires k <= |ops|
  {
    k > 0 && match ops[k-1]
      case Received(_) => true
      case Ask(_) => OfResponse(ops, k - 1)
      case _ => false
  }

  lemma SendNotLast(x: Profile, y: Profile, now: nat)
    requires ActiveMaster(x, now) && StaysAtEnd(x, now) && x.role == MASTER
    requires y.terminated == (x.terminated || Finishes(x, now))
    ensures !y.terminated
  {
  }

  /** While a sent packet passes, no checker of its master terminates. */
  lemma SentHolds(w: World, op: Op, v: World)
    requires Step(w, op, v) && Sane(w.s) && (op.Sent? || (op.Ask? && SourceLives(w)))
    ensures SourceLives(v)
    ensures op.Ask? && !w.s.ps[op.c].terminated ==> !v.s.ps[op.c].terminated
  {
    hide Called, ActiveMaster, Finishes, Progressed, ProfileModel.Valid, StaysAtEnd;
    var a, b := w.s, v.s;
    match op
    case Sent(m) =>
      CallKeeps(a.ps, b.ps, m, Progressed(a.ps[m], true), m);
      SendNotLast(a.ps[m], b.ps[m], a.now);
    case Ask(c) =>
      CallKeeps(a.ps, b.ps, c, a.ps[c], w.source);
      WatchedWaits(a, w.source, c);
  }

  /** A checker still waits for a master that it checks and that has not terminated. */
  lemma WatchedWaits(s: Managed, m: nat, c: nat)
    requires Sane(s) && m in s.ps && c in s.ps && c in s.ps[m].checkers && !s.ps[m].terminated
    ensures Event(TERMINATION, m) in s.ps[c].em.waited && !AllEnded(s, c)
  {
    hide Good;
    assert Event(TERMINATION, m) in Elements(s.ps[c].em.retained);
  }

  lemma StepOnChecker(w: World, op: Op, v: World, c: nat)
    requires Step(w, op, v) && Sane(w.s) && IsChecker(w.s, c)
    ensures IsChecker(v.s, c) && CheckerStep(w.s, v.s, c)
    ensures op != Ask(c) ==> v.s.ps[c].terminated == w.s.ps[c].terminated
    ensures op == Ask(c) ==> v.s.ps[c].terminated == (w.s.ps[c].terminated || AllEnded(w.s, c))
    ensures c in v.toAsk ==> c in w.toAsk || op.Sent? || op.Received?
  {
    hide Called, ActiveMaster, Finishes, Progressed, ProfileModel.Valid, StaysAtEnd, AllEnded, CheckerStep, SomeBroadcast;
    var a, b := w.s, v.s;
    match op {
      case Sent(m) =>
          CallSteps(a, b, m, Progressed(a.ps[m], true), c);
      case Received(m) =>
        CallSteps(a, b, m, a.ps[m].(ot := a.ps[m].ot - 1), c);
      case Ask(d) =>
        CallSteps(a, b, d, a.ps[d], c);
        if c == d { WaitsForNothingIff(a, c); }
      case Other =>
        if NoCheckerCalled(a.ps, b.ps) {
          var p, x :| Called(a.ps, b.ps, p, x) && p in a.ps && a.ps[p].role != CHECKER;
          CallSteps(a, b, p, x, c);
        } else {
          BroadcastSteps(a, b, c);
        }
    }
    StillChecker(a, b, c);
  }

  lemma StillChecker(a: Managed, b: Managed, c: nat)
    requires IsChecker(a, c) && CheckerStep(a, b, c)
    ensures IsChecker(b, c)
  {
  }

  // ------------------------------------------------------------------------ whole runs

  lemma {:induction false} RunSane(ops: seq<Op>, ws: seq<World>, c: nat, k: nat)
    requires Run(ops, ws) && IsChecker(ws[0].s, c) && k < |ws|
    ensures Sane(ws[k].s) && IsChecker(ws[k].s, c)
  {
    hide Sane, IsChecker, CheckerStep, Step;
    if k > 0 {
      RunSane(ops, ws, c, k - 1);
      assert Step(ws[k-1], ops[k-1], ws[k-1+1]);
      StepOnChecker(ws[k-1], ops[k-1], ws[k], c);
      StepSane(ws[k-1], ops[k-1], ws[k]);
    }
  }

  lemma StepSane(w: World, op: Op, v: World)
    requires Step(w, op, v)
    ensures Sane(v.s)
    ensures v.toAsk == match op
              case Ask(c) => if w.toAsk == [] then [] else w.toAsk[1..]
              case Other => []
              case _ => if op.m in w.s.ps then w.s.ps[op.m].asked else []
    ensures if op.Ask? then w.toAsk != [] && op.c == w.toAsk[0] else w.toAsk == []
  {
    hide Called, ActiveMaster, Finishes, Progressed, Sane, NoCheckerCalled, SomeBroadcast;
  }

  /** A packet of a master passes only while the master lives; so whoever is about to be
      asked for it still waits, or has just been released. */
  lemma NewToAsk(w: World, op: Op, v: World, c: nat)
    requires Step(w, op, v) && Sane(w.s) && IsChecker(w.s, c)
    requires (op.Sent? || op.Received?) && c in v.toAsk
    ensures !AllEnded(w.s, c)
  {
    hide Called, Progressed, IsChecker, AllEnded;
    ActiveLives(w.s, op.m);
    WatchedWaits(w.s, op.m, c);
  }

  lemma ActiveLives(s: Managed, m: nat)
    requires Sane(s) && m in s.ps && s.ps[m].role == MASTER
    ensures ActiveMaster(s.ps[m], s.now) || s.ps[m].ot > 0 ==> !s.ps[m].terminated
  {
    assert Good(s.ps[m]);
  }

  /** The step with which the last profile that c waits for ends, c being still to be
      asked about the packet that passes. */
  ghost predicate EndsInPassing(w: World, v: World, c: nat) {
    && c in w.s.ps && c in v.s.ps
    && !AllEnded(w.s, c) && AllEnded(v.s, c) && c in v.toAsk
  }

  ghost predicate EndedInPassing(ws: seq<World>, c: nat, k: nat)
    requires k < |ws|
  {
    exists i :: 0 <= i < k && EndsInPassing(ws[i], ws[i+1], c)
  }

  /** The accounts of a checker: terminated, or about to be, if and only if its last
      profile ended in passing. */
  ghost predicate Account(ws: seq<World>, c: nat, k: nat)
    requires k < |ws| && c in ws[k].s.ps
  {
    var w := ws[k];
    && (EndedInPassing(ws, c, k) ==> AllEnded(w.s, c))
    && (w.s.ps[c].terminated ==> EndedInPassing(ws, c, k))
    && (EndedInPassing(ws, c, k) && !w.s.ps[c].terminated ==> c in w.toAsk)
    && (AllEnded(w.s, c) && !EndedInPassing(ws, c, k) ==> c !in w.toAsk)
  }

  lemma PassingGrows(ws: seq<World>, c: nat, k: nat)
    requires k + 1 < |ws|
    ensures EndedInPassing(ws, c, k + 1) <==> EndedInPassing(ws, c, k) || EndsInPassing(ws[k], ws[k+1], c)
  {
    hide EndsInPassing;
  }

  lemma {:induction false} AccountKept(ops: seq<Op>, ws: seq<World>, c: nat, k: nat)
    requires Run(ops, ws) && IsChecker(ws[0].s, c) && k < |ws|
    requires !ws[0].s.ps[c].terminated && !AllEnded(ws[0].s, c)
    ensures c in ws[k].s.ps && Account(ws, c, k)
  {
    hide Sane, Step, AllEnded, EndedInPassing;
    RunSane(ops, ws, c, k);
    if k == 0 {
      assert !EndedInPassing(ws, c, 0) by { NothingPassed(ws, c); }
    } else {
      AccountKept(ops, ws, c, k - 1);
      RunSane(ops, ws, c, k - 1);
      assert Step(ws[k-1], ops[k-1], ws[k-1+1]);
      PassingGrows(ws, c, k - 1);
      AccountStep(ws[k-1], ops[k-1], ws[k], c, EndedInPassing(ws, c, k - 1));
    }
  }

  lemma NothingPassed(ws: seq<World>, c: nat)
    requires ws != []
    ensures !EndedInPassing(ws, c, 0)
  {
  }

  lemma AccountStep(w: World, op: Op, v: World, c: nat, before: bool)
    requires Step(w, op, v) && Sane(w.s) && IsChecker(w.s, c)
    requires before ==> AllEnded(w.s, c)
    requires w.s.ps[c].terminated ==> before
    requires before && !w.s.ps[c].terminated ==> c in w.toAsk
    requires AllEnded(w.s, c) && !before ==> c !in w.toAsk
    ensures c in v.s.ps
    ensures var after := before || EndsInPassing(w, v, c);
            && (after ==> AllEnded(v.s, c))
            && (v.s.ps[c].terminated ==> after)
            && (after && !v.s.ps[c].terminated ==> c in v.toAsk)
            && (AllEnded(v.s, c) && !after ==> c !in v.toAsk)
  {
    hide Sane, Step, AllEnded;
    StepOnChecker(w, op, v, c);
    StepSane(w, op, v);
    if (op.Sent? || op.Received?) && c in v.toAsk {
      NewToAsk(w, op, v, c);
    }
  }

  /** Once all packets have passed: a checker has terminated if and only if the last of
      the profiles it waits for ended while it was still to be asked about a packet. */
  lemma CheckerEndsIff(ops: seq<Op>, ws: seq<World>, c: nat, k: nat)
    requires Run(ops, ws) && IsChecker(ws[0].s, c) && k < |ws| && c !in ws[k].toAsk
    requires !ws[0].s.ps[c].terminated && !AllEnded(ws[0].s, c)
    ensures c in ws[k].s.ps && (ws[k].s.ps[c].terminated <==> EndedInPassing(ws, c, k))
  {
    AccountKept(ops, ws, c, k);
  }

  lemma {:induction false} ResponseOrLive(ops: seq<Op>, ws: seq<World>, c: nat, k: nat)
    requires Run(ops, ws) && IsChecker(ws[0].s, c) && k < |ws| && ws[k].toAsk != []
    ensures OfResponse(ops, k) || SourceLives(ws[k])
  {
    hide Sane, Step, IsChecker, SourceLives;
    if k > 0 {
      RunSane(ops, ws, c, k - 1);
      assert Step(ws[k-1], ops[k-1], ws[k-1+1]);
      StepSane(ws[k-1], ops[k-1], ws[k]);
      if ops[k-1].Ask? {
        AskedHadToAsk(ws[k-1], ops[k-1], ws[k]);
        ResponseOrLive(ops, ws, c, k - 1);
      }
      if ops[k-1].Sent? || (ops[k-1].Ask? && SourceLives(ws[k-1])) {
        SentHolds(ws[k-1], ops[k-1], ws[k]);
      }
    }
  }

  lemma AskedHadToAsk(w: World, op: Op, v: World)
    requires Step(w, op, v) && op.Ask?
    ensures w.toAsk != []
  {
  }

  /** That packet is a response.  So a checker whose last profile terminates when it is
      polled, or by anything but a response, is never asked again. */
  lemma EndsWithResponse(ops: seq<Op>, ws: seq<World>, c: nat, i: nat)
    requires Run(ops, ws) && IsChecker(ws[0].s, c) && i < |ops| && EndsInPassing(ws[i], ws[i+1], c)
    ensures OfResponse(ops, i + 1)
  {
    hide Sane, Step, AllEnded;
    ResponseOrLive(ops, ws, c, i + 1);
    RunSane(ops, ws, c, i + 1);
    if SourceLives(ws[i+1]) {
      WatchedWaits(ws[i+1].s, ws[i+1].source, c);
    }
  }

  // -------------------------------------------------------------- the leaf test in runs

  function StageOf(w: World): Stage { Stage(At(w.s), w.source, w.toAsk) }

  /** A profile released from all others may end, if it ends at its end. */
  lemma ReleasedMayEnd(a: Managed, b: Managed, p: nat)
    requires Sound(a) && Sound(b) && p in a.ps && p in b.ps && b.ps[p].terminated && !a.ps[p].terminated
    requires EndsReleased(a.ps, b.ps, p) && SameConfiguration(a.ps[p], b.ps[p])
    ensures MayEnd(a.ps, p)
  {
    hide Good;
    forall e | e in Elements(a.ps[p].em.retained) && e.kind == TERMINATION
      ensures e.id in a.ps && a.ps[e.id].terminated
    {
      assert e !in a.ps[p].em.waited;
    }
  }


  lemma CallMoves(w: World, v: World, p: nat, x: Profile)
    requires Sound(w.s) && Sound(v.s) && w.toAsk == [] && w.s.now <= v.s.now
    requires Called(w.s.ps, v.s.ps, p, x) && w.s.ps[p].role != CHECKER
    requires v.toAsk != [] ==>
               v.source == p && Passes(w.s.ps[p], v.toAsk, Terminated(v.s.ps, p))
    ensures StreamRuns.Step(StageOf(w), StageOf(v))
  {
    hide ProfileModel.Valid, Called, SameConfiguration, EndsReleased, MayEnd, Holds, Passes;
    CalledFacts(w.s.ps, v.s.ps, p, x);
    SoundHolds(v.s);
    if Terminated(v.s.ps, p) && !Terminated(w.s.ps, p) {
      ReleasedMayEnd(w.s, v.s, p);
    }
    assert Moves(StageOf(w), StageOf(v), p);
  }

  lemma CalledFacts(a: Profiles, b: Profiles, p: nat, x: Profile)
    requires Called(a, b, p, x)
    ensures SameConfigurations(a, b) && p in a && EndsReleased(a, b, p)
    ensures (forall q :: q in a && q != p ==> b[q].terminated == a[q].terminated) && (a[p].terminated ==> b[p].terminated)
  {
    forall q | q in a
      ensures q in b && SameConfiguration(a[q], b[q]) && (a[q].terminated ==> b[q].terminated)
      ensures q != p ==> b[q].terminated == a[q].terminated
    {
      CallKeeps(a, b, p, x, q);
    }
    assert b.Keys == a[p := x].Keys;
  }

  lemma AskMoves(w: World, v: World, c: nat)
    requires Goes(w, Ask(c), v) && Sound(w.s) && Sound(v.s)
    ensures StreamRuns.Step(StageOf(w), StageOf(v))
  {
    hide ProfileModel.Valid, Called, SameConfiguration, EndsReleased, Holds;
    CalledFacts(w.s.ps, v.s.ps, c, w.s.ps[c]);
    SoundHolds(v.s);
    assert Asks(StageOf(w), StageOf(v));
  }

  /** A step in which nobody terminates. */
  lemma LapseMoves(w: World, v: World)
    requires w.toAsk == [] && v.toAsk == [] && w.s.now <= v.s.now && Sound(v.s)
    requires SomeBroadcast(w.s.ps, v.s.ps) || SomeReset(w.s.ps, v.s.ps)
    ensures StreamRuns.Step(StageOf(w), StageOf(v))
  {
    hide ProfileModel.Valid, SomeBroadcast, SomeReset, SameConfiguration, Holds;
    SoundHolds(v.s);
    if SomeBroadcast(w.s.ps, v.s.ps) {
      BroadcastsKeepConfiguration(w.s.ps, v.s.ps);
    } else {
      ResetsKeepConfiguration(w.s.ps, v.s.ps);
    }
    assert Lapses(StageOf(w), StageOf(v));
  }

  /** A response is outstanding only at a master whose requests expect one. */
  lemma Outstanding(s: Managed, m: nat)
    requires Sound(s) && m in s.ps && s.ps[m].role == MASTER && s.ps[m].ot > 0
    ensures s.ps[m].acknowledged && !s.ps[m].terminated
  {
    assert Good(s.ps[m]);
  }

  /** The calls as the manager makes them are steps of the streams' runs. */
  lemma CallsAreSteps(w: World, op: Op, v: World)
    requires Goes(w, op, v) && Sound(w.s) && Sound(v.s)
    ensures StreamRuns.Step(StageOf(w), StageOf(v))
  {
    hide Called, Sound, Progressed, SomeBroadcast, StreamRuns.Step, ActiveMaster, Finishes, StaysAtEnd;
    match op
    case Sent(m) =>
      SentLives(w, v, m);
      CallMoves(w, v, m, Progressed(w.s.ps[m], true));
    case Received(m) =>
      Outstanding(w.s, m);
      CallMoves(w, v, m, w.s.ps[m].(ot := w.s.ps[m].ot - 1));
    case Ask(c) =>
      AskMoves(w, v, c);
    case Other =>
      if NoCheckerCalled(w.s.ps, v.s.ps) {
        var p, x :| Called(w.s.ps, v.s.ps, p, x) && p in w.s.ps && w.s.ps[p].role != CHECKER;
        CallMoves(w, v, p, x);
      } else {
        LapseMoves(w, v);
      }
  }

  lemma SentLives(w: World, v: World, m: nat)
    requires Goes(w, Sent(m), v) && Sound(w.s)
    ensures !w.s.ps[m].terminated && !Terminated(v.s.ps, m)
  {
    hide Called, Progressed, ProfileModel.Valid;
    CalledFacts(w.s.ps, v.s.ps, m, Progressed(w.s.ps[m], true));
    SendNotLast(w.s.ps[m], v.s.ps[m], w.s.now);
  }

  /** A completed call, or a reset. */
  ghost predicate AnyStep(w: World, v: World) {
    && Sound(v.s)
    && ((exists op :: Goes(w, op, v))
        || (w.toAsk == [] && v.toAsk == [] && w.s.now <= v.s.now && SomeReset(w.s.ps, v.s.ps)))
  }

  ghost predicate AnyRun(ws: seq<World>) {
    && ws != [] && Sound(ws[0].s) && ws[0].toAsk == []
    && forall i :: 0 <= i < |ws| - 1 ==> AnyStep(ws[i], ws[i+1])
  }

  lemma AnyStepIsStep(w: World, v: World)
    requires AnyStep(w, v) && Sound(w.s)
    ensures StreamRuns.Step(StageOf(w), StageOf(v))
  {
    hide Goes, Sound, SomeReset, StreamRuns.Step;
    if op :| Goes(w, op, v) {
      CallsAreSteps(w, op, v);
    } else {
      LapseMoves(w, v);
    }
  }

  /** From a start in which nothing has terminated, the leaf test is right after any calls,
      broadcasts and resets, if every profile leads to a leaf or what leads to leaves can
      not all end. */
  lemma AnswersFromStart(ws: seq<World>, stream: seq<(nat, bool)>, k: nat)
    requires AnyRun(ws) && k < |ws| && IsStream(ws[0].s.ps, stream) && AskedInOrder(ws[0].s.ps)
    requires forall p :: !Terminated(ws[0].s.ps, p)
    requires AllLead(ws[0].s.ps, stream) || !CanAllEnd(ws[0].s.ps, Leading(ws[0].s.ps, stream))
    ensures LeavesTerminated(ws[k].s.ps, stream) ==> AllTerminated(ws[k].s.ps, stream)
  {
    hide IsStream, AllLead, CanAllEnd, Leading, SameConfiguration, Holds, AnyStep, StreamRuns.Step, AskedInOrder;
    var ss := seq(k + 1, i requires 0 <= i <= k => StageOf(ws[i]));
    SoundHolds(ws[0].s);
    SoundChecked(ws[0].s);
    forall i | 0 <= i < |ss| - 1 ensures StreamRuns.Step(ss[i], ss[i+1]) {
      assert AnyStep(ws[i], ws[i+1]);
      AnyStepSound(ws, i);
      AnyStepIsStep(ws[i], ws[i+1]);
    }
    if LeavesTerminated(ws[k].s.ps, stream) {
      SameSelf(ws[0].s.ps);
      LeafTestRight(ws[0].s.ps, stream, ss);
    }
  }

  lemma AnyStepSound(ws: seq<World>, k: nat)
    requires AnyRun(ws) && k < |ws|
    ensures Sound(ws[k].s)
  {
    if k > 0 { assert AnyStep(ws[k-1], ws[k-1+1]); }
  }

  lemma SoundChecked(s: Managed)
    requires Sound(s)
    ensures CheckersWait(s.ps)
  {
  }

  lemma SameSelf(ps: Profiles)
    ensures SameConfigurations(ps, ps)
  {
  }
}
