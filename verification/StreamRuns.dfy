/** Streams over whole runs: in which order profiles can terminate at all, and what a
    cached stream answers after any calls, broadcasts, resets and creations. */
module StreamRuns {
  import opened EventModel
  import opened ProfileModel
  import opened StreamModel
  import opened ManagerModel

  /** The profiles at a moment. */
  datatype Moment = Moment(ps: Profiles, now: nat)

  ghost predicate Holds(m: Moment) {
    Possible(m.ps) && forall p :: p in m.ps ==> StaysAtEnd(m.ps[p], m.now)
  }

  /** A master without any limit never comes to its end. */
  predicate Limited(x: Profile) {
    x.role == MASTER ==> x.toSend > 0 || x.toStop > 0
  }

  /** Its own nature never lets it terminate, or it was never created. */
  predicate Never(ps: Profiles, v: nat) {
    v !in ps || ps[v].role == SLAVE || !Limited(ps[v])
  }

  predicate AwaitedEnds(ps: Profiles, x: Profile) {
    forall e :: e in Elements(x.em.retained) && e.kind == TERMINATION ==> e.id in ps && ps[e.id].terminated
  }

  /** A profile may terminate only once all that it is configured to wait for have. */
  predicate MayEnd(ps: Profiles, v: nat) {
    !Never(ps, v) && AwaitedEnds(ps, ps[v])
  }

  predicate Terminated(ps: Profiles, p: nat) {
    p in ps && ps[p].terminated
  }

  // ------------------------------------------------------------------------- runs

  /** A moment of a run; `toAsk` are the checkers still to be told of the packet of
      `source` that passes. */
  datatype Stage = Stage(m: Moment, source: nat, toAsk: seq<nat>)

  ghost predicate Start(s: Stage) {
    Holds(s.m) && s.toAsk == [] && forall p :: !Terminated(s.m.ps, p)
  }

  /** Anything happens, resets included, but that a profile terminates. */
  ghost predicate Lapses(a: Stage, b: Stage) {
    a.toAsk == [] && b.toAsk == [] && forall p :: Terminated(b.m.ps, p) ==> Terminated(a.m.ps, p)
  }

  /** The packet of a live master passes; after its last one only if that is a response. */
  predicate Passes(x: Profile, toAsk: seq<nat>, ended: bool) {
    x.role == MASTER && !x.terminated && toAsk == x.asked && (ended ==> x.acknowledged)
  }

  /** A profile that is no checker goes on, and terminates at most once it is released. */
  ghost predicate Moves(a: Stage, b: Stage, v: nat) {
    && a.toAsk == [] && v in a.m.ps && a.m.ps[v].role != CHECKER
    && (forall p :: p != v ==> (Terminated(b.m.ps, p) <==> Terminated(a.m.ps, p)))
    && (Terminated(a.m.ps, v) ==> Terminated(b.m.ps, v))
    && (Terminated(b.m.ps, v) && !Terminated(a.m.ps, v) ==> MayEnd(a.m.ps, v))
    && (b.toAsk != [] ==> b.source == v && Passes(a.m.ps[v], b.toAsk, Terminated(b.m.ps, v)))
  }

  /** A checker that is told of a packet terminates exactly if it waits for nothing. */
  predicate WaitsForNothing(ps: Profiles, c: nat) {
    c in ps && ps[c].role == CHECKER && ps[c].em.waited == {}
  }

  /** The next checker is told of the packet that passes. */
  ghost predicate Asks(a: Stage, b: Stage) {
    && a.toAsk != [] && b.toAsk == a.toAsk[1..] && b.source == a.source
    && forall p :: Terminated(b.m.ps, p) <==> Terminated(a.m.ps, p) || (p == a.toAsk[0] && WaitsForNothing(a.m.ps, p))
  }

  ghost predicate Step(a: Stage, b: Stage) {
    && SameConfigurations(a.m.ps, b.m.ps) && a.m.now <= b.m.now && Holds(b.m)
    && (Lapses(a, b) || Asks(a, b) || exists v :: Moves(a, b, v))
  }

  ghost predicate Run(ss: seq<Stage>) {
    && ss != [] && Start(ss[0])
    && forall i :: 0 <= i < |ss| - 1 ==> Step(ss[i], ss[i+1])
  }

  // ------------------------------------------------- the order in which profiles end

  /** o[i] is a master whose responses are told to checkers, and whatever comes after it are
      checkers that are told before the one with number k. */
  predicate ToldAfter(ps: Profiles, o: seq<nat>, i: nat, k: nat) {
    && i < |o| && o[i] in ps && ps[o[i]].role == MASTER && ps[o[i]].acknowledged && k <= |ps[o[i]].asked|
    && forall j :: i < j < |o| ==> o[j] in ps[o[i]].asked[..k] && o[j] in ps && ps[o[j]].role == CHECKER
  }

  /** The response with which o[i] ends is told to c, after all that come after o[i]. */
  predicate ToldLast(ps: Profiles, o: seq<nat>, c: nat, i: nat, k: nat) {
    ToldAfter(ps, o, i, k) && k < |ps[o[i]].asked| && ps[o[i]].asked[k] == c
  }

  /** v may be the next to terminate after those of o. */
  ghost predicate EndsNext(ps: Profiles, o: seq<nat>, v: nat) {
    && !Never(ps, v) && v !in o
    && (forall e :: e in Elements(ps[v].em.retained) && e.kind == TERMINATION ==> e.id in o)
    && (ps[v].role == CHECKER ==> exists i: nat, k: nat :: ToldLast(ps, o, v, i, k))
  }

  /** An order in which profiles can terminate: each after all that it waits for, and each
      checker right after a master that it checks, but for checkers told before it. */
  ghost predicate InOrder(ps: Profiles, o: seq<nat>) {
    o == [] || (InOrder(ps, o[..|o|-1]) && EndsNext(ps, o[..|o|-1], o[|o|-1]))
  }

  ghost predicate CanAllEnd(ps: Profiles, all: set<nat>) {
    exists o: seq<nat> :: InOrder(ps, o) && SetOf(o) == all
  }

  /** What the profiles of the set wait for is in the set. */
  ghost predicate Closed(ps: Profiles, all: set<nat>) {
    forall v, e :: v in all && v in ps && e in Elements(ps[v].em.retained) && e.kind == TERMINATION ==> e.id in all
  }

  /** Who is configured to check whom, and in which order. */
  ghost predicate CheckersSet(ps: Profiles) {
    CheckersWait(ps) && AskedInOrder(ps)
  }

  /** What passes is told to the checkers of its master in order, from the first on. */
  ghost predicate Passing(ps: Profiles, s: Stage) {
    s.toAsk != [] ==>
      && s.source in ps && ps[s.source].role == MASTER
      && |s.toAsk| <= |ps[s.source].asked| && ps[s.source].asked[|ps[s.source].asked|-|s.toAsk|..] == s.toAsk
      && (Terminated(s.m.ps, s.source) ==> ps[s.source].acknowledged)
  }

  /** The master whose packet passes was the last to end, but for checkers told so far. */
  ghost predicate LastIsSource(ps: Profiles, o: seq<nat>, s: Stage) {
    s.toAsk != [] && s.source in o ==>
      && Passing(ps, s)
      && exists i: nat :: ToldAfter(ps, o, i, |ps[s.source].asked| - |s.toAsk|) && o[i] == s.source
  }

  lemma SameTransitive(a: Profiles, b: Profiles, c: Profiles)
    requires SameConfigurations(a, b) && SameConfigurations(b, c)
    ensures SameConfigurations(a, c)
  {
  }

  lemma StepPasses(ps: Profiles, a: Stage, b: Stage)
    requires SameConfigurations(ps, a.m.ps) && Passing(ps, a) && Step(a, b)
    ensures Passing(ps, b)
  {
    hide Holds, MayEnd;
  }

  /** Every stage of a run. */
  lemma {:induction false} RunFacts(ps: Profiles, ss: seq<Stage>, k: nat)
    requires Run(ss) && k < |ss| && SameConfigurations(ps, ss[0].m.ps)
    ensures SameConfigurations(ps, ss[k].m.ps) && Holds(ss[k].m) && Passing(ps, ss[k])
  {
    hide Holds, SameConfigurations, Passing, Lapses, Moves, Asks;
    if k == 0 {
      assert Passing(ps, ss[0]) by { NothingPasses(ps, ss[0]); }
    } else {
      RunFacts(ps, ss, k - 1);
      assert Step(ss[k-1], ss[k-1+1]);
      StepPasses(ps, ss[k-1], ss[k]);
      SameTransitive(ps, ss[k-1].m.ps, ss[k].m.ps);
    }
  }

  lemma NothingPasses(ps: Profiles, s: Stage)
    requires s.toAsk == []
    ensures Passing(ps, s)
  {
  }

  // ------------------------------------------- whatever has ended did so in an order

  lemma Appended(ps: Profiles, o: seq<nat>, v: nat)
    requires InOrder(ps, o) && EndsNext(ps, o, v)
    ensures InOrder(ps, o + [v]) && SetOf(o + [v]) == SetOf(o) + {v}
  {
    hide EndsNext;
    var more := o + [v];
    assert more[..|more|-1] == o;
  }

  /** Nobody in a closed set of ended profiles waits for the one that ends only now. */
  lemma LessClosed(ps: Profiles, a: Stage, all: set<nat>, v: nat)
    requires SameConfigurations(ps, a.m.ps) && Holds(a.m) && Closed(ps, all) && !Terminated(a.m.ps, v)
    requires forall p :: p in all - {v} ==> Terminated(a.m.ps, p)
    ensures Closed(ps, all - {v})
  {
    forall p, e | p in all - {v} && p in ps && e in Elements(ps[p].em.retained) && e.kind == TERMINATION
      ensures e.id != v
    {
      assert Terminated(a.m.ps, p) && ps[p].em.retained == a.m.ps[p].em.retained;
      EndedAwaited(a.m, p, e);
    }
  }

  lemma EndedAwaited(m: Moment, p: nat, e: Event)
    requires Holds(m) && Terminated(m.ps, p) && e in Elements(m.ps[p].em.retained) && e.kind == TERMINATION
    ensures Terminated(m.ps, e.id)
  {
    hide Counted, NoDuplicates, OneOfEach, WithinLimits;
    assert Good(m.ps[p]);
  }

  /** What a released profile waits for has ended. */
  lemma MoveIsNext(ps: Profiles, a: Stage, b: Stage, all: set<nat>, o: seq<nat>, v: nat)
    requires SameConfigurations(ps, a.m.ps) && Closed(ps, all) && v in all && SetOf(o) == all - {v}
    requires Moves(a, b, v) && Terminated(b.m.ps, v) && !Terminated(a.m.ps, v)
    requires forall p :: p in all - {v} ==> Terminated(a.m.ps, p)
    ensures EndsNext(ps, o, v)
    ensures LastIsSource(ps, o + [v], b)
  {
    hide Holds;
    forall e | e in Elements(ps[v].em.retained) && e.kind == TERMINATION ensures e.id in o {
      assert e.id in SetOf(o);
    }
    assert v !in SetOf(o);
    if b.toAsk != [] {
      var more := o + [v];
      assert |ps[v].asked| - |b.toAsk| == 0;
      assert ToldAfter(ps, more, |o|, 0);
    }
  }

  /** A further checker has been told. */
  lemma ToldMore(ps: Profiles, o: seq<nat>, i: nat, k: nat)
    requires ToldAfter(ps, o, i, k) && k < |ps[o[i]].asked|
    ensures ToldAfter(ps, o, i, k + 1)
    ensures var c := ps[o[i]].asked[k];
            c in ps && ps[c].role == CHECKER ==> ToldAfter(ps, o + [c], i, k + 1)
  {
    var asked := ps[o[i]].asked;
    assert forall x :: x in asked[..k] ==> x in asked[..k+1] by {
      assert asked[..k+1] == asked[..k] + [asked[k]];
    }
    assert asked[k] in asked[..k+1] by { assert asked[..k+1][k] == asked[k]; }
  }

  /** The next to be told. */
  lemma NextTold(ps: Profiles, a: Stage, b: Stage)
    requires Passing(ps, a) && Asks(a, b)
    ensures var asked := ps[a.source].asked;
            |asked| - |a.toAsk| < |asked| && asked[|asked|-|a.toAsk|] == a.toAsk[0] && |b.toAsk| == |a.toAsk| - 1
  {
  }

  lemma AskKeepsLast(ps: Profiles, a: Stage, b: Stage, o: seq<nat>)
    requires Passing(ps, a) && Passing(ps, b) && Asks(a, b) && LastIsSource(ps, o, a)
    ensures LastIsSource(ps, o, b)
  {
    hide WaitsForNothing;
    NextTold(ps, a, b);
    if b.toAsk != [] && b.source in o {
      var k := |ps[a.source].asked| - |a.toAsk|;
      var i: nat :| ToldAfter(ps, o, i, k) && o[i] == a.source;
      ToldMore(ps, o, i, k);
    }
  }

  lemma AskIsNext(ps: Profiles, a: Stage, b: Stage, all: set<nat>, o: seq<nat>)
    requires SameConfigurations(ps, a.m.ps) && Holds(a.m) && CheckersSet(ps) && Closed(ps, all)
    requires Passing(ps, a) && Passing(ps, b) && Asks(a, b) && LastIsSource(ps, o, a)
    requires a.toAsk[0] in all && WaitsForNothing(a.m.ps, a.toAsk[0]) && !Terminated(a.m.ps, a.toAsk[0])
    requires SetOf(o) == all - {a.toAsk[0]}
    ensures EndsNext(ps, o, a.toAsk[0])
    ensures LastIsSource(ps, o + [a.toAsk[0]], b)
  {
    hide Holds, Closed, CheckersSet, WaitsForNothing;
    var c := a.toAsk[0];
    NextTold(ps, a, b);
    var asked := ps[a.source].asked;
    var k := |asked| - |a.toAsk|;
    SourceAwaited(ps, a, all);
    forall e | e in Elements(ps[c].em.retained) && e.kind == TERMINATION ensures e.id in o {
      LeavesLast(ps, a, all, e);
      assert e.id in SetOf(o);
    }
    assert a.source in SetOf(o) && c !in SetOf(o);
    var i: nat :| ToldAfter(ps, o, i, k) && o[i] == a.source;
    assert ToldLast(ps, o, c, i, k);
    ToldMore(ps, o, i, k);
  }

  lemma SourceAwaited(ps: Profiles, a: Stage, all: set<nat>)
    requires SameConfigurations(ps, a.m.ps) && CheckersSet(ps) && Closed(ps, all) && Passing(ps, a)
    requires a.toAsk != [] && a.toAsk[0] in all && WaitsForNothing(a.m.ps, a.toAsk[0])
    ensures a.source in all && a.source != a.toAsk[0] && a.source in ps && ps[a.source].role == MASTER
    ensures a.toAsk[0] in ps && ps[a.toAsk[0]].role == CHECKER
  {
    hide Elements, NoRepeats;
    var asked := ps[a.source].asked;
    assert asked[|asked|-|a.toAsk|] == a.toAsk[0];
    assert a.toAsk[0] in asked;
    assert Event(TERMINATION, a.source) in Elements(ps[a.toAsk[0]].em.retained);
  }

  lemma LeavesLast(ps: Profiles, a: Stage, all: set<nat>, e: Event)
    requires SameConfigurations(ps, a.m.ps) && Holds(a.m) && Closed(ps, all) && a.toAsk != []
    requires a.toAsk[0] in all && WaitsForNothing(a.m.ps, a.toAsk[0]) && !Terminated(a.m.ps, a.toAsk[0])
    requires a.toAsk[0] in ps && e in Elements(ps[a.toAsk[0]].em.retained) && e.kind == TERMINATION
    ensures e.id in all && e.id != a.toAsk[0] && Terminated(a.m.ps, e.id)
  {
    hide Good;
    assert ps[a.toAsk[0]].em.retained == a.m.ps[a.toAsk[0]].em.retained;
  }

  /** Whatever has terminated in a run has done so in such an order. */
  lemma {:induction false} RunEndsInOrder(ps: Profiles, ss: seq<Stage>, k: nat, all: set<nat>) returns (o: seq<nat>)
    requires Run(ss) && k < |ss| && SameConfigurations(ps, ss[0].m.ps) && CheckersSet(ps)
    requires Closed(ps, all) && forall p :: p in all ==> Terminated(ss[k].m.ps, p)
    ensures InOrder(ps, o) && SetOf(o) == all && LastIsSource(ps, o, ss[k])
    decreases k, 1
  {
    hide InOrder, Holds, SameConfigurations, Passing, CheckersSet, Closed, LastIsSource, WaitsForNothing;
    RunFacts(ps, ss, k);
    if k == 0 {
      assert all == {};
      o := [];
      assert InOrder(ps, o) && LastIsSource(ps, o, ss[0]) by { EmptyOrder(ps, ss[0]); }
    } else {
      RunFacts(ps, ss, k - 1);
      assert Step(ss[k-1], ss[k-1+1]);
      o := StepEndsInOrder(ps, ss, k, all);
    }
  }

  lemma {:induction false} StepEndsInOrder(ps: Profiles, ss: seq<Stage>, k: nat, all: set<nat>) returns (o: seq<nat>)
    requires Run(ss) && 0 < k < |ss| && SameConfigurations(ps, ss[0].m.ps) && CheckersSet(ps)
    requires SameConfigurations(ps, ss[k-1].m.ps) && Holds(ss[k-1].m) && Passing(ps, ss[k-1]) && Passing(ps, ss[k])
    requires Closed(ps, all) && (forall p :: p in all ==> Terminated(ss[k].m.ps, p)) && Step(ss[k-1], ss[k])
    ensures InOrder(ps, o) && SetOf(o) == all && LastIsSource(ps, o, ss[k])
    decreases k, 0
  {
    hide InOrder, Holds, SameConfigurations, Passing, CheckersSet, Closed, LastIsSource, WaitsForNothing, Run,
         MayEnd, EndsNext, Terminated;
    var a, b := ss[k-1], ss[k];
    var v: nat;
    if Lapses(a, b) {
      o := RunEndsInOrder(ps, ss, k - 1, all);
      NothingLast(ps, o, b);
      return;
    } else if Asks(a, b) {
      v := a.toAsk[0];
    } else {
      v :| Moves(a, b, v);
    }
    if v in all && !Terminated(a.m.ps, v) {
      LessClosed(ps, a, all, v);
      o := RunEndsInOrder(ps, ss, k - 1, all - {v});
      if Asks(a, b) { AskIsNext(ps, a, b, all, o); } else { MoveIsNext(ps, a, b, all, o, v); }
      Appended(ps, o, v);
      o := o + [v];
    } else {
      o := RunEndsInOrder(ps, ss, k - 1, all);
      if Asks(a, b) { AskKeepsLast(ps, a, b, o); } else { OldOrder(ps, a, b, o, v); }
    }
  }

  lemma EmptyOrder(ps: Profiles, s: Stage)
    ensures InOrder(ps, []) && LastIsSource(ps, [], s)
  {
  }

  lemma NothingLast(ps: Profiles, o: seq<nat>, s: Stage)
    requires s.toAsk == []
    ensures LastIsSource(ps, o, s)
  {
  }

  lemma OldOrder(ps: Profiles, a: Stage, b: Stage, o: seq<nat>, v: nat)
    requires Moves(a, b, v) && (v in SetOf(o) ==> Terminated(a.m.ps, v))
    ensures LastIsSource(ps, o, b)
  {
    assert v in o ==> v in SetOf(o);
  }

  // ------------------------------------------------ what the waits allow to terminate

  /** v can terminate, with at most n profiles in a row waiting for each other. */
  predicate CanEndWithin(ps: Profiles, v: nat, n: nat)
    decreases n
  {
    && n > 0 && !Never(ps, v)
    && forall e :: e in Elements(ps[v].em.retained) && e.kind == TERMINATION ==> CanEndWithin(ps, e.id, n - 1)
  }

  ghost predicate CanEnd(ps: Profiles, v: nat) {
    exists n: nat :: CanEndWithin(ps, v, n)
  }

  lemma {:induction false} OrderedCanEnd(ps: Profiles, o: seq<nat>, i: nat)
    requires InOrder(ps, o) && i < |o|
    ensures CanEndWithin(ps, o[i], i + 1)
    decreases |o|, i
  {
    var init, last := o[..|o|-1], o[|o|-1];
    if i < |init| {
      OrderedCanEnd(ps, init, i);
    } else {
      forall e | e in Elements(ps[last].em.retained) && e.kind == TERMINATION ensures CanEndWithin(ps, e.id, i) {
        var j :| 0 <= j < |init| && init[j] == e.id;
        OrderedCanEnd(ps, init, j);
        MoreIsEnough(ps, e.id, j + 1, i);
      }
    }
  }

  lemma {:induction false} MoreIsEnough(ps: Profiles, v: nat, n: nat, m: nat)
    requires CanEndWithin(ps, v, n) && n <= m
    ensures CanEndWithin(ps, v, m)
    decreases n
  {
    forall e | e in Elements(ps[v].em.retained) && e.kind == TERMINATION ensures CanEndWithin(ps, e.id, m - 1) {
      MoreIsEnough(ps, e.id, n - 1, m - 1);
    }
  }


  ghost function EndedSet(ps: Profiles): set<nat> {
    set p | p in ps && ps[p].terminated
  }

  lemma EndedInOrder(ps: Profiles, ss: seq<Stage>, k: nat)
    requires Run(ss) && k < |ss| && SameConfigurations(ps, ss[0].m.ps) && CheckersSet(ps)
    ensures CanAllEnd(ps, EndedSet(ss[k].m.ps)) && SameConfigurations(ps, ss[k].m.ps)
  {
    hide InOrder, CheckersSet, Holds, Run;
    RunFacts(ps, ss, k);
    var m := ss[k].m;
    forall v, e | v in EndedSet(m.ps) && v in ps && e in Elements(ps[v].em.retained) && e.kind == TERMINATION
      ensures e.id in EndedSet(m.ps)
    {
      assert ps[v].em.retained == m.ps[v].em.retained;
      EndedAwaited(m, v, e);
    }
    var o := RunEndsInOrder(ps, ss, k, EndedSet(m.ps));
  }

  /** In no run does a profile terminate that its waits do not allow to. */
  lemma RunEndedCould(ps: Profiles, ss: seq<Stage>, k: nat)
    requires Run(ss) && k < |ss| && SameConfigurations(ps, ss[0].m.ps) && CheckersSet(ps)
    ensures forall p :: Terminated(ss[k].m.ps, p) ==> CanEnd(ps, p)
  {
    hide CanAllEnd, CheckersSet, Run, CanEnd;
    EndedInOrder(ps, ss, k);
    AllCanEnd(ps, EndedSet(ss[k].m.ps));
    forall p | Terminated(ss[k].m.ps, p) ensures CanEnd(ps, p) {
      assert p in EndedSet(ss[k].m.ps);
    }
  }

  lemma AllCanEnd(ps: Profiles, all: set<nat>)
    requires CanAllEnd(ps, all)
    ensures forall v :: v in all ==> CanEnd(ps, v)
  {
    hide InOrder;
    var o: seq<nat> :| InOrder(ps, o) && SetOf(o) == all;
    forall v | v in all ensures CanEnd(ps, v) {
      var i: nat :| i < |o| && o[i] == v;
      OrderedCanEnd(ps, o, i);
    }
  }

  // ------------------------------------------------ the same, read off the waits

  /** v waits, directly or not, for something that never terminates: for what its nature
      never lets, or for what waits for itself. */
  ghost predicate Stuck(ps: Profiles, v: nat) {
    exists chain: seq<nat> ::
      IsChain(ps, chain) && chain[|chain|-1] == v && (Never(ps, chain[0]) || chain[0] in chain[1..])
  }

  lemma AppendChain(ps: Profiles, chain: seq<nat>, v: nat)
    requires IsChain(ps, chain) && v in Waiters(ps, chain[|chain|-1])
    ensures IsChain(ps, chain + [v])
  {
  }

  /** What can not end within n is the end of a chain that starts with something that
      never does, or that is longer than n. */
  lemma {:induction false} LongChain(ps: Profiles, v: nat, n: nat) returns (chain: seq<nat>)
    requires !CanEndWithin(ps, v, n)
    ensures IsChain(ps, chain) && chain[|chain|-1] == v
    ensures Never(ps, chain[0]) || |chain| > n
    decreases n
  {
    if n == 0 || Never(ps, v) {
      chain := [v];
    } else {
      var e :| e in Elements(ps[v].em.retained) && e.kind == TERMINATION && !CanEndWithin(ps, e.id, n - 1);
      chain := LongChain(ps, e.id, n - 1);
      assert e == Event(TERMINATION, e.id) && v in Waiters(ps, e.id);
      AppendChain(ps, chain, v);
      chain := chain + [v];
    }
  }

  lemma TailOfChain(ps: Profiles, chain: seq<nat>, i: nat)
    requires IsChain(ps, chain) && i < |chain|
    ensures IsChain(ps, chain[i..]) && chain[i..][|chain|-i-1] == chain[|chain|-1]
  {
    var rest := chain[i..];
    forall k | 0 <= k < |rest| - 1 ensures rest[k+1] in Waiters(ps, rest[k]) {
      var j := i + k;
      assert chain[j+1] in Waiters(ps, chain[j]);
    }
  }

  /** More elements than there are values: one comes twice. */
  lemma {:induction false} Pigeonhole(s: seq<nat>, values: set<nat>) returns (i: nat, j: nat)
    requires |s| > |values| && forall k :: 0 <= k < |s| ==> s[k] in values
    ensures i < j < |s| && s[i] == s[j]
    decreases |s|
  {
    var x, rest := s[0], s[1..];
    if k :| 0 < k < |s| && s[k] == x {
      i, j := 0, k;
    } else {
      assert |values - {x}| == |values| - 1;
      i, j := Pigeonhole(rest, values - {x});
      i, j := i + 1, j + 1;
    }
  }

  lemma ChainExists(ps: Profiles, chain: seq<nat>)
    requires IsChain(ps, chain) && chain[0] in ps
    ensures forall k :: 0 <= k < |chain| ==> chain[k] in ps.Keys
  {
    forall k | 0 <= k < |chain| ensures chain[k] in ps.Keys {
      if k > 0 {
        var j := k - 1;
        assert chain[j+1] in Waiters(ps, chain[j]);
      }
    }
  }

  /** What can end, can end with fewer steps the further back a chain is followed. */
  lemma {:induction false} BackAlong(ps: Profiles, chain: seq<nat>, n: nat)
    requires IsChain(ps, chain) && CanEndWithin(ps, chain[|chain|-1], n)
    ensures n >= |chain| && CanEndWithin(ps, chain[0], n - (|chain| - 1))
    decreases |chain|
  {
    if |chain| > 1 {
      var last := |chain| - 1;
      var init := chain[..last];
      var k := last - 1;
      assert chain[k+1] in Waiters(ps, chain[k]);
      assert CanEndWithin(ps, chain[k], n - 1);
      forall i | 0 <= i < |init| - 1 ensures init[i+1] in Waiters(ps, init[i]) {
        assert chain[i+1] in Waiters(ps, chain[i]);
      }
      BackAlong(ps, init, n - 1);
    }
  }

  /** Nothing on a cycle of waits can end. */
  lemma {:induction false} CycleNeverEnds(ps: Profiles, cycle: seq<nat>, n: nat)
    requires IsChain(ps, cycle) && |cycle| > 1 && cycle[0] == cycle[|cycle|-1]
    ensures !CanEndWithin(ps, cycle[0], n)
    decreases n
  {
    if CanEndWithin(ps, cycle[0], n) {
      BackAlong(ps, cycle, n);
      CycleNeverEnds(ps, cycle, n - (|cycle| - 1));
    }
  }

  /** What can not end within as many steps as there are profiles. */
  lemma StuckWhen(ps: Profiles, v: nat)
    requires !CanEndWithin(ps, v, |ps.Keys|)
    ensures Stuck(ps, v)
  {
    hide Never;
    var chain := LongChain(ps, v, |ps.Keys|);
    if !Never(ps, chain[0]) {
      NotNever(ps, chain[0]);
      ChainExists(ps, chain);
      var i, j := Pigeonhole(chain, ps.Keys);
      TailOfChain(ps, chain, i);
      var rest := chain[i..];
      assert rest[1..][j - i - 1] == rest[0];
    }
  }

  /** The waits of a profile let it terminate if and only if no chain of waits leads to it
      from something that never terminates, or from a cycle. */
  lemma StuckIff(ps: Profiles, v: nat)
    ensures Stuck(ps, v) <==> !CanEnd(ps, v)
    ensures CanEnd(ps, v) ==> CanEndWithin(ps, v, |ps.Keys|)
  {
    hide Never;
    if Stuck(ps, v) && CanEnd(ps, v) {
      var chain: seq<nat> :|
        IsChain(ps, chain) && chain[|chain|-1] == v && (Never(ps, chain[0]) || chain[0] in chain[1..]);
      var n: nat :| CanEndWithin(ps, v, n);
      BackAlong(ps, chain, n);
      if !Never(ps, chain[0]) {
        var j :| 0 <= j < |chain[1..]| && chain[1..][j] == chain[0];
        var cycle := chain[..j + 2];
        assert forall k :: 0 <= k < |cycle| - 1 ==> cycle[k+1] in Waiters(ps, cycle[k]) by {
          forall k | 0 <= k < |cycle| - 1 ensures cycle[k+1] in Waiters(ps, cycle[k]) {
            assert chain[k+1] in Waiters(ps, chain[k]);
          }
        }
        CycleNeverEnds(ps, cycle, n - (|chain| - 1));
      }
    }
    if !CanEndWithin(ps, v, |ps.Keys|) {
      StuckWhen(ps, v);
    }
  }

  lemma NotNever(ps: Profiles, v: nat)
    requires !Never(ps, v)
    ensures v in ps
  {
  }

  ghost predicate SomeLeafStuck(ps: Profiles, stream: seq<(nat, bool)>) {
    exists i :: 0 <= i < |stream| && stream[i].1 && Stuck(ps, stream[i].0)
  }

  // ---------------------------------------------------- orders with and without checkers

  /** Without checkers the waits decide. */
  lemma {:induction false} OrderWithin(ps: Profiles, all: set<nat>, n: nat) returns (o: seq<nat>)
    requires Closed(ps, all) && forall v :: v in all ==> CanEndWithin(ps, v, n) && v in ps && ps[v].role != CHECKER
    ensures InOrder(ps, o) && SetOf(o) == all
    decreases n, |all|
  {
    hide InOrder;
    if all == {} {
      o := [];
      assert InOrder(ps, o) by { EmptyOrder(ps, Stage(Moment(ps, 0), 0, [])); }
    } else if v :| v in all && !CanEndWithin(ps, v, n - 1) {
      forall w, e | w in all && e in Elements(ps[w].em.retained) && e.kind == TERMINATION ensures e.id != v {
        assert CanEndWithin(ps, e.id, n - 1);
      }
      o := OrderWithin(ps, all - {v}, n);
      forall e | e in Elements(ps[v].em.retained) && e.kind == TERMINATION ensures e.id in o {
        assert e.id in SetOf(o);
      }
      assert v !in SetOf(o);
      Appended(ps, o, v);
      o := o + [v];
    } else {
      o := OrderWithin(ps, all, n - 1);
    }
  }

  lemma WithoutCheckersIff(ps: Profiles, all: set<nat>)
    requires Closed(ps, all) && forall v :: v in all ==> v in ps && ps[v].role != CHECKER
    ensures CanAllEnd(ps, all) <==> forall v :: v in all ==> CanEnd(ps, v)
  {
    hide InOrder, Never;
    if CanAllEnd(ps, all) { AllCanEnd(ps, all); }
    if forall v :: v in all ==> CanEnd(ps, v) {
      forall v | v in all ensures CanEndWithin(ps, v, |ps.Keys|) { StuckIff(ps, v); }
      var o := OrderWithin(ps, all, |ps.Keys|);
    }
  }

  /** What is waited for comes before, and nothing comes twice. */
  lemma {:induction false} OrderedWaits(ps: Profiles, o: seq<nat>, j: nat)
    requires InOrder(ps, o) && j < |o|
    ensures o[j] in ps && o[j] !in o[..j]
    ensures forall e :: e in Elements(ps[o[j]].em.retained) && e.kind == TERMINATION ==> e.id in o[..j]
    ensures ps[o[j]].role == CHECKER ==> exists i: nat, k: nat :: ToldLast(ps, o[..j], o[j], i, k)
  {
    if j < |o| - 1 {
      var init := o[..|o|-1];
      OrderedWaits(ps, init, j);
      assert init[..j] == o[..j];
    }
  }

  /** A checker ends only in passing: it checks a master whose requests expect responses,
      and whatever it watches that waits for that master is a checker of it as well. */
  lemma CheckerNeeds(ps: Profiles, ss: seq<Stage>, k: nat, c: nat) returns (a: nat)
    requires Run(ss) && k < |ss| && SameConfigurations(ps, ss[0].m.ps) && CheckersSet(ps)
    requires c in ps && ps[c].role == CHECKER && Terminated(ss[k].m.ps, c)
    ensures a in ps && ps[a].role == MASTER && ps[a].acknowledged && c in ps[a].asked
    ensures forall e :: e in Elements(ps[c].em.retained) && e.kind == TERMINATION && e.id in Waiters(ps, a) ==>
              e.id in ps[a].asked
  {
    hide InOrder, Run, CheckersSet;
    EndedInOrder(ps, ss, k);
    var o: seq<nat> :| InOrder(ps, o) && SetOf(o) == EndedSet(ss[k].m.ps);
    assert c in SetOf(o);
    var n: nat :| n < |o| && o[n] == c;
    a := OrderNeeds(ps, o, n);
  }

  lemma OrderNeeds(ps: Profiles, o: seq<nat>, n: nat) returns (a: nat)
    requires InOrder(ps, o) && n < |o| && o[n] in ps && ps[o[n]].role == CHECKER
    ensures a in ps && ps[a].role == MASTER && ps[a].acknowledged && o[n] in ps[a].asked
    ensures forall e :: e in Elements(ps[o[n]].em.retained) && e.kind == TERMINATION && e.id in Waiters(ps, a) ==>
              e.id in ps[a].asked
  {
    hide InOrder;
    OrderedWaits(ps, o, n);
    var before := o[..n];
    var i: nat, k: nat :| ToldLast(ps, before, o[n], i, k);
    a := o[i];
    forall e | e in Elements(ps[o[n]].em.retained) && e.kind == TERMINATION && e.id in Waiters(ps, a)
      ensures e.id in ps[a].asked
    {
      var j: nat :| j < n && o[j] == e.id;
      OrderedWaits(ps, o, j);
      assert a in o[..j];
      OrderedWaits(ps, o, i);
      assert i < j;
      assert before[j] in ps[a].asked[..k];
    }
  }

  // ---------------------------------------------------------- what leads to a leaf

  ghost predicate LeadsToStreamLeaf(ps: Profiles, stream: seq<(nat, bool)>, v: nat) {
    exists chain: seq<nat> :: IsChain(ps, chain) && chain[0] == v && IsLeafOf(stream, chain[|chain|-1])
  }

  predicate IsLeafOf(stream: seq<(nat, bool)>, v: nat) {
    exists i :: 0 <= i < |stream| && stream[i] == (v, true)
  }

  /** One step back along the waits. */
  lemma LeadsBack(ps: Profiles, stream: seq<(nat, bool)>, q: nat, p: nat)
    requires p in Waiters(ps, q) && LeadsToStreamLeaf(ps, stream, p)
    ensures LeadsToStreamLeaf(ps, stream, q)
  {
    var chain: seq<nat> :| IsChain(ps, chain) && chain[0] == p && IsLeafOf(stream, chain[|chain|-1]);
    var longer := [q] + chain;
    forall k | 0 <= k < |longer| - 1 ensures longer[k+1] in Waiters(ps, longer[k]) {
      if k > 0 { assert chain[k] in Waiters(ps, chain[k-1]); }
    }
    assert IsChain(ps, longer) && longer[|longer|-1] == chain[|chain|-1];
  }

  lemma NotLeading(ps: Profiles, stream: seq<(nat, bool)>, v: nat)
    requires IsStream(ps, stream) && LeadsToStreamLeaf(ps, stream, v)
    ensures LeadsToLeaf(ps, v)
  {
    var chain: seq<nat> :| IsChain(ps, chain) && chain[0] == v && IsLeafOf(stream, chain[|chain|-1]);
    var i :| 0 <= i < |stream| && stream[i] == (chain[|chain|-1], true);
    assert stream[i].1;
  }

  /** What leads to a leaf of the stream can terminate, unless that leaf is stuck. */
  lemma LeadingCanEnd(ps: Profiles, stream: seq<(nat, bool)>, v: nat)
    requires LeadsToStreamLeaf(ps, stream, v) && !SomeLeafStuck(ps, stream)
    ensures CanEnd(ps, v) && v in ps
  {
    var chain: seq<nat> :| IsChain(ps, chain) && chain[0] == v && IsLeafOf(stream, chain[|chain|-1]);
    var i :| 0 <= i < |stream| && stream[i] == (chain[|chain|-1], true);
    assert stream[i].1 && !Stuck(ps, stream[i].0);
    StuckIff(ps, stream[i].0);
    var n: nat :| CanEndWithin(ps, stream[i].0, n);
    BackAlong(ps, chain, n);
  }

  ghost function Leading(ps: Profiles, stream: seq<(nat, bool)>): set<nat> {
    set v | v in ps && LeadsToStreamLeaf(ps, stream, v)
  }

  lemma LeafLeads(ps: Profiles, stream: seq<(nat, bool)>, i: nat)
    requires i < |stream| && stream[i].1
    ensures LeadsToStreamLeaf(ps, stream, stream[i].0)
  {
    assert IsChain(ps, [stream[i].0]) && stream[i] == (stream[i].0, true);
  }

  /** A stuck leaf can not end, with or without the others; without checkers nothing else
      keeps the profiles that lead to leaves from ending. */
  lemma StuckLeaf(ps: Profiles, stream: seq<(nat, bool)>)
    requires IsStream(ps, stream)
    ensures SomeLeafStuck(ps, stream) ==> !CanAllEnd(ps, Leading(ps, stream))
    ensures (forall v :: v in Leading(ps, stream) ==> ps[v].role != CHECKER) ==>
              (SomeLeafStuck(ps, stream) <==> !CanAllEnd(ps, Leading(ps, stream)))
  {
    hide InOrder, CanAllEnd, CanEnd, Stuck, Never, LeadsToStreamLeaf;
    var all := Leading(ps, stream);
    if CanAllEnd(ps, all) && SomeLeafStuck(ps, stream) {
      var i :| 0 <= i < |stream| && stream[i].1 && Stuck(ps, stream[i].0);
      LeafLeads(ps, stream, i);
      AllCanEnd(ps, all);
      StuckIff(ps, stream[i].0);
    }
    if !SomeLeafStuck(ps, stream) && forall v :: v in all ==> ps[v].role != CHECKER {
      LeadingClosed(ps, stream);
      forall v | v in all ensures CanEnd(ps, v) { LeadingCanEnd(ps, stream, v); }
      WithoutCheckersIff(ps, all);
    }
  }

  lemma LeadingClosed(ps: Profiles, stream: seq<(nat, bool)>)
    requires !SomeLeafStuck(ps, stream)
    ensures Closed(ps, Leading(ps, stream))
  {
    hide CanEnd, LeadsToStreamLeaf, SomeLeafStuck;
    forall v, e | v in Leading(ps, stream) && e in Elements(ps[v].em.retained) && e.kind == TERMINATION
      ensures e.id in Leading(ps, stream)
    {
      assert e == Event(TERMINATION, e.id) && v in Waiters(ps, e.id);
      LeadsBack(ps, stream, e.id, v);
      LeadingCanEnd(ps, stream, e.id);
    }
  }

  // ------------------------------------------------- when the leaf test is sound

  /** Whatever run the profiles of this configuration take, looking at the leaves is as
      good as looking at the whole stream. */
  ghost predicate LeafTestSound(ps: Profiles, stream: seq<(nat, bool)>) {
    forall ss: seq<Stage> | Run(ss) && SameConfigurations(ps, ss[0].m.ps) && LeavesTerminated(ss[|ss|-1].m.ps, stream) ::
      AllTerminated(ss[|ss|-1].m.ps, stream)
  }

  /** Where the leaves have ended, so has all that leads to them, and all that was waited
      for. */
  lemma LeadingEnded(ps: Profiles, m: Moment, stream: seq<(nat, bool)>)
    requires SameConfigurations(ps, m.ps) && Holds(m) && LeavesTerminated(m.ps, stream)
    ensures Closed(ps, Leading(ps, stream)) && forall v :: v in Leading(ps, stream) ==> Terminated(m.ps, v)
  {
    hide Good, StaysAtEnd;
    SameWaiters(ps, m.ps);
    forall v | v in Leading(ps, stream) ensures Terminated(m.ps, v) {
      var chain: seq<nat> :| IsChain(ps, chain) && chain[0] == v && IsLeafOf(stream, chain[|chain|-1]);
      var i :| 0 <= i < |stream| && stream[i] == (chain[|chain|-1], true);
      assert stream[i].1;
      ChainTerminated(m.ps, chain);
    }
    forall v, e | v in Leading(ps, stream) && e in Elements(ps[v].em.retained) && e.kind == TERMINATION
      ensures e.id in Leading(ps, stream)
    {
      assert ps[v].em.retained == m.ps[v].em.retained;
      EndedAwaited(m, v, e);
      assert e == Event(TERMINATION, e.id) && v in Waiters(ps, e.id);
      LeadsBack(ps, stream, e.id, v);
    }
  }

  /** The leaf test is right in every run if every profile of the stream leads to a leaf,
      or if what leads to leaves can not all end, and the test never succeeds. */
  lemma LeafTestRight(ps: Profiles, stream: seq<(nat, bool)>, ss: seq<Stage>)
    requires IsStream(ps, stream) && (AllLead(ps, stream) || !CanAllEnd(ps, Leading(ps, stream))) && CheckersSet(ps)
    requires Run(ss) && SameConfigurations(ps, ss[0].m.ps) && LeavesTerminated(ss[|ss|-1].m.ps, stream)
    ensures AllTerminated(ss[|ss|-1].m.ps, stream)
  {
    hide IsStream, LeadsToLeaf, Good, Start, Step, InOrder, CheckersSet, SameConfigurations, Leading;
    var last := ss[|ss|-1].m;
    LastFacts(ps, ss);
    SameWaiters(ps, last.ps);
    if AllLead(ps, stream) {
      LeafTestMeans(last.ps, stream);
    } else {
      LeadingEnded(ps, last, stream);
      var o := RunEndsInOrder(ps, ss, |ss| - 1, Leading(ps, stream));
      assert false;
    }
  }

  lemma LastFacts(ps: Profiles, ss: seq<Stage>)
    requires Run(ss) && SameConfigurations(ps, ss[0].m.ps)
    ensures SameConfigurations(ps, ss[|ss|-1].m.ps) && Holds(ss[|ss|-1].m) && Possible(ss[|ss|-1].m.ps)
  {
    hide SameConfigurations, Possible;
    RunFacts(ps, ss, |ss| - 1);
  }

  // -------------------------------------------------------------- the manager's runs

  /** The manager between two calls. */
  datatype Managed = Managed(ps: Profiles, subs: Subscribers, nt: map<nat, nat>, now: nat)

  ghost predicate Sound(s: Managed) {
    && ProfileModel.Valid(s.ps, s.subs, s.nt, {}, {}, {})
    && forall p :: p in s.ps ==> StaysAtEnd(s.ps[p], s.now)
  }

  /** A call on profile p, as the contracts of the calls say it: p counts its progress, is
      x then, and may terminate if it is released; the others at most receive events. */
  ghost predicate Called(a: Profiles, b: Profiles, p: nat, x: Profile) {
    && p in a && SameConfiguration(a[p], x) && x.terminated == a[p].terminated
    && OthersEvolve(a[p := x], b, p) && EndsReleased(a, b, p)
  }

  ghost predicate SomeCall(a: Profiles, b: Profiles) {
    exists p, x :: Called(a, b, p, x)
  }

  ghost predicate SomeBroadcast(a: Profiles, b: Profiles) {
    exists grow, ended :: AllEvolve(a, b, grow, ended)
  }

  ghost predicate SomeReset(a: Profiles, b: Profiles) {
    exists done :: AfterResets(a, b, done)
  }

  /** A new profile joins; the others at most receive events. */
  ghost predicate Created(a: Profiles, b: Profiles, id: nat, x: Profile) {
    id !in a && AllEvolve(a[id := x], b, {}, {})
  }

  ghost predicate SomeCreation(a: Profiles, b: Profiles) {
    exists id, x :: Created(a, b, id, x)
  }

  /** A completed call, broadcast, reset or creation. */
  ghost predicate ManagerStep(a: Managed, b: Managed) {
    && a.now <= b.now && Sound(b)
    && (SomeCall(a.ps, b.ps) || SomeBroadcast(a.ps, b.ps) || SomeReset(a.ps, b.ps) || SomeCreation(a.ps, b.ps))
  }

  ghost predicate ManagerRun(ss: seq<Managed>) {
    && ss != [] && Sound(ss[0])
    && forall i :: 0 <= i < |ss| - 1 ==> ManagerStep(ss[i], ss[i+1])
  }

  function At(s: Managed): Moment { Moment(s.ps, s.now) }

  /** No call changes the configuration of a profile, whatever it broadcasts. */
  lemma CallsKeepConfiguration(a: Profiles, b: Profiles)
    requires SomeCall(a, b)
    ensures SameConfigurations(a, b)
    ensures exists p :: p in a && EndsReleased(a, b, p) && forall q :: q in a && q != p ==> b[q].terminated == a[q].terminated
  {
    var p, x :| Called(a, b, p, x);
    assert EndsReleased(a, b, p);
  }

  lemma BroadcastsKeepConfiguration(a: Profiles, b: Profiles)
    requires SomeBroadcast(a, b)
    ensures SameConfigurations(a, b) && forall q :: q in a ==> b[q].terminated == a[q].terminated
  {
  }

  lemma ResetsKeepConfiguration(a: Profiles, b: Profiles)
    requires SomeReset(a, b)
    ensures SameConfigurations(a, b) && forall q :: q in a && b[q].terminated ==> a[q].terminated
  {
  }

  lemma SoundHolds(s: Managed)
    requires Sound(s)
    ensures Holds(At(s))
  {
  }


  // ------------------------------------------------ a cached stream as profiles are added

  /** The profiles of before are configured as they were; there may be more. */
  ghost predicate Grown(a: Profiles, b: Profiles) {
    forall p :: p in a ==> p in b && SameConfiguration(a[p], b[p])
  }

  lemma StepGrows(a: Managed, b: Managed)
    requires ManagerStep(a, b)
    ensures Sound(b) && Grown(a.ps, b.ps)
  {
    hide Sound, SomeCall, SomeBroadcast, SomeReset, SameConfiguration;
    if SomeCall(a.ps, b.ps) {
      CallsKeepConfiguration(a.ps, b.ps);
    } else if SomeBroadcast(a.ps, b.ps) {
      BroadcastsKeepConfiguration(a.ps, b.ps);
    } else if SomeReset(a.ps, b.ps) {
      ResetsKeepConfiguration(a.ps, b.ps);
    } else {
      CreationsGrow(a.ps, b.ps);
    }
  }

  lemma CreationsGrow(a: Profiles, b: Profiles)
    requires SomeCreation(a, b)
    ensures Grown(a, b)
  {
    var id, x :| Created(a, b, id, x);
    forall p | p in a ensures p in b && SameConfiguration(a[p], b[p]) {
      assert Evolves(a[id := x][p], b[p], {}, {});
    }
  }

  lemma GrownTransitive(a: Profiles, b: Profiles, c: Profiles)
    requires Grown(a, b) && Grown(b, c)
    ensures Grown(a, c)
  {
  }

  lemma {:induction false} RunGrows(ss: seq<Managed>, k: nat)
    requires ManagerRun(ss) && k < |ss|
    ensures Sound(ss[k]) && Grown(ss[0].ps, ss[k].ps)
  {
    hide Sound, SomeCall, SomeBroadcast, SomeReset, SomeCreation, Grown;
    if k == 0 {
      assert Grown(ss[0].ps, ss[0].ps) by { GrownSelf(ss[0].ps); }
    } else {
      RunGrows(ss, k - 1);
      assert ManagerStep(ss[k-1], ss[k-1+1]);
      StepGrows(ss[k-1], ss[k]);
      GrownTransitive(ss[0].ps, ss[k-1].ps, ss[k].ps);
    }
  }

  lemma GrownSelf(ps: Profiles)
    ensures Grown(ps, ps)
  {
  }

  ghost predicate WaitsForMember(ps: Profiles, stream: seq<(nat, bool)>, p: nat) {
    exists i :: 0 <= i < |stream| && p in Waiters(ps, stream[i].0)
  }

  ghost predicate NewcomersApart(a: Profiles, b: Profiles, stream: seq<(nat, bool)>) {
    forall p :: p in b && p !in a ==> !WaitsForMember(b, stream, p)
  }

  lemma GrownWaiters(a: Profiles, b: Profiles, q: nat)
    requires Grown(a, b)
    ensures forall p :: p in a ==> (p in Waiters(a, q) <==> p in Waiters(b, q))
    ensures Waiters(a, q) <= Waiters(b, q)
  {
  }

  /** A stream stays as configured if and only if no new profile waits for a member. */
  lemma GrownStreamIff(a: Profiles, b: Profiles, stream: seq<(nat, bool)>)
    requires Grown(a, b) && IsStream(a, stream)
    ensures IsStream(b, stream) <==> NewcomersApart(a, b, stream)
  {
    hide Grown, Waiters;
    forall i | 0 <= i < |stream|
      ensures stream[i].0 in a && stream[i].0 in b
      ensures NewcomersApart(a, b, stream) ==> Waiters(b, stream[i].0) == Waiters(a, stream[i].0)
    {
      GrownWaiters(a, b, stream[i].0);
      MemberStays(a, b, stream[i].0);
      if NewcomersApart(a, b, stream) {
        forall p | p in Waiters(b, stream[i].0) ensures p in Waiters(a, stream[i].0) {
          WaitersExist(b, stream[i].0);
          assert p in a || !WaitsForMember(b, stream, p);
        }
      }
    }
    if IsStream(b, stream) && !NewcomersApart(a, b, stream) {
      var p :| p in b && p !in a && WaitsForMember(b, stream, p);
      var i :| 0 <= i < |stream| && p in Waiters(b, stream[i].0);
      NotAMember(a, stream, p);
      assert false;
    }
  }

  lemma MemberStays(a: Profiles, b: Profiles, v: nat)
    requires Grown(a, b) && v in a
    ensures v in b
  {
  }

  lemma NotAMember(ps: Profiles, stream: seq<(nat, bool)>, p: nat)
    requires IsStream(ps, stream) && p !in ps
    ensures !InStream(stream, p)
  {
  }

  lemma WaitersExist(ps: Profiles, q: nat)
    ensures forall p :: p in Waiters(ps, q) ==> p in ps
  {
  }

  /** And what led to a leaf still does. */
  lemma GrownLeads(a: Profiles, b: Profiles, stream: seq<(nat, bool)>, i: nat)
    requires Grown(a, b) && IsStream(a, stream) && IsStream(b, stream) && i < |stream| && LeadsToLeaf(a, stream[i].0)
    ensures LeadsToLeaf(b, stream[i].0)
  {
    hide Waiters, Grown;
    var chain: seq<nat> :| IsChain(a, chain) && chain[0] == stream[i].0 && Waiters(a, chain[|chain|-1]) == {};
    forall k | 0 <= k < |chain| - 1 ensures chain[k+1] in Waiters(b, chain[k]) {
      assert chain[k+1] in Waiters(a, chain[k]);
      GrownWaiters(a, b, chain[k]);
    }
    ChainInStream(a, stream, chain, |chain| - 1);
    var j :| 0 <= j < |stream| && stream[j].0 == chain[|chain|-1];
    assert stream[j].1;
    assert IsChain(b, chain) && Waiters(b, chain[|chain|-1]) == {};
  }

  /** A cached stream all of whose profiles lead to a leaf is answered for truly after any
      calls, broadcasts, resets and creations, as long as it is as configured; which it is
      if and only if no profile created since waits for one of its members. */
  lemma LaterAnswers(ss: seq<Managed>, stream: seq<(nat, bool)>, k: nat)
    requires ManagerRun(ss) && k < |ss| && IsStream(ss[0].ps, stream) && AllLead(ss[0].ps, stream)
    ensures IsStream(ss[k].ps, stream) <==> NewcomersApart(ss[0].ps, ss[k].ps, stream)
    ensures IsStream(ss[k].ps, stream) ==> (LeavesTerminated(ss[k].ps, stream) <==> AllTerminated(ss[k].ps, stream))
  {
    hide IsStream, LeadsToLeaf, Grown, Possible, NewcomersApart;
    RunGrows(ss, k);
    GrownStreamIff(ss[0].ps, ss[k].ps, stream);
    if IsStream(ss[k].ps, stream) && LeavesTerminated(ss[k].ps, stream) {
      forall i | 0 <= i < |stream| ensures LeadsToLeaf(ss[k].ps, stream[i].0) {
        GrownLeads(ss[0].ps, ss[k].ps, stream, i);
      }
      ValidPossible(ss[k].ps, ss[k].subs, ss[k].nt);
      LeafTestMeans(ss[k].ps, stream);
    }
  }
}
