/** The run in which profiles terminate in a given order, and with it the exact condition
    under which the leaves of a stream speak for all of it. */
module LeafTests {
  import opened EventModel
  import opened ProfileModel
  import opened StreamModel
  import opened StreamRuns

  // --------------------------------------------------------- one profile terminates

  /** The only waits that keep a profile from terminating are those for a TERMINATION;
      the ACTIVATION of a profile itself comes from outside. */
  predicate Plain(v: nat, x: Profile) {
    forall e :: e in Elements(x.em.retained) && e.kind != TERMINATION ==>
      x.role != CHECKER && (CategoryOf(e.kind) == PROFILE ==> e == Event(ACTIVATION, v))
  }

  /** A master that waits for no profile has started. */
  function Awake(x: Profile, now: nat): Profile {
    if x.role == MASTER && !x.started && WaitCount(x, PROFILE) == 0 then x.(started := true, startTime := now) else x
  }

  /** A profile when p announces its TERMINATION. */
  function Heard(x: Profile, p: nat, now: nat): Profile
    requires Counted(x.em)
  {
    Awake(Receipt(x, Event(TERMINATION, p)), now)
  }

  /** A profile that was activated, has sent all it was to, got its responses, and has
      terminated by now. */
  function Finished(v: nat, x: Profile, now: nat): Profile
    requires Counted(x.em)
  {
    var r := AfterReceive(x.em, Event(ACTIVATION, v));
    x.(em := r.(sent := r.sent[PROFILE := Last(TERMINATION, now)]), started := true,
       startTime := if x.started then x.startTime else now, terminated := true,
       sent := if x.role == MASTER && x.toSend > 0 then x.toSend else x.sent, ot := 0, halted := false)
  }

  /** The run so far: what waits, waits for what has not terminated, as configured. */
  ghost predicate Underway(m: Moment) {
    && Holds(m)
    && forall p :: p in m.ps ==>
         && Plain(p, m.ps[p])
         && m.ps[p].em.waited <= Elements(m.ps[p].em.retained)
         && (m.ps[p].started ==> m.ps[p].startTime <= m.now)
         && forall e :: e in m.ps[p].em.waited && e.kind == TERMINATION ==> !(e.id in m.ps && m.ps[e.id].terminated)
  }

  /** v terminates; all others hear of it. */
  ghost predicate Ready(m: Moment, v: nat) {
    Underway(m) && MayEnd(m.ps, v) && !m.ps[v].terminated
  }

  lemma UnderwayGood(m: Moment, q: nat)
    requires Underway(m) && q in m.ps
    ensures Good(m.ps[q]) && Counted(m.ps[q].em) && Plain(q, m.ps[q])
    ensures m.ps[q].em.waited <= Elements(m.ps[q].em.retained) && (m.ps[q].started ==> m.ps[q].startTime <= m.now)
  {
  }

  ghost function Next(m: Moment, v: nat): Moment
    requires Ready(m, v)
  {
    var later := m.now + m.ps[v].toStop;
    Moment(map q | q in m.ps ::
             UnderwayGood(m, q);
             if q == v then Finished(v, m.ps[v], m.now) else Heard(m.ps[q], v, later),
           later)
  }

  lemma AwakeGood(x: Profile, now: nat)
    requires Good(x)
    ensures Good(Awake(x, now)) && SameConfiguration(x, Awake(x, now))
  {
    CountZero(x.em, PROFILE);
  }

  lemma HeardFacts(x: Profile, p: nat, now: nat)
    requires Good(x) && Counted(x.em)
    ensures var y := Heard(x, p, now);
            && Good(y) && SameConfiguration(x, y) && y.terminated == x.terminated
            && y.em.waited == x.em.waited - From(x.em.waited, p)
            && (x.started ==> y.started && y.startTime == x.startTime) && (!x.started && y.started ==> y.startTime == now)
            && y.sent == x.sent && y.ot == x.ot
  {
    var ev := Event(TERMINATION, p);
    ReceiveGood(x, ev);
    HeardReleased(x, ev);
    AwakeGood(Receipt(x, ev), now);
  }

  lemma HeardReleased(x: Profile, ev: Event)
    requires Good(x) && ev.kind == TERMINATION && Good(x.(em := AfterReceive(x.em, ev)))
    ensures Good(Receipt(x, ev))
  {
  }

  lemma FinishedGood(v: nat, x: Profile, now: nat)
    requires Good(x) && Counted(x.em) && Plain(v, x) && x.em.waited <= Elements(x.em.retained) && x.role != SLAVE
    requires forall e :: e in x.em.waited ==> e.kind != TERMINATION
    ensures var y := Finished(v, x, now);
            && Good(y) && SameConfiguration(x, y) && y.terminated && y.em.waited <= x.em.waited
            && NoProfileWaits(y)
  {
    var ev := Event(ACTIVATION, v);
    ReceiveGood(x, ev);
    var y := Finished(v, x, now);
    assert y.em.waited == x.em.waited - ReleasedBy(x.em.waited, ev);
    SentCounted(AfterReceive(x.em, ev), Last(TERMINATION, now));
    forall e | e in y.em.waited ensures CategoryOf(e.kind) != PROFILE {
      assert e in Elements(x.em.retained);
    }
  }

  lemma SentCounted(m: Waits, last: Last)
    requires Counted(m)
    ensures Counted(m.(sent := m.sent[PROFILE := last]))
  {
  }

  /** What becomes of profile q when v terminates. */
  ghost predicate Becomes(m: Moment, n: Moment, v: nat, q: nat)
    requires q in m.ps && q in n.ps
  {
    var x, y := m.ps[q], n.ps[q];
    && Good(y) && SameConfiguration(x, y) && StaysAtEnd(y, n.now) && Plain(q, y)
    && y.terminated == (x.terminated || q == v)
    && y.em.waited <= x.em.waited && Event(TERMINATION, v) !in y.em.waited
    && (forall e :: e in x.em.waited && e.kind == TERMINATION && e !in y.em.waited ==> e.id == v)
    && (y.started ==> y.startTime <= n.now)
  }

  lemma EndsBecomes(m: Moment, n: Moment, v: nat)
    requires Ready(m, v) && v in n.ps && Counted(m.ps[v].em) && n.ps[v] == Finished(v, m.ps[v], m.now)
    requires n.now == m.now + m.ps[v].toStop
    ensures Becomes(m, n, v, v)
  {
    hide Good, Plain, Finished;
    UnderwayGood(m, v);
    NothingAwaited(m, v);
    FinishedGood(v, m.ps[v], m.now);
    FinishedAtEnd(v, m.ps[v], m.now);
    SamePlain(v, m.ps[v], n.ps[v]);
  }

  lemma HeardBecomes(m: Moment, n: Moment, v: nat, q: nat)
    requires Ready(m, v) && q in m.ps && q in n.ps && q != v && m.now <= n.now
    requires Counted(m.ps[q].em) && n.ps[q] == Heard(m.ps[q], v, n.now)
    ensures Becomes(m, n, v, q)
  {
    hide Good, Plain, Heard, StaysAtEnd;
    UnderwayGood(m, q);
    HeardFacts(m.ps[q], v, n.now);
    LaterAtEnd(m.ps[q], n.ps[q], m.now, n.now);
    SamePlain(q, m.ps[q], n.ps[q]);
  }

  lemma NextFields(m: Moment, v: nat)
    requires Ready(m, v)
    ensures var n := Next(m, v);
            && v in m.ps && n.now == m.now + m.ps[v].toStop && n.ps.Keys == m.ps.Keys
            && (forall q :: q in m.ps ==> Counted(m.ps[q].em))
            && n.ps[v] == Finished(v, m.ps[v], m.now)
            && forall q :: q in m.ps && q != v ==> n.ps[q] == Heard(m.ps[q], v, n.now)
  {
    hide Good, Heard, Finished, Underway, Holds;
    forall q | q in m.ps ensures Counted(m.ps[q].em) {
      UnderwayGood(m, q);
    }
  }

  ghost predicate Continues(a: Moment, b: Moment) {
    SameConfigurations(a.ps, b.ps) && a.now <= b.now
  }

  /** The run goes on, and v has terminated. */
  lemma NextGoesOn(m: Moment, v: nat)
    requires Ready(m, v)
    ensures Continues(m, Next(m, v)) && Underway(Next(m, v))
    ensures Next(m, v).ps.Keys == m.ps.Keys
    ensures forall q :: q in m.ps ==> Next(m, v).ps[q].terminated == (m.ps[q].terminated || q == v)
  {
    hide Good, Heard, Finished, Becomes, Underway, Continues, Next, MayEnd;
    var n := Next(m, v);
    NextFields(m, v);
    forall q | q in m.ps ensures Becomes(m, n, v, q) {
      UnderwayGood(m, q);
      if q == v { EndsBecomes(m, n, v); } else { HeardBecomes(m, n, v, q); }
    }
    NextHolds(m, n, v);
  }

  lemma SamePlain(v: nat, x: Profile, y: Profile)
    requires Plain(v, x) && SameConfiguration(x, y)
    ensures Plain(v, y)
  {
  }

  lemma NothingAwaited(m: Moment, v: nat)
    requires Ready(m, v)
    ensures forall e :: e in m.ps[v].em.waited ==> e.kind != TERMINATION
  {
  }

  lemma FinishedAtEnd(v: nat, x: Profile, now: nat)
    requires Counted(x.em) && Limited(x) && (x.started ==> x.startTime <= now)
    ensures StaysAtEnd(Finished(v, x, now), now + x.toStop)
    ensures Finished(v, x, now).startTime <= now
  {
  }

  lemma LaterAtEnd(x: Profile, y: Profile, now: nat, later: nat)
    requires StaysAtEnd(x, now) && now <= later && SameConfiguration(x, y) && y.terminated == x.terminated
    requires x.started ==> y.started && y.startTime == x.startTime
    requires y.sent == x.sent
    ensures StaysAtEnd(y, later)
  {
  }

  lemma NextHolds(m: Moment, n: Moment, v: nat)
    requires Ready(m, v) && n.ps.Keys == m.ps.Keys && m.now <= n.now
    requires forall q :: q in m.ps ==> Becomes(m, n, v, q)
    ensures Continues(m, n) && Underway(n)
    ensures forall q :: q in m.ps ==> n.ps[q].terminated == (m.ps[q].terminated || q == v)
  {
    hide Good, Plain, StaysAtEnd;
  }

  // the start

  /** All configured waits pending, no progress. */
  function Waiting(x: Profile): Profile {
    x.(em := AfterReset(x.em), started := false, terminated := false, sent := 0, ot := 0, halted := false)
  }

  ghost function Fresh(ps: Profiles): Moment {
    Moment(map p | p in ps :: Awake(Waiting(ps[p]), 0), 0)
  }

  lemma WaitingGood(x: Profile)
    requires Good(x)
    ensures Good(Waiting(x)) && Waiting(x).em.waited == Elements(x.em.retained) && SameConfiguration(x, Waiting(x))
  {
    ResetCounted(x.em);
  }

  lemma FreshUnderway(ps: Profiles)
    requires forall p :: p in ps ==> Good(ps[p]) && Plain(p, ps[p])
    ensures Underway(Fresh(ps)) && Start(Stage(Fresh(ps), 0, [])) && SameConfigurations(ps, Fresh(ps).ps)
  {
    hide Good, Plain, Waiting, Awake;
    var m := Fresh(ps);
    forall p | p in ps
      ensures Good(m.ps[p]) && SameConfiguration(ps[p], m.ps[p]) && Plain(p, m.ps[p])
      ensures !m.ps[p].terminated && m.ps[p].em.waited == Elements(m.ps[p].em.retained)
      ensures m.ps[p].started ==> m.ps[p].startTime == 0
    {
      WaitingGood(ps[p]);
      AwakeGood(Waiting(ps[p]), 0);
      SameThrough(ps[p], Waiting(ps[p]), m.ps[p]);
      SamePlain(p, ps[p], m.ps[p]);
      AwakeFields(ps[p]);
    }
  }

  lemma SameThrough(x: Profile, y: Profile, z: Profile)
    requires SameConfiguration(x, y) && SameConfiguration(y, z)
    ensures SameConfiguration(x, z)
  {
  }

  lemma AwakeFields(x: Profile)
    ensures var y := Awake(Waiting(x), 0);
            !y.terminated && y.em == Waiting(x).em && (y.started ==> y.startTime == 0)
  {
  }

  // ------------------------------------------------------- a run that keeps to an order

  ghost function Final(ss: seq<Stage>): Stage
    requires ss != []
  {
    ss[|ss|-1]
  }

  /** A run of this configuration, with nothing but TERMINATIONs to wait for. */
  ghost predicate Playing(ps: Profiles, ss: seq<Stage>) {
    && ss != [] && Run(ss) && SameConfigurations(ps, ss[0].m.ps)
    && Underway(Final(ss).m) && SameConfigurations(ps, Final(ss).m.ps) && Passing(ps, Final(ss))
  }

  lemma PlayOn(ps: Profiles, ss: seq<Stage>, t: Stage)
    requires Playing(ps, ss) && Step(Final(ss), t) && Underway(t.m)
    ensures Playing(ps, ss + [t])
  {
    hide Underway, Start, Lapses, Moves, Asks, Holds, SameConfigurations, Passing;
    var more := ss + [t];
    forall i | 0 <= i < |more| - 1 ensures Step(more[i], more[i+1]) {
      if i < |ss| - 1 { assert Step(ss[i], ss[i+1]); }
    }
    SameTransitive(ps, Final(ss).m.ps, t.m.ps);
    StepPasses(ps, Final(ss), t);
  }

  /** Only checkers have terminated in between. */
  ghost predicate OnlyCheckersMore(a: Profiles, b: Profiles) {
    && (forall v :: Terminated(a, v) ==> Terminated(b, v))
    && (forall v :: Terminated(b, v) && !Terminated(a, v) ==> v in a && a[v].role == CHECKER)
  }

  lemma NothingAwaitedIff(m: Moment, c: nat)
    requires Underway(m) && c in m.ps && m.ps[c].role == CHECKER
    ensures m.ps[c].em.waited == {} <==> AwaitedEnds(m.ps, m.ps[c])
  {
    hide Good, StaysAtEnd;
    assert Plain(c, m.ps[c]);
    if e :| e in m.ps[c].em.waited {
      assert e in Elements(m.ps[c].em.retained) && e.kind == TERMINATION && !Terminated(m.ps, e.id);
    }
  }

  /** The next checker is told of the packet. */
  lemma AskOne(s: Stage) returns (t: Stage)
    requires Underway(s.m) && s.toAsk != []
    ensures Step(s, t) && Underway(t.m) && t.source == s.source && t.toAsk == s.toAsk[1..]
    ensures SameConfigurations(s.m.ps, t.m.ps) && OnlyCheckersMore(s.m.ps, t.m.ps)
    ensures var c := s.toAsk[0];
            c in s.m.ps && s.m.ps[c].role == CHECKER && AwaitedEnds(s.m.ps, s.m.ps[c]) ==> Terminated(t.m.ps, c)
  {
    hide Underway, Good, StaysAtEnd, Next, AwaitedEnds;
    var c := s.toAsk[0];
    assert Holds(s.m) by { UnderwayHolds(s.m); }
    if WaitsForNothing(s.m.ps, c) && !Terminated(s.m.ps, c) {
      NothingAwaitedIff(s.m, c);
      NextGoesOn(s.m, c);
      t := Stage(Next(s.m, c), s.source, s.toAsk[1..]);
      assert Holds(t.m) by { UnderwayHolds(t.m); }
      assert Asks(s, t);
    } else {
      t := Stage(s.m, s.source, s.toAsk[1..]);
      if c in s.m.ps && s.m.ps[c].role == CHECKER { NothingAwaitedIff(s.m, c); }
      assert Asks(s, t);
    }
  }

  lemma UnderwayHolds(m: Moment)
    requires Underway(m)
    ensures Holds(m)
  {
  }

  /** Checkers are told of the packet until n are left. */
  lemma {:induction false} AskUntil(ps: Profiles, ss: seq<Stage>, n: nat) returns (more: seq<Stage>)
    requires Playing(ps, ss) && n <= |Final(ss).toAsk|
    ensures Playing(ps, more) && more[0] == ss[0]
    ensures |Final(more).toAsk| == n && Final(more).source == Final(ss).source
    ensures OnlyCheckersMore(Final(ss).m.ps, Final(more).m.ps)
    decreases |Final(ss).toAsk|
  {
    hide Step, Underway, Run, SameConfigurations, Passing, Terminated, Holds;
    if n == |Final(ss).toAsk| {
      more := ss;
    } else {
      var t := AskOne(Final(ss));
      PlayOn(ps, ss, t);
      var longer := ss + [t];
      assert Final(longer) == t;
      more := AskUntil(ps, longer, n);
      CheckersTransitive(Final(ss).m.ps, t.m.ps, Final(more).m.ps);
    }
  }

  lemma CheckersTransitive(a: Profiles, b: Profiles, c: Profiles)
    requires SameConfigurations(a, b)
    requires OnlyCheckersMore(a, b) && OnlyCheckersMore(b, c)
    ensures OnlyCheckersMore(a, c)
  {
  }

  /** The packet that passes is the last of what the order ends with, told no further than
      to the checkers of the order. */
  ghost predicate AtSource(ps: Profiles, s: Stage, o: seq<nat>) {
    forall i: nat, k: nat :: ToldAfter(ps, o, i, k) ==> s.source == o[i] && |ps[o[i]].asked| <= |s.toAsk| + k
  }

  /** Those of the order have terminated, and at most some checkers besides. */
  ghost predicate EndedThose(ps: Profiles, m: Moment, o: seq<nat>) {
    && (forall v :: v in o ==> Terminated(m.ps, v))
    && (forall v :: Terminated(m.ps, v) && v !in o ==> v in ps && ps[v].role == CHECKER)
  }

  ghost predicate Played(ps: Profiles, ss: seq<Stage>, o: seq<nat>) {
    Playing(ps, ss) && EndedThose(ps, Final(ss).m, o) && AtSource(ps, Final(ss), o)
  }

  lemma ThoseAndMore(ps: Profiles, a: Moment, b: Moment, o: seq<nat>)
    requires SameConfigurations(ps, a.ps) && EndedThose(ps, a, o) && OnlyCheckersMore(a.ps, b.ps)
    ensures EndedThose(ps, b, o)
  {
  }

  /** Released, and not terminated yet. */
  lemma NextReady(ps: Profiles, m: Moment, o: seq<nat>, v: nat)
    requires Underway(m) && SameConfigurations(ps, m.ps) && EndedThose(ps, m, o)
    requires EndsNext(ps, o, v)
    ensures v in m.ps && AwaitedEnds(m.ps, m.ps[v])
    ensures ps[v].role != CHECKER ==> Ready(m, v)
  {
    hide Underway;
    assert ps[v].em.retained == m.ps[v].em.retained;
  }

  /** v terminates; if its requests expect responses, that was the last of them. */
  lemma EndOne(ps: Profiles, s: Stage, o: seq<nat>, v: nat) returns (t: Stage)
    requires Underway(s.m) && s.toAsk == [] && SameConfigurations(ps, s.m.ps) && EndedThose(ps, s.m, o)
    requires v in ps && ps[v].role != CHECKER && Ready(s.m, v)
    ensures Step(s, t) && Underway(t.m) && EndedThose(ps, t.m, o + [v]) && AtSource(ps, t, o + [v])
  {
    hide Underway, Ready, Next, AtSource, SameConfiguration, StaysAtEnd, MayEnd, EndedThose, Good, ToldAfter;
    ReadyMayEnd(s.m, v);
    NextGoesOn(s.m, v);
    var m := Next(s.m, v);
    var passes := ps[v].role == MASTER && ps[v].acknowledged;
    SameAsked(ps, s.m.ps, v);
    t := Stage(m, v, if passes then ps[v].asked else []);
    UnderwayHolds(m);
    assert Moves(s, t, v);
    OneMoreEnded(ps, s.m, m, o, v);
    NewSource(ps, t, o, v);
  }

  lemma PlayOther(ps: Profiles, ss: seq<Stage>, o: seq<nat>, v: nat) returns (more: seq<Stage>)
    requires Played(ps, ss, o) && EndsNext(ps, o, v) && ps[v].role != CHECKER
    ensures Played(ps, more, o + [v]) && more[0] == ss[0]
  {
    hide Underway, Ready, EndsNext, AtSource, Run, Step, SameConfigurations, EndedThose, Passing;
    more := AskUntil(ps, ss, 0);
    var s := Final(more);
    ThoseAndMore(ps, Final(ss).m, s.m, o);
    NextReady(ps, s.m, o, v);
    NextExists(ps, o, v);
    var t := EndOne(ps, s, o, v);
    PlayOn(ps, more, t);
    more := more + [t];
  }

  lemma ReadyMayEnd(m: Moment, v: nat)
    requires Ready(m, v)
    ensures MayEnd(m.ps, v) && v in m.ps && !m.ps[v].terminated && Underway(m)
  {
  }

  lemma SameAsked(a: Profiles, b: Profiles, v: nat)
    requires SameConfigurations(a, b) && v in a
    ensures v in b && a[v].asked == b[v].asked && a[v].role == b[v].role && a[v].acknowledged == b[v].acknowledged
  {
  }

  lemma OneMoreEnded(ps: Profiles, a: Moment, b: Moment, o: seq<nat>, v: nat)
    requires EndedThose(ps, a, o) && a.ps.Keys == b.ps.Keys && v in a.ps
    requires forall q :: q in a.ps ==> b.ps[q].terminated == (a.ps[q].terminated || q == v)
    ensures EndedThose(ps, b, o + [v])
  {
  }

  lemma NewSource(ps: Profiles, t: Stage, o: seq<nat>, v: nat)
    requires v in ps && ps[v].role != CHECKER && t.source == v
    requires ps[v].role == MASTER && ps[v].acknowledged ==> t.toAsk == ps[v].asked
    ensures AtSource(ps, t, o + [v])
  {
    var more := o + [v];
    assert more[|o|] == v;
  }

  lemma PlayChecker(ps: Profiles, ss: seq<Stage>, o: seq<nat>, c: nat) returns (more: seq<Stage>)
    requires Played(ps, ss, o) && EndsNext(ps, o, c) && ps[c].role == CHECKER && AskedInOrder(ps)
    ensures Played(ps, more, o + [c]) && more[0] == ss[0]
  {
    hide Underway, AtSource, Run, Step, SameConfiguration, EndedThose, AwaitedEnds, AskedInOrder, ToldAfter,
         Never, Passing;
    var i: nat, k: nat :| ToldLast(ps, o, c, i, k);
    SourceAt(ps, Final(ss), o, i, k);
    var asked := ps[o[i]].asked;
    more := AskUntil(ps, ss, |asked| - k);
    var s := Final(more);
    ThoseAndMore(ps, Final(ss).m, s.m, o);
    NextReady(ps, s.m, o, c);
    SameAsked(ps, s.m.ps, c);
    LeftToAsk(ps, s, k);
    var t := AskOne(s);
    PlayOn(ps, more, t);
    more := more + [t];
    ThoseAndMore(ps, s.m, t.m, o);
    assert EndedThose(ps, t.m, o + [c]) by { CheckerEnded(ps, t.m, o, c); }
    SourceStays(ps, Final(ss), t, o, c, i, k);
  }

  lemma SourceAt(ps: Profiles, s: Stage, o: seq<nat>, i: nat, k: nat)
    requires AtSource(ps, s, o) && ToldAfter(ps, o, i, k)
    ensures i < |o| && s.source == o[i] && o[i] in ps && k <= |ps[o[i]].asked| <= |s.toAsk| + k
  {
  }

  lemma LeftToAsk(ps: Profiles, s: Stage, k: nat)
    requires Passing(ps, s) && s.source in ps && k < |ps[s.source].asked| && |s.toAsk| == |ps[s.source].asked| - k
    ensures s.toAsk[0] == ps[s.source].asked[k]
  {
  }

  lemma CheckerEnded(ps: Profiles, m: Moment, o: seq<nat>, c: nat)
    requires EndedThose(ps, m, o) && Terminated(m.ps, c)
    ensures EndedThose(ps, m, o + [c])
  {
  }

  lemma SourceStays(ps: Profiles, s: Stage, t: Stage, o: seq<nat>, c: nat, i: nat, k: nat)
    requires AtSource(ps, s, o) && ToldLast(ps, o, c, i, k) && AskedInOrder(ps) && c in ps && ps[c].role == CHECKER
    requires t.source == s.source && |t.toAsk| == |ps[o[i]].asked| - k - 1
    ensures AtSource(ps, t, o + [c])
  {
    var more := o + [c];
    var asked := ps[o[i]].asked;
    SourceAt(ps, s, o, i, k);
    forall j: nat, n: nat | ToldAfter(ps, more, j, n)
      ensures t.source == more[j] && |ps[more[j]].asked| <= |t.toAsk| + n {
      assert more[|o|] == c;
      assert j < |o|;
      assert more[j] == o[j];
      assert ToldAfter(ps, o, j, n) by {
        forall l | j < l < |o| ensures o[l] in ps[o[j]].asked[..n] && o[l] in ps && ps[o[l]].role == CHECKER {
          assert more[l] == o[l];
        }
      }
      SourceAt(ps, s, o, j, n);
      var x: nat :| x < n && ps[o[j]].asked[x] == c;
      assert x == k;
    }
  }

  /** A run in which the profiles of an order have terminated in the end. */
  lemma {:induction false} Play(ps: Profiles, o: seq<nat>) returns (ss: seq<Stage>)
    requires (forall p :: p in ps ==> Good(ps[p]) && Plain(p, ps[p])) && AskedInOrder(ps) && InOrder(ps, o)
    ensures Played(ps, ss, o) && ss[0] == Stage(Fresh(ps), 0, [])
  {
    hide Good, Plain, Played, EndsNext, AskedInOrder, Fresh;
    if o == [] {
      ss := [Stage(Fresh(ps), 0, [])];
      assert Played(ps, ss, o) by { NothingPlayed(ps); }
    } else {
      var v := o[|o|-1];
      ss := Play(ps, o[..|o|-1]);
      assert o[..|o|-1] + [v] == o;
      assert v in ps by { NextExists(ps, o[..|o|-1], v); }
      if ps[v].role == CHECKER {
        ss := PlayChecker(ps, ss, o[..|o|-1], v);
      } else {
        ss := PlayOther(ps, ss, o[..|o|-1], v);
      }
    }
  }

  lemma NextExists(ps: Profiles, o: seq<nat>, v: nat)
    requires EndsNext(ps, o, v)
    ensures v in ps
  {
  }

  lemma NothingPlayed(ps: Profiles)
    requires forall p :: p in ps ==> Good(ps[p]) && Plain(p, ps[p])
    ensures Played(ps, [Stage(Fresh(ps), 0, [])], [])
  {
    hide Good, Plain, Fresh, Underway;
    FreshUnderway(ps);
  }

  // ------------------------------------------------------------------ the exact condition

  ghost predicate EndsIn(ps: Profiles, ss: seq<Stage>, all: set<nat>) {
    && Run(ss) && SameConfigurations(ps, ss[0].m.ps)
    && forall v :: v in all ==> Terminated(Final(ss).m.ps, v)
  }

  /** Profiles all terminate in some run if and only if there is an order for them. */
  lemma CanAllEndIff(ps: Profiles, all: set<nat>)
    requires (forall p :: p in ps ==> Good(ps[p]) && Plain(p, ps[p])) && CheckersSet(ps) && Closed(ps, all)
    ensures CanAllEnd(ps, all) <==> exists ss: seq<Stage> :: EndsIn(ps, ss, all)
  {
    hide Good, Plain, InOrder, AskedInOrder, Closed, Played;
    if CanAllEnd(ps, all) {
      var ss := PlayAll(ps, all);
    }
    if ss: seq<Stage> :| EndsIn(ps, ss, all) {
      var o := RunEndsInOrder(ps, ss, |ss| - 1, all);
    }
  }

  lemma PlayAll(ps: Profiles, all: set<nat>) returns (ss: seq<Stage>)
    requires (forall p :: p in ps ==> Good(ps[p]) && Plain(p, ps[p])) && CheckersSet(ps) && CanAllEnd(ps, all)
    ensures EndsIn(ps, ss, all) && ss[0] == Stage(Fresh(ps), 0, [])
  {
    hide Good, Plain, InOrder, AskedInOrder, Fresh, AtSource, Run;
    var o: seq<nat> :| InOrder(ps, o) && SetOf(o) == all;
    ss := Play(ps, o);
    forall v | v in all ensures Terminated(Final(ss).m.ps, v) {
      assert v in SetOf(o);
    }
  }

  /** Profiles of the stream that lead to no leaf wait for each other without end. */
  lemma {:induction false} UnledWaits(ps: Profiles, stream: seq<(nat, bool)>, i: nat, n: nat) returns (v: nat)
    requires IsStream(ps, stream) && i < |stream| && !LeadsToStreamLeaf(ps, stream, stream[i].0)
    ensures InStream(stream, v) && !LeadsToStreamLeaf(ps, stream, v) && !CanEndWithin(ps, v, n)
    decreases n
  {
    hide LeadsToStreamLeaf;
    if n == 0 {
      v := stream[i].0;
    } else {
      var w := UnledWaits(ps, stream, i, n - 1);
      var j :| 0 <= j < |stream| && stream[j].0 == w;
      if stream[j].1 { LeafLeads(ps, stream, j); }
      assert Waiters(ps, w) != {};
      v :| v in Waiters(ps, w);
      if LeadsToStreamLeaf(ps, stream, v) { LeadsBack(ps, stream, w, v); }
    }
  }

  lemma LeavesLead(ps: Profiles, stream: seq<(nat, bool)>, last: Profiles)
    requires IsStream(ps, stream) && forall v :: v in Leading(ps, stream) ==> Terminated(last, v)
    ensures LeavesTerminated(last, stream)
  {
    hide LeadsToStreamLeaf;
    forall i | 0 <= i < |stream| && stream[i].1 ensures Terminated(last, stream[i].0) {
      LeafLeads(ps, stream, i);
    }
  }

  /** Where the condition fails, a run that goes wrong: from the start, one profile after
      the other terminates, and the checkers it is told to, until every leaf has and some
      profile of the stream has not. */
  lemma UnledStreamUnsound(ps: Profiles, stream: seq<(nat, bool)>) returns (ss: seq<Stage>)
    requires (forall p :: p in ps ==> Good(ps[p]) && Plain(p, ps[p])) && IsStream(ps, stream) && CheckersSet(ps)
    requires !AllLead(ps, stream) && CanAllEnd(ps, Leading(ps, stream))
    ensures Run(ss) && ss[0] == Stage(Fresh(ps), 0, []) && SameConfigurations(ps, ss[0].m.ps)
    ensures LeavesTerminated(Final(ss).m.ps, stream) && !AllTerminated(Final(ss).m.ps, stream)
  {
    hide Good, Plain, IsStream, InOrder, CheckersSet, Fresh, LeadsToLeaf, LeadsToStreamLeaf, CanAllEnd, CanEnd, Leading;
    ss := PlayAll(ps, Leading(ps, stream));
    LeavesLead(ps, stream, Final(ss).m.ps);
    var i :| 0 <= i < |stream| && !LeadsToLeaf(ps, stream[i].0);
    if LeadsToStreamLeaf(ps, stream, stream[i].0) {
      NotLeading(ps, stream, stream[i].0);
    }
    var v := UnledWaits(ps, stream, i, |ps.Keys|);
    StuckIff(ps, v);
    RunEndedCould(ps, ss, |ss| - 1);
    assert !Terminated(Final(ss).m.ps, v);
    var j :| 0 <= j < |stream| && stream[j].0 == v;
  }

  /** The leaf test of a configuration is right in every run if and only if every profile
      of the stream leads to a leaf, cycles or not, or there is no order in which all that
      leads to leaves can terminate. */
  lemma LeafTestSoundIff(ps: Profiles, stream: seq<(nat, bool)>)
    requires (forall p :: p in ps ==> Good(ps[p])) && IsStream(ps, stream) && CheckersSet(ps)
    ensures AllLead(ps, stream) || !CanAllEnd(ps, Leading(ps, stream)) ==> LeafTestSound(ps, stream)
    ensures (forall p :: p in ps ==> Plain(p, ps[p])) ==>
              (LeafTestSound(ps, stream) <==> AllLead(ps, stream) || !CanAllEnd(ps, Leading(ps, stream)))
  {
    hide Good, Plain, IsStream, AllLead, CanAllEnd, Leading, CheckersSet, Start, Step, SameConfigurations, LeavesTerminated,
         AllTerminated;
    if AllLead(ps, stream) || !CanAllEnd(ps, Leading(ps, stream)) {
      forall ss: seq<Stage>
        | Run(ss) && SameConfigurations(ps, ss[0].m.ps) && LeavesTerminated(ss[|ss|-1].m.ps, stream)
        ensures AllTerminated(ss[|ss|-1].m.ps, stream)
      {
        LeafTestRight(ps, stream, ss);
      }
    } else if forall p :: p in ps ==> Plain(p, ps[p]) {
      var ss := UnledStreamUnsound(ps, stream);
    }
  }
}
