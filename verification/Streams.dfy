/** Streams: the profiles that wait, directly or through others, for the TERMINATION of a
    root.  They are found by a breadth-first search of the subscriptions, and the whole
    stream is declared terminated by looking at its leaves only. */
module StreamModel {
  import opened EventModel
  import opened ProfileModel

  // ------------------------------------------------------ streams as configured

  /** The profiles that are configured to wait for the TERMINATION of q. */
  ghost function Waiters(ps: Profiles, q: nat): set<nat> {
    set p | p in ps && Event(TERMINATION, q) in Elements(ps[p].em.retained)
  }

  /** A list of nodes that is closed under waiting, with exactly its leaves marked. */
  ghost predicate IsStream(ps: Profiles, stream: seq<(nat, bool)>) {
    && (forall i :: 0 <= i < |stream| ==> stream[i].0 in ps)
    && (forall i, p :: 0 <= i < |stream| && p in Waiters(ps, stream[i].0) ==> InStream(stream, p))
    && (forall i :: 0 <= i < |stream| ==> (stream[i].1 <==> Waiters(ps, stream[i].0) == {}))
  }

  predicate InStream(stream: seq<(nat, bool)>, p: nat) {
    exists i :: 0 <= i < |stream| && stream[i].0 == p
  }

  ghost predicate LeavesTerminated(ps: Profiles, stream: seq<(nat, bool)>) {
    forall i :: 0 <= i < |stream| && stream[i].1 ==> stream[i].0 in ps && ps[stream[i].0].terminated
  }

  ghost predicate AllTerminated(ps: Profiles, stream: seq<(nat, bool)>) {
    forall i :: 0 <= i < |stream| ==> stream[i].0 in ps && ps[stream[i].0].terminated
  }

  // ------------------------------------------------- when the leaf test is sound

  /** Each profile of the chain is configured to wait for the one before it. */
  ghost predicate IsChain(ps: Profiles, chain: seq<nat>) {
    chain != [] && forall i :: 0 <= i < |chain| - 1 ==> chain[i+1] in Waiters(ps, chain[i])
  }

  /** A profile that nobody waits for is reached from v along the waits. */
  ghost predicate LeadsToLeaf(ps: Profiles, v: nat) {
    exists chain: seq<nat> :: IsChain(ps, chain) && chain[0] == v && Waiters(ps, chain[|chain|-1]) == {}
  }

  ghost predicate AllLead(ps: Profiles, stream: seq<(nat, bool)>) {
    forall i :: 0 <= i < |stream| ==> LeadsToLeaf(ps, stream[i].0)
  }

  ghost predicate SameConfigurations(a: Profiles, b: Profiles) {
    a.Keys == b.Keys && forall p :: p in a ==> SameConfiguration(a[p], b[p])
  }

  /** A state the profiles may be in, as far as their waits are concerned. */
  ghost predicate Possible(ps: Profiles) {
    (forall p :: p in ps ==> Good(ps[p])) && Chained(ps, {}, {})
  }

  /** If the last profile of a chain has terminated, so has the first. */
  lemma {:induction false} ChainTerminated(ps: Profiles, chain: seq<nat>)
    requires Possible(ps) && IsChain(ps, chain)
    requires chain[|chain|-1] in ps && ps[chain[|chain|-1]].terminated
    ensures chain[0] in ps && ps[chain[0]].terminated
  {
    if |chain| > 1 {
      var rest := chain[1..];
      forall i | 0 <= i < |rest| - 1 ensures rest[i+1] in Waiters(ps, rest[i]) {
        var k := i + 1;
        assert chain[k+1] in Waiters(ps, chain[k]);
      }
      ChainTerminated(ps, rest);
      assert chain[1] in Waiters(ps, chain[0]);
      assert NoProfileWaits(ps[chain[1]]);
      assert Event(TERMINATION, chain[0]) !in ps[chain[1]].em.waited;
    }
  }

  /** A chain that starts in a stream stays in it. */
  lemma {:induction false} ChainInStream(ps: Profiles, stream: seq<(nat, bool)>, chain: seq<nat>, k: nat)
    requires IsStream(ps, stream) && IsChain(ps, chain) && InStream(stream, chain[0]) && k < |chain|
    ensures InStream(stream, chain[k])
  {
    if k > 0 {
      ChainInStream(ps, stream, chain, k - 1);
      var i :| 0 <= i < |stream| && stream[i].0 == chain[k-1];
      assert chain[k] in Waiters(ps, chain[k-1]);
    }
  }

  /** Only the leaves are tested, yet when they have terminated so has every profile that
      leads to one of them. */
  lemma StreamTerminationSound(ps: Profiles, stream: seq<(nat, bool)>, i: nat)
    requires Possible(ps) && IsStream(ps, stream) && LeavesTerminated(ps, stream)
    requires i < |stream| && LeadsToLeaf(ps, stream[i].0)
    ensures stream[i].0 in ps && ps[stream[i].0].terminated
  {
    var chain: seq<nat> :| IsChain(ps, chain) && chain[0] == stream[i].0 && Waiters(ps, chain[|chain|-1]) == {};
    ChainInStream(ps, stream, chain, |chain| - 1);
    var j :| 0 <= j < |stream| && stream[j].0 == chain[|chain|-1];
    assert stream[j].1;
    ChainTerminated(ps, chain);
  }

  /** Such a stream has a leaf to look at. */
  lemma SomeLeaf(ps: Profiles, stream: seq<(nat, bool)>, i: nat)
    requires IsStream(ps, stream) && i < |stream| && LeadsToLeaf(ps, stream[i].0)
    ensures exists j :: 0 <= j < |stream| && stream[j].1
  {
    var chain: seq<nat> :| IsChain(ps, chain) && chain[0] == stream[i].0 && Waiters(ps, chain[|chain|-1]) == {};
    ChainInStream(ps, stream, chain, |chain| - 1);
    var j :| 0 <= j < |stream| && stream[j].0 == chain[|chain|-1];
    assert stream[j].1;
  }

  lemma SameWaiters(a: Profiles, b: Profiles)
    requires SameConfigurations(a, b)
    ensures forall q :: Waiters(a, q) == Waiters(b, q)
    ensures forall chain :: IsChain(a, chain) <==> IsChain(b, chain)
    ensures forall v :: LeadsToLeaf(a, v) <==> LeadsToLeaf(b, v)
    ensures forall stream :: IsStream(a, stream) <==> IsStream(b, stream)
  {
    forall q ensures Waiters(a, q) == Waiters(b, q) {}
  }

  /** When every profile of the stream leads to a leaf, the leaves speak for all. */
  lemma LeafTestMeans(ps: Profiles, stream: seq<(nat, bool)>)
    requires Possible(ps) && IsStream(ps, stream) && LeavesTerminated(ps, stream) && AllLead(ps, stream)
    ensures AllTerminated(ps, stream)
  {
    hide Possible, IsStream, LeadsToLeaf;
    forall i | 0 <= i < |stream| ensures stream[i].0 in ps && ps[stream[i].0].terminated {
      StreamTerminationSound(ps, stream, i);
    }
  }

  /** The configured TERMINATION waits have no cycle: they go up in some ranking. */
  ghost predicate Acyclic(ps: Profiles, rank: map<nat, nat>) {
    && ps.Keys <= rank.Keys
    && forall q, p :: q in ps && p in Waiters(ps, q) ==> rank[q] < rank[p]
  }

  /** Without a cycle every profile leads to a leaf. */
  lemma {:induction false} AcyclicLeads(ps: Profiles, rank: map<nat, nat>, top: nat, v: nat)
    requires Acyclic(ps, rank) && v in ps && forall p :: p in ps ==> rank[p] <= top
    ensures LeadsToLeaf(ps, v)
    decreases top - rank[v]
  {
    if Waiters(ps, v) == {} {
      assert IsChain(ps, [v]);
    } else {
      var p :| p in Waiters(ps, v);
      AcyclicLeads(ps, rank, top, p);
      var chain: seq<nat> :| IsChain(ps, chain) && chain[0] == p && Waiters(ps, chain[|chain|-1]) == {};
      var longer := [v] + chain;
      forall k | 0 <= k < |longer| - 1 ensures longer[k+1] in Waiters(ps, longer[k]) {
        if k > 0 { assert chain[k] in Waiters(ps, chain[k-1]); }
      }
      assert IsChain(ps, longer) && longer[|longer|-1] == chain[|chain|-1];
    }
  }

  /** A stream cached once answers for every later state of its profiles. */
  lemma CachedStaysSound(before: Profiles, after: Profiles, stream: seq<(nat, bool)>)
    requires IsStream(before, stream) && AllLead(before, stream)
    requires SameConfigurations(before, after) && Possible(after)
    ensures IsStream(after, stream) && AllLead(after, stream)
    ensures LeavesTerminated(after, stream) <==> AllTerminated(after, stream)
  {
    hide Possible, IsStream, LeadsToLeaf;
    SameWaiters(before, after);
    if LeavesTerminated(after, stream) {
      LeafTestMeans(after, stream);
    }
  }

  // -------------------------------------------------------- streams as searched

  /** The subscribers of q's TERMINATION. */
  function Next(subs: Subscribers, q: nat): set<nat> {
    if Event(TERMINATION, q) in subs then subs[Event(TERMINATION, q)] else {}
  }

  predicate IsPath(subs: Subscribers, path: seq<nat>) {
    path != [] && forall i :: 0 <= i < |path| - 1 ==> path[i+1] in Next(subs, path[i])
  }

  ghost predicate Reaches(subs: Subscribers, root: nat, v: nat) {
    exists path: seq<nat> :: IsPath(subs, path) && path[0] == root && path[|path|-1] == v
  }

  function Nodes(stream: seq<(nat, bool)>): (r: seq<nat>)
    ensures |r| == |stream|
  {
    seq(|stream|, i requires 0 <= i < |stream| => stream[i].0)
  }

  function Leaves(stream: seq<(nat, bool)>): seq<nat> {
    if stream == [] then []
    else
      var last := stream[|stream|-1];
      Leaves(stream[..|stream|-1]) + (if last.1 then [last.0] else [])
  }

  predicate NoRepeats(s: seq<nat>) {
    forall i, j :: 0 <= i < j < |s| ==> s[i] != s[j]
  }

  /** The list a search for root is to return. */
  ghost predicate IsSearchResult(subs: Subscribers, root: nat, stream: seq<(nat, bool)>) {
    && NoRepeats(Nodes(stream))
    && (forall v :: v in Nodes(stream) <==> Reaches(subs, root, v))
    && (forall i :: 0 <= i < |stream| ==> (stream[i].1 <==> Event(TERMINATION, stream[i].0) !in subs))
  }

  lemma ReachesSelf(subs: Subscribers, root: nat)
    ensures Reaches(subs, root, root)
  {
    assert IsPath(subs, [root]);
  }

  lemma ReachesNext(subs: Subscribers, root: nat, v: nat, w: nat)
    requires Reaches(subs, root, v) && w in Next(subs, v)
    ensures Reaches(subs, root, w)
  {
    var path: seq<nat> :| IsPath(subs, path) && path[0] == root && path[|path|-1] == v;
    assert IsPath(subs, path + [w]);
  }

  /** A set that holds the root and is closed under subscription holds all that is
      reachable. */
  lemma {:induction false} ClosedHoldsPath(subs: Subscribers, closed: set<nat>, path: seq<nat>)
    requires IsPath(subs, path) && path[0] in closed
    requires forall q :: q in closed ==> Next(subs, q) <= closed
    ensures path[|path|-1] in closed
  {
    if |path| > 1 {
      assert path[1] in Next(subs, path[0]);
      ClosedHoldsPath(subs, closed, path[1..]);
    }
  }

  lemma ClosedHoldsReachable(subs: Subscribers, root: nat, closed: set<nat>)
    requires root in closed && forall q :: q in closed ==> Next(subs, q) <= closed
    ensures forall v :: Reaches(subs, root, v) ==> v in closed
  {
    forall v | Reaches(subs, root, v) ensures v in closed {
      var path: seq<nat> :| IsPath(subs, path) && path[0] == root && path[|path|-1] == v;
      ClosedHoldsPath(subs, closed, path);
    }
  }

  /** The state of the search: what is visited is what is listed, then what is queued. */
  ghost predicate Searching(subs: Subscribers, root: nat, listed: seq<nat>, queue: seq<nat>, visited: set<nat>) {
    && NoRepeats(listed + queue)
    && root in visited
    && (forall v :: v in visited <==> v in listed + queue)
    && (forall v :: v in visited ==> Reaches(subs, root, v))
  }

  lemma VisitOne(subs: Subscribers, root: nat, listed: seq<nat>, queue: seq<nat>, visited: set<nat>, node: nat, w: nat)
    requires Searching(subs, root, listed, queue, visited) && node in visited && w in Next(subs, node) && w !in visited
    ensures Searching(subs, root, listed, queue + [w], visited + {w})
  {
    ReachesNext(subs, root, node, w);
    assert listed + (queue + [w]) == (listed + queue) + [w];
    assert forall i :: 0 <= i < |listed + queue| ==> (listed + queue)[i] in visited;
  }

  lemma NoNodes()
    ensures Nodes([]) == [] && Leaves([]) == []
  {
  }

  lemma AppendNode(stream: seq<(nat, bool)>, node: nat, isLeaf: bool)
    ensures var more := stream + [(node, isLeaf)];
            && Nodes(more) == Nodes(stream) + [node]
            && Leaves(more) == Leaves(stream) + (if isLeaf then [node] else [])
            && SetOf(Nodes(more)) == SetOf(Nodes(stream)) + {node}
    ensures node in SetOf(Nodes(stream)) <==> node in Nodes(stream)
  {
    assert (stream + [(node, isLeaf)])[..|stream|] == stream;
  }

  /** Breadth-first search over TERMINATION subscriptions. */
  method Search(subs: Subscribers, root: nat, ghost all: set<nat>)
    returns (stream: seq<(nat, bool)>, leaves: seq<nat>)
    requires root in all && forall q :: q in all ==> Next(subs, q) <= all
    ensures IsSearchResult(subs, root, stream) && stream != []
    ensures leaves == Leaves(stream)
  {
    hide Reaches, IsPath, Nodes, Leaves, SetOf;
    var visited, queue := {root}, [root];
    stream, leaves := [], [];
    NoNodes();
    ReachesSelf(subs, root);
    assert Nodes([]) + [root] == [root];
    while queue != []
      invariant Searching(subs, root, Nodes(stream), queue, visited) && visited <= all
      invariant forall v :: v in Nodes(stream) ==> Next(subs, v) <= visited
      invariant forall i :: 0 <= i < |stream| ==> (stream[i].1 <==> Event(TERMINATION, stream[i].0) !in subs)
      invariant leaves == Leaves(stream)
      decreases all - SetOf(Nodes(stream))
    {
      var node := queue[0];
      ghost var before, listed := SetOf(Nodes(stream)), Nodes(stream) + [node];
      assert Nodes(stream) + queue == listed + queue[1..];
      queue := queue[1..];
      assert node in listed + queue && node !in Nodes(stream) by { NotListed(Nodes(stream), node, queue); }
      var isLeaf := true;
      if Event(TERMINATION, node) in subs {
        isLeaf := false;
        visited, queue := VisitNext(subs, root, listed, queue, visited, node, all);
      }
      AppendNode(stream, node, isLeaf);
      stream := stream + [(node, isLeaf)];
      if isLeaf {
        leaves := leaves + [node];
      }
      assert SetOf(Nodes(stream)) == before + {node};
    }
    assert Nodes(stream) + [] == Nodes(stream);
    ClosedHoldsReachable(subs, root, visited);
    assert root in Nodes(stream);
  }

  function SetOf(s: seq<nat>): set<nat> {
    set x | x in s
  }

  lemma NotListed(listed: seq<nat>, node: nat, queue: seq<nat>)
    requires NoRepeats((listed + [node]) + queue)
    ensures node !in listed
  {
    var all := (listed + [node]) + queue;
    assert all[|listed|] == node;
    assert forall i :: 0 <= i < |listed| ==> all[i] == listed[i];
  }

  /** Queues the subscribers of node that have not been visited. */
  method VisitNext(subs: Subscribers, root: nat, ghost listed: seq<nat>, queue0: seq<nat>, visited0: set<nat>,
                   node: nat, ghost all: set<nat>)
    returns (visited: set<nat>, queue: seq<nat>)
    requires Event(TERMINATION, node) in subs && Next(subs, node) <= all
    requires Searching(subs, root, listed, queue0, visited0) && node in visited0 && visited0 <= all
    ensures Searching(subs, root, listed, queue, visited)
    ensures visited0 <= visited <= all && Next(subs, node) <= visited
  {
    visited, queue := visited0, queue0;
    var todo := subs[Event(TERMINATION, node)];
    while todo != {}
      invariant Searching(subs, root, listed, queue, visited)
      invariant visited0 <= visited <= all && todo <= Next(subs, node) <= visited + todo
    {
      var leaf :| leaf in todo;
      if leaf !in visited {
        VisitOne(subs, root, listed, queue, visited, node, leaf);
        queue := queue + [leaf];
        visited := visited + {leaf};
      }
      todo := todo - {leaf};
    }
  }

  /** Searched before any of its members has terminated, a stream is as configured. */
  lemma SearchedIsConfigured(ps: Profiles, subs: Subscribers, nt: map<nat, nat>, root: nat, stream: seq<(nat, bool)>)
    requires ProfileModel.Valid(ps, subs, nt, {}, {}, {}) && root in ps
    requires IsSearchResult(subs, root, stream)
    requires forall v :: v in Nodes(stream) ==> v in ps && !ps[v].terminated
    ensures IsStream(ps, stream)
  {
    forall i, p | 0 <= i < |stream| && p in Waiters(ps, stream[i].0) ensures InStream(stream, p) {
      var v := Nodes(stream)[i];
      assert v in Nodes(stream);
      NextAreWaiters(ps, subs, nt, v);
      ReachesNext(subs, root, v, p);
      assert p in Nodes(stream);
      var j :| 0 <= j < |stream| && Nodes(stream)[j] == p;
      assert stream[j].0 == p;
    }
    forall i | 0 <= i < |stream| ensures stream[i].1 <==> Waiters(ps, stream[i].0) == {} {
      assert Nodes(stream)[i] in Nodes(stream);
      NextAreWaiters(ps, subs, nt, stream[i].0);
    }
    forall i | 0 <= i < |stream| ensures stream[i].0 in ps {
      assert Nodes(stream)[i] in Nodes(stream);
    }
  }

  /** Searched at any time, a stream is as configured if and only if each of its members
      that has terminated is one that nobody waits for. */
  lemma SearchedAsConfiguredIff(ps: Profiles, subs: Subscribers, nt: map<nat, nat>, root: nat, stream: seq<(nat, bool)>)
    requires ProfileModel.Valid(ps, subs, nt, {}, {}, {}) && Cleaned(ps, subs)
    requires IsSearchResult(subs, root, stream) && forall v :: v in Nodes(stream) ==> v in ps
    ensures IsStream(ps, stream) <==> forall v :: v in Nodes(stream) && ps[v].terminated ==> Waiters(ps, v) == {}
  {
    hide ProfileModel.Valid, Waiters;
    forall v | v in Nodes(stream)
      ensures Next(subs, v) == {} <==> Event(TERMINATION, v) !in subs
      ensures ps[v].terminated ==> Next(subs, v) == {}
      ensures !ps[v].terminated ==> Next(subs, v) == Waiters(ps, v)
    {
      NextNotEmpty(ps, subs, nt, v);
      if !ps[v].terminated { NextAreWaiters(ps, subs, nt, v); }
    }
    assert forall i :: 0 <= i < |stream| ==> Nodes(stream)[i] == stream[i].0 && stream[i].0 in Nodes(stream) by {
      forall i | 0 <= i < |stream| ensures stream[i].0 in Nodes(stream) {
        assert Nodes(stream)[i] in Nodes(stream);
      }
    }
    if forall v :: v in Nodes(stream) && ps[v].terminated ==> Waiters(ps, v) == {} {
      forall i, p | 0 <= i < |stream| && p in Waiters(ps, stream[i].0) ensures InStream(stream, p) {
        ReachesNext(subs, root, stream[i].0, p);
        assert p in Nodes(stream);
        var j :| 0 <= j < |stream| && Nodes(stream)[j] == p;
        assert stream[j].0 == p;
      }
    }
    if IsStream(ps, stream) {
      forall v | v in Nodes(stream) && ps[v].terminated ensures Waiters(ps, v) == {} {
        var i :| 0 <= i < |stream| && Nodes(stream)[i] == v;
        assert stream[i].1;
      }
    }
  }

  lemma NextNotEmpty(ps: Profiles, subs: Subscribers, nt: map<nat, nat>, v: nat)
    requires ProfileModel.Valid(ps, subs, nt, {}, {}, {})
    ensures Next(subs, v) == {} <==> Event(TERMINATION, v) !in subs
  {
    hide Good, Counters, Chained, Subscribed, SentOnce, CheckersWait;
  }

  /** Until a profile terminates, its TERMINATION subscribers are its configured ones. */
  lemma NextAreWaiters(ps: Profiles, subs: Subscribers, nt: map<nat, nat>, v: nat)
    requires ProfileModel.Valid(ps, subs, nt, {}, {}, {}) && v in ps && !ps[v].terminated
    ensures Next(subs, v) == Waiters(ps, v)
    ensures Next(subs, v) == {} <==> Event(TERMINATION, v) !in subs
  {
    hide Good, Counters;
  }

  /** Searched after its root's subscriptions are gone, a stream is the root alone. */
  lemma LateSearch(subs: Subscribers, root: nat, stream: seq<(nat, bool)>)
    requires IsSearchResult(subs, root, stream) && Event(TERMINATION, root) !in subs
    ensures stream == [(root, true)]
  {
    ClosedHoldsReachable(subs, root, {root});
    ReachesSelf(subs, root);
    assert root in Nodes(stream);
    assert forall i :: 0 <= i < |stream| ==> Nodes(stream)[i] in Nodes(stream);
    if |stream| > 1 {
      Repeats(Nodes(stream), root);
    }
  }

  lemma Repeats(s: seq<nat>, x: nat)
    requires |s| > 1 && forall i :: 0 <= i < |s| ==> s[i] == x
    ensures !NoRepeats(s)
  {
    assert s[0] == s[1];
  }

  lemma {:induction false} LeavesMember(stream: seq<(nat, bool)>, v: nat)
    ensures v in Leaves(stream) <==> exists i :: 0 <= i < |stream| && stream[i] == (v, true)
  {
    if stream != [] {
      var init, last := stream[..|stream|-1], stream[|stream|-1];
      LeavesMember(init, v);
      if i :| 0 <= i < |init| && init[i] == (v, true) { assert stream[i] == (v, true); }
      if last == (v, true) { assert stream[|stream|-1] == (v, true); }
    }
  }
}
