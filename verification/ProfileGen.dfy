/** The traffic generator's arbitration: packets of many masters are sent through ports,
    at most one stalled packet for each port. */
module ProfileGenModel {

  datatype Packet = Packet(uid: nat, address: nat)

  /** What has become of a packet. */
  datatype Fate = Buffered(master: string) | Stalled(port: nat) | Sent(port: nat) | Suppressed

  /** The value of the generator: the packets buffered by master name, the packet stalled
      on each port, what became of every packet, and per port what was offered to it and
      what it took. */
  datatype Gen = Gen(
    buffer: map<string, seq<Packet>>, retry: map<nat, Packet>, fate: map<Packet, Fate>,
    offered: map<nat, seq<Packet>>, completed: map<nat, seq<Packet>>)

  function Queue<K>(m: map<K, seq<Packet>>, k: K): seq<Packet> {
    if k in m then m[k] else []
  }

  function Push<K>(m: map<K, seq<Packet>>, k: K, p: Packet): map<K, seq<Packet>> {
    m[k := Queue(m, k) + [p]]
  }

  lemma PushQueue<K>(m: map<K, seq<Packet>>, k: K, p: Packet, q: K)
    ensures Queue(Push(m, k, p), q) == if q == k then Queue(m, q) + [p] else Queue(m, q)
  {
  }

  /** Removes the oldest packet of a master; a master without packets has no entry. */
  function Pop(m: map<string, seq<Packet>>, k: string): map<string, seq<Packet>>
    requires Queue(m, k) != []
  {
    if |m[k]| == 1 then m - {k} else m[k := m[k][1..]]
  }

  // ---------------------------------------------------------------- invariant

  predicate NoDuplicates(s: seq<Packet>) {
    forall i, j :: 0 <= i < j < |s| ==> s[i] != s[j]
  }

  ghost predicate BufferSound(g: Gen) {
    && (forall n :: n in g.buffer ==> g.buffer[n] != [] && NoDuplicates(g.buffer[n]))
    && (forall n, p :: p in Queue(g.buffer, n) <==> p in g.fate && g.fate[p] == Buffered(n))
  }

  ghost predicate RetrySound(g: Gen) {
    forall port, p :: port in g.retry && g.retry[port] == p <==> p in g.fate && g.fate[p] == Stalled(port)
  }

  ghost predicate PortsSound(g: Gen) {
    && (forall port :: Queue(g.offered, port)
                       == Queue(g.completed, port) + if port in g.retry then [g.retry[port]] else [])
    && (forall port :: NoDuplicates(Queue(g.completed, port)))
    && (forall port, p :: p in Queue(g.completed, port) <==> p in g.fate && g.fate[p] == Sent(port))
  }

  /** Every packet has one fate, which says where it is: in its master's queue, stalled on
      a port, or taken by a port; a port takes packets in the order they are offered. */
  ghost predicate Valid(g: Gen) {
    BufferSound(g) && RetrySound(g) && PortsSound(g)
  }

  // ---------------------------------------------------------------- transitions

  function Arrive(g: Gen, n: string, p: Packet): Gen {
    g.(buffer := Push(g.buffer, n, p), fate := g.fate[p := Buffered(n)])
  }

  /** The oldest packet of master n is dropped. */
  function Suppress(g: Gen, n: string): Gen
    requires Queue(g.buffer, n) != []
  {
    g.(buffer := Pop(g.buffer, n), fate := g.fate[Queue(g.buffer, n)[0] := Suppressed])
  }

  /** The oldest packet of master n is put on a port, where it stalls. */
  function Stall(g: Gen, n: string, port: nat): Gen
    requires Queue(g.buffer, n) != []
  {
    var p := Queue(g.buffer, n)[0];
    g.(buffer := Pop(g.buffer, n), retry := g.retry[port := p], fate := g.fate[p := Stalled(port)],
       offered := Push(g.offered, port, p))
  }

  /** The port takes the packet put on it. */
  function Take(g: Gen, port: nat): Gen
    requires port in g.retry
  {
    var p := g.retry[port];
    g.(retry := g.retry - {port}, fate := g.fate[p := Sent(port)], completed := Push(g.completed, port, p))
  }

  lemma ArriveValid(g: Gen, n: string, p: Packet)
    requires Valid(g) && p !in g.fate
    ensures Valid(Arrive(g, n, p))
  {
    hide NoDuplicates, BufferSound;
    ArriveBuffers(g, n, p);
  }

  lemma ArriveBuffers(g: Gen, n: string, p: Packet)
    requires BufferSound(g) && p !in g.fate
    ensures BufferSound(Arrive(g, n, p))
  {
    var h := Arrive(g, n, p);
    forall m, q ensures q in Queue(h.buffer, m) <==> q in h.fate && h.fate[q] == Buffered(m) {
      if m == n {
        assert Queue(h.buffer, n) == Queue(g.buffer, n) + [p];
      } else {
        assert Queue(h.buffer, m) == Queue(g.buffer, m);
      }
    }
    assert p !in Queue(g.buffer, n);
  }

  lemma PopQueue(m: map<string, seq<Packet>>, n: string, k: string)
    requires Queue(m, n) != []
    ensures Queue(Pop(m, n), k) == if k == n then Queue(m, n)[1..] else Queue(m, k)
  {
    if k == n && |m[n]| == 1 {
      assert Queue(m, n)[1..] == [];
    }
  }

  /** Taking the oldest packet out of the buffer, whatever becomes of it. */
  lemma PopSound(g: Gen, n: string, h: Gen, fate: Fate)
    requires BufferSound(g) && Queue(g.buffer, n) != [] && !fate.Buffered?
    requires h.buffer == Pop(g.buffer, n) && h.fate == g.fate[Queue(g.buffer, n)[0] := fate]
    ensures BufferSound(h) && Queue(g.buffer, n)[0] in g.fate && g.fate[Queue(g.buffer, n)[0]] == Buffered(n)
  {
    var queue := Queue(g.buffer, n);
    var p := queue[0];
    assert p in queue;
    forall m, q ensures q in Queue(h.buffer, m) <==> q in h.fate && h.fate[q] == Buffered(m) {
      PopQueue(g.buffer, n, m);
      if m == n {
        assert queue == [p] + queue[1..];
        assert p !in queue[1..];
      }
    }
  }

  lemma SuppressValid(g: Gen, n: string)
    requires Valid(g) && Queue(g.buffer, n) != []
    ensures Valid(Suppress(g, n))
  {
    hide BufferSound, Pop;
    PopSound(g, n, Suppress(g, n), Suppressed);
  }

  /** A packet may stall on a port only if none does already. */
  lemma StallValid(g: Gen, n: string, port: nat)
    requires Valid(g) && Queue(g.buffer, n) != [] && port !in g.retry
    ensures Valid(Stall(g, n, port))
  {
    hide BufferSound, PortsSound, Pop, Queue, Push;
    PopSound(g, n, Stall(g, n, port), Stalled(port));
    StallPorts(g, n, port);
  }

  lemma StallPorts(g: Gen, n: string, port: nat)
    requires PortsSound(g) && Queue(g.buffer, n) != [] && port !in g.retry
    requires Queue(g.buffer, n)[0] in g.fate && g.fate[Queue(g.buffer, n)[0]] == Buffered(n)
    ensures PortsSound(Stall(g, n, port))
  {
    hide Queue, Push, Pop, NoDuplicates;
    var h, p := Stall(g, n, port), Queue(g.buffer, n)[0];
    forall q: nat
      ensures Queue(h.offered, q) == Queue(h.completed, q) + if q in h.retry then [h.retry[q]] else []
    {
      PushQueue(g.offered, port, p, q);
      assert q == port ==> Queue(g.completed, q) + [] == Queue(g.completed, q);
    }
  }

  lemma TakeValid(g: Gen, port: nat)
    requires Valid(g) && port in g.retry
    ensures Valid(Take(g, port))
  {
    hide Queue, Push;
    var h, p := Take(g, port), g.retry[port];
    assert p in g.fate && g.fate[p] == Stalled(port);
    assert BufferSound(h) && RetrySound(h);
    TakePorts(g, port);
  }

  lemma TakePorts(g: Gen, port: nat)
    requires PortsSound(g) && port in g.retry && g.retry[port] in g.fate
    requires g.fate[g.retry[port]] == Stalled(port)
    ensures PortsSound(Take(g, port))
  {
    hide Queue, Push, NoDuplicates;
    var h, p := Take(g, port), g.retry[port];
    assert p !in Queue(g.completed, port);
    forall q: nat
      ensures NoDuplicates(Queue(h.completed, q))
      ensures Queue(h.offered, q) == Queue(h.completed, q) + if q in h.retry then [h.retry[q]] else []
      ensures forall x :: x in Queue(h.completed, q) <==> x in h.fate && h.fate[x] == Sent(q)
    {
      PushQueue(g.completed, port, p, q);
      var before := Queue(g.completed, q);
      if q == port {
        assert (before + [p]) + [] == before + [p];
        AppendDistinct(before, p);
      }
    }
  }

  lemma AppendDistinct(s: seq<Packet>, p: Packet)
    requires NoDuplicates(s) && p !in s
    ensures NoDuplicates(s + [p])
  {
  }

  // ----------------------------------------------------------------- progress

  /** A buffered packet may meet any fate, a stalled one can only be sent by its port, and
      the others have met theirs.  Queues lose packets at the front. */
  ghost predicate Later(g: Gen, h: Gen) {
    && g.fate.Keys == h.fate.Keys
    && (forall p :: p in g.fate ==>
          || h.fate[p] == g.fate[p]
          || g.fate[p].Buffered?
          || (g.fate[p].Stalled? && h.fate[p] == Sent(g.fate[p].port)))
    && (forall n :: Suffix(Queue(h.buffer, n), Queue(g.buffer, n)))
    && (forall port :: Queue(g.offered, port) <= Queue(h.offered, port))
  }

  predicate Suffix(s: seq<Packet>, t: seq<Packet>) {
    |s| <= |t| && t[|t|-|s|..] == s
  }

  lemma LaterTransitive(g: Gen, h: Gen, i: Gen)
    requires Later(g, h) && Later(h, i)
    ensures Later(g, i)
  {
    hide Queue;
    forall n ensures Suffix(Queue(i.buffer, n), Queue(g.buffer, n)) {
      SuffixTransitive(Queue(i.buffer, n), Queue(h.buffer, n), Queue(g.buffer, n));
    }
    forall p | p in g.fate && h.fate[p] != g.fate[p]
      ensures i.fate[p] == g.fate[p] || g.fate[p].Buffered? || (g.fate[p].Stalled? && i.fate[p] == Sent(g.fate[p].port)) {
    }
  }

  lemma SuffixTransitive(r: seq<Packet>, s: seq<Packet>, t: seq<Packet>)
    requires Suffix(r, s) && Suffix(s, t)
    ensures Suffix(r, t)
  {
    assert s[|s|-|r|..] == t[|t|-|s|..][|s|-|r|..] == t[|t|-|r|..];
  }

  lemma PopLater(g: Gen, n: string, h: Gen, fate: Fate)
    requires Valid(g) && Queue(g.buffer, n) != []
    requires h.buffer == Pop(g.buffer, n) && h.fate == g.fate[Queue(g.buffer, n)[0] := fate]
    requires forall port :: Queue(g.offered, port) <= Queue(h.offered, port)
    ensures Later(g, h)
  {
    hide Pop, RetrySound, PortsSound;
    var p := Queue(g.buffer, n)[0];
    assert p in Queue(g.buffer, n);
    forall m ensures Suffix(Queue(h.buffer, m), Queue(g.buffer, m)) {
      PopQueue(g.buffer, n, m);
    }
  }

  /** The packets still buffered. */
  ghost function Waiting(g: Gen): set<Packet> {
    set p | p in g.fate && g.fate[p].Buffered?
  }

  /** The packets the ports have taken, and those dropped. */
  ghost function Gone(g: Gen): set<Packet> {
    set p | p in g.fate && g.fate[p].Sent?
  }

  ghost function Dropped(g: Gen): set<Packet> {
    set p | p in g.fate && g.fate[p].Suppressed?
  }

  /** The two grow by as much as was counted. */
  ghost predicate Tally(g: Gen, h: Gen, sent: nat, dropped: nat) {
    |Gone(h)| == |Gone(g)| + sent && |Dropped(h)| == |Dropped(g)| + dropped
  }

  // ------------------------------------------------------------ the generator

  class ProfileGen {
    /** Port of each master, by requestor, and the masters' names. */
    const interface: map<nat, nat>
    const masters: seq<nat>
    const nameOf: nat -> string
    const disableMemCheck: bool
    const isMemAddr: nat -> bool
    ghost const toMemory: nat -> bool := (a: nat) => disableMemCheck || isMemAddr(a)
    var localBuffer: map<string, seq<Packet>>
    var retryPkt: map<nat, Packet>
    ghost var fate: map<Packet, Fate>
    ghost var offered: map<nat, seq<Packet>>
    ghost var completed: map<nat, seq<Packet>>

    ghost function State(): Gen
      reads this
    {
      Gen(localBuffer, retryPkt, fate, offered, completed)
    }

    /** The masters are those of the interface, in order. */
    ghost predicate Configured() {
      && (forall m :: m in interface <==> m in masters)
      && (forall i, j :: 0 <= i < j < |masters| ==> masters[i] < masters[j])
    }

    constructor (ports: map<nat, nat>, order: seq<nat>, names: nat -> string, noCheck: bool, memory: nat -> bool)
      requires forall m :: m in ports <==> m in order
      requires forall i, j :: 0 <= i < j < |order| ==> order[i] < order[j]
      ensures Configured() && Valid(State()) && fate == map[]
    {
      interface, masters, nameOf, disableMemCheck, isMemAddr := ports, order, names, noCheck, memory;
      localBuffer, retryPkt, fate, offered, completed := map[], map[], map[], map[], map[];
    }

    /** New packets, none of them seen before, join the queues of their masters. */
    method Insert(packets: seq<(string, Packet)>)
      requires Valid(State())
      requires forall i :: 0 <= i < |packets| ==> packets[i].1 !in fate
      requires forall i, j :: 0 <= i < j < |packets| ==> packets[i].1 != packets[j].1
      modifies this`localBuffer, this`fate
      ensures Valid(State()) && State() == AllArrived(old(State()), packets)
      ensures Tally(old(State()), State(), 0, 0)
    {
      hide Valid, Arrive, Tally;
      var i := 0;
      TallySame(State(), State());
      while i < |packets|
        invariant i <= |packets|
        invariant Valid(State()) && State() == AllArrived(old(State()), packets[..i])
        invariant Tally(old(State()), State(), 0, 0)
        invariant forall j :: i <= j < |packets| ==> packets[j].1 !in fate
      {
        ArriveValid(State(), packets[i].0, packets[i].1);
        ArriveFields(State(), packets[i].0, packets[i].1);
        TallySame(State(), Arrive(State(), packets[i].0, packets[i].1));
        TallySum(old(State()), State(), Arrive(State(), packets[i].0, packets[i].1), 0, 0, 0, 0);
        assert packets[..i+1][..i] == packets[..i];
        localBuffer := Push(localBuffer, packets[i].0, packets[i].1);
        fate := fate[packets[i].1 := Buffered(packets[i].0)];
        i := i + 1;
      }
      assert packets[..|packets|] == packets;
    }

    /** One master is served with its oldest packet; whether its port takes the packet is
        up to the port. */
    method Serve(m: nat) returns (accepted: bool, suppressed: bool)
      requires Valid(State()) && m in interface
      requires Queue(localBuffer, nameOf(m)) != [] && interface[m] !in retryPkt
      modifies this
      ensures Valid(State()) && Turn(old(State()), State(), accepted, suppressed)
      ensures suppressed == !(disableMemCheck || isMemAddr(Queue(old(localBuffer), nameOf(m))[0].address))
      ensures State() == if suppressed then Suppress(old(State()), nameOf(m))
                         else if accepted then Take(Stall(old(State()), nameOf(m), interface[m]), interface[m])
                         else Stall(old(State()), nameOf(m), interface[m])
      ensures ServedOne(old(State()), State(), nameOf(m), interface[m], toMemory, Met(accepted, suppressed, interface[m]))
    {
      hide Valid, Turn;
      var name, port := nameOf(m), interface[m];
      var p := localBuffer[name][0];
      ghost var g := State();
      accepted, suppressed := false, false;
      if disableMemCheck || isMemAddr(p.address) {
        StallValid(g, name, port);
        StallTurn(g, name, port);
        retryPkt := retryPkt[port := p];
        accepted := *;
        offered, fate := Push(offered, port, p), fate[p := Stalled(port)];
        if accepted {
          TakeValid(Stall(g, name, port), port);
          SentTurn(g, name, port);
          retryPkt := retryPkt - {port};
          completed, fate := Push(completed, port, p), fate[p := Sent(port)];
        }
      } else {
        suppressed := true;
        SuppressValid(g, name);
        SuppressTurn(g, name);
        fate := fate[p := Suppressed];
      }
      localBuffer := Pop(localBuffer, name);
    }

    /** The arbitration loop: masters take turns until each has no packet left or a packet
        stalled on its port. */
    method Update(packets: seq<(string, Packet)>)
      returns (sent: nat, suppressed: bool, ghost rounds: seq<seq<nat>>, ghost fates: seq<Fate>)
      requires Configured() && Valid(State())
      requires forall i :: 0 <= i < |packets| ==> packets[i].1 !in fate
      requires forall i, j :: 0 <= i < j < |packets| ==> packets[i].1 != packets[j].1
      modifies this
      ensures Valid(State()) && Later(AllArrived(old(State()), packets), State())
      ensures forall m :: m in interface ==> Queue(localBuffer, nameOf(m)) == [] || interface[m] in retryPkt
      ensures StalledStay(old(retryPkt), retryPkt)
      ensures |Gone(State())| == |Gone(old(State()))| + sent
      ensures suppressed <==> |Dropped(State())| > |Dropped(old(State()))|
      ensures InRounds(rounds) && (forall m :: m in Flat(rounds) ==> m in interface)
      ensures Served(AllArrived(old(State()), packets), nameOf, interface, toMemory, Flat(rounds), fates, State())
    {
      hide Tally, Gone, Dropped, Valid, Later, AllArrived, Waiting, Queue, StalledStay, Served, InRounds, Flat, Rounds,
           Turns, ServedOne, Met, IdleBut, Turn;
      Insert(packets);
      ghost var start := State();
      ArrivedRetry(old(State()), packets);
      StalledSelf(retryPkt);
      LaterSelf(start);
      sent, suppressed := 0, false;
      ghost var dropped := 0;
      var toServe := masters;
      var i := 0;
      rounds, fates := [], [];
      NothingServed(start, nameOf, interface, toMemory, toServe);
      FirstRound(toServe);
      AllToServe(start, nameOf, interface, toServe);
      while localBuffer != map[] && toServe != []
        invariant Valid(State()) && Later(start, State())
        invariant toServe != [] ==> i < |toServe|
        invariant IdleBut(State(), nameOf, interface, toServe)
        invariant StalledStay(old(retryPkt), retryPkt)
        invariant Tally(old(State()), State(), sent, dropped) && (suppressed <==> dropped > 0)
        invariant Rounds(rounds, toServe) && i <= |toServe|
        invariant Served(start, nameOf, interface, toMemory, Turns(rounds, toServe, i), fates, State())
        decreases |Waiting(State())| + |toServe|
      {
        var m := toServe[i];
        Serves(State(), nameOf, interface, toServe, i);
        var next := if i + 1 == |toServe| then 0 else i + 1;
        if Queue(localBuffer, nameOf(m)) != [] && interface[m] !in retryPkt {
          ghost var before := State();
          var taken, drop := Serve(m);
          TurnKeeps(old(State()), start, before, State(), old(retryPkt), nameOf, interface, toServe, taken, drop,
                    sent, dropped);
          TurnLogged(start, before, State(), nameOf, interface, toMemory, toServe, i, rounds, fates, taken, drop);
          if taken { sent := sent + 1; }
          suppressed := suppressed || drop;
          dropped := dropped + if drop then 1 else 0;
          fates := fates + [Met(taken, drop, interface[m])];
          if next == 0 { rounds := rounds + [toServe]; }
          i := next;
        } else {
          TurnPassed(rounds, toServe, i);
          IdlePassed(State(), nameOf, interface, toServe, i);
          toServe := toServe[..i] + toServe[i+1..];
          if next <= i && toServe != [] { rounds := rounds + [toServe]; }
          i := if next > i then i else 0;
        }
      }
      LastRound(rounds, toServe, i);
      if i > 0 { rounds := rounds + [toServe[..i]]; }
      RoundsKnown(start, nameOf, interface, toMemory, Flat(rounds), fates, State());
      AllIdle(State(), nameOf, interface, toServe);
      TallyMeans(old(State()), State(), sent, dropped);
    }

    /** A port asks for its stalled packet again. */
    method RecvReqRetry(port: nat) returns (known: bool, accepted: bool)
      requires Valid(State())
      modifies this
      ensures Valid(State()) && Later(old(State()), State())
      ensures known == (port in old(retryPkt)) && (accepted ==> known)
      ensures State() == if accepted then Take(old(State()), port) else old(State())
    {
      hide Valid, Later;
      LaterSelf(State());
      known, accepted := port in retryPkt, false;
      if known {
        accepted := *;
        if accepted {
          TakeValid(State(), port);
          TakeLater(State(), port);
          ghost var p := retryPkt[port];
          retryPkt := retryPkt - {port};
          completed, fate := Push(completed, port, p), fate[p := Sent(port)];
        }
      }
    }
  }

  function AllArrived(g: Gen, packets: seq<(string, Packet)>): Gen {
    if packets == [] then g
    else Arrive(AllArrived(g, packets[..|packets|-1]), packets[|packets|-1].0, packets[|packets|-1].1)
  }

  lemma EmptyBuffer(buffer: map<string, seq<Packet>>)
    ensures buffer == map[] ==> forall n :: Queue(buffer, n) == []
  {
  }

  lemma {:induction false} ArrivedRetry(g: Gen, packets: seq<(string, Packet)>)
    ensures AllArrived(g, packets).retry == g.retry
  {
    if packets != [] { ArrivedRetry(g, packets[..|packets|-1]); }
  }

  lemma ArriveFields(g: Gen, n: string, p: Packet)
    ensures Arrive(g, n, p) == Gen(Push(g.buffer, n, p), g.retry, g.fate[p := Buffered(n)], g.offered, g.completed)
  {
  }

  lemma LaterSelf(g: Gen)
    ensures Later(g, g)
  {
  }

  lemma TakeLater(g: Gen, port: nat)
    requires Valid(g) && port in g.retry
    ensures Later(g, Take(g, port))
  {
    hide BufferSound, PortsSound;
    assert g.retry[port] in g.fate && g.fate[g.retry[port]] == Stalled(port);
  }

  /** Serving a master leaves one packet less in the buffer. */
  lemma FewerWaiting(g: Gen, h: Gen, p: Packet, fate: Fate)
    requires p in g.fate && g.fate[p].Buffered? && !fate.Buffered? && h.fate == g.fate[p := fate]
    ensures |Waiting(h)| == |Waiting(g)| - 1
    ensures Tally(g, h, if fate.Sent? then 1 else 0, if fate.Suppressed? then 1 else 0)
  {
    assert Waiting(h) == Waiting(g) - {p};
    hide Waiting;
    OneMoreGone(g, h, p, fate);
    OneMoreDropped(g, h, p, fate);
  }

  lemma OneMoreGone(g: Gen, h: Gen, p: Packet, fate: Fate)
    requires p in g.fate && g.fate[p].Buffered? && h.fate == g.fate[p := fate]
    ensures |Gone(h)| == |Gone(g)| + if fate.Sent? then 1 else 0
  {
    if fate.Sent? {
      assert Gone(h) == Gone(g) + {p};
    } else {
      assert Gone(h) == Gone(g);
    }
  }

  lemma OneMoreDropped(g: Gen, h: Gen, p: Packet, fate: Fate)
    requires p in g.fate && g.fate[p].Buffered? && h.fate == g.fate[p := fate]
    ensures |Dropped(h)| == |Dropped(g)| + if fate.Suppressed? then 1 else 0
  {
    if fate.Suppressed? {
      assert Dropped(h) == Dropped(g) + {p};
    } else {
      assert Dropped(h) == Dropped(g);
    }
  }

  lemma TallySame(g: Gen, h: Gen)
    requires forall p :: p in g.fate ==> p in h.fate && h.fate[p] == g.fate[p]
    requires forall p :: p in h.fate && p !in g.fate ==> h.fate[p].Buffered?
    ensures Tally(g, h, 0, 0)
  {
    assert Gone(h) == Gone(g) && Dropped(h) == Dropped(g);
  }

  lemma TallySum(g: Gen, h: Gen, i: Gen, a: nat, b: nat, c: nat, d: nat)
    requires Tally(g, h, a, b) && Tally(h, i, c, d)
    ensures Tally(g, i, a + c, b + d)
  {
  }

  lemma TallyMeans(g: Gen, h: Gen, sent: nat, dropped: nat)
    requires Tally(g, h, sent, dropped)
    ensures |Gone(h)| == |Gone(g)| + sent && |Dropped(h)| == |Dropped(g)| + dropped
  {
  }

  lemma TurnMeans(g: Gen, h: Gen, sent: bool, dropped: bool)
    requires Turn(g, h, sent, dropped)
    ensures Later(g, h) && Tally(g, h, if sent then 1 else 0, if dropped then 1 else 0)
    ensures |Waiting(h)| == |Waiting(g)| - 1 && StalledStay(g.retry, h.retry)
  {
  }

  /** Only masters of `toServe` may have a packet and a free port. */
  ghost predicate IdleBut(g: Gen, nameOf: nat -> string, ports: map<nat, nat>, toServe: seq<nat>) {
    && (forall m :: m in toServe ==> m in ports)
    && forall m :: m in ports ==> m in toServe || Queue(g.buffer, nameOf(m)) == [] || ports[m] in g.retry
  }

  lemma AllToServe(g: Gen, nameOf: nat -> string, ports: map<nat, nat>, toServe: seq<nat>)
    requires forall m :: m in ports <==> m in toServe
    ensures IdleBut(g, nameOf, ports, toServe)
  {
  }

  lemma Serves(g: Gen, nameOf: nat -> string, ports: map<nat, nat>, toServe: seq<nat>, i: nat)
    requires IdleBut(g, nameOf, ports, toServe) && i < |toServe|
    ensures toServe[i] in ports
  {
  }

  lemma IdleStays(g: Gen, h: Gen, nameOf: nat -> string, ports: map<nat, nat>, toServe: seq<nat>, sent: bool,
                  dropped: bool)
    requires IdleBut(g, nameOf, ports, toServe) && Turn(g, h, sent, dropped)
    ensures IdleBut(h, nameOf, ports, toServe)
  {
    hide Later, Tally, Waiting;
  }

  lemma IdlePassed(g: Gen, nameOf: nat -> string, ports: map<nat, nat>, toServe: seq<nat>, i: nat)
    requires IdleBut(g, nameOf, ports, toServe) && i < |toServe|
    requires toServe[i] in ports
    requires Queue(g.buffer, nameOf(toServe[i])) == [] || ports[toServe[i]] in g.retry
    ensures IdleBut(g, nameOf, ports, toServe[..i] + toServe[i+1..])
  {
    forall m | m in toServe && m != toServe[i] ensures m in toServe[..i] + toServe[i+1..] {
      var k :| 0 <= k < |toServe| && toServe[k] == m;
      if k > i { assert toServe[i+1..][k - i - 1] == m; }
    }
  }

  lemma AllIdle(g: Gen, nameOf: nat -> string, ports: map<nat, nat>, toServe: seq<nat>)
    requires IdleBut(g, nameOf, ports, toServe) && (g.buffer == map[] || toServe == [])
    ensures forall m :: m in ports ==> Queue(g.buffer, nameOf(m)) == [] || ports[m] in g.retry
  {
    EmptyBuffer(g.buffer);
  }

  /** What a turn leaves of the loop's accounts. */
  lemma TurnKeeps(first: Gen, start: Gen, g: Gen, h: Gen, retry: map<nat, Packet>, nameOf: nat -> string,
                  ports: map<nat, nat>, toServe: seq<nat>, taken: bool, drop: bool, sent: nat, dropped: nat)
    requires Later(start, g) && StalledStay(retry, g.retry) && Tally(first, g, sent, dropped)
    requires IdleBut(g, nameOf, ports, toServe) && Turn(g, h, taken, drop)
    ensures Later(start, h) && StalledStay(retry, h.retry) && |Waiting(h)| == |Waiting(g)| - 1
    ensures Tally(first, h, sent + (if taken then 1 else 0), dropped + (if drop then 1 else 0))
    ensures IdleBut(h, nameOf, ports, toServe)
  {
    hide Later, Tally, Waiting, StalledStay, IdleBut, Turn;
    TurnMeans(g, h, taken, drop);
    TallySum(first, g, h, sent, dropped, if taken then 1 else 0, if drop then 1 else 0);
    LaterTransitive(start, g, h);
    IdleStays(g, h, nameOf, ports, toServe, taken, drop);
    StalledTransitive(retry, g.retry, h.retry);
  }

  // -------------------------------------------------------------- the order of turns

  /** The rounds one after the other. */
  function Flat(rounds: seq<seq<nat>>): seq<nat> {
    if rounds == [] then [] else Flat(rounds[..|rounds|-1]) + rounds[|rounds|-1]
  }

  predicate Increasing(s: seq<nat>) {
    forall i, j :: 0 <= i < j < |s| ==> s[i] < s[j]
  }

  /** In each round every master has at most one turn, in the order of the requestors, and
      whoever is left out of a round has no turn in a later one. */
  predicate InRounds(rounds: seq<seq<nat>>) {
    && (forall k :: 0 <= k < |rounds| ==> Increasing(rounds[k]))
    && (forall j, k :: 0 <= j < k < |rounds| ==> Within(rounds[k], rounds[j]))
  }

  predicate Within(s: seq<nat>, t: seq<nat>) {
    forall m :: m in s ==> m in t
  }

  /** What a packet that was put on a port, or dropped, meets. */
  function Met(accepted: bool, suppressed: bool, port: nat): Fate {
    if suppressed then Suppressed else if accepted then Sent(port) else Stalled(port)
  }

  /** One master is served with its oldest packet; exactly packets that are not for the
      memory are dropped. */
  ghost predicate ServedOne(g: Gen, h: Gen, name: string, port: nat, memory: nat -> bool, fate: Fate) {
    && Queue(g.buffer, name) != [] && port !in g.retry
    && (fate.Suppressed? <==> !memory(Queue(g.buffer, name)[0].address))
    && match fate
       case Suppressed => h == Suppress(g, name)
       case Sent(p) => p == port && h == Take(Stall(g, name, port), port)
       case Stalled(p) => p == port && h == Stall(g, name, port)
       case Buffered(_) => false
  }

  /** From g to h the masters of `turns` were served, one packet each, with these fates. */
  ghost predicate Served(g: Gen, nameOf: nat -> string, ports: map<nat, nat>, memory: nat -> bool, turns: seq<nat>,
                         fates: seq<Fate>, h: Gen)
  {
    && |turns| == |fates|
    && if turns == [] then h == g
       else
         var m, n := turns[|turns|-1], |turns| - 1;
         && m in ports
         && exists mid :: Served(g, nameOf, ports, memory, turns[..n], fates[..n], mid)
                          && ServedOne(mid, h, nameOf(m), ports[m], memory, fates[n])
  }

  lemma ServedMore(g: Gen, nameOf: nat -> string, ports: map<nat, nat>, memory: nat -> bool, turns: seq<nat>,
                   fates: seq<Fate>, mid: Gen,
                   m: nat, fate: Fate, h: Gen)
    requires Served(g, nameOf, ports, memory, turns, fates, mid) && m in ports
    requires ServedOne(mid, h, nameOf(m), ports[m], memory, fate)
    ensures Served(g, nameOf, ports, memory, turns + [m], fates + [fate], h)
  {
    hide ServedOne;
    assert (turns + [m])[..|turns|] == turns && (fates + [fate])[..|fates|] == fates;
  }

  lemma {:induction false} RoundsKnown(g: Gen, nameOf: nat -> string, ports: map<nat, nat>, memory: nat -> bool, turns: seq<nat>,
                                       fates: seq<Fate>, h: Gen)
    requires Served(g, nameOf, ports, memory, turns, fates, h)
    ensures forall m :: m in turns ==> m in ports
  {
    hide ServedOne;
    if turns != [] {
      var n := |turns| - 1;
      var mid :| Served(g, nameOf, ports, memory, turns[..n], fates[..n], mid);
      RoundsKnown(g, nameOf, ports, memory, turns[..n], fates[..n], mid);
    }
  }

  lemma NothingServed(g: Gen, nameOf: nat -> string, ports: map<nat, nat>, memory: nat -> bool, toServe: seq<nat>)
    ensures Served(g, nameOf, ports, memory, Turns([], toServe, 0), [], g)
  {
  }

  /** The turns so far: whole rounds, then the masters in front of position i. */
  function Turns(rounds: seq<seq<nat>>, toServe: seq<nat>, i: nat): seq<nat>
    requires i <= |toServe|
  {
    Flat(rounds) + toServe[..i]
  }

  /** Who is still to be served had a turn in the last round. */
  predicate Rounds(rounds: seq<seq<nat>>, toServe: seq<nat>) {
    && InRounds(rounds) && Increasing(toServe)
    && (forall k :: 0 <= k < |rounds| ==> Within(toServe, rounds[k]))
  }

  lemma FirstRound(toServe: seq<nat>)
    requires Increasing(toServe)
    ensures Rounds([], toServe)
  {
  }

  lemma FlatMore(rounds: seq<seq<nat>>, round: seq<nat>)
    ensures Flat(rounds + [round]) == Flat(rounds) + round
  {
    assert (rounds + [round])[..|rounds|] == rounds;
  }

  lemma RoundDone(rounds: seq<seq<nat>>, round: seq<nat>, toServe: seq<nat>)
    requires Rounds(rounds, toServe) && Increasing(round) && Within(round, toServe)
    ensures Rounds(rounds, round) && Rounds(rounds + [round], round)
  {
  }

  lemma TurnTaken(rounds: seq<seq<nat>>, toServe: seq<nat>, i: nat)
    requires Rounds(rounds, toServe) && i < |toServe|
    ensures Turns(rounds, toServe, i) + [toServe[i]]
            == if i + 1 == |toServe| then Turns(rounds + [toServe], toServe, 0) else Turns(rounds, toServe, i + 1)
    ensures Rounds(rounds + [toServe], toServe)
  {
    FlatMore(rounds, toServe);
    RoundDone(rounds, toServe, toServe);
    assert toServe[..i] + [toServe[i]] == toServe[..i+1];
    assert i + 1 == |toServe| ==> toServe[..i+1] == toServe;
    assert (Flat(rounds) + toServe[..i]) + [toServe[i]] == Flat(rounds) + (toServe[..i] + [toServe[i]]);
    assert Flat(rounds + [toServe]) + [] == Flat(rounds + [toServe]);
  }

  lemma TurnLogged(start: Gen, g: Gen, h: Gen, nameOf: nat -> string, ports: map<nat, nat>, memory: nat -> bool,
                   toServe: seq<nat>, i: nat, rounds: seq<seq<nat>>, fates: seq<Fate>, taken: bool, drop: bool)
    requires Rounds(rounds, toServe) && i < |toServe| && toServe[i] in ports
    requires Served(start, nameOf, ports, memory, Turns(rounds, toServe, i), fates, g)
    requires ServedOne(g, h, nameOf(toServe[i]), ports[toServe[i]], memory, Met(taken, drop, ports[toServe[i]]))
    ensures var done, last := if i + 1 == |toServe| then rounds + [toServe] else rounds, i + 1 == |toServe|;
            && Rounds(done, toServe)
            && Served(start, nameOf, ports, memory, Turns(done, toServe, if last then 0 else i + 1),
                      fates + [Met(taken, drop, ports[toServe[i]])], h)
  {
    hide Served, ServedOne, Rounds, Turns, Met;
    var m := toServe[i];
    ServedMore(start, nameOf, ports, memory, Turns(rounds, toServe, i), fates, g, m, Met(taken, drop, ports[m]), h);
    TurnTaken(rounds, toServe, i);
  }

  lemma TurnPassed(rounds: seq<seq<nat>>, toServe: seq<nat>, i: nat)
    requires Rounds(rounds, toServe) && i < |toServe|
    ensures var less := toServe[..i] + toServe[i+1..];
            && Rounds(rounds, less)
            && if i + 1 < |toServe| then Turns(rounds, less, i) == Turns(rounds, toServe, i)
               else Turns(if less == [] then rounds else rounds + [less], less, 0) == Turns(rounds, toServe, i)
                    && Rounds(if less == [] then rounds else rounds + [less], less)
  {
    var less := toServe[..i] + toServe[i+1..];
    assert less[..i] == toServe[..i];
    assert Within(toServe[..i], toServe) && Within(toServe[i+1..], toServe) && Within(less, toServe);
    FlatMore(rounds, less);
    RoundDone(rounds, less, toServe);
    if i + 1 == |toServe| {
      assert less == toServe[..i];
    }
  }

  lemma LastRound(rounds: seq<seq<nat>>, toServe: seq<nat>, i: nat)
    requires Rounds(rounds, toServe) && i <= |toServe|
    ensures InRounds(rounds) && (i == 0 ==> Turns(rounds, toServe, i) == Flat(rounds))
    ensures InRounds(rounds + [toServe[..i]]) && Turns(rounds, toServe, i) == Flat(rounds + [toServe[..i]])
  {
    FlatMore(rounds, toServe[..i]);
    RoundDone(rounds, toServe[..i], toServe);
  }

  /** One turn of a master: its packet leaves the buffer, nothing stalled is touched, and
      no queue fills again. */
  ghost predicate Turn(g: Gen, h: Gen, sent: bool, dropped: bool) {
    && Later(g, h)
    && Tally(g, h, if sent then 1 else 0, if dropped then 1 else 0)
    && |Waiting(h)| == |Waiting(g)| - 1
    && StalledStay(g.retry, h.retry)
    && forall n :: Queue(g.buffer, n) == [] ==> Queue(h.buffer, n) == []
  }

  lemma StalledSelf(retry: map<nat, Packet>)
    ensures StalledStay(retry, retry)
  {
  }

  lemma StalledTransitive(a: map<nat, Packet>, b: map<nat, Packet>, c: map<nat, Packet>)
    requires StalledStay(a, b) && StalledStay(b, c)
    ensures StalledStay(a, c)
  {
  }

  predicate StalledStay(before: map<nat, Packet>, after: map<nat, Packet>) {
    forall port :: port in before ==> port in after && after[port] == before[port]
  }

  lemma EmptyStays(g: Gen, h: Gen)
    requires Later(g, h)
    ensures forall n :: Queue(g.buffer, n) == [] ==> Queue(h.buffer, n) == []
  {
    hide Queue;
  }

  lemma SuppressTurn(g: Gen, n: string)
    requires Valid(g) && Queue(g.buffer, n) != []
    ensures Turn(g, Suppress(g, n), false, true)
  {
    hide Tally, RetrySound, PortsSound, Waiting, Pop, Queue, Later;
    var p, h := Queue(g.buffer, n)[0], Suppress(g, n);
    assert p in Queue(g.buffer, n);
    PopLater(g, n, h, Suppressed);
    FewerWaiting(g, h, p, Suppressed);
    EmptyStays(g, h);
  }

  lemma StallTurn(g: Gen, n: string, port: nat)
    requires Valid(g) && Queue(g.buffer, n) != [] && port !in g.retry
    ensures Turn(g, Stall(g, n, port), false, false)
  {
    hide Tally, RetrySound, PortsSound, Waiting, Pop, Queue, Push, Later;
    var p, h := Queue(g.buffer, n)[0], Stall(g, n, port);
    assert p in Queue(g.buffer, n);
    forall q: nat ensures Queue(g.offered, q) <= Queue(h.offered, q) {
      PushQueue(g.offered, port, p, q);
    }
    PopLater(g, n, h, Stalled(port));
    FewerWaiting(g, h, p, Stalled(port));
    EmptyStays(g, h);
  }

  lemma SentTurn(g: Gen, n: string, port: nat)
    requires Valid(g) && Queue(g.buffer, n) != [] && port !in g.retry
    ensures Turn(g, Take(Stall(g, n, port), port), true, false)
  {
    hide Tally, RetrySound, PortsSound, Waiting, Pop, Later, Push, Queue;
    var mid := Stall(g, n, port);
    StallValid(g, n, port);
    StallTurn(g, n, port);
    TakeLater(mid, port);
    LaterTransitive(g, mid, Take(mid, port));
    assert mid.retry[port] in mid.fate && mid.fate[mid.retry[port]] == Stalled(port);
    SameWaiting(mid, port);
    TallySum(g, mid, Take(mid, port), 0, 0, 1, 0);
  }

  lemma SameWaiting(g: Gen, port: nat)
    requires port in g.retry && g.retry[port] in g.fate && g.fate[g.retry[port]] == Stalled(port)
    ensures Waiting(Take(g, port)) == Waiting(g) && Tally(g, Take(g, port), 1, 0)
  {
    assert Gone(Take(g, port)) == Gone(g) + {g.retry[port]};
    assert Dropped(Take(g, port)) == Dropped(g);
  }

  /** Every packet seen is in exactly one place. */
  lemma ExactlyOnePlace(g: Gen, p: Packet)
    requires Valid(g)
    ensures p in g.fate <==> Places(g, p) != {} || (p in g.fate && g.fate[p].Suppressed?)
    ensures |Places(g, p)| <= 1
    ensures p in g.fate && g.fate[p].Suppressed? ==> Places(g, p) == {}
  {
    PlacesAreFates(g, p);
    hide Places;
    if p in g.fate {
      SubsetOfOne(Places(g, p), g.fate[p]);
      if !g.fate[p].Suppressed? {
        Located(g, p);
      }
    }
  }

  lemma PlacesAreFates(g: Gen, p: Packet)
    requires Valid(g)
    ensures forall x :: x in Places(g, p) ==> p in g.fate && x == g.fate[p] && !x.Suppressed?
  {
    hide Queue, NoDuplicates;
  }

  /** Where the packet can be found in the buffer, on the ports, or past them. */
  ghost function Places(g: Gen, p: Packet): set<Fate> {
    (set n | n in g.buffer && p in Queue(g.buffer, n) :: Buffered(n))
    + (set port | port in g.retry && g.retry[port] == p :: Stalled(port))
    + (set port | port in g.completed && p in Queue(g.completed, port) :: Sent(port))
  }

  lemma Located(g: Gen, p: Packet)
    requires Valid(g) && p in g.fate && !g.fate[p].Suppressed?
    ensures g.fate[p] in Places(g, p)
  {
    match g.fate[p]
    case Buffered(n) => assert p in Queue(g.buffer, n);
    case Stalled(port) => assert port in g.retry && g.retry[port] == p;
    case Sent(port) => assert p in Queue(g.completed, port);
    case Suppressed =>
  }

  lemma SubsetOfOne(s: set<Fate>, x: Fate)
    requires forall y :: y in s ==> y == x
    ensures |s| <= 1
  {
    assert s == {} || s == {x};
  }
}
