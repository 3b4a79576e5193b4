/** The Linux driver of the ATP device: callers that wait for the stream they asked to
    play, and the interrupt service routine that wakes them. */
module AtpDriver {
  import opened Basics
  import opened AtpDevice

  /** A play request of a caller: on the driver's list, at an address of its own, until
      the caller leaves and frees it. */
  datatype Call = Call(id: nat, stream: nat, flow: nat, raddr: nat, rrange: nat, waddr: nat, wrange: nat,
                       address: nat, completed: bool)

  // ----------------------------------------------------------- MMIO programming

  /** The registers that a play request writes: those of its own buffers only. */
  function Program(regs: Registers, c: Call): Registers {
    var r := if c.rrange > 0 then regs.(readBase := c.raddr, readRange := c.rrange) else regs;
    var w := if c.wrange > 0 then r.(writeBase := c.waddr, writeRange := c.wrange) else r;
    w.(streamId := c.stream, taskId := c.flow, inRequestId := c.id)
  }

  /** Writes CONTROL and waits for STATUS; None is the device's fatal branch. */
  function Submitted(d: DeviceState, c: Call): Option<DeviceState> {
    match AfterPlay(d.(regs := Program(d.regs, c)), c.wrange > 0, c.rrange > 0 && c.wrange > 0)
    case None => None
    case Some(e) => Some(e.(regs := e.regs.(status := 0)))
  }

  /** The device accepts a request exactly when its stream is known and it does not ask
      for both directions: the driver's code for both is one the device rejects. */
  lemma SubmittedIff(d: DeviceState, c: Call)
    ensures Submitted(d, c).Some? <==> c.stream in d.streams && !(c.rrange > 0 && c.wrange > 0)
  {
  }

  // ------------------------------------------------------------- the request list

  /** The interrupt service routine finds a request by its id ... */
  function Signal(live: map<nat, Call>, id: nat): map<nat, Call> {
    if id in live then live[id := live[id].(completed := true)] else live
  }

  /** ... but writes to the address where it found it. */
  function Complete(live: map<nat, Call>, address: nat): map<nat, Call> {
    map id | id in live :: if live[id].address == address then live[id].(completed := true) else live[id]
  }

  ghost predicate DistinctAddresses(live: map<nat, Call>) {
    forall i, j :: i in live && j in live && live[i].address == live[j].address ==> i == j
  }

  /** The address may belong to nobody, or to another caller, by the time of the write;
      while it belongs to the request that was found, the two are the same. */
  lemma CompleteIsSignal(live: map<nat, Call>, id: nat)
    requires DistinctAddresses(live) && id in live
    ensures Complete(live, live[id].address) == Signal(live, id)
  {
  }

  ghost predicate DistinctIds(memory: map<nat, Call>) {
    forall a, b :: a in memory && b in memory && memory[a].id == memory[b].id ==> a == b
  }

  ghost predicate At(memory: map<nat, Call>, a: nat, id: nat) {
    a in memory && memory[a].id == id
  }

  ghost function Owner(memory: map<nat, Call>, id: nat): nat
    requires exists a :: At(memory, a, id)
  {
    var a :| At(memory, a, id);
    a
  }

  /** Requests in memory by their id. */
  ghost function ById(memory: map<nat, Call>): map<nat, Call> {
    map id | id in (set a | a in memory :: memory[a].id) && exists a :: At(memory, a, id)
      :: if At(memory, Owner(memory, id), id) then memory[Owner(memory, id)] else Nobody()
  }

  ghost function Nobody(): Call { Call(0, 0, 0, 0, 0, 0, 0, 0, false) }

  lemma ByIdMember(memory: map<nat, Call>, id: nat)
    requires DistinctIds(memory)
    ensures id in ById(memory) <==> exists a :: At(memory, a, id)
    ensures forall a :: At(memory, a, id) ==> id in ById(memory) && ById(memory)[id] == memory[a]
  {
    if a :| At(memory, a, id) {
      assert memory[a].id == id;
    }
  }

  lemma ByIdInsert(memory: map<nat, Call>, a: nat, c: Call)
    requires DistinctIds(memory) && a !in memory && forall b :: b in memory ==> memory[b].id != c.id
    ensures DistinctIds(memory[a := c]) && c.id !in ById(memory)
    ensures ById(memory[a := c]) == ById(memory)[c.id := c]
  {
    hide ById;
    var after := memory[a := c];
    ByIdMember(memory, c.id);
    forall id ensures id in ById(after) <==> id in ById(memory)[c.id := c]
      ensures id in ById(after) ==> ById(after)[id] == ById(memory)[c.id := c][id]
    {
      ByIdMember(after, id);
      ByIdMember(memory, id);
      assert forall b :: At(after, b, id) <==> (b != a && At(memory, b, id)) || (b == a && id == c.id);
      if id == c.id { assert At(after, a, id); }
    }
  }

  lemma ByIdRemove(memory: map<nat, Call>, a: nat)
    requires DistinctIds(memory) && a in memory
    ensures DistinctIds(memory - {a}) && ById(memory - {a}) == ById(memory) - {memory[a].id}
  {
    hide ById;
    var after := memory - {a};
    forall id ensures id in ById(after) <==> id in ById(memory) && id != memory[a].id
      ensures id in ById(after) ==> ById(after)[id] == ById(memory)[id]
    {
      ByIdMember(after, id);
      ByIdMember(memory, id);
      assert forall b :: At(after, b, id) <==> b != a && At(memory, b, id);
      if id == memory[a].id { assert At(memory, a, id); }
    }
  }

  lemma ByIdComplete(memory: map<nat, Call>, address: nat)
    requires DistinctIds(memory) && forall a :: a in memory ==> memory[a].address == a
    ensures address !in memory ==> Complete(ById(memory), address) == ById(memory)
    ensures address in memory ==>
              var after := memory[address := memory[address].(completed := true)];
              DistinctIds(after) && Complete(ById(memory), address) == ById(after)
  {
    hide ById;
    ByIdAddresses(memory);
    if address in memory {
      var after := memory[address := memory[address].(completed := true)];
      forall id ensures id in Complete(ById(memory), address) <==> id in ById(after)
        ensures id in ById(after) ==> Complete(ById(memory), address)[id] == ById(after)[id]
      {
        ByIdMember(memory, id);
        ByIdMember(after, id);
        assert forall a :: At(after, a, id) <==> At(memory, a, id);
      }
    }
  }

  lemma ByIdAddresses(memory: map<nat, Call>)
    requires DistinctIds(memory) && forall a :: a in memory ==> memory[a].address == a
    ensures forall id :: id in ById(memory) ==> At(memory, ById(memory)[id].address, id)
    ensures DistinctAddresses(ById(memory))
  {
    hide ById;
    forall id | id in ById(memory) ensures At(memory, ById(memory)[id].address, id) {
      ByIdMember(memory, id);
    }
  }

  lemma WithoutOne(l: seq<nat>, at: nat)
    requires at < |l| && forall i, j :: 0 <= i < j < |l| ==> l[i] != l[j]
    ensures var rest := l[..at] + l[at + 1..];
            && (forall i, j :: 0 <= i < j < |rest| ==> rest[i] != rest[j])
            && (forall a :: a in rest <==> a in l && a != l[at])
  {
    var rest := l[..at] + l[at + 1..];
    forall a | a in l && a != l[at] ensures a in rest {
      var k :| 0 <= k < |l| && l[k] == a;
      assert if k < at then rest[k] == a else rest[k - 1] == a;
    }
  }

  /** The list holds the addresses of the requests in memory. */
  class Driver {
    var memory: map<nat, Call>
    var playRequests: seq<nat>
    var nextPlayRequestId: nat

    ghost function Live(): map<nat, Call>
      requires Valid()
      reads this
    {
      ById(memory)
    }

    ghost predicate Valid()
      reads this
    {
      && (forall a :: a in memory <==> a in playRequests)
      && (forall i, j :: 0 <= i < j < |playRequests| ==> playRequests[i] != playRequests[j])
      && (forall a :: a in memory ==> memory[a].address == a && memory[a].id < nextPlayRequestId)
      && DistinctIds(memory)
    }

    constructor ()
      ensures Valid() && Live() == map[] && nextPlayRequestId == 1
    {
      memory, playRequests, nextPlayRequestId := map[], [], 1;
    }

    /** A new request at the head of the list, under a fresh id, at the free address that
        the allocator returns. */
    method GetPlayStream(stream: nat, flow: nat, address: nat) returns (req: Call)
      requires Valid() && address !in memory
      modifies this
      ensures Valid() && req == Call(old(nextPlayRequestId), stream, flow, 0, 0, 0, 0, address, false)
      ensures req.id !in old(Live()) && Live() == old(Live())[req.id := req] && address in memory
      ensures nextPlayRequestId == old(nextPlayRequestId) + 1
    {
      hide ById, DistinctIds;
      req := Call(nextPlayRequestId, stream, flow, 0, 0, 0, 0, address, false);
      ByIdInsert(memory, address, req);
      nextPlayRequestId := nextPlayRequestId + 1;
      memory := memory[address := req];
      playRequests := [address] + playRequests;
    }

    /** The address of a request. */
    method FindById(id: nat) returns (at: Option<nat>)
      requires Valid()
      ensures at.None? <==> id !in Live()
      ensures at.Some? ==> at.value in memory && id in Live() && memory[at.value] == Live()[id]
                           && Live()[id].address == at.value
    {
      hide ById, DistinctIds;
      ByIdMember(memory, id);
      assert forall a :: At(memory, a, id) <==> a in memory && memory[a].id == id;
      var i := 0;
      while i < |playRequests|
        invariant i <= |playRequests|
        invariant forall k :: 0 <= k < i ==> memory[playRequests[k]].id != id
      {
        if memory[playRequests[i]].id == id {
          return Some(playRequests[i]);
        }
        i := i + 1;
      }
      at := None;
    }

    method PutPlayStream(address: nat)
      requires Valid() && address in memory
      modifies this`memory, this`playRequests
      ensures Valid() && Live() == old(Live()) - {old(memory[address].id)}
    {
      hide ById, DistinctIds;
      ByIdRemove(memory, address);
      var at :| 0 <= at < |playRequests| && playRequests[at] == address;
      WithoutOne(playRequests, at);
      playRequests := playRequests[..at] + playRequests[at + 1..];
      memory := memory - {address};
    }

    /** Programs the device for a request; the device answers STATUS at once, so the
        poll ends with the first read.  Returns false if the device failed fatally. */
    method MmioPlayStream(dev: Device, c: Call) returns (ok: bool)
      modifies dev
      ensures ok == Submitted(old(dev.State()), c).Some?
      ensures ok ==> dev.State() == Submitted(old(dev.State()), c).value
    {
      if c.rrange > 0 {
        dev.regs := dev.regs.(readBase := c.raddr, readRange := c.rrange);
      }
      if c.wrange > 0 {
        dev.regs := dev.regs.(writeBase := c.waddr, writeRange := c.wrange);
      }
      dev.regs := dev.regs.(streamId := c.stream, taskId := c.flow, inRequestId := c.id);
      ok := dev.PlayStreamHandler(c.wrange > 0, c.rrange > 0 && c.wrange > 0);
      if ok {
        assert dev.regs.status != 0;
        dev.regs := dev.regs.(status := 0);
      }
    }

    /** First half of the interrupt service routine, under the MMIO lock. */
    method IsrRead(dev: Device) returns (id: nat)
      modifies dev
      ensures id == old(dev.regs.outRequestId) && dev.State() == AfterAck(old(dev.State()))
    {
      id := dev.regs.outRequestId;
      dev.IntAckHandler();
    }

    /** The write to the request that was found; if it has been freed since, no request
        notices. */
    method IsrComplete(address: nat)
      requires Valid()
      modifies this`memory
      ensures Valid() && Live() == Complete(old(Live()), address)
    {
      hide ById, DistinctIds, Complete;
      ByIdComplete(memory, address);
      if address in memory {
        memory := memory[address := memory[address].(completed := true)];
      }
    }

    /** The lookup and the write with nothing in between. */
    method IsrSignal(id: nat) returns (handled: bool)
      requires Valid()
      modifies this`memory
      ensures Valid() && handled == (id in old(Live())) && Live() == Signal(old(Live()), id)
    {
      hide ById, DistinctIds, Complete, DistinctAddresses;
      var at := FindById(id);
      handled := at.Some?;
      if handled {
        ByIdAddresses(memory);
        CompleteIsSignal(Live(), id);
        IsrComplete(at.value);
      }
    }
  }

  // ---------------------------------------------------- driver, device and callers

  datatype Outcome = Success | Interrupted | MapError

  /** What an interrupt routine found: the id it looked up and the address it will write. */
  datatype Finding = Finding(id: nat, address: nat)

  /** Driver, device, callers and interrupt routines in progress.  `waiting` holds the
      callers that wait to be woken, `inIsr` the ids read by routines that have not yet
      looked up their caller, `found` the routines between lookup and write, `signalled`
      those that have ended. */
  datatype System = System(
    dev: DeviceState, live: map<nat, Call>, next: nat, waiting: set<nat>, inIsr: seq<nat>, found: seq<Finding>,
    calls: map<nat, Call>, acked: seq<nat>, signalled: seq<nat>, returned: map<nat, Outcome>, halted: bool)

  /** What may happen next, in any order. */
  datatype Event =
    | Open(stream: nat, flow: nat, raddr: nat, rrange: nat, waddr: nat, wrange: nat, address: nat)
    | MapFail(id: nat)
    | Submit(id: nat)
    | Wake(id: nat)
    | Interrupt(id: nat)
    | StreamDone(stream: nat)
    | IsrReads
    | IsrFinds(k: nat)
    | IsrCompletes(j: nat)
    | Resolve(stream: nat)

  predicate Enabled(s: System, e: Event) {
    && !s.halted
    && match e
       case Open(_, _, _, _, _, _, address) => forall id :: id in s.live ==> s.live[id].address != address
       case MapFail(id) => id in s.live && id !in s.waiting
       case Submit(id) => id in s.live && id !in s.waiting
       case Wake(id) => id in s.live && id in s.waiting && s.live[id].completed
       case Interrupt(id) => id in s.live && id in s.waiting
       case StreamDone(str) => str in s.dev.playing && str in s.dev.streams
       case IsrReads => s.dev.raised
       case IsrFinds(k) => k < |s.inIsr|
       case IsrCompletes(j) => j < |s.found|
       case Resolve(_) => true
  }

  function Leave(s: System, id: nat, outcome: Outcome): System {
    s.(live := s.live - {id}, waiting := s.waiting - {id}, returned := s.returned[id := outcome])
  }

  function Apply(s: System, e: Event): System
    requires Enabled(s, e)
  {
    match e
    case Open(stream, flow, raddr, rrange, waddr, wrange, address) =>
      var c := Call(s.next, stream, flow, raddr, rrange, waddr, wrange, address, false);
      s.(live := s.live[s.next := c], calls := s.calls[s.next := c], next := s.next + 1)
    case MapFail(id) => Leave(s, id, MapError)
    case Submit(id) =>
      (match Submitted(s.dev, s.live[id])
       case None => s.(halted := true)
       case Some(d) => s.(dev := d, waiting := s.waiting + {id}))
    case Wake(id) => Leave(s, id, Success)
    case Interrupt(id) => Leave(s, id, Interrupted)
    case StreamDone(str) => s.(dev := AfterServed(s.dev, str))
    case IsrReads =>
      var id := s.dev.regs.outRequestId;
      s.(dev := AfterAck(s.dev), acked := s.acked + [id], inIsr := s.inIsr + [id])
    case IsrFinds(k) =>
      var id, rest := s.inIsr[k], s.inIsr[..k] + s.inIsr[k+1..];
      if id in s.live then s.(inIsr := rest, found := s.found + [Finding(id, s.live[id].address)])
      else s.(inIsr := rest, signalled := s.signalled + [id])
    case IsrCompletes(j) =>
      s.(live := Complete(s.live, s.found[j].address), signalled := s.signalled + [s.found[j].id],
         found := s.found[..j] + s.found[j+1..])
    case Resolve(str) => s.(dev := AfterUnique(s.dev, str).(regs := AfterUnique(s.dev, str).regs.(status := 0)))
  }

  function Start(): System {
    System(AtpDevice.Initial(), map[], 1, {}, [], [], map[], [], [], map[], false)
  }

  // ------------------------------------------------------------------ invariant

  ghost predicate IdsBelow(s: System) {
    && (forall p :: p in s.dev.history.submitted ==> p.1 < s.next)
    && (forall id :: id in s.live ==> id < s.next)
    && Distinct(Ids(s.dev.history.submitted))
  }

  /** Callers and their requests. */
  ghost predicate Callers(s: System) {
    && (forall id :: id in s.live ==>
          id in s.calls && s.live[id].(completed := false) == s.calls[id] && s.calls[id].id == id)
    && (forall id :: id in s.waiting ==> id in s.live)
    && (forall id :: id in s.live && id in s.waiting ==> (s.calls[id].stream, id) in s.dev.history.submitted)
    && (forall id, t :: id in s.live && id !in s.waiting ==> (t, id) !in s.dev.history.submitted)
    && (forall id :: id in s.returned ==> id < s.next && id !in s.live)
    && (forall id :: id in s.returned && s.returned[id] == Success ==>
          id in s.calls && (s.calls[id].stream, id) in s.dev.history.submitted)
    && (forall id :: id in s.calls ==> id < s.next)
  }

  /** The request that is announced and not acknowledged yet, if any. */
  function Announced(d: DeviceState): seq<nat> {
    if d.intAckPending then [d.regs.outRequestId] else []
  }

  function FoundIds(found: seq<Finding>): (ids: seq<nat>)
    ensures |ids| == |found| && forall i :: 0 <= i < |found| ==> ids[i] == found[i].id
  {
    seq(|found|, i requires 0 <= i < |found| => found[i].id)
  }

  /** Notifications are read once each, and each read leads to one lookup and at most one
      write, which completes the request looked up if its caller is still there. */
  ghost predicate Interrupts(s: System) {
    && s.dev.history.notified == s.acked + Announced(s.dev)
    && multiset(s.acked) == multiset(s.signalled) + multiset(s.inIsr) + multiset(FoundIds(s.found))
    && (forall id :: id in s.waiting && id in s.live && id in s.signalled ==> s.live[id].completed)
  }

  /** A routine writes to where its caller is, or was. */
  ghost predicate Findings(s: System) {
    && (forall j :: 0 <= j < |s.found| ==>
          s.found[j].id < s.next && (s.found[j].id in s.live ==> s.live[s.found[j].id].address == s.found[j].address))
    && DistinctAddresses(s.live)
  }

  /** Only the routine that read its own id has completed a request. */
  ghost predicate Exact(s: System) {
    && (forall id :: id in s.live && s.live[id].completed ==> id in s.signalled)
    && (forall id :: id in s.returned && s.returned[id] == Success ==> id in s.signalled)
  }

  /** The write hits another caller, who got the memory after the one found had left. */
  ghost predicate Strikes(s: System, e: Event) {
    e.IsrCompletes? && e.j < |s.found|
    && exists id :: id in s.live && id !in s.signalled && id != s.found[e.j].id
                    && s.live[id].address == s.found[e.j].address
  }

  /** A request plays with the buffers of its own caller. */
  predicate Matches(r: Request, c: Call) {
    && r.taskId == c.flow
    && (c.rrange > 0 && c.wrange == 0 ==> r.op == READ && r.readBase == c.raddr && r.readRange == c.rrange)
    && (c.wrange > 0 && c.rrange == 0 ==> r.op == WRITE && r.writeBase == c.waddr && r.writeRange == c.wrange)
  }

  ghost predicate OwnBuffers(d: DeviceState, calls: map<nat, Call>) {
    && (forall t :: t in d.playing ==>
          d.playing[t].id in calls && Matches(d.playing[t], calls[d.playing[t].id]))
    && (forall t, i :: t in d.streams && 0 <= i < |d.streams[t].pending| ==>
          d.streams[t].pending[i].id in calls
          && Matches(d.streams[t].pending[i], calls[d.streams[t].pending[i].id]))
  }

  ghost predicate Inv(s: System) {
    Invariant(s.dev) && IdsBelow(s) && Callers(s) && Interrupts(s) && Findings(s) && OwnBuffers(s.dev, s.calls)
  }

  lemma StartInv()
    ensures Inv(Start())
  {
    InitialInvariant();
  }

  lemma DistinctAppend(log: seq<Play>, p: Play)
    requires Distinct(Ids(log)) && forall t :: (t, p.1) !in log
    ensures Distinct(Ids(log + [p]))
  {
    IdsMember(log, p.1);
    IdsAppend(log, p);
  }

  lemma OpenKeepsInv(s: System, e: Event)
    requires Inv(s) && e.Open? && Enabled(s, e)
    ensures Inv(Apply(s, e))
  {
    hide Invariant, Callers, OwnBuffers, IdsBelow, Interrupts, Findings;
    var c := Call(s.next, e.stream, e.flow, e.raddr, e.rrange, e.waddr, e.wrange, e.address, false);
    OpenCallers(s, c);
    OpenBuffers(s, c);
    OpenRest(s, c);
  }

  lemma OpenRest(s: System, c: Call)
    requires IdsBelow(s) && Interrupts(s) && Findings(s) && Callers(s) && c.id == s.next && !c.completed
    requires forall id :: id in s.live ==> s.live[id].address != c.address
    ensures var e := s.(live := s.live[s.next := c], calls := s.calls[s.next := c], next := s.next + 1);
            IdsBelow(e) && Interrupts(e) && Findings(e)
  {
    hide Announced, FoundIds;
  }

  lemma OpenCallers(s: System, c: Call)
    requires IdsBelow(s) && Callers(s) && c.id == s.next && !c.completed
    ensures Callers(s.(live := s.live[s.next := c], calls := s.calls[s.next := c], next := s.next + 1))
  {
    forall t ensures (t, s.next) !in s.dev.history.submitted {
      assert (t, s.next).1 == s.next;
    }
  }

  lemma OpenBuffers(s: System, c: Call)
    requires Callers(s) && OwnBuffers(s.dev, s.calls)
    ensures OwnBuffers(s.dev, s.calls[s.next := c])
  {
    hide Matches;
  }

  lemma LeaveKeepsInv(s: System, id: nat, outcome: Outcome)
    requires Inv(s) && id in s.live
    requires outcome == Success ==> id in s.waiting && s.live[id].completed
    ensures Inv(Leave(s, id, outcome))
  {
    hide Invariant, OwnBuffers, FoundIds, Announced;
  }

  lemma SubmitKeepsInv(s: System, id: nat)
    requires Inv(s) && Enabled(s, Submit(id))
    ensures Inv(Apply(s, Submit(id)))
  {
    match Submitted(s.dev, s.live[id])
    case None => HaltKeepsInv(s);
    case Some(d) =>
      SubmitKeepsDevice(s, id, d);
      SubmitKeepsCallers(s, id, d);
      SubmitKeepsInterrupts(s, id, d);
      SubmitKeepsBuffers(s, id, d);
      hide Submitted, Invariant, Callers, Interrupts, OwnBuffers, IdsBelow, FoundIds;
  }

  lemma HaltKeepsInv(s: System)
    requires Inv(s)
    ensures Inv(s.(halted := true))
  {
    hide Invariant, OwnBuffers, FoundIds;
  }

  lemma SubmitKeepsDevice(s: System, id: nat, d: DeviceState)
    requires Inv(s) && id in s.live && id !in s.waiting && Submitted(s.dev, s.live[id]) == Some(d)
    ensures Invariant(d) && IdsBelow(s.(dev := d, waiting := s.waiting + {id}))
  {
    hide OwnBuffers, Interrupts, Findings;
    var c := s.live[id];
    var programmed := s.dev.(regs := Program(s.dev.regs, c));
    RegistersKeepInvariant(s.dev, programmed);
    PlayKeepsInvariant(programmed, c.wrange > 0, c.rrange > 0 && c.wrange > 0);
    RegistersKeepInvariant(AfterPlay(programmed, c.wrange > 0, c.rrange > 0 && c.wrange > 0).value, d);
    DistinctAppend(s.dev.history.submitted, (c.stream, id));
    hide Invariant;
  }

  lemma SubmitEffect(s: System, id: nat, d: DeviceState)
    requires id in s.live && s.live[id].id == id && Submitted(s.dev, s.live[id]) == Some(d)
    ensures d.history == s.dev.history.(submitted := s.dev.history.submitted + [(s.live[id].stream, id)])
    ensures d.intAckPending == s.dev.intAckPending && d.regs.outRequestId == s.dev.regs.outRequestId
  {
  }

  lemma SubmitKeepsCallers(s: System, id: nat, d: DeviceState)
    requires Inv(s) && id in s.live && id !in s.waiting && Submitted(s.dev, s.live[id]) == Some(d)
    ensures Callers(s.(dev := d, waiting := s.waiting + {id}))
  {
    hide AfterPlay, Invariant, Submitted;
    SubmitEffect(s, id, d);
  }

  lemma SubmitKeepsInterrupts(s: System, id: nat, d: DeviceState)
    requires Inv(s) && id in s.live && id !in s.waiting && Submitted(s.dev, s.live[id]) == Some(d)
    ensures Interrupts(s.(dev := d, waiting := s.waiting + {id}))
  {
    SubmitEffect(s, id, d);
    if id in s.signalled {
      SignalledWasSubmitted(s, id);
      assert false;
    }
  }

  lemma SubmitKeepsBuffers(s: System, id: nat, d: DeviceState)
    requires Inv(s) && id in s.live && Submitted(s.dev, s.live[id]) == Some(d)
    ensures OwnBuffers(d, s.calls)
  {
    hide AfterPlay, Invariant, Submitted, Matches;
    var c := s.live[id];
    SubmitPlaces(s.dev, c, d);
    var r := Asked(s.dev, c);
    AskedMatches(s.dev, c);
    assert Matches(r, s.calls[id]);
  }

  /** The request that the device builds for a call. */
  function Asked(d: DeviceState, c: Call): Request
    requires !(c.rrange > 0 && c.wrange > 0)
  {
    RequestOf(Program(d.regs, c), if c.wrange > 0 then WRITE else READ)
  }

  lemma AskedMatches(d: DeviceState, c: Call)
    requires !(c.rrange > 0 && c.wrange > 0)
    ensures Asked(d, c).id == c.id && Matches(Asked(d, c), c.(completed := false))
  {
  }

  /** It starts to play, or it joins the end of its stream's queue. */
  lemma SubmitPlaces(d: DeviceState, c: Call, e: DeviceState)
    requires Submitted(d, c) == Some(e)
    ensures !(c.rrange > 0 && c.wrange > 0)
    ensures forall t :: t in e.playing ==> (t in d.playing && e.playing[t] == d.playing[t]) || e.playing[t] == Asked(d, c)
    ensures forall t :: t in e.streams ==>
              t in d.streams && (e.streams[t].pending == d.streams[t].pending
                                 || e.streams[t].pending == d.streams[t].pending + [Asked(d, c)])
  {
  }

  /** Whatever a wake-up was issued for has been submitted. */
  lemma SignalledWasSubmitted(s: System, id: nat)
    requires Inv(s) && id in s.signalled
    ensures exists t :: (t, id) in s.dev.history.completed && (t, id) in s.dev.history.submitted
  {
    assert id in multiset(s.signalled) + multiset(s.inIsr) + multiset(FoundIds(s.found));
    assert id in multiset(s.acked);
    assert id in s.dev.history.notified;
    assert id in Ids(s.dev.history.completed);
    IdsMember(s.dev.history.completed, id);
    var t :| (t, id) in s.dev.history.completed;
    CompletedWasSubmitted(s.dev, t, id);
  }

  lemma StreamDoneKeepsInv(s: System, str: nat)
    requires Inv(s) && Enabled(s, StreamDone(str))
    ensures Inv(Apply(s, StreamDone(str)))
  {
    hide AfterServed, Invariant, OwnBuffers;
    ServedKeepsInvariant(s.dev, str);
    StreamDoneNotifies(s.dev, str);
    StreamDoneBuffers(s, str);
    var d := AfterServed(s.dev, str);
    assert s.acked + [] == s.acked;
    assert d.history.notified == s.acked + Announced(d);
  }

  lemma StreamDoneNotifies(d: DeviceState, str: nat)
    requires Invariant(d) && str in d.streams && str in d.playing
    ensures var e := AfterServed(d, str);
            && e.history.submitted == d.history.submitted
            && ((e.history.notified == d.history.notified && Announced(e) == Announced(d))
                || (e.history.notified == d.history.notified + Announced(e) && Announced(d) == []))
  {
    hide InOrder;
  }

  lemma StreamDoneBuffers(s: System, str: nat)
    requires OwnBuffers(s.dev, s.calls) && str in s.dev.streams && str in s.dev.playing
    ensures OwnBuffers(AfterServed(s.dev, str), s.calls)
  {
    var e := AfterServed(s.dev, str);
    var pending := s.dev.streams[str].pending;
    forall t, i | t in e.streams && 0 <= i < |e.streams[t].pending|
      ensures e.streams[t].pending[i].id in s.calls
              && Matches(e.streams[t].pending[i], s.calls[e.streams[t].pending[i].id])
    {
      if t == str {
        assert e.streams[t].pending[i] == s.dev.streams[t].pending[i + 1];
      } else {
        assert e.streams[t].pending[i] == s.dev.streams[t].pending[i];
      }
    }
  }

  lemma AckEffect(d: DeviceState)
    requires Invariant(d) && d.raised
    ensures var e := AfterAck(d);
            && e.history.submitted == d.history.submitted && e.playing == d.playing && e.streams == d.streams
            && e.history.notified == d.history.notified + Announced(e)
            && Announced(d) == [d.regs.outRequestId]
  {
  }

  lemma IsrReadsKeepsInv(s: System)
    requires Inv(s) && Enabled(s, IsrReads)
    ensures Inv(Apply(s, IsrReads))
  {
    var id := s.dev.regs.outRequestId;
    ReadsInterrupts(s, id);
    ReadsRest(s, id);
    hide Interrupts, IdsBelow, Callers, Findings, OwnBuffers, Invariant;
    AckKeepsInvariant(s.dev);
  }

  lemma ReadsInterrupts(s: System, id: nat)
    requires Invariant(s.dev) && Interrupts(s) && s.dev.raised && id == s.dev.regs.outRequestId
    ensures Interrupts(s.(dev := AfterAck(s.dev), acked := s.acked + [id], inIsr := s.inIsr + [id]))
  {
    hide Invariant, AfterAck, Announced, FoundIds;
    AckEffect(s.dev);
    assert multiset(s.acked + [id]) == multiset(s.acked) + multiset{id};
    assert multiset(s.inIsr + [id]) == multiset(s.inIsr) + multiset{id};
  }

  lemma ReadsRest(s: System, id: nat)
    requires Invariant(s.dev) && s.dev.raised && IdsBelow(s) && Callers(s) && Findings(s) && OwnBuffers(s.dev, s.calls)
    ensures var e := s.(dev := AfterAck(s.dev), acked := s.acked + [id], inIsr := s.inIsr + [id]);
            IdsBelow(e) && Callers(e) && Findings(e) && OwnBuffers(e.dev, e.calls)
  {
    hide Invariant, AfterAck, Announced, Matches;
    AckEffect(s.dev);
  }

  lemma RemoveAt<T>(s: seq<T>, k: nat)
    requires k < |s|
    ensures multiset(s) == multiset(s[..k] + s[k+1..]) + multiset{s[k]}
  {
    assert s == s[..k] + [s[k]] + s[k+1..];
  }

  lemma FoundIdsWithout(found: seq<Finding>, j: nat)
    requires j < |found|
    ensures multiset(FoundIds(found)) == multiset(FoundIds(found[..j] + found[j+1..])) + multiset{found[j].id}
  {
    var ids := FoundIds(found);
    assert FoundIds(found[..j] + found[j+1..]) == ids[..j] + ids[j+1..];
    RemoveAt(ids, j);
  }

  lemma IsrFindsKeepsInv(s: System, k: nat)
    requires Inv(s) && Enabled(s, IsrFinds(k))
    ensures Inv(Apply(s, IsrFinds(k)))
  {
    var id, rest := s.inIsr[k], s.inIsr[..k] + s.inIsr[k+1..];
    RemoveAt(s.inIsr, k);
    FindsInterrupts(s, id, rest);
    hide Invariant, Interrupts, IdsBelow, OwnBuffers, Callers, Findings;
    if id in s.live {
      KeepsRest(s, s.(inIsr := rest, found := s.found + [Finding(id, s.live[id].address)]));
      FindsFindings(s, id, rest);
    } else {
      KeepsRest(s, s.(inIsr := rest, signalled := s.signalled + [id]));
      SameFindings(s, s.(inIsr := rest, signalled := s.signalled + [id]));
    }
  }

  /** What a lookup does not touch. */
  lemma KeepsRest(s: System, e: System)
    requires e == s.(inIsr := e.inIsr, found := e.found, signalled := e.signalled)
    requires Invariant(s.dev) && IdsBelow(s) && Callers(s) && OwnBuffers(s.dev, s.calls)
    ensures Invariant(e.dev) && IdsBelow(e) && Callers(e) && OwnBuffers(e.dev, e.calls)
  {
    hide Invariant;
  }

  lemma SameFindings(s: System, e: System)
    requires Findings(s) && e == s.(inIsr := e.inIsr, signalled := e.signalled)
    ensures Findings(e)
  {
  }

  lemma FindsFindings(s: System, id: nat, rest: seq<nat>)
    requires Findings(s) && IdsBelow(s) && id in s.live
    ensures Findings(s.(inIsr := rest, found := s.found + [Finding(id, s.live[id].address)]))
  {
  }

  lemma FindsInterrupts(s: System, id: nat, rest: seq<nat>)
    requires Interrupts(s) && multiset(s.inIsr) == multiset(rest) + multiset{id}
    ensures id in s.live ==> Interrupts(s.(inIsr := rest, found := s.found + [Finding(id, s.live[id].address)]))
    ensures id !in s.live ==> Interrupts(s.(inIsr := rest, signalled := s.signalled + [id]))
  {
    if id in s.live {
      var found := s.found + [Finding(id, s.live[id].address)];
      assert FoundIds(found) == FoundIds(s.found) + [id];
    } else {
      assert forall x :: x in s.signalled + [id] <==> x in s.signalled || x == id;
    }
  }

  lemma IsrCompletesKeepsInv(s: System, j: nat)
    requires Inv(s) && Enabled(s, IsrCompletes(j))
    ensures Inv(Apply(s, IsrCompletes(j)))
  {
    var f, rest := s.found[j], s.found[..j] + s.found[j+1..];
    FoundIdsWithout(s.found, j);
    WithoutMembers(s.found, j);
    hide Invariant, Interrupts, IdsBelow, OwnBuffers, Callers, Complete, Findings, FoundIds;
    CompletesInterrupts(s, j, rest);
    CompletesRest(s, f, rest);
    assert Findings(s.(live := Complete(s.live, f.address), signalled := s.signalled + [f.id], found := rest)) by {
      CompletesFindings(s, f, rest);
    }
  }

  lemma WithoutMembers<T>(l: seq<T>, j: nat)
    requires j < |l|
    ensures var rest := l[..j] + l[j+1..]; forall i :: 0 <= i < |rest| ==> rest[i] in l
  {
    var rest := l[..j] + l[j+1..];
    assert forall i :: 0 <= i < |rest| ==> rest[i] == l[if i < j then i else i + 1];
  }

  lemma CompletesFindings(s: System, f: Finding, rest: seq<Finding>)
    requires Findings(s) && forall i :: 0 <= i < |rest| ==> rest[i] in s.found
    ensures Findings(s.(live := Complete(s.live, f.address), signalled := s.signalled + [f.id], found := rest))
  {
    hide Complete;
    CompleteFields(s.live, f.address);
  }

  lemma CompletesRest(s: System, f: Finding, rest: seq<Finding>)
    requires Invariant(s.dev) && IdsBelow(s) && Callers(s) && OwnBuffers(s.dev, s.calls)
    ensures var e := s.(live := Complete(s.live, f.address), signalled := s.signalled + [f.id], found := rest);
            Invariant(e.dev) && IdsBelow(e) && Callers(e) && OwnBuffers(e.dev, e.calls)
  {
    hide Complete, Invariant, Matches;
    CompleteFields(s.live, f.address);
  }

  lemma CompleteFields(live: map<nat, Call>, address: nat)
    ensures var r := Complete(live, address);
            && r.Keys == live.Keys
            && (forall id :: id in r ==> id in live && r[id] == live[id].(completed := r[id].completed))
            && (forall id :: id in r ==> r[id].completed == (live[id].completed || live[id].address == address))
  {
  }

  lemma CompletesInterrupts(s: System, j: nat, rest: seq<Finding>)
    requires Interrupts(s) && Findings(s) && j < |s.found|
    requires multiset(FoundIds(s.found)) == multiset(FoundIds(rest)) + multiset{s.found[j].id}
    ensures var f := s.found[j];
            Interrupts(s.(live := Complete(s.live, f.address), signalled := s.signalled + [f.id], found := rest))
  {
    hide Complete, FoundIds;
    var f := s.found[j];
    CompleteFields(s.live, f.address);
    assert forall x :: x in s.signalled + [f.id] <==> x in s.signalled || x == f.id;
  }

  lemma ResolveKeepsInv(s: System, str: nat)
    requires Inv(s) && Enabled(s, Resolve(str))
    ensures Inv(Apply(s, Resolve(str)))
  {
    var d := Apply(s, Resolve(str)).dev;
    ResolveKeepsDevice(s, str);
    SameHistory(s, d);
    hide Invariant, OwnBuffers, AfterUnique, Callers, Interrupts, Findings, IdsBelow;
  }

  lemma SameHistory(s: System, d: DeviceState)
    requires IdsBelow(s) && Callers(s) && Interrupts(s) && Findings(s)
    requires d.history == s.dev.history && Announced(d) == Announced(s.dev)
    ensures var e := s.(dev := d); IdsBelow(e) && Callers(e) && Interrupts(e) && Findings(e)
  {
    hide Announced, FoundIds;
  }

  lemma ResolveKeepsDevice(s: System, str: nat)
    requires Inv(s)
    ensures var e := AfterUnique(s.dev, str);
            var d := e.(regs := e.regs.(status := 0));
            && Invariant(d) && OwnBuffers(d, s.calls)
            && d.history == s.dev.history && Announced(d) == Announced(s.dev)
  {
    hide Callers, Interrupts, Findings, IdsBelow, Matches;
    var e := AfterUnique(s.dev, str);
    UniqueKeepsInvariant(s.dev, str);
    RegistersKeepInvariant(e, e.(regs := e.regs.(status := 0)));
    hide Invariant;
  }

  /** Every interleaving of callers, completions and interrupts keeps the invariant. */
  lemma StepKeepsInv(s: System, e: Event)
    requires Inv(s) && Enabled(s, e)
    ensures Inv(Apply(s, e))
  {
    hide Inv, Invariant, Submitted;
    match e
    case Open(_, _, _, _, _, _, _) => OpenKeepsInv(s, e);
    case MapFail(id) => LeaveKeepsInv(s, id, MapError);
    case Submit(id) => SubmitKeepsInv(s, id);
    case Wake(id) => LeaveKeepsInv(s, id, Success);
    case Interrupt(id) => LeaveKeepsInv(s, id, Interrupted);
    case StreamDone(str) => StreamDoneKeepsInv(s, str);
    case IsrReads => IsrReadsKeepsInv(s);
    case IsrFinds(k) => IsrFindsKeepsInv(s, k);
    case IsrCompletes(j) => IsrCompletesKeepsInv(s, j);
    case Resolve(str) => ResolveKeepsInv(s, str);
  }

  /** A step completes the wrong caller exactly if its write hits another one. */
  lemma StepExactIff(s: System, e: Event)
    requires Inv(s) && Enabled(s, e) && Exact(s)
    ensures Exact(Apply(s, e)) <==> !Strikes(s, e)
  {
    hide Invariant, Submitted, OwnBuffers, IdsBelow, AfterServed, AfterAck, AfterUnique;
    match e
    case IsrCompletes(j) => WriteExactIff(s, j);
    case Open(_, _, _, _, _, _, _) =>
    case MapFail(id) =>
    case Submit(id) =>
    case Wake(id) =>
    case Interrupt(id) =>
    case StreamDone(str) =>
    case IsrReads =>
    case IsrFinds(k) =>
    case Resolve(str) =>
  }

  lemma WriteExactIff(s: System, j: nat)
    requires Inv(s) && j < |s.found| && !s.halted && Exact(s)
    ensures Exact(Apply(s, IsrCompletes(j))) <==> !Strikes(s, IsrCompletes(j))
  {
    hide Invariant, OwnBuffers, IdsBelow;
    var f, e := s.found[j], Apply(s, IsrCompletes(j));
    assert forall x :: x in e.signalled <==> x in s.signalled || x == f.id;
    if id :| id in s.live && id !in s.signalled && id != f.id && s.live[id].address == f.address {
      assert e.live[id].completed;
    }
  }

  // ------------------------------------------------------------------ whole runs

  ghost predicate Path(states: seq<System>, events: seq<Event>) {
    && |states| == |events| + 1
    && forall i :: 0 <= i < |events| ==>
         Enabled(states[i], events[i]) && states[i+1] == Apply(states[i], events[i])
  }

  ghost predicate IsRun(states: seq<System>, events: seq<Event>) {
    Path(states, events) && states[0] == Start()
  }

  /** None of the first k steps completes the wrong caller. */
  ghost predicate NoStrike(states: seq<System>, events: seq<Event>, k: nat)
    requires k <= |events| < |states|
  {
    forall i :: 0 <= i < k ==> !Strikes(states[i], events[i])
  }

  lemma {:induction false} RunInv(states: seq<System>, events: seq<Event>, k: nat)
    requires IsRun(states, events) && k < |states|
    ensures Inv(states[k])
  {
    hide Inv, Apply, Enabled;
    if k == 0 {
      StartInv();
    } else {
      RunInv(states, events, k - 1);
      StepKeepsInv(states[k-1], events[k-1]);
    }
  }

  /** In a run every completion reaches its own caller, at every moment, exactly if no
      write hits another one. */
  lemma {:induction false} RunExactIff(states: seq<System>, events: seq<Event>, k: nat)
    requires IsRun(states, events) && k < |states|
    ensures (forall i :: 0 <= i <= k ==> Exact(states[i])) <==> NoStrike(states, events, k)
  {
    hide Inv, Apply, Enabled, Exact, Strikes;
    if k == 0 {
      assert Exact(states[0]) by { StartExact(); }
    } else {
      RunExactIff(states, events, k - 1);
      RunInv(states, events, k - 1);
      assert Enabled(states[k-1], events[k-1]) && states[k] == Apply(states[k-1], events[k-1]);
      if Exact(states[k-1]) {
        StepExactIff(states[k-1], events[k-1]);
      }
    }
  }

  lemma StartExact()
    ensures Exact(Start())
  {
  }

  /** As long as no write has hit another caller, one that leaves normally leaves after
      the device completed its own request. */
  lemma NormalReturnWasCompleted(states: seq<System>, events: seq<Event>, k: nat, id: nat)
    requires IsRun(states, events) && k < |states| && NoStrike(states, events, k)
    requires id in states[k].returned && states[k].returned[id] == Success
    ensures id in states[k].calls
    ensures (states[k].calls[id].stream, id) in states[k].dev.history.completed
  {
    RunInv(states, events, k);
    RunExactIff(states, events, k);
    var s := states[k];
    SignalledWasSubmitted(s, id);
    var t :| (t, id) in s.dev.history.completed && (t, id) in s.dev.history.submitted;
    SameSubmission(s.dev.history.submitted, t, s.calls[id].stream, id);
  }

  /** Who leaves in a step. */
  function Leaver(e: Event): Option<nat> {
    match e
    case MapFail(id) => Some(id)
    case Wake(id) => Some(id)
    case Interrupt(id) => Some(id)
    case _ => None
  }

  /** No caller leaves between the lookup of its request and the write to it. */
  ghost predicate NoLeaveBetween(states: seq<System>, events: seq<Event>, k: nat)
    requires k <= |events| < |states|
  {
    forall i :: 0 <= i < k && Leaver(events[i]).Some? ==> Leaver(events[i]).value !in FoundIds(states[i].found)
  }

  ghost predicate FoundStay(s: System) {
    forall j :: 0 <= j < |s.found| ==> s.found[j].id in s.live
  }

  lemma StepFoundStay(s: System, e: Event)
    requires Inv(s) && Enabled(s, e) && FoundStay(s)
    requires Leaver(e).Some? ==> Leaver(e).value !in FoundIds(s.found)
    ensures FoundStay(Apply(s, e)) && !Strikes(s, e)
  {
    hide Invariant, Submitted, OwnBuffers, IdsBelow, Callers, AfterServed, AfterAck, AfterUnique;
    assert Leaver(e).Some? ==> forall j :: 0 <= j < |s.found| ==> FoundIds(s.found)[j] != Leaver(e).value;
  }

  /** Then no write ever hits another caller. */
  lemma {:induction false} NoLeaveNoStrike(states: seq<System>, events: seq<Event>, k: nat)
    requires IsRun(states, events) && k < |states| && NoLeaveBetween(states, events, k)
    ensures FoundStay(states[k]) && NoStrike(states, events, k)
  {
    hide Inv, Apply, Enabled, FoundStay, Strikes;
    if k == 0 {
      assert FoundStay(states[0]) by { StartFoundStay(); }
    } else {
      NoLeaveNoStrike(states, events, k - 1);
      RunInv(states, events, k - 1);
      assert Enabled(states[k-1], events[k-1]) && states[k] == Apply(states[k-1], events[k-1]);
      StepFoundStay(states[k-1], events[k-1]);
    }
  }

  lemma StartFoundStay()
    ensures FoundStay(Start())
  {
  }

  /** Otherwise it can: whenever a routine has found a waiting caller, that caller may be
      interrupted, a new one may get its memory, and leave normally without the device
      having completed its request. */
  lemma LeaveBetweenStrikes(s: System, j: nat, stream: nat) returns (states: seq<System>, events: seq<Event>)
    requires Inv(s) && !s.halted && j < |s.found| && stream in s.dev.streams
    requires s.found[j].id in s.waiting && s.found[j].id in s.live && !s.live[s.found[j].id].completed
    ensures Path(states, events) && states[0] == s && |events| == 5
    ensures s.next in states[5].returned && states[5].returned[s.next] == Success
    ensures s.next in states[5].calls && states[5].calls[s.next].stream == stream
    ensures (stream, s.next) !in states[5].dev.history.completed
  {
    hide Inv, Apply, Enabled;
    var first, prefix := TakesOver(s, j, stream);
    var last, rest := ReturnsAfterWrite(first[3], j, s.next);
    NotYetCompleted(s, stream);
    PathAppend(first, prefix, last, rest);
    states, events := first + last[1..], prefix + rest;
    assert states[5] == last[2];
  }

  /** The caller that was found leaves, and a new one waits at the same address. */
  lemma TakesOver(s: System, j: nat, stream: nat) returns (states: seq<System>, events: seq<Event>)
    requires Inv(s) && !s.halted && j < |s.found| && stream in s.dev.streams
    requires s.found[j].id in s.waiting && s.found[j].id in s.live && !s.live[s.found[j].id].completed
    ensures Path(states, events) && states[0] == s && |events| == 3
    ensures var t, n := states[3], s.next;
            && !t.halted && t.found == s.found && n in t.live && n in t.waiting
            && t.live[n].address == s.found[j].address && n in t.calls && t.calls[n].stream == stream
            && t.dev.history.completed == s.dev.history.completed
  {
    hide Inv, Submitted, Invariant, OwnBuffers;
    var f, n := s.found[j], s.next;
    var entry := Open(stream, 0, 0, 1, 0, 0, f.address);
    FoundIsFree(s, j);
    NextIsFresh(s);
    var s1 := Apply(s, Interrupt(f.id));
    var s2 := Apply(s1, entry);
    SubmittedIff(s2.dev, s2.live[n]);
    var s3 := Apply(s2, Submit(n));
    SubmitEffect(s2, n, s3.dev);
    states, events := [s, s1, s2, s3], [Interrupt(f.id), entry, Submit(n)];
  }

  /** The write reaches whoever is at the address, who then leaves. */
  lemma ReturnsAfterWrite(s: System, j: nat, n: nat) returns (states: seq<System>, events: seq<Event>)
    requires !s.halted && j < |s.found| && n in s.live && n in s.waiting && s.live[n].address == s.found[j].address
    ensures Path(states, events) && states[0] == s && |events| == 2
    ensures var t := states[2];
            n in t.returned && t.returned[n] == Success && t.calls == s.calls && t.dev == s.dev
  {
    var s1 := Apply(s, IsrCompletes(j));
    assert s1.live[n].completed;
    states, events := [s, s1, Apply(s1, Wake(n))], [IsrCompletes(j), Wake(n)];
  }

  /** And it happens: for every stream there is a run in which a caller leaves normally
      although the device has not completed its request. */
  lemma WrongReturnHappens(stream: nat) returns (states: seq<System>, events: seq<Event>, id: nat)
    ensures IsRun(states, events)
    ensures var s := states[|events|];
            && id in s.returned && s.returned[id] == Success
            && id in s.calls && s.calls[id].stream == stream && (stream, id) !in s.dev.history.completed
  {
    hide Inv, Apply, Enabled;
    var first, prefix := CallerFound(stream);
    var s := first[|prefix|];
    RunInv(first, prefix, |prefix|);
    var after, rest := LeaveBetweenStrikes(s, 0, stream);
    id := s.next;
    PathAppend(first, prefix, after, rest);
    states, events := first + after[1..], prefix + rest;
    assert states[|events|] == after[5];
  }

  /** A first caller waits for its request, which plays. */
  predicate Alone(s: System, stream: nat) {
    && !s.halted && s.inIsr == [] && s.found == [] && s.waiting == {1}
    && 1 in s.live && !s.live[1].completed
    && stream in s.dev.streams && s.dev.streams[stream].pending == []
    && stream in s.dev.playing && s.dev.playing[stream].id == 1
    && !s.dev.intAckPending && s.dev.served == []
  }

  lemma CallerAlone(stream: nat) returns (states: seq<System>, events: seq<Event>)
    ensures IsRun(states, events) && Alone(states[|events|], stream)
  {
    var e0, e1 := Resolve(stream), Open(stream, 0, 0, 1, 0, 0, 0);
    var s1 := Apply(Start(), e0);
    var s2 := Apply(s1, e1);
    SubmittedIff(s2.dev, s2.live[1]);
    var s3 := Apply(s2, Submit(1));
    states, events := [Start(), s1, s2, s3], [e0, e1, Submit(1)];
  }

  /** The stream ends, and a routine reads the id and finds the caller. */
  lemma CallerFound(stream: nat) returns (states: seq<System>, events: seq<Event>)
    ensures IsRun(states, events)
    ensures var s := states[|events|];
            && !s.halted && |s.found| == 1 && stream in s.dev.streams && s.found[0].id in s.waiting
            && s.found[0].id in s.live && !s.live[s.found[0].id].completed
  {
    var first, prefix := CallerAlone(stream);
    var s := first[|prefix|];
    var s1 := Apply(s, StreamDone(stream));
    assert s1.dev.raised && s1.dev.regs.outRequestId == 1;
    var s2 := Apply(s1, IsrReads);
    var s3 := Apply(s2, IsrFinds(0));
    states, events := [s, s1, s2, s3], [StreamDone(stream), IsrReads, IsrFinds(0)];
    PathAppend(first, prefix, states, events);
    states, events := first + states[1..], prefix + events;
    assert states[|events|] == s3;
  }

  lemma PathAppend(a: seq<System>, ea: seq<Event>, b: seq<System>, eb: seq<Event>)
    requires Path(a, ea) && Path(b, eb) && a[|ea|] == b[0]
    ensures Path(a + b[1..], ea + eb)
  {
    hide Enabled, Apply;
    var states, events := a + b[1..], ea + eb;
    forall i | 0 <= i < |events|
      ensures Enabled(states[i], events[i]) && states[i+1] == Apply(states[i], events[i])
    {
      if i < |ea| {
        assert Enabled(a[i], ea[i]) && a[i+1] == Apply(a[i], ea[i]);
      } else {
        var j := i - |ea|;
        assert states[i] == b[j] && states[i+1] == b[j+1];
        assert Enabled(b[j], eb[j]) && b[j+1] == Apply(b[j], eb[j]);
      }
    }
  }

  lemma FoundIsFree(s: System, j: nat)
    requires Inv(s) && j < |s.found| && s.found[j].id in s.live
    ensures forall id :: id in s.live && id != s.found[j].id ==> s.live[id].address != s.found[j].address
  {
  }

  lemma NextIsFresh(s: System)
    requires Inv(s)
    ensures s.next !in s.live && s.next !in s.waiting && s.next !in s.returned
  {
  }

  lemma NotYetCompleted(s: System, stream: nat)
    requires Inv(s)
    ensures (stream, s.next) !in s.dev.history.completed
  {
    var p := (stream, s.next);
    assert p.1 == s.next;
    if p in s.dev.history.completed {
      CompletedWasSubmitted(s.dev, stream, s.next);
      assert false;
    }
  }

  /** Where the completion of a waiting caller can be. */
  predicate InFlight(s: System, id: nat)
    requires id in s.calls
  {
    var p := (s.calls[id].stream, id);
    IsPending(s.dev, p) || IsPlaying(s.dev, p) || IsServed(s.dev, p) || id in Announced(s.dev) || id in s.inIsr
    || id in FoundIds(s.found)
  }

  /** No completion of a caller that still waits is lost, whoever leaves when: it has been
      delivered, or it is pending, playing, queued, announced or in an interrupt routine;
      and not both, as long as no write has hit another caller. */
  lemma NoLostCompletion(s: System, id: nat)
    requires Inv(s) && id in s.waiting
    ensures id in s.live && id in s.calls
    ensures s.live[id].completed || InFlight(s, id)
    ensures Exact(s) ==> s.live[id].completed != InFlight(s, id)
  {
    var p := (s.calls[id].stream, id);
    ExactlyOnce(s.dev, p);
    assert IsNotified(s.dev, p) <==> id in s.acked || id in Announced(s.dev);
    assert id in s.acked <==> id in multiset(s.acked);
    assert id in multiset(s.acked) <==> id in s.signalled || id in s.inIsr || id in FoundIds(s.found);
    if id in s.signalled {
      NotifiedOnce(s, id);
    }
  }

  /** A notification is in one place only: announced, read, looked up, or done with. */
  lemma NotifiedOnce(s: System, id: nat)
    requires Inv(s) && id in s.signalled
    ensures id !in s.inIsr && id !in Announced(s.dev) && id !in FoundIds(s.found)
  {
    CompletedDistinct(s.dev);
    var notified := s.dev.history.notified;
    assert forall i :: 0 <= i < |notified| ==> Ids(s.dev.history.completed)[i] == notified[i];
    DistinctOnce(notified, id);
    assert multiset(notified) == multiset(s.acked) + multiset(Announced(s.dev));
  }

  lemma {:induction false} DistinctOnce(s: seq<nat>, x: nat)
    requires Distinct(s)
    ensures multiset(s)[x] <= 1
  {
    if s != [] {
      var init := s[..|s|-1];
      assert s == init + [s[|s|-1]];
      DistinctOnce(init, x);
      assert x in multiset(init) <==> x in init;
    }
  }

  // -------------------------------------------------------------------- progress

  /** Completions, reads, lookups and writes still to come for what has been submitted. */
  function Outstanding(s: System): int {
    4 * |s.dev.history.submitted| - |s.dev.history.completed| - |s.acked| - (|s.found| + |s.signalled|) - |s.signalled|
  }

  predicate Progress(e: Event) {
    e.StreamDone? || e.IsrReads? || e.IsrFinds? || e.IsrCompletes?
  }

  /** While a caller waits for its completion, a stream can end or an interrupt routine
      can run; each such step brings the end closer and no other step but a new
      submission moves it away.  So every waiting caller is woken after finitely many. */
  lemma WaitingCallerProgresses(s: System, id: nat) returns (e: Event)
    requires Inv(s) && !s.halted && id in s.waiting && id in s.live && !s.live[id].completed
    ensures Progress(e) && Enabled(s, e)
    ensures Outstanding(s) > 0
  {
    NoLostCompletion(s, id);
    var str := s.calls[id].stream;
    if IsPending(s.dev, (str, id)) || IsPlaying(s.dev, (str, id)) {
      e := StreamDone(str);
    } else if IsServed(s.dev, (str, id)) || id in Announced(s.dev) {
      e := IsrReads;
    } else if id in s.inIsr {
      e := IsrFinds(0);
    } else {
      e := IsrCompletes(0);
    }
    StepKeepsInv(s, e);
    ProgressCounts(s, e);
    OutstandingNonNegative(Apply(s, e));
  }

  lemma ProgressCounts(s: System, e: Event)
    requires Enabled(s, e)
    ensures Progress(e) ==> Outstanding(Apply(s, e)) < Outstanding(s)
    ensures !Progress(e) && !e.Submit? ==> Outstanding(Apply(s, e)) == Outstanding(s)
  {
  }

  lemma OutstandingNonNegative(s: System)
    requires Inv(s)
    ensures Outstanding(s) >= 0
  {
    var sub, com := Ids(s.dev.history.submitted), Ids(s.dev.history.completed);
    CompletedDistinct(s.dev);
    forall x | x in com ensures x in sub {
      IdsMember(s.dev.history.completed, x);
      var t :| (t, x) in s.dev.history.completed;
      CompletedWasSubmitted(s.dev, t, x);
      IdsMember(s.dev.history.submitted, x);
    }
    NoLonger(com, sub);
    assert |s.acked| <= |s.dev.history.notified| <= |com|;
    assert |multiset(s.acked)| == |s.acked| && |multiset(s.signalled)| == |s.signalled|;
    assert |multiset(FoundIds(s.found))| == |s.found|;
  }

  /** Distinct elements of another sequence are at most as many. */
  lemma {:induction false} NoLonger(a: seq<nat>, b: seq<nat>)
    requires Distinct(a) && forall x :: x in a ==> x in b
    ensures |a| <= |b|
  {
    if a != [] {
      var x := a[|a|-1];
      assert x in a;
      var i :| 0 <= i < |b| && b[i] == x;
      var rest := b[..i] + b[i+1..];
      forall y | y in a[..|a|-1] ensures y in rest {
        assert y in a;
        var j :| 0 <= j < |b| && b[j] == y;
        assert if j < i then rest[j] == y else j > i && rest[j-1] == y;
      }
      NoLonger(a[..|a|-1], rest);
    }
  }
}
