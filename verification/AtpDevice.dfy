/** The ATP device: play requests queue up behind the stream they ask for, completed
    requests queue up behind the interrupt that announces them. */
module AtpDevice {
  import opened Basics

  datatype DmaOperation = READ | WRITE | RDWR

  datatype Request = Request(readBase: nat, readRange: nat, writeBase: nat, writeRange: nat,
                             id: nat, taskId: nat, op: DmaOperation)

  datatype Stream = Stream(active: bool, pending: seq<Request>)

  /** The memory-mapped registers that the play and acknowledge actions use. */
  datatype Registers = Registers(readBase: nat, readRange: nat, writeBase: nat, writeRange: nat,
                                 streamId: nat, taskId: nat, inRequestId: nat, outRequestId: nat,
                                 status: nat)

  /** A request id together with the stream it asks for. */
  type Play = (nat, nat)

  /** What has happened so far, in order. */
  datatype History = History(submitted: seq<Play>, completed: seq<Play>, notified: seq<nat>)

  /** The device as a value.  `playing` is what the adapter was last asked to play on
      each active stream. */
  datatype DeviceState = DeviceState(
    regs: Registers, streams: map<nat, Stream>, playing: map<nat, Request>, served: seq<nat>,
    intAckPending: bool, raised: bool, history: History)

  // ------------------------------------------------------------ specification

  /** CONTROL[1:0], as the device decodes it; None is the fatal branch. */
  function DmaOf(bit0: bool, bit1: bool): Option<DmaOperation> {
    if !bit0 && !bit1 then Some(READ)
    else if bit0 && !bit1 then Some(WRITE)
    else if !bit0 && bit1 then Some(RDWR)
    else None
  }

  function RequestOf(regs: Registers, op: DmaOperation): Request {
    Request(regs.readBase, regs.readRange, regs.writeBase, regs.writeRange, regs.inRequestId, regs.taskId, op)
  }

  function Serve(d: DeviceState, s: nat, req: Request): DeviceState
    requires s in d.streams
  {
    d.(playing := d.playing[s := req], streams := d.streams[s := d.streams[s].(active := true)])
  }

  /** None is the fatal branch: an unknown stream, or an invalid operation. */
  function AfterPlay(d: DeviceState, bit0: bool, bit1: bool): Option<DeviceState> {
    var s := d.regs.streamId;
    if s !in d.streams || DmaOf(bit0, bit1).None? then None
    else
      var req := RequestOf(d.regs, DmaOf(bit0, bit1).value);
      var queued := if d.streams[s].active
        then d.(streams := d.streams[s := d.streams[s].(pending := d.streams[s].pending + [req])])
        else Serve(d, s, req);
      Some(queued.(regs := d.regs.(status := 1),
                   history := d.history.(submitted := d.history.submitted + [(s, req.id)])))
  }

  function Notify(d: DeviceState, id: nat): DeviceState {
    d.(regs := d.regs.(outRequestId := id), raised := true, intAckPending := true,
       history := d.history.(notified := d.history.notified + [id]))
  }

  /** Stream s stops playing; its request is complete. */
  function Finish(d: DeviceState, s: nat): DeviceState
    requires s in d.streams && s in d.playing
  {
    d.(streams := d.streams[s := d.streams[s].(active := false)], playing := d.playing - {s},
       history := d.history.(completed := d.history.completed + [(s, d.playing[s].id)]))
  }

  /** A completed request is notified, or queued behind the pending acknowledgement. */
  function Tell(d: DeviceState, id: nat): DeviceState {
    if !d.intAckPending && d.served == [] then Notify(d, id) else d.(served := d.served + [id])
  }

  /** The oldest pending request of s, if any, is served. */
  function ServeNext(d: DeviceState, s: nat): DeviceState
    requires s in d.streams
  {
    var pending := d.streams[s].pending;
    if pending == [] then d
    else
      var e := Serve(d, s, pending[0]);
      e.(streams := e.streams[s := e.streams[s].(pending := pending[1..])])
  }

  /** The adapter's stream s has come to its end. */
  function AfterServed(d: DeviceState, s: nat): DeviceState
    requires s in d.streams && s in d.playing
  {
    ServeNext(Tell(Finish(d, s), d.playing[s].id), s)
  }

  function AfterAck(d: DeviceState): DeviceState {
    var cleared := d.(raised := false, intAckPending := false);
    if d.served == [] then cleared
    else Notify(cleared, d.served[0]).(served := d.served[1..])
  }

  function AfterUnique(d: DeviceState, s: nat): DeviceState {
    d.(regs := d.regs.(streamId := s, status := 1),
       streams := if s in d.streams then d.streams else d.streams[s := Stream(false, [])])
  }

  // --------------------------------------------------------------- the device

  class Device {
    var regs: Registers
    var streams: map<nat, Stream>
    var servedRequests: seq<nat>
    var intAckPending: bool
    var interruptRaised: bool
    /** What the adapter was asked to play, and has not reported terminated. */
    ghost var playing: map<nat, Request>
    ghost var history: History

    ghost function State(): DeviceState
      reads this
    {
      DeviceState(regs, streams, playing, servedRequests, intAckPending, interruptRaised, history)
    }

    constructor ()
      ensures State() == Initial()
    {
      regs := Registers(0, 0, 0, 0, 0, 0, 0, 0, 0);
      streams, servedRequests, intAckPending, interruptRaised := map[], [], false, false;
      playing, history := map[], History([], [], []);
    }

    /** A write to CONTROL with action bits 0b01; returns false on the fatal branches. */
    method PlayStreamHandler(bit0: bool, bit1: bool) returns (ok: bool)
      modifies this
      ensures ok == AfterPlay(old(State()), bit0, bit1).Some?
      ensures ok ==> State() == AfterPlay(old(State()), bit0, bit1).value
      ensures !ok ==> State() == old(State())
    {
      var s := regs.streamId;
      if s !in streams {
        return false;
      }
      var op := DmaOf(bit0, bit1);
      if op.None? {
        return false;
      }
      var req := RequestOf(regs, op.value);
      if streams[s].active {
        streams := streams[s := streams[s].(pending := streams[s].pending + [req])];
      } else {
        ServeRequest(s, req);
      }
      regs := regs.(status := 1);
      history := history.(submitted := history.submitted + [(s, req.id)]);
      ok := true;
    }

    method ServeRequest(s: nat, req: Request)
      requires s in streams
      modifies this`streams, this`playing
      ensures State() == Serve(old(State()), s, req)
    {
      playing := playing[s := req];
      streams := streams[s := streams[s].(active := true)];
    }

    /** The adapter's callback: the stream has terminated. */
    method ServedRequestHandler(s: nat, reqId: nat)
      requires s in streams && s in playing && playing[s].id == reqId
      modifies this
      ensures State() == AfterServed(old(State()), s)
    {
      streams := streams[s := streams[s].(active := false)];
      playing := playing - {s};
      history := history.(completed := history.completed + [(s, reqId)]);
      if !intAckPending && servedRequests == [] {
        NotifyServedRequest(reqId);
      } else {
        servedRequests := servedRequests + [reqId];
      }
      if streams[s].pending != [] {
        ServeRequest(s, streams[s].pending[0]);
        streams := streams[s := streams[s].(pending := streams[s].pending[1..])];
      }
    }

    /** A write to CONTROL with action bits 0b10. */
    method IntAckHandler()
      modifies this
      ensures State() == AfterAck(old(State()))
    {
      interruptRaised := false;
      intAckPending := false;
      if servedRequests != [] {
        NotifyServedRequest(servedRequests[0]);
        servedRequests := servedRequests[1..];
      }
    }

    method NotifyServedRequest(reqId: nat)
      modifies this`regs, this`interruptRaised, this`intAckPending, this`history
      ensures State() == Notify(old(State()), reqId)
    {
      regs := regs.(outRequestId := reqId);
      interruptRaised := true;
      intAckPending := true;
      history := history.(notified := history.notified + [reqId]);
    }

    /** The stream name has been read and resolved to stream s. */
    method StreamNameHandler(s: nat)
      modifies this`regs, this`streams
      ensures State() == AfterUnique(old(State()), s)
    {
      regs := regs.(streamId := s);
      if s !in streams {
        streams := streams[s := Stream(false, [])];
      }
      regs := regs.(status := 1);
    }
  }

  function Initial(): DeviceState {
    DeviceState(Registers(0, 0, 0, 0, 0, 0, 0, 0, 0), map[], map[], [], false, false, History([], [], []))
  }

  /** When a stream comes to its end, the oldest request that waits for it is played, as it
      was asked; without one it is idle.  No other stream is touched. */
  lemma NextIsOldest(d: DeviceState, s: nat)
    requires s in d.streams && s in d.playing
    ensures var e, waiting := AfterServed(d, s), d.streams[s].pending;
            && e.streams.Keys == d.streams.Keys
            && (if waiting == [] then s !in e.playing && e.streams[s] == Stream(false, [])
                else s in e.playing && e.playing[s] == waiting[0] && e.streams[s] == Stream(true, waiting[1..]))
            && (forall t :: t in d.streams && t != s ==> e.streams[t] == d.streams[t])
            && (forall t :: t != s ==> (t in e.playing <==> t in d.playing))
            && (forall t :: t != s && t in d.playing ==> e.playing[t] == d.playing[t])
  {
  }

  // -------------------------------------------------------------- projections

  /** The request ids that a log holds for stream s, in order. */
  function Of(s: nat, log: seq<Play>): seq<nat> {
    if log == [] then []
    else
      var last := log[|log|-1];
      Of(s, log[..|log|-1]) + (if last.0 == s then [last.1] else [])
  }

  function Ids(log: seq<Play>): (r: seq<nat>)
    ensures |r| == |log|
  {
    seq(|log|, i requires 0 <= i < |log| => log[i].1)
  }

  function PendingIds(q: seq<Request>): (r: seq<nat>)
    ensures |r| == |q|
  {
    seq(|q|, i requires 0 <= i < |q| => q[i].id)
  }

  /** The request playing on s, if any. */
  function Current(d: DeviceState, s: nat): seq<nat> {
    if s in d.playing then [d.playing[s].id] else []
  }

  function Waiting(d: DeviceState, s: nat): seq<nat> {
    if s in d.streams then PendingIds(d.streams[s].pending) else []
  }

  // ------------------------------------------------------------------ invariant

  /** What every action keeps.  Per stream, what was submitted is what completed, then
      what plays, then what waits; globally, what completed is what was notified, then
      what waits for an acknowledgement. */
  ghost predicate Invariant(d: DeviceState) {
    && (forall s :: s in d.streams ==> (d.streams[s].active <==> s in d.playing))
    && (forall s :: s in d.streams && d.streams[s].pending != [] ==> d.streams[s].active)
    && (forall s :: s in d.playing ==> s in d.streams)
    && (d.served != [] ==> d.intAckPending)
    && d.raised == d.intAckPending
    && (d.intAckPending ==> d.history.notified != [] && d.regs.outRequestId == d.history.notified[|d.history.notified|-1])
    && (forall s :: InOrder(d, s))
    && Ids(d.history.completed) == d.history.notified + d.served
  }

  predicate InOrder(d: DeviceState, s: nat) {
    Of(s, d.history.submitted) == Of(s, d.history.completed) + Current(d, s) + Waiting(d, s)
  }

  lemma OfAppend(s: nat, log: seq<Play>, p: Play)
    ensures Of(s, log + [p]) == Of(s, log) + (if p.0 == s then [p.1] else [])
  {
    assert (log + [p])[..|log|] == log;
  }

  lemma IdsAppend(log: seq<Play>, p: Play)
    ensures Ids(log + [p]) == Ids(log) + [p.1]
  {
  }

  lemma InitialInvariant()
    ensures Invariant(Initial())
  {
  }

  lemma PlayKeepsInvariant(d: DeviceState, bit0: bool, bit1: bool)
    requires Invariant(d) && AfterPlay(d, bit0, bit1).Some?
    ensures Invariant(AfterPlay(d, bit0, bit1).value)
  {
    var e := AfterPlay(d, bit0, bit1).value;
    hide InOrder;
    forall s ensures InOrder(e, s) {
      assert InOrder(d, s);
      PlayInOrder(d, bit0, bit1, s);
    }
  }

  lemma PendingAppend(q: seq<Request>, req: Request)
    ensures PendingIds(q + [req]) == PendingIds(q) + [req.id]
  {
  }

  lemma PendingHead(q: seq<Request>)
    requires q != []
    ensures PendingIds(q) == [q[0].id] + PendingIds(q[1..])
  {
  }

  lemma PlayInOrder(d: DeviceState, bit0: bool, bit1: bool, s: nat)
    requires AfterPlay(d, bit0, bit1).Some? && InOrder(d, s)
    requires forall t :: t in d.streams ==> (d.streams[t].active <==> t in d.playing)
    requires forall t :: t in d.streams && d.streams[t].pending != [] ==> d.streams[t].active
    ensures InOrder(AfterPlay(d, bit0, bit1).value, s)
  {
    hide Of, PendingIds;
    var e, str := AfterPlay(d, bit0, bit1).value, d.regs.streamId;
    var req := RequestOf(d.regs, DmaOf(bit0, bit1).value);
    var done, now, later := Of(s, d.history.completed), Current(d, s), Waiting(d, s);
    OfAppend(s, d.history.submitted, (str, req.id));
    if s != str {
      assert Current(e, s) == now && Waiting(e, s) == later;
      assert (done + now + later) + [] == done + now + later;
    } else if d.streams[s].active {
      PendingAppend(d.streams[s].pending, req);
      assert Current(e, s) == now && Waiting(e, s) == later + [req.id];
      assert (done + now + later) + [req.id] == done + now + (later + [req.id]);
    } else {
      assert later == [];
      assert Current(e, s) == [req.id] && Waiting(e, s) == [];
      assert done + [] + [] + [req.id] == done + [req.id] + [];
    }
  }

  lemma FinishInOrder(d: DeviceState, str: nat, s: nat)
    requires str in d.streams && str in d.playing && InOrder(d, s)
    ensures InOrder(Finish(d, str), s)
  {
    hide Of, PendingIds;
    var e := Finish(d, str);
    OfAppend(s, d.history.completed, (str, d.playing[str].id));
    assert Waiting(e, s) == Waiting(d, s);
    var done := Of(s, d.history.completed);
    if s == str {
      assert Current(e, s) == [] && Of(s, e.history.completed) == done + Current(d, s);
      assert (done + Current(d, s)) + [] == done + Current(d, s);
    } else {
      assert Current(e, s) == Current(d, s) && Of(s, e.history.completed) == done + [];
      assert done + [] == done;
    }
  }

  lemma ServeNextInOrder(d: DeviceState, str: nat, s: nat)
    requires str in d.streams && str !in d.playing && InOrder(d, s)
    ensures InOrder(ServeNext(d, str), s)
  {
    hide Of, PendingIds;
    var pending, e := d.streams[str].pending, ServeNext(d, str);
    if s == str && pending != [] {
      PendingHead(pending);
      var done, head, rest := Of(s, d.history.completed), [pending[0].id], PendingIds(pending[1..]);
      assert Current(e, s) == head && Waiting(e, s) == rest;
      assert done + [] + (head + rest) == done + head + rest;
    } else {
      assert Current(e, s) == Current(d, s) && Waiting(e, s) == Waiting(d, s);
    }
  }

  lemma ServedKeepsInvariant(d: DeviceState, str: nat)
    requires Invariant(d) && str in d.streams && str in d.playing
    ensures Invariant(AfterServed(d, str))
  {
    var id := d.playing[str].id;
    var done := Finish(d, str);
    var told := Tell(done, id);
    var e := ServeNext(told, str);
    IdsAppend(d.history.completed, (str, id));
    TellNotifies(done, id);
    forall s ensures InOrder(e, s) {
      assert InOrder(d, s);
      FinishInOrder(d, str, s);
      assert InOrder(told, s);
      ServeNextInOrder(told, str, s);
    }
  }

  lemma TellNotifies(d: DeviceState, id: nat)
    requires d.served != [] ==> d.intAckPending
    ensures var e := Tell(d, id);
            && e.history.notified + e.served == (d.history.notified + d.served) + [id]
            && (e.served != [] ==> e.intAckPending)
            && e == d.(regs := e.regs, served := e.served, raised := e.raised, intAckPending := e.intAckPending,
                       history := d.history.(notified := e.history.notified))
  {
    assert d.history.notified + [] == d.history.notified;
    assert (d.history.notified + [id]) + [] == d.history.notified + [id];
    assert d.history.notified + (d.served + [id]) == (d.history.notified + d.served) + [id];
  }

  lemma AckKeepsInvariant(d: DeviceState)
    requires Invariant(d)
    ensures Invariant(AfterAck(d))
  {
    var e := AfterAck(d);
    forall s ensures InOrder(e, s) { assert InOrder(d, s); }
    if d.served != [] {
      assert d.history.notified + d.served == (d.history.notified + [d.served[0]]) + d.served[1..];
    } else {
      assert d.history.notified + [] == d.history.notified;
    }
  }

  lemma UniqueKeepsInvariant(d: DeviceState, str: nat)
    requires Invariant(d)
    ensures Invariant(AfterUnique(d, str))
  {
    var e := AfterUnique(d, str);
    forall s ensures InOrder(e, s) { assert InOrder(d, s); }
  }

  /** The stream is there to be played, a known one as it was, and the driver is answered. */
  lemma UniqueAnswers(d: DeviceState, s: nat)
    ensures var e := AfterUnique(d, s);
            && e.regs.streamId == s && e.regs.status != 0 && e.streams.Keys == d.streams.Keys + {s}
            && e.streams[s] == (if s in d.streams then d.streams[s] else Stream(false, []))
            && (forall t :: t in d.streams ==> e.streams[t] == d.streams[t])
            && e.playing == d.playing && e.served == d.served && e.history == d.history
  {
  }

  /** The driver's writes to the request registers. */
  predicate SameButRequestRegisters(d: DeviceState, e: DeviceState) {
    e == d.(regs := e.regs) && e.regs.outRequestId == d.regs.outRequestId
  }

  lemma RegistersKeepInvariant(d: DeviceState, e: DeviceState)
    requires Invariant(d) && SameButRequestRegisters(d, e)
    ensures Invariant(e)
  {
    forall s ensures InOrder(e, s) { assert InOrder(d, s); }
  }

  // --------------------------------------------------------------- exactly once

  predicate Distinct(s: seq<nat>) {
    forall i, j :: 0 <= i < j < |s| ==> s[i] != s[j]
  }

  /** The four places a submitted request can be in. */
  predicate IsPending(d: DeviceState, p: Play) { p.1 in Waiting(d, p.0) }
  predicate IsPlaying(d: DeviceState, p: Play) { p.0 in d.playing && d.playing[p.0].id == p.1 }
  predicate IsServed(d: DeviceState, p: Play) { p.1 in d.served }
  predicate IsNotified(d: DeviceState, p: Play) { p.1 in d.history.notified }

  function Places(d: DeviceState, p: Play): nat {
    (if IsPending(d, p) then 1 else 0) + (if IsPlaying(d, p) then 1 else 0)
    + (if IsServed(d, p) then 1 else 0) + (if IsNotified(d, p) then 1 else 0)
  }

  lemma {:induction false} OfMember(s: nat, log: seq<Play>, id: nat)
    ensures id in Of(s, log) <==> (s, id) in log
  {
    if log != [] {
      OfMember(s, log[..|log|-1], id);
      var init := log[..|log|-1];
      assert log == init + [log[|log|-1]];
      assert (s, id) in log <==> (s, id) in init || (s, id) == log[|log|-1];
    }
  }

  lemma IdsMember(log: seq<Play>, id: nat)
    ensures id in Ids(log) <==> exists s :: (s, id) in log
  {
    if id in Ids(log) {
      var i :| 0 <= i < |log| && Ids(log)[i] == id;
      assert log[i] == (log[i].0, id);
    }
    if s :| (s, id) in log {
      var i :| 0 <= i < |log| && log[i] == (s, id);
      assert Ids(log)[i] == id;
    }
  }

  lemma {:induction false} OfDistinct(s: nat, log: seq<Play>)
    requires Distinct(Ids(log))
    ensures Distinct(Of(s, log))
  {
    if log != [] {
      var init, last := log[..|log|-1], log[|log|-1];
      assert forall i :: 0 <= i < |init| ==> Ids(init)[i] == Ids(log)[i] == init[i].1;
      assert Ids(log)[|log|-1] == last.1;
      OfDistinct(s, init);
      OfMember(s, init, last.1);
    }
  }

  /** Two submissions with the same id are the same submission. */
  lemma SameSubmission(log: seq<Play>, s: nat, t: nat, id: nat)
    requires Distinct(Ids(log)) && (s, id) in log && (t, id) in log
    ensures s == t
  {
    var i :| 0 <= i < |log| && log[i] == (s, id);
    var j :| 0 <= j < |log| && log[j] == (t, id);
    assert Ids(log)[i] == Ids(log)[j];
  }

  lemma CompletedWasSubmitted(d: DeviceState, s: nat, id: nat)
    requires Invariant(d) && (s, id) in d.history.completed
    ensures (s, id) in d.history.submitted
  {
    assert InOrder(d, s);
    OfMember(s, d.history.completed, id);
    OfMember(s, d.history.submitted, id);
  }

  lemma {:induction false} CompletedDistinct(d: DeviceState)
    requires Invariant(d) && Distinct(Ids(d.history.submitted))
    ensures Distinct(Ids(d.history.completed))
  {
    var log := d.history.completed;
    forall i, j | 0 <= i < j < |log| ensures Ids(log)[i] != Ids(log)[j] {
      var s, a, t, b := log[i].0, log[i].1, log[j].0, log[j].1;
      if a == b {
        CompletedWasSubmitted(d, s, a);
        CompletedWasSubmitted(d, t, a);
        SameSubmission(d.history.submitted, s, t, a);
        assert InOrder(d, s);
        assert Of(s, d.history.submitted) == Of(s, log) + (Current(d, s) + Waiting(d, s));
        OfDistinct(s, d.history.submitted);
        PrefixDistinct(Of(s, log), Current(d, s) + Waiting(d, s));
        OfRepeat(s, log, i, j);
        assert false;
      }
    }
  }

  lemma PrefixDistinct(a: seq<nat>, b: seq<nat>)
    requires Distinct(a + b)
    ensures Distinct(a)
  {
    assert forall i :: 0 <= i < |a| ==> (a + b)[i] == a[i];
  }

  /** A log that holds (s, id) twice projects to a sequence that is not distinct. */
  lemma {:induction false} OfRepeat(s: nat, log: seq<Play>, i: nat, j: nat)
    requires i < j < |log| && log[i] == log[j] && log[i].0 == s
    ensures !Distinct(Of(s, log))
  {
    var init, last := log[..|log|-1], log[|log|-1];
    if j < |init| {
      OfRepeat(s, init, i, j);
      var r := Of(s, init);
      var x, y :| 0 <= x < y < |r| && r[x] == r[y];
      assert Of(s, log)[x] == r[x] && Of(s, log)[y] == r[y];
    } else {
      assert init[i] == last;
      OfMember(s, init, last.1);
      var r := Of(s, init);
      var x :| 0 <= x < |r| && r[x] == last.1;
      assert Of(s, log)[x] == Of(s, log)[|r|];
    }
  }

  /** At every reachable state each submitted request is in exactly one place. */
  lemma ExactlyOnce(d: DeviceState, p: Play)
    requires Invariant(d) && Distinct(Ids(d.history.submitted)) && p in d.history.submitted
    ensures Places(d, p) == 1
  {
    var (s, id) := p;
    var done, all := Of(s, d.history.completed), Of(s, d.history.submitted);
    assert InOrder(d, s);
    OfDistinct(s, d.history.submitted);
    OfMember(s, d.history.submitted, id);
    OfMember(s, d.history.completed, id);
    assert all == done + (Current(d, s) + Waiting(d, s));
    Once(done, Current(d, s), Waiting(d, s), id);
    CompletedDistinct(d);
    OnceNotified(d, p);
  }

  lemma Once(a: seq<nat>, b: seq<nat>, c: seq<nat>, x: nat)
    requires Distinct(a + b + c) && x in a + b + c
    ensures (if x in a then 1 else 0) + (if x in b then 1 else 0) + (if x in c then 1 else 0) == 1
  {
    var all := a + b + c;
    assert forall i :: 0 <= i < |b| ==> all[|a| + i] == b[i];
    assert forall i :: 0 <= i < |c| ==> all[|a| + |b| + i] == c[i];
    assert forall i :: 0 <= i < |a| ==> all[i] == a[i];
  }

  /** A submitted request is completed exactly when it is notified or waits to be, and
      then it is only one of the two. */
  lemma OnceNotified(d: DeviceState, p: Play)
    requires Invariant(d) && Distinct(Ids(d.history.submitted)) && p in d.history.submitted
    requires Distinct(Ids(d.history.completed))
    ensures (p in d.history.completed) == (IsServed(d, p) != IsNotified(d, p))
    ensures !(IsServed(d, p) && IsNotified(d, p))
  {
    var ids := d.history.notified + d.served;
    IdsMember(d.history.completed, p.1);
    if p.1 in ids {
      var t :| (t, p.1) in d.history.completed;
      CompletedWasSubmitted(d, t, p.1);
      SameSubmission(d.history.submitted, t, p.0, p.1);
    }
    assert forall i :: 0 <= i < |d.served| ==> ids[|d.history.notified| + i] == d.served[i];
    assert forall i :: 0 <= i < |d.history.notified| ==> ids[i] == d.history.notified[i];
  }

  /** Requests of one stream are served in submission order: what completed on a stream
      is a prefix of what was submitted to it; and notifications follow completion. */
  lemma ServedInOrder(d: DeviceState, s: nat)
    requires Invariant(d)
    ensures Of(s, d.history.completed) <= Of(s, d.history.submitted)
    ensures d.history.notified <= Ids(d.history.completed)
    ensures s in d.playing ==>
              Of(s, d.history.completed) + [d.playing[s].id] <= Of(s, d.history.submitted)
  {
    assert InOrder(d, s);
  }
}
