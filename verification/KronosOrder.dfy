/** Events of equal time: the calendar delivers the one that was scheduled last first. */
module KronosOrder {
  import opened KronosModel

  /** The events of time t in a list, in order. */
  function Only(l: seq<Event>, t: nat): seq<Event> {
    if l == [] then []
    else if l[0].time == t then [l[0]] + Only(l[1..], t)
    else Only(l[1..], t)
  }

  /** The events of time t that are pending, the next to be delivered first. */
  function Pending(c: Calendar, t: nat): seq<Event>
    requires c.width > 0 && |c.buckets| > 0
  {
    Only(c.buckets[Slot(Quantum(t, c.width), |c.buckets|)], t)
  }

  lemma {:induction false} OnlyAppend(a: seq<Event>, b: seq<Event>, t: nat)
    ensures Only(a + b, t) == Only(a, t) + Only(b, t)
  {
    if a == [] {
      assert a + b == b;
    } else {
      OnlyAppend(a[1..], b, t);
      assert (a + b)[1..] == a[1..] + b;
    }
  }

  lemma {:induction false} InsertInFront(l: seq<Event>, e: Event, t: nat)
    ensures Only(Insert(l, e), t) == if e.time == t then [e] + Only(l, t) else Only(l, t)
  {
    if l != [] && l[0].time < e.time {
      InsertInFront(l[1..], e, t);
      assert ([l[0]] + Insert(l[1..], e))[1..] == Insert(l[1..], e);
    } else {
      assert ([e] + l)[1..] == l;
    }
  }

  /** A new event goes in front of those of its time; the order of others stays. */
  lemma ScheduleInFront(c: Calendar, e: Event, t: nat)
    requires c.width > 0 && |c.buckets| > 0
    ensures Pending(AfterSchedule(c, e), t) == if e.time == t then [e] + Pending(c, t) else Pending(c, t)
  {
    InsertInFront(c.buckets[Slot(Quantum(e.time, c.width), |c.buckets|)], e, t);
  }

  lemma {:induction false} DueThenLater(l: seq<Event>, t: nat)
    ensures Due(l, t) + Later(l, t) == l
  {
    if l != [] && l[0].time <= t {
      DueThenLater(l[1..], t);
      assert ([l[0]] + Due(l[1..], t)) + Later(l[1..], t) == [l[0]] + l[1..];
    }
  }

  /** Nothing of time s is in any bucket but its own. */
  ghost predicate Elsewhere(buckets: seq<seq<Event>>, b: nat, s: nat) {
    forall x :: 0 <= x < |buckets| && x != b ==> Only(buckets[x], s) == []
  }

  lemma {:induction false} NoneOfTime(l: seq<Event>, s: nat)
    requires forall i :: 0 <= i < |l| ==> l[i].time != s
    ensures Only(l, s) == []
  {
    if l != [] { NoneOfTime(l[1..], s); }
  }

  lemma {:induction false} SweepKeepsOrder(buckets: seq<seq<Event>>, i: nat, stop: nat, t: nat, b: nat, s: nat)
    requires b < |buckets| && Elsewhere(buckets, b, s)
    ensures var r := Sweep(buckets, i, stop, t);
            Only(r.events, s) + Only(r.buckets[b], s) == Only(buckets[b], s)
    decreases stop + 1 - i
  {
    if i <= stop {
      var x := Slot(i, |buckets|);
      var due, later := Due(buckets[x], t), Later(buckets[x], t);
      var less := buckets[x := later];
      DueThenLater(buckets[x], t);
      OnlyAppend(due, later, s);
      assert x != b ==> Only(due, s) == [] && Only(later, s) == [];
      assert Elsewhere(less, b, s);
      SweepKeepsOrder(less, i + 1, stop, t, b, s);
      var rest := Sweep(less, i + 1, stop, t);
      OnlyAppend(due, rest.events, s);
      Associate(Only(due, s), Only(rest.events, s), Only(rest.buckets[b], s));
    }
  }

  lemma Associate(a: seq<Event>, b: seq<Event>, c: seq<Event>)
    ensures (a + b) + c == a + (b + c)
  {
  }

  /** A retrieval delivers events of equal time in the order in which they are pending, and
      leaves the rest in that order. */
  lemma GetKeepsOrder(c: Calendar, t: nat, s: nat)
    requires WellFormed(c)
    ensures var got := AfterGet(c, t);
            Only(got.events, s) + Pending(got.c, s) == Pending(c, s)
  {
    hide Landing;
    var b := Slot(Quantum(s, c.width), |c.buckets|);
    forall x | 0 <= x < |c.buckets| && x != b ensures Only(c.buckets[x], s) == [] {
      NoneOfTime(c.buckets[x], s);
    }
    SweepKeepsOrder(c.buckets, c.bucket, Stop(c, t), t, b, s);
  }

  /** So of two events of the same time that a retrieval delivers, the one scheduled later
      comes first. */
  lemma LastScheduledFirst(c: Calendar, first: Event, second: Event, t: nat)
    requires WellFormed(c) && first.time == second.time
    ensures var d := AfterSchedule(AfterSchedule(c, first), second);
            && WellFormed(d)
            && Only(AfterGet(d, t).events, first.time) + Pending(AfterGet(d, t).c, first.time)
               == [second, first] + Pending(c, first.time)
  {
    ScheduleInFront(c, first, first.time);
    ScheduleInFront(AfterSchedule(c, first), second, first.time);
    var d := AfterSchedule(AfterSchedule(c, first), second);
    ScheduleShape(c, first);
    ScheduleShape(AfterSchedule(c, first), second);
    GetKeepsOrder(d, t, first.time);
  }
}
