/** Kronos, the ATP calendar queue: a wheel of buckets, each a list of events sorted by
    time, and a cursor that never passes a pending event. */
module KronosModel {
  import opened Basics

  /** What an event carries besides its time. */
  datatype Event = Event(kind: nat, id: nat, time: nat)

  /** The calendar as a value. */
  datatype Calendar = Calendar(width: nat, buckets: seq<seq<Event>>, epoch: nat, bucket: nat)

  // ----------------------------------------------------------------- the wheel

  /** The position of a time on the unrolled wheel. */
  function Quantum(t: nat, width: nat): nat
    requires width > 0
  {
    t / width
  }

  /** The bucket of a position. */
  function Slot(x: nat, n: nat): (b: nat)
    requires n > 0
    ensures b < n
  {
    x % n
  }

  /** The turn of the wheel a position belongs to. */
  function Turn(x: nat, n: nat): nat
    requires n > 0
  {
    x / n
  }

  // --------------------------------------------------------------- contents

  function Union(buckets: seq<seq<Event>>): multiset<Event> {
    if buckets == [] then multiset{} else multiset(buckets[0]) + Union(buckets[1..])
  }

  predicate Sorted(l: seq<Event>) {
    forall i, j :: 0 <= i < j < |l| ==> l[i].time <= l[j].time
  }

  /** Every event is in the bucket its time hashes to, in order of time. */
  ghost predicate Shape(width: nat, buckets: seq<seq<Event>>) {
    && width > 0 && |buckets| > 0
    && (forall b :: 0 <= b < |buckets| ==> Sorted(buckets[b]))
    && (forall b, i :: 0 <= b < |buckets| && 0 <= i < |buckets[b]| ==>
          Slot(Quantum(buckets[b][i].time, width), |buckets|) == b)
  }

  /** The cursor as a position on the unrolled wheel. */
  function Cursor(c: Calendar): nat {
    c.epoch * |c.buckets| + c.bucket
  }

  ghost predicate WellFormed(c: Calendar) {
    Shape(c.width, c.buckets) && c.bucket < |c.buckets|
  }

  /** The cursor invariant: no pending event lies before the cursor. */
  ghost predicate Valid(c: Calendar) {
    && WellFormed(c)
    && forall b, i :: 0 <= b < |c.buckets| && 0 <= i < |c.buckets[b]| ==>
         Quantum(c.buckets[b][i].time, c.width) >= Cursor(c)
  }

  // ------------------------------------------------------------ specification

  /** An event goes in front of the first one that is not earlier. */
  function Insert(l: seq<Event>, e: Event): seq<Event> {
    if l != [] && l[0].time < e.time then [l[0]] + Insert(l[1..], e) else [e] + l
  }

  function AfterSchedule(c: Calendar, e: Event): Calendar
    requires c.width > 0 && |c.buckets| > 0
  {
    var b := Slot(Quantum(e.time, c.width), |c.buckets|);
    c.(buckets := c.buckets[b := Insert(c.buckets[b], e)])
  }

  /** The events at the front of a list that are due at time t, and the rest. */
  function Due(l: seq<Event>, t: nat): seq<Event> {
    if l != [] && l[0].time <= t then [l[0]] + Due(l[1..], t) else []
  }

  function Later(l: seq<Event>, t: nat): seq<Event> {
    if l != [] && l[0].time <= t then Later(l[1..], t) else l
  }

  datatype Swept = Swept(buckets: seq<seq<Event>>, events: seq<Event>)

  /** Visits positions i to stop of the wheel and takes what is due at time t. */
  function Sweep(buckets: seq<seq<Event>>, i: nat, stop: nat, t: nat): (r: Swept)
    requires |buckets| > 0
    ensures |r.buckets| == |buckets|
    decreases stop + 1 - i
  {
    if i > stop then Swept(buckets, [])
    else
      var b := Slot(i, |buckets|);
      var rest := Sweep(buckets[b := Later(buckets[b], t)], i + 1, stop, t);
      Swept(rest.buckets, Due(buckets[b], t) + rest.events)
  }

  /** Last position visited by a retrieval at time t. */
  function Stop(c: Calendar, t: nat): nat
    requires c.width > 0 && |c.buckets| > 0
  {
    var target := Slot(Quantum(t, c.width), |c.buckets|);
    if target > c.bucket then target else c.bucket + |c.buckets| + (c.bucket - target)
  }

  predicate AllEmpty(buckets: seq<seq<Event>>) {
    forall b :: 0 <= b < |buckets| ==> buckets[b] == []
  }

  /** First position from x on, within `left` steps, with a non-empty bucket. */
  function FirstNonEmpty(buckets: seq<seq<Event>>, x: nat, left: nat): (y: nat)
    requires |buckets| > 0
    ensures x <= y <= x + left
    ensures forall z :: x <= z < y ==> buckets[Slot(z, |buckets|)] == []
    ensures y < x + left ==> buckets[Slot(y, |buckets|)] != []
    decreases left
  {
    if left == 0 || buckets[Slot(x, |buckets|)] != [] then x else FirstNonEmpty(buckets, x + 1, left - 1)
  }

  /** Where the cursor goes from position x: to the next event's bucket, if any. */
  function Landing(buckets: seq<seq<Event>>, x: nat): nat
    requires |buckets| > 0
  {
    if AllEmpty(buckets) then x else FirstNonEmpty(buckets, x, |buckets|)
  }

  datatype Got = Got(c: Calendar, events: seq<Event>)

  function AfterGet(c: Calendar, t: nat): Got
    requires c.width > 0 && |c.buckets| > 0
  {
    var n := |c.buckets|;
    var swept := Sweep(c.buckets, c.bucket, Stop(c, t), t);
    var x := Landing(swept.buckets, Quantum(t, c.width));
    Got(Calendar(c.width, swept.buckets, Turn(x, n), Slot(x, n)), swept.events)
  }

  function Minimum(s: seq<nat>): (m: nat)
    requires s != []
    ensures m in s && forall x :: x in s ==> m <= x
  {
    if |s| == 1 then s[0]
    else var m := Minimum(s[1..]);
      assert s == [s[0]] + s[1..];
      if s[0] <= m then s[0] else m
  }

  /** Time of the first bucket front, from position i on, that belongs to the cursor's
      epoch. */
  function FirstCurrent(c: Calendar, i: nat, end: nat): Option<nat>
    requires c.width > 0 && |c.buckets| > 0
    decreases end - i
  {
    if i >= end then None
    else
      var l := c.buckets[Slot(i, |c.buckets|)];
      if l != [] && Turn(Quantum(l[0].time, c.width), |c.buckets|) == c.epoch then Some(l[0].time)
      else FirstCurrent(c, i + 1, end)
  }

  /** Times of the bucket fronts from position i on. */
  function Fronts(c: Calendar, i: nat, end: nat): seq<nat>
    requires |c.buckets| > 0
    decreases end - i
  {
    if i >= end then []
    else
      var l := c.buckets[Slot(i, |c.buckets|)];
      (if l == [] then [] else [l[0].time]) + Fronts(c, i + 1, end)
  }

  function NextTime(c: Calendar): nat
    requires c.width > 0 && |c.buckets| > 0
  {
    var end := c.bucket + |c.buckets|;
    match FirstCurrent(c, c.bucket, end)
    case Some(t) => t
    case None => if Fronts(c, c.bucket, end) == [] then 0 else Minimum(Fronts(c, c.bucket, end))
  }

  // ------------------------------------------------------------ multiset lemmas

  lemma {:induction false} UnionUpdate(buckets: seq<seq<Event>>, b: nat, l: seq<Event>)
    requires b < |buckets|
    ensures Union(buckets[b := l]) + multiset(buckets[b]) == Union(buckets) + multiset(l)
  {
    var updated := buckets[b := l];
    assert Union(updated) == multiset(updated[0]) + Union(updated[1..]);
    assert Union(buckets) == multiset(buckets[0]) + Union(buckets[1..]);
    if b == 0 {
      assert updated[1..] == buckets[1..];
    } else {
      assert updated[1..] == buckets[1..][b-1 := l];
      UnionUpdate(buckets[1..], b - 1, l);
      var x, y := Union(updated[1..]), Union(buckets[1..]);
      assert buckets[1..][b-1] == buckets[b] && x + multiset(buckets[b]) == y + multiset(l);
      assert (multiset(buckets[0]) + x) + multiset(buckets[b]) == multiset(buckets[0]) + (x + multiset(buckets[b]));
      assert (multiset(buckets[0]) + y) + multiset(l) == multiset(buckets[0]) + (y + multiset(l));
    }
  }

  lemma {:induction false} UnionMember(buckets: seq<seq<Event>>, e: Event)
    ensures e in Union(buckets) <==> exists b, i :: 0 <= b < |buckets| && 0 <= i < |buckets[b]| && buckets[b][i] == e
  {
    if buckets != [] {
      UnionMember(buckets[1..], e);
      if e in multiset(buckets[0]) {
        assert e in buckets[0];
      } else if e in Union(buckets) {
        var b, i :| 0 <= b < |buckets[1..]| && 0 <= i < |buckets[1..][b]| && buckets[1..][b][i] == e;
        assert buckets[b+1][i] == e;
      }
      if b, i :| 0 <= b < |buckets| && 0 <= i < |buckets[b]| && buckets[b][i] == e {
        if b > 0 { assert buckets[1..][b-1][i] == e; } else { assert e in buckets[0]; }
      }
    }
  }

  lemma {:induction false} UnionEmpty(buckets: seq<seq<Event>>)
    ensures |Union(buckets)| == 0 <==> AllEmpty(buckets)
  {
    if buckets != [] {
      UnionEmpty(buckets[1..]);
      assert AllEmpty(buckets) <==> buckets[0] == [] && AllEmpty(buckets[1..]) by {
        if buckets[0] == [] && AllEmpty(buckets[1..]) {
          forall b | 0 <= b < |buckets| ensures buckets[b] == [] {
            if b > 0 { assert buckets[1..][b-1] == []; }
          }
        }
        if AllEmpty(buckets) {
          forall b | 0 <= b < |buckets[1..]| ensures buckets[1..][b] == [] {
            assert buckets[b+1] == [];
          }
        }
      }
    }
  }

  lemma {:induction false} DueLater(l: seq<Event>, t: nat)
    ensures Due(l, t) + Later(l, t) == l
    ensures forall i :: 0 <= i < |Due(l, t)| ==> Due(l, t)[i].time <= t
    ensures Later(l, t) != [] ==> Later(l, t)[0].time > t
  {
    if l != [] && l[0].time <= t {
      DueLater(l[1..], t);
    }
  }

  lemma {:induction false} InsertContents(l: seq<Event>, e: Event)
    ensures multiset(Insert(l, e)) == multiset(l) + multiset{e}
  {
    if l != [] && l[0].time < e.time {
      InsertContents(l[1..], e);
      assert l == [l[0]] + l[1..];
    }
  }

  lemma UnionTake(buckets: seq<seq<Event>>, b: nat, t: nat)
    requires b < |buckets|
    ensures Union(buckets) == Union(buckets[b := Later(buckets[b], t)]) + multiset(Due(buckets[b], t))
    ensures |Union(buckets)| == |Union(buckets[b := Later(buckets[b], t)])| + |Due(buckets[b], t)|
  {
    var taken, left := Due(buckets[b], t), Later(buckets[b], t);
    UnionUpdate(buckets, b, left);
    DueLater(buckets[b], t);
    assert multiset(buckets[b]) == multiset(taken + left) == multiset(taken) + multiset(left);
    assert Union(buckets) + multiset(left) == (Union(buckets[b := left]) + multiset(taken)) + multiset(left);
    Cancel(Union(buckets), Union(buckets[b := left]) + multiset(taken), multiset(left));
  }

  lemma Cancel<T>(a: multiset<T>, b: multiset<T>, c: multiset<T>)
    requires a + c == b + c
    ensures a == b
  {
    forall x ensures a[x] == b[x] {
      assert (a + c)[x] == a[x] + c[x];
      assert (b + c)[x] == b[x] + c[x];
    }
  }

  // ----------------------------------------------------------- the calendar queue

  class Kronos {
    var bucketWidth: nat
    var calendar: seq<seq<Event>>
    var epoch: nat
    var bucket: nat
    var counter: nat
    var initialized: bool

    ghost function State(): Calendar
      reads this
    {
      Calendar(bucketWidth, calendar, epoch, bucket)
    }

    ghost predicate Invariant()
      reads this
    {
      initialized ==> WellFormed(State()) && counter == |Union(calendar)|
    }

    constructor ()
      ensures Invariant() && !initialized
    {
      bucketWidth, epoch, bucket, counter := 0, 0, 0, 0;
      calendar, initialized := [], false;
    }

    /** Lays out an empty wheel of length / width buckets. */
    method Init(width: nat, length: nat)
      requires 0 < width <= length && !initialized
      requires epoch == bucket == counter == 0
      modifies this
      ensures Invariant() && initialized && Valid(State())
      ensures Union(calendar) == multiset{} && |calendar| == length / width
    {
      bucketWidth := width;
      calendar := seq(length / width, _ => []);
      initialized := true;
      assert length / width >= 1 by { AtLeastOne(length, width); }
      UnionEmpty(calendar);
    }

    /** The position search of the program, with the bounds test first. */
    method InsertAt(l: seq<Event>, ev: Event) returns (r: seq<Event>)
      ensures r == Insert(l, ev)
    {
      var pos := 0;
      while pos < |l| && l[pos].time < ev.time
        invariant pos <= |l|
        invariant Insert(l, ev) == l[..pos] + Insert(l[pos..], ev)
      {
        assert l[..pos+1] == l[..pos] + [l[pos]];
        pos := pos + 1;
      }
      r := l[..pos] + [ev] + l[pos..];
    }

    /** Returns false, and does nothing, if the queue is not initialised. */
    method Schedule(ev: Event) returns (ok: bool)
      requires Invariant()
      modifies this
      ensures Invariant() && ok == old(initialized) && initialized == old(initialized)
      ensures ok ==> State() == AfterSchedule(old(State()), ev)
      ensures ok ==> Union(calendar) == old(Union(calendar)) + multiset{ev}
      ensures ok ==> counter == old(counter) + 1
      ensures !ok ==> State() == old(State()) && counter == old(counter)
    {
      hide Quantum, Slot, Union;
      ok := initialized;
      if initialized {
        var quantum := Quantum(ev.time, bucketWidth);
        var b := Slot(quantum, |calendar|);
        var l := calendar[b];
        if l != [] {
          var r := InsertAt(l, ev);
          calendar := calendar[b := r];
        } else {
          assert [ev] + [] == [ev];
          calendar := calendar[b := [ev]];
        }
        counter := counter + 1;
        ScheduleShape(old(State()), ev);
        ScheduleContents(old(State()), ev);
      }
    }

    /** Takes the events that are due at time `time`; returns false if the queue is not
        initialised. */
    method Get(time: nat, q: seq<Event>) returns (ok: bool, events: seq<Event>)
      requires Invariant()
      modifies this
      ensures Invariant() && ok == old(initialized) && initialized == old(initialized)
      ensures !ok ==> State() == old(State()) && counter == old(counter) && events == q
      ensures q <= events
      ensures ok ==> Got(State(), events[|q|..]) == AfterGet(old(State()), time)
    {
      hide Sweep, Quantum, Turn, Slot, Landing, Union;
      ok, events := initialized, q;
      if initialized {
        var n := |calendar|;
        var quantum := Quantum(time, bucketWidth);
        var targetEpoch, targetBucket := Turn(quantum, n), Slot(quantum, n);
        var distance := targetBucket - bucket;
        var stop := bucket + (if distance > 0 then distance else n - distance);
        SweepKeepsShape(bucketWidth, calendar, bucket, stop, time);
        events := SweepBuckets(bucket, stop, time, q);
        epoch, bucket := SkipEmpty(targetEpoch, targetBucket, quantum);
      }
    }

    /** Visits the buckets of positions `from` to `stop`. */
    method SweepBuckets(from: nat, stop: nat, time: nat, q: seq<Event>) returns (events: seq<Event>)
      requires |calendar| > 0 && counter == |Union(calendar)|
      modifies this`calendar, this`counter
      ensures q <= events
      ensures Swept(calendar, events[|q|..]) == Sweep(old(calendar), from, stop, time)
      ensures counter == |Union(calendar)|
    {
      hide Slot, Due, Later, Union;
      events := q;
      var i := from;
      var n := |calendar|;
      while i <= stop
        invariant |calendar| == n && q <= events
        invariant Sweep(old(calendar), from, stop, time)
               == Swept(Sweep(calendar, i, stop, time).buckets,
                        events[|q|..] + Sweep(calendar, i, stop, time).events)
        invariant counter == |Union(calendar)|
        decreases stop + 1 - i
      {
        var b := Slot(i, n);
        var taken, left := PopDue(calendar[b], time);
        UnionTake(calendar, b, time);
        calendar := calendar[b := left];
        counter := counter - |taken|;
        assert (events + taken)[|q|..] == events[|q|..] + taken;
        events := events + taken;
        i := i + 1;
      }
    }

    /** Pops events from the front of a list while they are due. */
    method PopDue(l: seq<Event>, time: nat) returns (taken: seq<Event>, left: seq<Event>)
      ensures taken == Due(l, time) && left == Later(l, time)
    {
      taken, left := [], l;
      while left != [] && left[0].time <= time
        invariant taken + Due(left, time) == Due(l, time)
        invariant Later(left, time) == Later(l, time)
      {
        taken, left := taken + [left[0]], left[1..];
      }
    }

    /** Moves a position on to the next non-empty bucket, if there is any event. */
    method SkipEmpty(targetEpoch: nat, targetBucket: nat, ghost quantum: nat)
      returns (newEpoch: nat, newBucket: nat)
      requires |calendar| > 0 && counter == |Union(calendar)|
      requires targetEpoch == Turn(quantum, |calendar|) && targetBucket == Slot(quantum, |calendar|)
      ensures newEpoch == Turn(Landing(calendar, quantum), |calendar|)
      ensures newBucket == Slot(Landing(calendar, quantum), |calendar|)
    {
      hide Slot, Turn, Union;
      newEpoch, newBucket := targetEpoch, targetBucket;
      UnionEmpty(calendar);
      ghost var n, from := |calendar|, quantum;
      ghost var x: nat, left: nat := from, n;
      TurnSlot(quantum, n);
      if counter > 0 { SomeNonEmpty(calendar, from); }
      while counter > 0 && calendar[newBucket] == []
        invariant newBucket < n && left <= n
        invariant x == newEpoch * n + newBucket && Slot(x, n) == newBucket
        invariant counter == 0 ==> x == from
        invariant counter > 0 ==> FirstNonEmpty(calendar, from, n) == FirstNonEmpty(calendar, x, left) < x + left
        decreases left
      {
        Successor(x, n, newEpoch, newBucket);
        newBucket := newBucket + 1;
        if newBucket >= |calendar| {
          newBucket := 0;
          newEpoch := newEpoch + 1;
        }
        x, left := x + 1, left - 1;
      }
      SlotUnique(x, n, newEpoch, newBucket);
    }

    /** Scans one turn of the wheel for a front of the current epoch, collecting the
        others. */
    method SearchFronts() returns (ret: nat)
      requires bucketWidth > 0 && |calendar| > 0
      ensures ret == NextTime(State())
    {
      hide *;
      ret := 0;
      var found := false;
      var nextEpochEvents: seq<nat> := [];
      var i, end := bucket, bucket + |calendar|;
      ghost var s := Calendar(bucketWidth, calendar, epoch, bucket);
      SearchStart(s, i, end);
      while i < end && !found
        invariant i <= end
        invariant !found ==> FirstCurrent(s, i, end) == FirstCurrent(s, bucket, end) && ret == 0
        invariant !found ==> nextEpochEvents + Fronts(s, i, end) == Fronts(s, bucket, end)
        invariant found ==> FirstCurrent(s, bucket, end) == Some(ret)
        decreases end - i, !found
      {
        SearchOne(s, i, end, nextEpochEvents);
        var b := calendar[Slot(i, |calendar|)];
        if b != [] {
          var frontEpoch := Turn(Quantum(b[0].time, bucketWidth), |calendar|);
          if frontEpoch == epoch {
            ret := b[0].time;
            found := true;
          } else {
            nextEpochEvents := nextEpochEvents + [b[0].time];
          }
        }
        if !found {
          i := i + 1;
        }
      }
      SearchEnd(s, end, found, ret, nextEpochEvents);
      if !found && nextEpochEvents != [] {
        ret := Minimum(nextEpochEvents);
      }
      StateIs(s);
    }

    lemma StateIs(s: Calendar)
      requires s == Calendar(bucketWidth, calendar, epoch, bucket)
      ensures s == State()
    {
    }

    /** The time of the next event, 0 if there is none. */
    method Next() returns (ok: bool, ret: nat)
      requires Invariant()
      ensures ok == initialized
      ensures ok ==> ret == NextTime(State())
    {
      hide Quantum, Slot, Turn, Union;
      ok, ret := initialized, 0;
      if initialized {
        UnionEmpty(calendar);
        if counter > 0 {
          ret := SearchFronts();
        } else {
          NoFronts(State(), bucket, bucket + |calendar|);
        }
      }
    }
  }

  lemma AtLeastOne(x: nat, d: nat)
    requires 0 < d <= x
    ensures x / d >= 1
  {
  }

  lemma TurnSlot(x: nat, d: nat)
    requires d > 0
    ensures Turn(x, d) * d + Slot(x, d) == x
  {
  }

  lemma SlotUnique(x: nat, d: nat, q: nat, r: nat)
    requires d > 0 && r < d && x == q * d + r
    ensures Turn(x, d) == q && Slot(x, d) == r
  {
    var e := x / d - q;
    assert d * (x / d) + x % d == x;
    assert d * e == r - x % d;
    assert e >= 1 ==> d * e >= d;
    assert e <= -1 ==> d * e <= d * (-1);
  }

  /** The position after the one at turn e, bucket b. */
  lemma Successor(x: nat, n: nat, e: nat, b: nat)
    requires n > 0 && b < n && x == e * n + b
    ensures Slot(x, n) == b
    ensures if b + 1 >= n then Slot(x + 1, n) == 0 && x + 1 == (e + 1) * n + 0
            else Slot(x + 1, n) == b + 1 && x + 1 == e * n + (b + 1)
  {
    SlotUnique(x, n, e, b);
    if b + 1 >= n {
      assert (e + 1) * n == e * n + n;
      SlotUnique(x + 1, n, e + 1, 0);
    } else {
      SlotUnique(x + 1, n, e, b + 1);
    }
  }

  /** A non-empty wheel has a non-empty bucket within one turn of any position. */
  lemma SomeNonEmpty(buckets: seq<seq<Event>>, x: nat)
    requires |buckets| > 0 && !AllEmpty(buckets)
    ensures FirstNonEmpty(buckets, x, |buckets|) < x + |buckets|
  {
    var n := |buckets|;
    var b :| 0 <= b < n && buckets[b] != [];
    var z := PositionOf(x, n, b);
    assert buckets[Slot(z, n)] != [];
  }

  /** Within one turn from x every bucket is visited. */
  lemma PositionOf(x: nat, n: nat, b: nat) returns (z: nat)
    requires n > 0 && b < n
    ensures x <= z < x + n && Slot(z, n) == b
  {
    TurnSlot(x, n);
    var q, r := Turn(x, n), Slot(x, n);
    if b >= r {
      z := x + (b - r);
      SlotUnique(z, n, q, b);
    } else {
      z := x + (b + n - r);
      assert (q + 1) * n == q * n + n;
      SlotUnique(z, n, q + 1, b);
    }
  }

  lemma SearchStart(s: Calendar, i: nat, end: nat)
    requires s.width > 0 && |s.buckets| > 0
    ensures [] + Fronts(s, i, end) == Fronts(s, i, end)
  {
  }

  /** One position of the scan for the next time. */
  lemma SearchOne(s: Calendar, i: nat, end: nat, seen: seq<nat>)
    requires s.width > 0 && |s.buckets| > 0 && i < end
    ensures var l := s.buckets[Slot(i, |s.buckets|)];
            && (l == [] ==>
                  FirstCurrent(s, i, end) == FirstCurrent(s, i + 1, end) && Fronts(s, i, end) == Fronts(s, i + 1, end))
            && (l != [] && Turn(Quantum(l[0].time, s.width), |s.buckets|) == s.epoch ==>
                  FirstCurrent(s, i, end) == Some(l[0].time))
            && (l != [] && Turn(Quantum(l[0].time, s.width), |s.buckets|) != s.epoch ==>
                  && FirstCurrent(s, i, end) == FirstCurrent(s, i + 1, end)
                  && seen + Fronts(s, i, end) == (seen + [l[0].time]) + Fronts(s, i + 1, end))
  {
    hide Slot, Turn, Quantum;
    var l := s.buckets[Slot(i, |s.buckets|)];
    if l != [] {
      assert seen + ([l[0].time] + Fronts(s, i + 1, end)) == (seen + [l[0].time]) + Fronts(s, i + 1, end);
    }
  }

  lemma SearchEnd(s: Calendar, end: nat, found: bool, ret: nat, fronts: seq<nat>)
    requires s.width > 0 && |s.buckets| > 0 && end == s.bucket + |s.buckets|
    requires found ==> FirstCurrent(s, s.bucket, end) == Some(ret)
    requires !found ==> FirstCurrent(s, end, end) == FirstCurrent(s, s.bucket, end) && ret == 0
    requires !found ==> fronts + Fronts(s, end, end) == Fronts(s, s.bucket, end)
    ensures NextTime(s) == if !found && fronts != [] then Minimum(fronts) else ret
  {
    hide Slot, Turn, Quantum, Minimum;
    assert fronts + [] == fronts;
  }

  lemma {:induction false} NoFronts(c: Calendar, i: nat, end: nat)
    requires c.width > 0 && |c.buckets| > 0 && AllEmpty(c.buckets)
    ensures FirstCurrent(c, i, end) == None && Fronts(c, i, end) == []
    decreases end - i
  {
    if i < end {
      assert c.buckets[Slot(i, |c.buckets|)] == [];
      NoFronts(c, i + 1, end);
    }
  }

  // ------------------------------------------------------ schedule keeps the shape

  lemma InsertMembers(l: seq<Event>, e: Event, x: Event)
    ensures x in Insert(l, e) <==> x in l || x == e
  {
    InsertContents(l, e);
    assert x in Insert(l, e) <==> x in multiset(Insert(l, e));
    assert x in l <==> x in multiset(l);
  }

  lemma {:induction false} InsertSorted(l: seq<Event>, e: Event)
    requires Sorted(l)
    ensures Sorted(Insert(l, e))
  {
    if l != [] && l[0].time < e.time {
      InsertSorted(l[1..], e);
      var r := Insert(l[1..], e);
      forall j | 0 <= j < |r| ensures l[0].time <= r[j].time {
        InsertMembers(l[1..], e, r[j]);
        assert r[j] in r;
      }
    }
  }

  lemma ScheduleShape(c: Calendar, e: Event)
    requires WellFormed(c)
    ensures WellFormed(AfterSchedule(c, e))
  {
    var b := Slot(Quantum(e.time, c.width), |c.buckets|);
    InsertSorted(c.buckets[b], e);
    var l := Insert(c.buckets[b], e);
    forall i | 0 <= i < |l| ensures Slot(Quantum(l[i].time, c.width), |c.buckets|) == b {
      InsertMembers(c.buckets[b], e, l[i]);
      assert l[i] in l;
    }
  }

  lemma ScheduleContents(c: Calendar, e: Event)
    requires c.width > 0 && |c.buckets| > 0
    ensures Union(AfterSchedule(c, e).buckets) == Union(c.buckets) + multiset{e}
  {
    var b := Slot(Quantum(e.time, c.width), |c.buckets|);
    var l := Insert(c.buckets[b], e);
    InsertContents(c.buckets[b], e);
    UnionUpdate(c.buckets, b, l);
    Cancel(Union(c.buckets[b := l]), Union(c.buckets) + multiset{e}, multiset(c.buckets[b]));
  }

  lemma {:induction false} LaterSuffix(l: seq<Event>, t: nat)
    ensures |Later(l, t)| <= |l| && Later(l, t) == l[|l| - |Later(l, t)|..]
  {
    if l != [] && l[0].time <= t {
      LaterSuffix(l[1..], t);
    }
  }

  lemma LaterKeepsShape(width: nat, buckets: seq<seq<Event>>, b: nat, t: nat)
    requires Shape(width, buckets) && b < |buckets|
    ensures Shape(width, buckets[b := Later(buckets[b], t)])
  {
    LaterSuffix(buckets[b], t);
  }

  lemma {:induction false} SweepKeepsShape(width: nat, buckets: seq<seq<Event>>, i: nat, stop: nat, t: nat)
    requires Shape(width, buckets)
    ensures Shape(width, Sweep(buckets, i, stop, t).buckets)
    decreases stop + 1 - i
  {
    if i <= stop {
      var b := Slot(i, |buckets|);
      LaterKeepsShape(width, buckets, b, t);
      SweepKeepsShape(width, buckets[b := Later(buckets[b], t)], i + 1, stop, t);
    }
  }
}
