/** The calendar queue against a sorted multiset of events: its next time is the
    earliest one, a retrieval takes exactly what is due, and draining it delivers every
    event once, in order of time.  Where the program does not achieve this, the exact
    condition under which it does. */
module KronosProofs {
  import opened Basics
  import opened KronosModel

  /** What is scheduled and not yet delivered. */
  function Pending(c: Calendar): multiset<Event> {
    Union(c.buckets)
  }

  // ------------------------------------------------------------- wheel arithmetic

  lemma QuantumMonotone(s: nat, t: nat, width: nat)
    requires width > 0 && s <= t
    ensures Quantum(s, width) <= Quantum(t, width)
  {
    var a, b := s / width, t / width;
    assert width * a + s % width == s && width * b + t % width == t;
    assert a >= b + 1 ==> width * a >= width * (b + 1);
    assert width * (b + 1) == width * b + width;
  }

  /** Positions compare first by turn, then by slot. */
  lemma TurnOrder(x: nat, y: nat, n: nat)
    requires n > 0
    ensures x <= y <==> Turn(x, n) < Turn(y, n) || (Turn(x, n) == Turn(y, n) && Slot(x, n) <= Slot(y, n))
    ensures x == y <==> Turn(x, n) == Turn(y, n) && Slot(x, n) == Slot(y, n)
  {
    TurnSlot(x, n);
    TurnSlot(y, n);
    var a, b := Turn(x, n), Turn(y, n);
    TurnGap(a, b, n);
    TurnGap(b, a, n);
  }

  lemma TurnGap(a: nat, b: nat, n: nat)
    ensures a < b ==> a * n + n <= b * n
  {
    if a < b {
      assert (a + 1) * n <= b * n;
      assert (a + 1) * n == a * n + n;
    }
  }

  lemma CursorTurnSlot(c: Calendar)
    requires WellFormed(c)
    ensures Turn(Cursor(c), |c.buckets|) == c.epoch && Slot(Cursor(c), |c.buckets|) == c.bucket
  {
    SlotUnique(Cursor(c), |c.buckets|, c.epoch, c.bucket);
  }

  // ------------------------------------------------------- membership of events

  /** Where a pending event is kept, and how it compares with the front there. */
  lemma Locate(c: Calendar, e: Event) returns (b: nat, i: nat)
    requires WellFormed(c) && e in Pending(c)
    ensures b == Slot(Quantum(e.time, c.width), |c.buckets|)
    ensures 0 <= i < |c.buckets[b]| && c.buckets[b][i] == e
    ensures c.buckets[b][0].time <= e.time
  {
    UnionMember(c.buckets, e);
    b, i :| 0 <= b < |c.buckets| && 0 <= i < |c.buckets[b]| && c.buckets[b][i] == e;
    assert Sorted(c.buckets[b]);
  }

  lemma PendingAfterCursor(c: Calendar, e: Event)
    requires Valid(c) && e in Pending(c)
    ensures Quantum(e.time, c.width) >= Cursor(c)
    ensures Turn(Quantum(e.time, c.width), |c.buckets|) >= c.epoch
    ensures Turn(Quantum(e.time, c.width), |c.buckets|) == c.epoch ==>
              Slot(Quantum(e.time, c.width), |c.buckets|) >= c.bucket
  {
    var b, i := Locate(c, e);
    CursorTurnSlot(c);
    TurnOrder(Cursor(c), Quantum(e.time, c.width), |c.buckets|);
  }

  // --------------------------------------------------------------------- schedule

  /** An event may be scheduled while the cursor has not passed its bucket. */
  predicate NotBehind(c: Calendar, e: Event)
    requires c.width > 0
  {
    Quantum(e.time, c.width) >= Cursor(c)
  }

  lemma ScheduleKeepsValid(c: Calendar, e: Event)
    requires Valid(c) && NotBehind(c, e)
    ensures Valid(AfterSchedule(c, e))
    ensures Pending(AfterSchedule(c, e)) == Pending(c) + multiset{e}
  {
    ScheduleShape(c, e);
    ScheduleContents(c, e);
    var d := AfterSchedule(c, e);
    forall b, i | 0 <= b < |d.buckets| && 0 <= i < |d.buckets[b]|
      ensures Quantum(d.buckets[b][i].time, d.width) >= Cursor(d)
    {
      var x := d.buckets[b][i];
      if b == Slot(Quantum(e.time, c.width), |c.buckets|) {
        InsertMembers(c.buckets[b], e, x);
      }
    }
  }

  // --------------------------------------------------------------------- next time

  /** The specification of `next`: the earliest pending time, 0 if nothing is pending. */
  ghost predicate IsNextTime(c: Calendar, t: nat) {
    if |Pending(c)| == 0 then t == 0
    else && (exists e :: e in Pending(c) && e.time == t)
         && (forall e :: e in Pending(c) ==> t <= e.time)
  }

  lemma {:induction false} FrontsMembers(c: Calendar, i: nat, end: nat, t: nat)
    requires |c.buckets| > 0
    ensures t in Fronts(c, i, end) <==>
              exists z: nat :: i <= z < end && c.buckets[Slot(z, |c.buckets|)] != []
                          && c.buckets[Slot(z, |c.buckets|)][0].time == t
    decreases end - i
  {
    if i < end {
      FrontsMembers(c, i + 1, end, t);
      var l := c.buckets[Slot(i, |c.buckets|)];
      var rest := Fronts(c, i + 1, end);
      assert Fronts(c, i, end) == (if l == [] then [] else [l[0].time]) + rest;
      assert t in Fronts(c, i, end) <==> (l != [] && l[0].time == t) || t in rest;
      if l != [] && l[0].time == t {
        assert c.buckets[Slot(i, |c.buckets|)] != [] && c.buckets[Slot(i, |c.buckets|)][0].time == t;
      }
    }
  }

  /** The front found first in the current epoch, position by position. */
  lemma {:induction false} FirstCurrentFound(c: Calendar, i: nat, end: nat) returns (z: nat)
    requires WellFormed(c)
    ensures var n := |c.buckets|;
            match FirstCurrent(c, i, end)
            case Some(t) =>
              && i <= z < end && CurrentFront(c, z) && c.buckets[Slot(z, n)][0].time == t
              && (forall y: nat :: i <= y < z ==> !CurrentFront(c, y))
            case None => forall y: nat :: i <= y < end ==> !CurrentFront(c, y)
    decreases end - i
  {
    z := i;
    if i < end && !CurrentFront(c, i) {
      z := FirstCurrentFound(c, i + 1, end);
    }
  }

  predicate CurrentFront(c: Calendar, z: nat)
    requires c.width > 0 && |c.buckets| > 0
  {
    CurrentBucket(c, Slot(z, |c.buckets|))
  }

  /** The front of bucket b is of the cursor's epoch. */
  predicate CurrentBucket(c: Calendar, b: nat)
    requires c.width > 0 && b < |c.buckets|
  {
    c.buckets[b] != [] && Turn(Quantum(c.buckets[b][0].time, c.width), |c.buckets|) == c.epoch
  }

  lemma FrontIsPending(c: Calendar, b: nat)
    requires WellFormed(c) && b < |c.buckets| && c.buckets[b] != []
    ensures c.buckets[b][0] in Pending(c)
  {
    UnionMember(c.buckets, c.buckets[b][0]);
  }

  lemma FrontSlot(c: Calendar, b: nat)
    requires WellFormed(c) && b < |c.buckets| && c.buckets[b] != []
    ensures Slot(Quantum(c.buckets[b][0].time, c.width), |c.buckets|) == b
  {
  }

  /** An event of the cursor's epoch is at or behind a front of that epoch, which lies
      between the cursor and the end of the turn. */
  lemma CurrentEventHasCurrentFront(c: Calendar, e: Event)
    requires Valid(c) && e in Pending(c)
    requires Turn(Quantum(e.time, c.width), |c.buckets|) == c.epoch
    ensures var b := Slot(Quantum(e.time, c.width), |c.buckets|);
            && c.bucket <= b && CurrentFront(c, b) && Slot(b, |c.buckets|) == b
            && c.buckets[b][0].time <= e.time
  {
    var b, i := Locate(c, e);
    PendingAfterCursor(c, e);
    assert 0 * |c.buckets| == 0;
    SlotUnique(b, |c.buckets|, 0, b);
    FrontIsPending(c, b);
    var f := c.buckets[b][0];
    PendingAfterCursor(c, f);
    QuantumMonotone(f.time, e.time, c.width);
    TurnOrder(Quantum(f.time, c.width), Quantum(e.time, c.width), |c.buckets|);
  }

  // ------------------------------------------------------- when next is the earliest

  /** Bucket a hides behind bucket b: the scan for the current epoch stops at or before b,
      while the front of a is of an earlier epoch, or of this one but below the cursor. */
  predicate Masks(c: Calendar, a: nat, b: nat)
    requires c.width > 0 && a < |c.buckets| && b < |c.buckets|
  {
    && c.buckets[a] != [] && CurrentBucket(c, b)
    && (|| Turn(Quantum(c.buckets[a][0].time, c.width), |c.buckets|) < c.epoch
        || (CurrentBucket(c, a) && a < c.bucket <= b))
  }

  predicate Masked(c: Calendar)
    requires c.width > 0
  {
    exists a, b :: 0 <= a < |c.buckets| && 0 <= b < |c.buckets| && Masks(c, a, b)
  }

  /** Of two fronts of the same epoch the one in the lower bucket is earlier. */
  lemma LowerIsEarlier(c: Calendar, a: nat, b: nat)
    requires WellFormed(c) && a < b < |c.buckets| && CurrentBucket(c, a) && CurrentBucket(c, b)
    ensures c.buckets[a][0].time < c.buckets[b][0].time
  {
    var x, y := c.buckets[a][0].time, c.buckets[b][0].time;
    assert Slot(Quantum(x, c.width), |c.buckets|) == a && Slot(Quantum(y, c.width), |c.buckets|) == b;
    TurnOrder(Quantum(y, c.width), Quantum(x, c.width), |c.buckets|);
    if y <= x { QuantumMonotone(y, x, c.width); }
  }

  lemma EarlierTurn(c: Calendar, a: nat, b: nat)
    requires WellFormed(c) && a < |c.buckets| && b < |c.buckets| && c.buckets[a] != [] && CurrentBucket(c, b)
    ensures c.buckets[a][0].time < c.buckets[b][0].time ==>
              Turn(Quantum(c.buckets[a][0].time, c.width), |c.buckets|) <= c.epoch
    ensures Turn(Quantum(c.buckets[a][0].time, c.width), |c.buckets|) < c.epoch ==>
              c.buckets[a][0].time < c.buckets[b][0].time
  {
    var x, y := c.buckets[a][0].time, c.buckets[b][0].time;
    TurnOrder(Quantum(x, c.width), Quantum(y, c.width), |c.buckets|);
    TurnOrder(Quantum(y, c.width), Quantum(x, c.width), |c.buckets|);
    if x <= y { QuantumMonotone(x, y, c.width); } else { QuantumMonotone(y, x, c.width); }
  }

  /** z is the first position, from the cursor on, that shows a front of its epoch. */
  predicate FirstCurrentAt(c: Calendar, z: nat)
    requires c.width > 0 && |c.buckets| > 0
  {
    && c.bucket <= z < c.bucket + |c.buckets| && CurrentFront(c, z)
    && forall y: nat :: c.bucket <= y < z ==> !CurrentFront(c, y)
  }

  /** Where the first front of the epoch is, against another one of it. */
  lemma FirstSlot(c: Calendar, z: nat, a: nat)
    requires WellFormed(c) && FirstCurrentAt(c, z) && a < |c.buckets| && CurrentBucket(c, a)
    ensures var s := Slot(z, |c.buckets|);
            s <= a || a < c.bucket <= s
    ensures c.bucket <= a ==> c.bucket <= Slot(z, |c.buckets|)
  {
    hide Turn, Quantum;
    var n := |c.buckets|;
    var y := if a < c.bucket then a + n else a;
    SmallSlot(y, n, c.bucket);
    SmallSlot(z, n, c.bucket);
    hide Slot;
    assert CurrentFront(c, y);
    assert z <= y;
  }

  lemma UnmaskedFirst(c: Calendar, z: nat, e: Event)
    requires WellFormed(c) && FirstCurrentAt(c, z) && !Masked(c) && e in Pending(c)
    ensures c.buckets[Slot(z, |c.buckets|)][0].time <= e.time
  {
    hide Turn, Quantum, Slot, Union;
    var a, i := Locate(c, e);
    var s := Slot(z, |c.buckets|);
    assert !Masks(c, a, s);
    if c.buckets[a][0].time < c.buckets[s][0].time {
      EarlierTurn(c, a, s);
      FirstSlot(c, z, a);
      if s < a { LowerIsEarlier(c, s, a); }
    }
  }

  lemma MaskedFirst(c: Calendar, z: nat, a: nat, b: nat)
    requires WellFormed(c) && FirstCurrentAt(c, z) && a < |c.buckets| && b < |c.buckets| && Masks(c, a, b)
    ensures c.buckets[a][0].time < c.buckets[Slot(z, |c.buckets|)][0].time
  {
    hide Turn, Quantum, Slot, Union;
    var s := Slot(z, |c.buckets|);
    EarlierTurn(c, a, s);
    if CurrentBucket(c, a) && a < c.bucket <= b {
      FirstSlot(c, z, b);
      LowerIsEarlier(c, a, s);
    }
  }

  /** What `next` returns: the front at the first current position, or the least front. */
  lemma NextTimeCases(c: Calendar) returns (z: nat)
    requires WellFormed(c) && |Pending(c)| > 0
    ensures FirstCurrentAt(c, z) ==> c.buckets[Slot(z, |c.buckets|)] != []
    ensures (FirstCurrentAt(c, z) && NextTime(c) == c.buckets[Slot(z, |c.buckets|)][0].time)
         || (IsNextTime(c, NextTime(c)) && !Masked(c))
  {
    hide Turn, Quantum, Slot, Union, Fronts, FirstCurrent, Minimum;
    var end := c.bucket + |c.buckets|;
    UnionEmpty(c.buckets);
    z := FirstCurrentFound(c, c.bucket, end);
    NextTimeIs(c, end);
    if FirstCurrent(c, c.bucket, end).None? {
      NoneCurrent(c, end);
      assert |Pending(c)| > 0;
      NoneMasked(c, end);
    }
  }

  lemma NextTimeIs(c: Calendar, end: nat)
    requires c.width > 0 && |c.buckets| > 0 && end == c.bucket + |c.buckets|
    ensures match FirstCurrent(c, c.bucket, end)
            case Some(t) => NextTime(c) == t
            case None => Fronts(c, c.bucket, end) != [] ==> NextTime(c) == Minimum(Fronts(c, c.bucket, end))
  {
    hide Turn, Quantum, Slot, Fronts, FirstCurrent, Minimum;
  }

  lemma NoneMasked(c: Calendar, end: nat)
    requires WellFormed(c) && end == c.bucket + |c.buckets|
    requires forall y: nat :: c.bucket <= y < end ==> !CurrentFront(c, y)
    ensures !Masked(c)
  {
    hide Turn, Quantum, Slot, CurrentBucket;
    forall b | 0 <= b < |c.buckets| ensures !CurrentBucket(c, b) {
      var y := PositionOf(c.bucket, |c.buckets|, b);
      assert !CurrentFront(c, y);
    }
  }

  /** `next` returns the earliest pending time if and only if no bucket is masked: a test
      of the fronts, for every calendar, whatever was scheduled before its cursor. */
  lemma NextRightIff(c: Calendar)
    requires WellFormed(c)
    ensures IsNextTime(c, NextTime(c)) <==> !Masked(c)
  {
    hide Turn, Quantum, Slot, Union, CurrentBucket, NextTime, Masks;
    if |Pending(c)| == 0 {
      NothingNext(c);
    } else {
      var z := NextTimeCases(c);
      if FirstCurrentAt(c, z) && NextTime(c) == c.buckets[Slot(z, |c.buckets|)][0].time {
        CurrentNextIff(c, z);
      }
    }
  }

  lemma NothingNext(c: Calendar)
    requires WellFormed(c) && |Pending(c)| == 0
    ensures NextTime(c) == 0 && !Masked(c)
  {
    hide Turn, Quantum, Slot, FirstCurrent, Fronts, Union;
    UnionEmpty(c.buckets);
    NoFronts(c, c.bucket, c.bucket + |c.buckets|);
    NoneNext(c);
  }

  lemma NoneNext(c: Calendar)
    requires c.width > 0 && |c.buckets| > 0
    requires FirstCurrent(c, c.bucket, c.bucket + |c.buckets|) == None && Fronts(c, c.bucket, c.bucket + |c.buckets|) == []
    ensures NextTime(c) == 0
  {
    hide FirstCurrent, Fronts, Minimum;
  }

  lemma CurrentNextIff(c: Calendar, z: nat)
    requires WellFormed(c) && |Pending(c)| > 0 && FirstCurrentAt(c, z)
    ensures IsNextTime(c, c.buckets[Slot(z, |c.buckets|)][0].time) <==> !Masked(c)
  {
    hide Turn, Quantum, Union, Masks;
    var s := Slot(z, |c.buckets|);
    hide Slot;
    assert CurrentBucket(c, s);
    FrontIsPending(c, s);
    if Masked(c) {
      var a, b :| 0 <= a < |c.buckets| && 0 <= b < |c.buckets| && Masks(c, a, b);
      MaskedFirst(c, z, a, b);
      assert c.buckets[a] != [] by { MasksMeans(c, a, b); }
      FrontIsPending(c, a);
    } else {
      forall e | e in Pending(c) ensures c.buckets[s][0].time <= e.time {
        UnmaskedFirst(c, z, e);
      }
    }
  }

  lemma MasksMeans(c: Calendar, a: nat, b: nat)
    requires c.width > 0 && a < |c.buckets| && b < |c.buckets| && Masks(c, a, b)
    ensures c.buckets[a] != [] && CurrentBucket(c, b)
  {
  }

  /** While the cursor has passed no event, nothing is masked. */
  lemma ValidNotMasked(c: Calendar)
    requires Valid(c)
    ensures !Masked(c)
  {
    hide Turn, Quantum, Slot;
    forall a, b | 0 <= a < |c.buckets| && 0 <= b < |c.buckets| ensures !Masks(c, a, b) {
      if c.buckets[a] != [] {
        FrontIsPending(c, a);
        PendingAfterCursor(c, c.buckets[a][0]);
        assert Slot(Quantum(c.buckets[a][0].time, c.width), |c.buckets|) == a;
      }
    }
  }

  /** `next` returns the earliest pending time under the cursor invariant. */
  lemma NextIsEarliest(c: Calendar)
    requires Valid(c)
    ensures IsNextTime(c, NextTime(c))
  {
    ValidNotMasked(c);
    NextRightIff(c);
  }

  /** Within the turn after a bucket, a slot at or after that bucket is the position
      itself. */
  lemma SmallSlot(z: nat, n: nat, from: nat)
    requires n > 0 && from < n && from <= z < from + n
    ensures if z < n then Slot(z, n) == z else Slot(z, n) == z - n
  {
    if z < n {
      assert 0 * n == 0;
      SlotUnique(z, n, 0, z);
    } else {
      assert 1 * n == n;
      SlotUnique(z, n, 1, z - n);
    }
  }

  lemma NoneCurrent(c: Calendar, end: nat)
    requires WellFormed(c) && !AllEmpty(c.buckets) && end == c.bucket + |c.buckets|
    ensures Fronts(c, c.bucket, end) != []
    ensures var t := Minimum(Fronts(c, c.bucket, end));
            && (exists e :: e in Pending(c) && e.time == t)
            && (forall e :: e in Pending(c) ==> t <= e.time)
  {
    var n := |c.buckets|;
    forall e | e in Pending(c) ensures exists t :: t in Fronts(c, c.bucket, end) && t <= e.time {
      var b, i := Locate(c, e);
      var z := PositionOf(c.bucket, n, b);
      FrontsMembers(c, c.bucket, end, c.buckets[b][0].time);
      assert c.buckets[Slot(z, n)] != [];
    }
    var b :| 0 <= b < n && c.buckets[b] != [];
    FrontIsPending(c, b);
    var t := Minimum(Fronts(c, c.bucket, end));
    FrontsMembers(c, c.bucket, end, t);
    var z: nat :| c.bucket <= z < end && c.buckets[Slot(z, n)] != [] && c.buckets[Slot(z, n)][0].time == t;
    FrontIsPending(c, Slot(z, n));
  }

  // ------------------------------------------------------- behind the cursor

  /** x is of the cursor's epoch, in another bucket than e. */
  predicate Blocks(c: Calendar, e: Event, x: Event)
    requires c.width > 0 && |c.buckets| > 0
  {
    && Turn(Quantum(x.time, c.width), |c.buckets|) == c.epoch
    && Slot(Quantum(x.time, c.width), |c.buckets|) != Slot(Quantum(e.time, c.width), |c.buckets|)
  }

  /** Without the precondition: an event is scheduled before the cursor.  `next` is then
      right exactly when no event of the cursor's epoch is pending in another bucket. */
  lemma ScheduleBehindCursor(c: Calendar, e: Event)
    requires Valid(c) && !NotBehind(c, e)
    ensures IsNextTime(AfterSchedule(c, e), NextTime(AfterSchedule(c, e)))
       <==> !(exists x :: x in Pending(c) && Blocks(c, e, x))
  {
    hide Turn, Quantum, Slot, Union, NextTime, Masked;
    ScheduleShape(c, e);
    NextRightIff(AfterSchedule(c, e));
    if x :| x in Pending(c) && Blocks(c, e, x) {
      BlockedIsMasked(c, e, x);
    }
    if Masked(AfterSchedule(c, e)) {
      var x := MaskedIsBlocked(c, e);
    }
  }

  /** An event behind the cursor is earlier than all others, and shows in its bucket. */
  lemma EarliestIsNew(c: Calendar, e: Event)
    requires Valid(c) && !NotBehind(c, e)
    ensures forall x :: x in Pending(c) ==> e.time < x.time
    ensures var d, a := AfterSchedule(c, e), Slot(Quantum(e.time, c.width), |c.buckets|);
            && d.buckets[a] != [] && d.buckets[a][0] == e
            && (Turn(Quantum(e.time, c.width), |c.buckets|) < c.epoch
                || (Turn(Quantum(e.time, c.width), |c.buckets|) == c.epoch && a < c.bucket))
  {
    hide Turn, Slot, Union;
    forall x | x in Pending(c) ensures e.time < x.time {
      PendingAfterCursor(c, x);
      if x.time <= e.time { QuantumMonotone(x.time, e.time, c.width); }
    }
    var a := Slot(Quantum(e.time, c.width), |c.buckets|);
    forall x | x in c.buckets[a] ensures e.time < x.time {
      UnionMember(c.buckets, x);
    }
    FrontOfOwnBucket(c.buckets[a], e);
    CursorTurnSlot(c);
    TurnOrder(Cursor(c), Quantum(e.time, c.width), |c.buckets|);
  }

  lemma BlockedIsMasked(c: Calendar, e: Event, x: Event)
    requires Valid(c) && !NotBehind(c, e) && x in Pending(c) && Blocks(c, e, x)
    ensures Masked(AfterSchedule(c, e))
  {
    hide Turn, Quantum, Slot, Union;
    var d, a, b := AfterSchedule(c, e), Slot(Quantum(e.time, c.width), |c.buckets|), Slot(Quantum(x.time, c.width), |c.buckets|);
    EarliestIsNew(c, e);
    CurrentEventHasCurrentFront(c, x);
    assert Masks(d, a, b);
  }

  lemma MaskedIsBlocked(c: Calendar, e: Event) returns (x: Event)
    requires Valid(c) && !NotBehind(c, e) && Masked(AfterSchedule(c, e)) && WellFormed(AfterSchedule(c, e))
    ensures x in Pending(c) && Blocks(c, e, x)
  {
    hide Turn, Quantum, Slot, Union;
    var d, n := AfterSchedule(c, e), |c.buckets|;
    var slot := Slot(Quantum(e.time, c.width), n);
    var a, b :| 0 <= a < n && 0 <= b < n && Masks(d, a, b);
    EarliestIsNew(c, e);
    FrontSlot(d, a);
    if a != slot {
      FrontIsPending(c, a);
      PendingAfterCursor(c, c.buckets[a][0]);
    }
    x := d.buckets[b][0];
    assert b != slot;
    FrontIsPending(c, b);
    FrontSlot(d, b);
  }

  lemma FrontOfOwnBucket(l: seq<Event>, e: Event)
    requires forall x :: x in l ==> e.time < x.time
    ensures Insert(l, e)[0] == e
  {
    if l != [] { assert l[0] in l; }
  }

  // ------------------------------------------------------------------ retrieval

  /** Bucket b is among the positions visited by a retrieval at time t. */
  predicate Visited(c: Calendar, t: nat, b: nat)
    requires c.width > 0 && |c.buckets| > 0
  {
    var target := Slot(Quantum(t, c.width), |c.buckets|);
    c.bucket < target ==> c.bucket <= b <= target
  }

  /** Sweeping takes the due events of the visited buckets and leaves the others. */
  lemma {:induction false} SweepBucket(buckets: seq<seq<Event>>, i: nat, stop: nat, t: nat, b: nat)
    requires |buckets| > 0 && b < |buckets|
    ensures var r := Sweep(buckets, i, stop, t);
            r.buckets[b] == if exists z: nat :: i <= z <= stop && Slot(z, |buckets|) == b
                            then Later(buckets[b], t) else buckets[b]
    decreases stop + 1 - i
  {
    hide Slot;
    if i <= stop {
      var b0 := Slot(i, |buckets|);
      var next := buckets[b0 := Later(buckets[b0], t)];
      SweepBucket(next, i + 1, stop, t, b);
      if b == b0 {
        LaterTwice(buckets[b], t);
      }
    }
  }

  lemma {:induction false} LaterTwice(l: seq<Event>, t: nat)
    ensures Later(Later(l, t), t) == Later(l, t)
  {
    DueLater(l, t);
  }

  lemma {:induction false} SweepContents(buckets: seq<seq<Event>>, i: nat, stop: nat, t: nat)
    requires |buckets| > 0
    ensures var r := Sweep(buckets, i, stop, t);
            && multiset(r.events) + Union(r.buckets) == Union(buckets)
            && forall k :: 0 <= k < |r.events| ==> r.events[k].time <= t
    decreases stop + 1 - i
  {
    hide Slot, Due, Later, Union;
    if i <= stop {
      var b := Slot(i, |buckets|);
      var next := buckets[b := Later(buckets[b], t)];
      SweepContents(next, i + 1, stop, t);
      UnionTake(buckets, b, t);
      DueLater(buckets[b], t);
      var rest := Sweep(next, i + 1, stop, t);
      assert multiset(Due(buckets[b], t) + rest.events) == multiset(Due(buckets[b], t)) + multiset(rest.events);
    }
  }

  lemma VisitedPositions(c: Calendar, t: nat, b: nat)
    requires c.width > 0 && c.bucket < |c.buckets| && b < |c.buckets|
    ensures Visited(c, t, b) <==> exists z: nat :: c.bucket <= z <= Stop(c, t) && Slot(z, |c.buckets|) == b
  {
    var n := |c.buckets|;
    var target := Slot(Quantum(t, c.width), n);
    if target > c.bucket {
      SmallSlot(b, n, b);
      forall z: nat | c.bucket <= z <= target ensures Slot(z, n) == z {
        SmallSlot(z, n, c.bucket);
      }
    } else {
      var z := PositionOf(c.bucket, n, b);
      assert c.bucket <= z <= Stop(c, t);
    }
  }

  /** What a retrieval at time t does, in a calendar whose cursor may even be invalid:
      delivered plus pending is what was pending, everything delivered was due, and a
      pending event stays exactly when it is later than t or its bucket not visited. */
  lemma GetConserves(c: Calendar, t: nat)
    requires WellFormed(c)
    ensures var r := AfterGet(c, t);
            && WellFormed(r.c)
            && multiset(r.events) + Pending(r.c) == Pending(c)
            && (forall k :: 0 <= k < |r.events| ==> r.events[k].time <= t)
            && (forall e :: e in Pending(r.c) ==>
                  e in Pending(c)
                  && (e.time > t || !Visited(c, t, Slot(Quantum(e.time, c.width), |c.buckets|))))
  {
    var r := AfterGet(c, t);
    SweepContents(c.buckets, c.bucket, Stop(c, t), t);
    SweepKeepsShape(c.width, c.buckets, c.bucket, Stop(c, t), t);
    forall e | e in Pending(r.c)
      ensures e in Pending(c)
      ensures e.time > t || !Visited(c, t, Slot(Quantum(e.time, c.width), |c.buckets|))
    {
      StaysOrNotVisited(c, t, e);
    }
  }

  lemma StaysOrNotVisited(c: Calendar, t: nat, e: Event)
    requires WellFormed(c) && WellFormed(AfterGet(c, t).c)
    requires e in Pending(AfterGet(c, t).c)
    ensures e.time > t || !Visited(c, t, Slot(Quantum(e.time, c.width), |c.buckets|))
  {
    hide Quantum, Slot, Turn, Union, Sweep, Later;
    var r := AfterGet(c, t);
    var b, i := Locate(r.c, e);
    SweepBucket(c.buckets, c.bucket, Stop(c, t), t, b);
    VisitedPositions(c, t, b);
    DueLater(c.buckets[b], t);
  }

  /** An unvisited bucket keeps all its events. */
  lemma NotVisitedStays(c: Calendar, t: nat, e: Event)
    requires WellFormed(c) && e in Pending(c)
    requires !Visited(c, t, Slot(Quantum(e.time, c.width), |c.buckets|))
    ensures e in Pending(AfterGet(c, t).c)
  {
    var b, i := Locate(c, e);
    SweepBucket(c.buckets, c.bucket, Stop(c, t), t, b);
    VisitedPositions(c, t, b);
    UnionMember(AfterGet(c, t).c.buckets, e);
    assert AfterGet(c, t).c.buckets[b][i] == e;
  }

  /** A retrieval is complete: nothing that is due stays behind. */
  ghost predicate Complete(c: Calendar, t: nat)
    requires WellFormed(c)
  {
    forall e :: e in Pending(AfterGet(c, t).c) ==> e.time > t
  }

  lemma LandingPassesNothing(buckets: seq<seq<Event>>, q: nat, y: nat)
    requires |buckets| > 0 && q <= y && buckets[Slot(y, |buckets|)] != []
    ensures Landing(buckets, q) <= y
  {
    hide Slot;
  }

  /** After a complete retrieval the cursor invariant holds again: the skip over empty
      buckets passes no event. */
  lemma CompleteKeepsValid(c: Calendar, t: nat)
    requires WellFormed(c) && Complete(c, t)
    ensures Valid(AfterGet(c, t).c)
  {
    GetConserves(c, t);
    var d := AfterGet(c, t).c;
    var n, q := |c.buckets|, Quantum(t, c.width);
    var x := Landing(d.buckets, q);
    TurnSlot(x, n);
    assert Cursor(d) == x;
    forall b, i | 0 <= b < n && 0 <= i < |d.buckets[b]|
      ensures Quantum(d.buckets[b][i].time, d.width) >= Cursor(d)
    {
      var e := d.buckets[b][i];
      UnionMember(d.buckets, e);
      QuantumMonotone(t, e.time, c.width);
      assert !AllEmpty(d.buckets);
      var y := Quantum(e.time, c.width);
      LandingPassesNothing(d.buckets, q, y);
    }
  }

  // ------------------------------------------------ when a retrieval is complete

  /** The condition on the cursor and the target position alone. */
  predicate ReachesAll(n: nat, epoch: nat, bucket: nat, q: nat)
    requires n > 0
  {
    || Turn(q, n) <= epoch
    || Slot(q, n) <= bucket
    || (bucket == 0 && Slot(q, n) == n - 1)
  }

  lemma ReachesAllComplete(c: Calendar, t: nat)
    requires Valid(c) && ReachesAll(|c.buckets|, c.epoch, c.bucket, Quantum(t, c.width))
    ensures Complete(c, t)
  {
    GetConserves(c, t);
    var n, q := |c.buckets|, Quantum(t, c.width);
    forall e | e in Pending(AfterGet(c, t).c) ensures e.time > t {
      if e.time <= t {
        var y := Quantum(e.time, c.width);
        QuantumMonotone(e.time, t, c.width);
        PendingAfterCursor(c, e);
        TurnOrder(y, q, n);
        assert Visited(c, t, Slot(y, n));
        assert false;
      }
    }
  }

  /** A calendar with a given cursor and a single event. */
  function Single(n: nat, width: nat, epoch: nat, bucket: nat, e: Event): Calendar
    requires n > 0 && width > 0
  {
    AfterSchedule(Calendar(width, seq(n, _ => []), epoch, bucket), e)
  }

  lemma SingleValid(n: nat, width: nat, epoch: nat, bucket: nat, e: Event)
    requires n > 0 && width > 0 && bucket < n && Quantum(e.time, width) >= epoch * n + bucket
    ensures var c := Single(n, width, epoch, bucket, e);
            Valid(c) && e in Pending(c) && c.epoch == epoch && c.bucket == bucket
            && |c.buckets| == n && c.width == width
  {
    ScheduleKeepsValid(Calendar(width, seq(n, _ => []), epoch, bucket), e);
  }

  /** Where the condition fails, some calendar with that cursor keeps a due event. */
  lemma NotReachedWitness(n: nat, width: nat, epoch: nat, bucket: nat, t: nat) returns (c: Calendar)
    requires n > 0 && width > 0 && bucket < n && !ReachesAll(n, epoch, bucket, Quantum(t, width))
    ensures Valid(c) && !Complete(c, t)
    ensures c.epoch == epoch && c.bucket == bucket && |c.buckets| == n && c.width == width
  {
    var q := Quantum(t, width);
    var target := Slot(q, n);
    var turn, slot := if target < n - 1 then epoch else epoch + 1, if target < n - 1 then n - 1 else 0;
    var y := turn * n + slot;
    SlotUnique(y, n, turn, slot);
    TurnOrder(y, q, n);
    SlotUnique(epoch * n + bucket, n, epoch, bucket);
    TurnOrder(epoch * n + bucket, y, n);
    var e := Event(0, 0, y * width);
    TimeOfQuantum(y, q, t, width);
    c := Single(n, width, epoch, bucket, e);
    SingleValid(n, width, epoch, bucket, e);
    NotVisitedStays(c, t, e);
  }

  lemma TimeOfQuantum(y: nat, q: nat, t: nat, width: nat)
    requires width > 0 && q == Quantum(t, width) && y <= q
    ensures Quantum(y * width, width) == y && y * width <= t
  {
    assert y * width == y * width + 0;
    SlotUnique(y * width, width, y, 0);
    assert (t / width) * width + t % width == t;
    assert y * width <= q * width;
  }

  /** All retrievals from a given cursor to time t are complete. */
  ghost predicate AlwaysComplete(n: nat, width: nat, epoch: nat, bucket: nat, t: nat) {
    forall c: Calendar ::
      Valid(c) && |c.buckets| == n && c.width == width && c.epoch == epoch && c.bucket == bucket
      ==> Complete(c, t)
  }

  /** A retrieval at time t takes everything that is due, whatever is pending, if and
      only if the target is not in a later turn at a later bucket than the cursor (or
      the visited buckets are the whole wheel anyway). */
  lemma AlwaysCompleteIff(n: nat, width: nat, epoch: nat, bucket: nat, t: nat)
    requires n > 0 && width > 0 && bucket < n
    ensures AlwaysComplete(n, width, epoch, bucket, t) <==> ReachesAll(n, epoch, bucket, Quantum(t, width))
  {
    if ReachesAll(n, epoch, bucket, Quantum(t, width)) {
      forall c: Calendar | Valid(c) && |c.buckets| == n && c.width == width && c.epoch == epoch && c.bucket == bucket
        ensures Complete(c, t)
      {
        ReachesAllComplete(c, t);
      }
    } else {
      var c := NotReachedWitness(n, width, epoch, bucket, t);
    }
  }

  /** A retrieval at the next time is complete if that is the earliest one. */
  lemma NextComplete(c: Calendar)
    requires WellFormed(c) && IsNextTime(c, NextTime(c))
    ensures Complete(c, NextTime(c))
  {
    hide Slot, Quantum, AfterGet, NextTime, Union, Turn;
    var t := NextTime(c);
    GetConserves(c, t);
    forall e | e in Pending(AfterGet(c, t).c) ensures e.time > t {
      assert e.time >= t;
      assert Visited(c, t, Slot(Quantum(t, c.width), |c.buckets|));
    }
  }

  // ------------------------------------------------------------------- one round

  /** The retrieval at the next time delivers the events of exactly that time, and leaves
      later ones only. */
  ghost predicate OnTime(c: Calendar)
    requires c.width > 0 && |c.buckets| > 0
  {
    var t := NextTime(c);
    var r := AfterGet(c, t);
    && (forall k :: 0 <= k < |r.events| ==> r.events[k].time == t)
    && (forall e :: e in Pending(r.c) ==> e.time > t)
  }

  /** Nothing masked: the retrieval is on time, and the cursor invariant holds after it,
      even where it did not hold before. */
  lemma GetNext(c: Calendar)
    requires WellFormed(c) && !Masked(c)
    ensures OnTime(c) && Valid(AfterGet(c, NextTime(c)).c)
  {
    hide Slot, Quantum, AfterGet, NextTime, Union, Turn, Masked;
    var t := NextTime(c);
    NextRightIff(c);
    NextComplete(c);
    GetConserves(c, t);
    CompleteKeepsValid(c, t);
    var r := AfterGet(c, t);
    forall k | 0 <= k < |r.events| ensures r.events[k].time == t {
      assert r.events[k] in multiset(r.events) + Pending(r.c);
    }
  }

  /** From any calendar: a round delivers something, and neither loses nor repeats. */
  lemma GetSome(c: Calendar)
    requires WellFormed(c) && |Pending(c)| > 0
    ensures var r := AfterGet(c, NextTime(c));
            && WellFormed(r.c) && multiset(r.events) + Pending(r.c) == Pending(c) && |r.events| > 0
            && exists k :: 0 <= k < |r.events| && r.events[k].time == NextTime(c)
  {
    hide Slot, Quantum, AfterGet, NextTime, Union, Turn;
    var t := NextTime(c);
    var r := AfterGet(c, t);
    GetConserves(c, t);
    var e := NextIsPending(c);
    assert Visited(c, t, Slot(Quantum(t, c.width), |c.buckets|));
    assert e !in Pending(r.c);
    assert e in multiset(r.events) + Pending(r.c);
    assert e in r.events;
  }

  lemma NextIsPending(c: Calendar) returns (e: Event)
    requires WellFormed(c) && |Pending(c)| > 0
    ensures e in Pending(c) && e.time == NextTime(c)
  {
    hide Slot, Quantum, NextTime, Union, Turn, Masked;
    var z := NextTimeCases(c);
    if FirstCurrentAt(c, z) && NextTime(c) == c.buckets[Slot(z, |c.buckets|)][0].time {
      FrontIsPending(c, Slot(z, |c.buckets|));
      e := c.buckets[Slot(z, |c.buckets|)][0];
    } else {
      e :| e in Pending(c) && e.time == NextTime(c);
    }
  }

  /** A round is on time if and only if nothing is masked when it starts. */
  lemma OnTimeIff(c: Calendar)
    requires WellFormed(c) && |Pending(c)| > 0
    ensures OnTime(c) <==> !Masked(c)
  {
    hide Slot, Quantum, AfterGet, NextTime, Union, Turn, Masked;
    NextRightIff(c);
    if Masked(c) {
      var next := NextIsPending(c);
      var t := NextTime(c);
      var e :| e in Pending(c) && e.time < t;
      GetConserves(c, t);
      assert e in multiset(AfterGet(c, t).events) + Pending(AfterGet(c, t).c);
    } else {
      GetNext(c);
    }
  }

  /** Some delivered event is later than one delivered after it, or than one left. */
  ghost predicate OutOfOrder(r: Got) {
    || (exists i, j :: 0 <= i < j < |r.events| && r.events[j].time < r.events[i].time)
    || (exists i, e :: 0 <= i < |r.events| && e in Pending(r.c) && e.time < r.events[i].time)
  }

  /** If what is masked is of the cursor's own epoch, order is lost as well: the masked
      event is delivered after a later one, or stays behind it. */
  lemma MaskedLosesOrder(c: Calendar, a: nat, b: nat)
    requires WellFormed(c) && a < c.bucket <= b < |c.buckets| && CurrentBucket(c, a) && CurrentBucket(c, b)
    ensures OutOfOrder(AfterGet(c, NextTime(c)))
  {
    hide Slot, Quantum, AfterGet, NextTime, Union, Turn;
    assert Masks(c, a, b);
    FrontIsPending(c, a);
    NextRightIff(c);
    var z := NextTimeCases(c);
    var s, t := Slot(z, |c.buckets|), NextTime(c);
    FirstSlot(c, z, b);
    LowerIsEarlier(c, a, s);
    FrontSlot(c, s);
    var r := AfterGet(c, t);
    GetConserves(c, t);
    var x, e := c.buckets[s][0], c.buckets[a][0];
    FrontIsPending(c, s);
    assert Visited(c, t, s);
    assert x in multiset(r.events) + Pending(r.c) && e in multiset(r.events) + Pending(r.c);
    assert x in r.events;
    if s == c.bucket {
      FirstDelivered(c, t);
    } else {
      FrontSlot(c, a);
      NotVisitedStays(c, t, e);
    }
  }

  /** A retrieval starts with the cursor's own bucket. */
  lemma FirstDelivered(c: Calendar, t: nat)
    requires WellFormed(c) && c.buckets[c.bucket] != [] && c.buckets[c.bucket][0].time <= t
    ensures var r := AfterGet(c, t); |r.events| > 0 && r.events[0] == c.buckets[c.bucket][0]
  {
    SmallSlot(c.bucket, |c.buckets|, c.bucket);
    assert c.bucket <= Stop(c, t);
  }

  // -------------------------------------------------------------------- whole runs

  /** One turn of the event loop: time is set to the next event, what is due is
      delivered, and handling it schedules `added`, whatever that is. */
  datatype Round = Round(before: Calendar, events: seq<Event>, added: seq<Event>, after: Calendar)

  function ScheduleAll(c: Calendar, added: seq<Event>): (d: Calendar)
    requires c.width > 0 && |c.buckets| > 0
    ensures d.width > 0 && |d.buckets| > 0
  {
    if added == [] then c
    else AfterSchedule(ScheduleAll(c, added[..|added|-1]), added[|added|-1])
  }

  /** The loop goes round while events are pending. */
  ghost predicate IsRound(r: Round) {
    && r.before.width > 0 && |r.before.buckets| > 0 && |Pending(r.before)| > 0
    && var got := AfterGet(r.before, NextTime(r.before));
    && r.events == got.events
    && r.after == ScheduleAll(got.c, r.added)
  }

  /** Nothing is scheduled before the time of the round. */
  predicate NotBefore(r: Round)
    requires r.before.width > 0 && |r.before.buckets| > 0
  {
    forall k :: 0 <= k < |r.added| ==> r.added[k].time >= NextTime(r.before)
  }

  ghost predicate IsRun(c: Calendar, rounds: seq<Round>) {
    forall k :: 0 <= k < |rounds| ==> Follows(c, rounds, k)
  }

  ghost predicate Follows(c: Calendar, rounds: seq<Round>, k: nat)
    requires k < |rounds|
  {
    IsRound(rounds[k]) && rounds[k].before == if k == 0 then c else rounds[k-1].after
  }

  function Delivered(rounds: seq<Round>): seq<Event> {
    if rounds == [] then [] else Delivered(rounds[..|rounds|-1]) + rounds[|rounds|-1].events
  }

  function Added(rounds: seq<Round>): multiset<Event> {
    if rounds == [] then multiset{} else Added(rounds[..|rounds|-1]) + multiset(rounds[|rounds|-1].added)
  }

  function Final(c: Calendar, rounds: seq<Round>): Calendar {
    if rounds == [] then c else rounds[|rounds|-1].after
  }

  lemma {:induction false} ScheduleAllConserves(c: Calendar, added: seq<Event>)
    requires WellFormed(c)
    ensures var d := ScheduleAll(c, added);
            WellFormed(d) && Pending(d) == Pending(c) + multiset(added)
  {
    if added != [] {
      hide AfterSchedule, Union, Shape;
      var init := added[..|added|-1];
      ScheduleAllConserves(c, init);
      ScheduleShape(ScheduleAll(c, init), added[|added|-1]);
      ScheduleContents(ScheduleAll(c, init), added[|added|-1]);
      assert added == init + [added[|added|-1]];
    }
  }

  lemma RoundConserves(r: Round)
    requires WellFormed(r.before) && IsRound(r)
    ensures WellFormed(r.after) && |r.events| > 0
    ensures multiset(r.events) + Pending(r.after) == Pending(r.before) + multiset(r.added)
  {
    hide NextTime, AfterGet, Union, ScheduleAll;
    GetSome(r.before);
    var got := AfterGet(r.before, NextTime(r.before));
    ScheduleAllConserves(got.c, r.added);
    var e, p, a := multiset(r.events), Pending(got.c), multiset(r.added);
    assert e + (p + a) == (e + p) + a;
  }

  /** Over every run of the event loop, whatever is scheduled and when: each event is
      delivered or still pending, exactly as often as it was scheduled, and every round
      delivers something. */
  lemma {:induction false} RunConserves(c: Calendar, rounds: seq<Round>)
    requires WellFormed(c) && IsRun(c, rounds)
    ensures var f := Final(c, rounds);
            && WellFormed(f)
            && multiset(Delivered(rounds)) + Pending(f) == Pending(c) + Added(rounds)
            && |Delivered(rounds)| >= |rounds|
  {
    hide Union, NextTime, AfterGet, WellFormed, IsRound;
    if rounds != [] {
      var init, last := rounds[..|rounds|-1], rounds[|rounds|-1];
      RunPrefix(c, rounds);
      RunConserves(c, init);
      RoundConserves(last);
      var d, e, p, a, q := multiset(Delivered(init)), multiset(last.events), Pending(last.before),
                           multiset(last.added), Pending(last.after);
      assert multiset(Delivered(init) + last.events) == d + e;
      assert (d + e) + q == d + (e + q) == d + (p + a) == (d + p) + a;
      assert (Pending(c) + Added(init)) + a == Pending(c) + (Added(init) + a);
    }
  }

  lemma RunPrefix(c: Calendar, rounds: seq<Round>)
    requires IsRun(c, rounds) && rounds != []
    ensures IsRun(c, rounds[..|rounds|-1])
    ensures IsRound(rounds[|rounds|-1]) && rounds[|rounds|-1].before == Final(c, rounds[..|rounds|-1])
  {
    hide IsRound;
    var init := rounds[..|rounds|-1];
    forall k | 0 <= k < |init| ensures Follows(c, init, k) {
      assert Follows(c, rounds, k);
      assert init[k] == rounds[k] && (k > 0 ==> init[k-1] == rounds[k-1]);
    }
    assert Follows(c, rounds, |rounds| - 1);
  }

  lemma {:induction false} RunWellFormed(c: Calendar, rounds: seq<Round>, k: nat)
    requires WellFormed(c) && IsRun(c, rounds) && k < |rounds|
    ensures WellFormed(rounds[k].before) && IsRound(rounds[k])
  {
    hide Union, NextTime, AfterGet, WellFormed, IsRound;
    assert Follows(c, rounds, k);
    if k > 0 {
      RunWellFormed(c, rounds, k - 1);
      RoundConserves(rounds[k-1]);
    }
  }

  ghost predicate AllOnTime(rounds: seq<Round>) {
    forall k :: 0 <= k < |rounds| ==> WellFormed(rounds[k].before) && OnTime(rounds[k].before)
  }

  ghost predicate NeverMasked(rounds: seq<Round>) {
    forall k :: 0 <= k < |rounds| ==> WellFormed(rounds[k].before) && !Masked(rounds[k].before)
  }

  /** Over every run, every round delivers its events at their own time if and only if no
      round starts with a bucket masked. */
  lemma RunOnTimeIff(c: Calendar, rounds: seq<Round>)
    requires WellFormed(c) && IsRun(c, rounds)
    ensures AllOnTime(rounds) <==> NeverMasked(rounds)
  {
    hide Union, NextTime, AfterGet, OnTime, Masked;
    forall k | 0 <= k < |rounds|
      ensures WellFormed(rounds[k].before) && (OnTime(rounds[k].before) <==> !Masked(rounds[k].before))
    {
      RunWellFormed(c, rounds, k);
      OnTimeIff(rounds[k].before);
    }
  }

  /** Nothing is scheduled before the time of the round that schedules it. */
  ghost predicate NeverBefore(rounds: seq<Round>) {
    forall k :: 0 <= k < |rounds| ==> WellFormed(rounds[k].before) && NotBefore(rounds[k])
  }

  /** If no round starts masked and none schedules before now, deliveries are in order of
      time and nothing pending is earlier: the queue is a sorted multiset. */
  lemma {:induction false} RunRefinesSortedMultiset(c: Calendar, rounds: seq<Round>)
    requires WellFormed(c) && IsRun(c, rounds) && NeverMasked(rounds) && NeverBefore(rounds)
    ensures Sorted(Delivered(rounds))
    ensures forall d, e :: d in Delivered(rounds) && e in Pending(Final(c, rounds)) ==> d.time <= e.time
  {
    hide Union, NextTime, AfterGet, WellFormed, IsRound, Masked, NotBefore;
    if rounds != [] {
      var init, last := rounds[..|rounds|-1], rounds[|rounds|-1];
      RunPrefix(c, rounds);
      RunConserves(c, init);
      assert forall k :: 0 <= k < |init| ==> init[k] == rounds[k];
      assert last == rounds[|rounds|-1];
      RunRefinesSortedMultiset(c, init);
      RoundInOrder(last);
      RunStep(Delivered(init), last);
    }
  }

  lemma RoundInOrder(r: Round)
    requires WellFormed(r.before) && IsRound(r) && !Masked(r.before) && NotBefore(r)
    ensures r.before.width > 0 && |r.before.buckets| > 0
    ensures forall k :: 0 <= k < |r.events| ==> r.events[k].time == NextTime(r.before)
    ensures forall e :: e in Pending(r.after) ==> e.time >= NextTime(r.before)
    ensures exists e :: e in Pending(r.before) && e.time == NextTime(r.before)
  {
    hide NextTime, AfterGet, Union, ScheduleAll, Masked;
    GetNext(r.before);
    var next := NextIsPending(r.before);
    var got := AfterGet(r.before, NextTime(r.before));
    ScheduleAllConserves(got.c, r.added);
    forall e | e in Pending(r.after) ensures e.time >= NextTime(r.before) {
      assert e in Pending(got.c) || e in multiset(r.added);
    }
  }

  lemma RunStep(delivered: seq<Event>, last: Round)
    requires Sorted(delivered)
    requires forall d, e :: d in delivered && e in Pending(last.before) ==> d.time <= e.time
    requires last.before.width > 0 && |last.before.buckets| > 0
    requires forall k :: 0 <= k < |last.events| ==> last.events[k].time == NextTime(last.before)
    requires forall e :: e in Pending(last.after) ==> e.time >= NextTime(last.before)
    requires exists e :: e in Pending(last.before) && e.time == NextTime(last.before)
    ensures Sorted(delivered + last.events)
    ensures forall d, e :: d in delivered + last.events && e in Pending(last.after) ==> d.time <= e.time
  {
    hide Union, NextTime, AfterGet;
    var next :| next in Pending(last.before) && next.time == NextTime(last.before);
    assert forall d :: d in delivered ==> d.time <= next.time;
  }

  /** Once nothing is added any more, the loop ends after at most as many rounds as
      events are pending, wherever the cursor is, and when it ends every one of them has
      been delivered. */
  lemma DrainTerminates(c: Calendar, rounds: seq<Round>)
    requires WellFormed(c) && IsRun(c, rounds)
    requires forall k :: 0 <= k < |rounds| ==> rounds[k].added == []
    ensures |rounds| + |Pending(Final(c, rounds))| <= |Pending(c)|
    ensures |Pending(Final(c, rounds))| == 0 ==> multiset(Delivered(rounds)) == Pending(c)
  {
    hide Union, NextTime, AfterGet, WellFormed, IsRun;
    RunConserves(c, rounds);
    NothingAdded(rounds);
    var left, done := Pending(Final(c, rounds)), Delivered(rounds);
    assert Pending(c) + Added(rounds) == Pending(c);
    assert |multiset(done) + left| == |done| + |left|;
    if |left| == 0 {
      assert left == multiset{};
      assert multiset(done) + left == multiset(done);
    }
  }

  lemma {:induction false} NothingAdded(rounds: seq<Round>)
    requires forall k :: 0 <= k < |rounds| ==> rounds[k].added == []
    ensures Added(rounds) == multiset{}
  {
    if rounds != [] {
      NothingAdded(rounds[..|rounds|-1]);
    }
  }

  // -------------------------------------------------------- how a mask comes about

  /** After a complete retrieval at time t an event at the same time is behind the cursor
      exactly if the cursor moved on: its bucket is empty and another one is not. */
  lemma NowIsBehindIff(c: Calendar, t: nat, e: Event)
    requires WellFormed(c) && e.time == t
    ensures var d := AfterGet(c, t).c;
            NotBehind(d, e) <==> AllEmpty(d.buckets) || d.buckets[Slot(Quantum(t, c.width), |c.buckets|)] != []
  {
    hide Quantum, Slot, Turn, Sweep;
    var d := AfterGet(c, t).c;
    var q := Quantum(t, c.width);
    TurnSlot(Landing(d.buckets, q), |c.buckets|);
    assert Cursor(d) == Landing(d.buckets, q);
  }

  /** A run of the event loop that goes wrong: the events of times 1, 3 and 22 in four
      buckets, and a tick at time 1 scheduled in the round of time 1.  The next round is
      at time 3 and leaves the tick behind, although a retrieval at 3 would reach every
      event of a calendar whose cursor has passed none. */
  lemma TickLeftBehind()
    ensures var r0, r1 := FirstRound(), SecondRound();
            && Valid(r0.before) && IsRun(r0.before, [r0, r1])
            && NextTime(r0.before) == 1 && r0.added == [Tick(1)] && NotBefore(r0)
            && NextTime(r1.before) == 3 && ReachesAll(4, r1.before.epoch, r1.before.bucket, 3)
            && r1.events == [Tick(3)] && Tick(1) in Pending(r1.after)
  {
    FirstRoundRuns();
    SecondRoundRuns();
    hide NextTime, IsRound, Valid;
    var r0, r1 := FirstRound(), SecondRound();
    var rounds := [r0, r1];
    assert rounds[0] == r0 && rounds[1] == r1;
    assert r1.before == r0.after;
    assert forall k :: 0 <= k < |rounds| ==> Follows(r0.before, rounds, k);
    OneBucket(r1.after.buckets, 1, Tick(1));
  }

  lemma OneBucket(buckets: seq<seq<Event>>, b: nat, e: Event)
    requires b < |buckets| && buckets[b] == [e]
    ensures e in Union(buckets) && |Union(buckets)| > 0
  {
    UnionMember(buckets, e);
    assert buckets[b][0] == e;
  }

  function Tick(t: nat): Event { Event(0, 0, t) }

  /** The four buckets: the second and the last may be empty. */
  function Wheel(second: seq<Event>, last: seq<Event>): seq<seq<Event>> {
    [[], second, [Tick(22)], last]
  }

  function FirstRound(): Round {
    Round(Calendar(1, Wheel([Tick(1)], [Tick(3)]), 0, 0), [Tick(1)], [Tick(1)],
          Calendar(1, Wheel([Tick(1)], [Tick(3)]), 0, 2))
  }

  function SecondRound(): Round {
    Round(Calendar(1, Wheel([Tick(1)], [Tick(3)]), 0, 2), [Tick(3)], [], Calendar(1, Wheel([Tick(1)], []), 1, 1))
  }

  /** Visiting two buckets of which only the second holds something, one event, due. */
  lemma SweepTwo(buckets: seq<seq<Event>>, i: nat, e: Event, rest: seq<seq<Event>>)
    requires i + 1 < |buckets| && rest == buckets[i + 1 := []] && buckets[i + 1] == [e]
    requires buckets[i] == [] || buckets[i][0].time > e.time
    ensures Sweep(buckets, i, i + 1, e.time) == Swept(rest, [e])
  {
    SmallSlot(i, |buckets|, 0);
    SmallSlot(i + 1, |buckets|, 0);
    assert Later([e], e.time) == [] && Due([e], e.time) == [e];
    assert Sweep(rest, i + 2, i + 1, e.time) == Swept(rest, []);
    assert Sweep(buckets, i + 1, i + 1, e.time) == Swept(rest, [e]);
    assert buckets[i := Later(buckets[i], e.time)] == buckets;
  }

  lemma FirstRoundRuns()
    ensures Valid(FirstRound().before) && NextTime(FirstRound().before) == 1 && IsRound(FirstRound())
  {
    hide Union, Sweep, AfterGet, NextTime;
    var c := FirstRound().before;
    var swept := Wheel([], [Tick(3)]);
    OneBucket(c.buckets, 1, Tick(1));
    FirstNext();
    SweepTwo(c.buckets, 0, Tick(1), swept);
    assert FirstNonEmpty(swept, 1, 4) == 2 by {
      assert swept[Slot(1, 4)] == [] && swept[Slot(2, 4)] != [];
    }
    Retrieved(c, 1, swept, [Tick(1)], 2);
    TickScheduled(swept);
  }

  lemma TickScheduled(swept: seq<seq<Event>>)
    requires swept == Wheel([], [Tick(3)])
    ensures ScheduleAll(Calendar(1, swept, 0, 2), [Tick(1)]) == FirstRound().after
  {
    var c := Calendar(1, swept, 0, 2);
    assert [Tick(1)][..0] == [] && ScheduleAll(c, []) == c;
    assert Slot(Quantum(1, 1), 4) == 1 && Insert([], Tick(1)) == [Tick(1)];
    assert swept[1 := [Tick(1)]] == FirstRound().after.buckets;
  }

  lemma FirstNext()
    ensures NextTime(FirstRound().before) == 1
  {
    var c := FirstRound().before;
    assert FirstCurrent(c, 0, 4) == FirstCurrent(c, 1, 4) == Some(1);
  }

  lemma Retrieved(c: Calendar, t: nat, swept: seq<seq<Event>>, events: seq<Event>, x: nat)
    requires c.width == 1 && |c.buckets| == 4 == |swept| && !AllEmpty(swept)
    requires Sweep(c.buckets, c.bucket, Stop(c, t), t) == Swept(swept, events) && FirstNonEmpty(swept, t, 4) == x
    ensures AfterGet(c, t) == Got(Calendar(1, swept, x / 4, x % 4), events)
  {
    hide Sweep, FirstNonEmpty, Stop;
  }

  lemma SecondRoundRuns()
    ensures NextTime(SecondRound().before) == 3 && IsRound(SecondRound())
  {
    hide Union, Sweep, AfterGet, NextTime;
    var c := SecondRound().before;
    var after := SecondRound().after.buckets;
    OneBucket(c.buckets, 1, Tick(1));
    SecondNext();
    SweepTwo(c.buckets, 2, Tick(3), after);
    assert FirstNonEmpty(after, 3, 4) == 5 by {
      assert after[Slot(3, 4)] == [] && after[Slot(4, 4)] == [] && after[Slot(5, 4)] != [];
      assert FirstNonEmpty(after, 4, 3) == 5;
    }
    assert after[1] != [];
    Retrieved(c, 3, after, [Tick(3)], 5);
  }

  lemma SecondNext()
    ensures NextTime(SecondRound().before) == 3
  {
    var c := SecondRound().before;
    assert FirstCurrent(c, 2, 6) == FirstCurrent(c, 3, 6) == Some(3);
  }
}
