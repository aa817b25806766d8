/** Ordering a day's classes by start time.  Both screens sort with the
    comparator `toMinutes(a.startTime) - toMinutes(b.startTime)`, and
    `Array.prototype.sort` is stable (section 23.1.3.30 of ECMA-262, 2023
    edition), so the result is fixed: ascending start minute, records with
    equal start minutes in input order.  `StableSort` is that result, built by
    insertion; `StableSortUnique` shows that any order with those two
    properties is this one. */
module DaySort {
  import opened ClassRecords
  import opened Times
  import opened Sequences

  /** The comparator is defined on the record: its start time is a digit time. */
  predicate Timed(c: ClassDetails)
  {
    c.startTime.Str? && ValidTime(c.startTime.s)
  }

  predicate AllTimed(s: seq<ClassDetails>)
  {
    forall i :: 0 <= i < |s| ==> Timed(s[i])
  }

  /** Minutes since midnight of the record's start time. */
  function StartKey(c: ClassDetails): nat
    requires Timed(c)
  {
    ToMinutes(c.startTime.s)
  }

  /** The comparator handed to `sort`: its sign orders records by start minute. */
  function CompareStart(a: ClassDetails, b: ClassDetails): (r: int)
    requires Timed(a) && Timed(b)
    ensures r < 0 <==> StartKey(a) < StartKey(b)
    ensures r == 0 <==> StartKey(a) == StartKey(b)
    ensures r > 0 <==> StartKey(a) > StartKey(b)
  {
    StartKey(a) - StartKey(b)
  }

  /** Nondecreasing in start minute. */
  predicate SortedByStart(s: seq<ClassDetails>)
    requires AllTimed(s)
  {
    forall i, j :: 0 <= i < j < |s| ==> StartKey(s[i]) <= StartKey(s[j])
  }

  /** Whether a record starts at minute `k`. */
  function StartsAt(k: int): ClassDetails -> bool
  {
    (c: ClassDetails) => Timed(c) && StartKey(c) == k
  }

  /** The records that start at minute `k`, in the order of `s`. */
  function WithStart(s: seq<ClassDetails>, k: int): seq<ClassDetails>
  {
    Filter(s, StartsAt(k))
  }

  /** Inserts `x` before the first record of `s` that the comparator does not put before it. */
  function Insert(x: ClassDetails, s: seq<ClassDetails>): (r: seq<ClassDetails>)
    requires Timed(x) && AllTimed(s)
    ensures AllTimed(r)
    ensures multiset(r) == multiset(s) + multiset{x}
  {
    if s == [] then [x]
    else if CompareStart(x, s[0]) <= 0 then [x] + s
    else
      assert s == [s[0]] + s[1..];
      [s[0]] + Insert(x, s[1..])
  }

  /** The order `sort` leaves the records in. */
  function StableSort(s: seq<ClassDetails>): (r: seq<ClassDetails>)
    requires AllTimed(s)
    ensures AllTimed(r)
    ensures multiset(r) == multiset(s)
  {
    if s == [] then []
    else
      assert s == [s[0]] + s[1..];
      Insert(s[0], StableSort(s[1..]))
  }

  lemma {:induction false} InsertSorted(x: ClassDetails, s: seq<ClassDetails>)
    requires Timed(x) && AllTimed(s) && SortedByStart(s)
    ensures SortedByStart(Insert(x, s))
  {
    if s == [] || StartKey(x) <= StartKey(s[0]) {
      assert Insert(x, s) == [x] + s;
      SortedCons(x, s);
    } else {
      var t := Insert(x, s[1..]);
      assert Insert(x, s) == [s[0]] + t;
      InsertSorted(x, s[1..]);
      forall j | 0 <= j < |t| ensures StartKey(s[0]) <= StartKey(t[j]) {
        assert t[j] in multiset(s[1..]) + multiset{x};
        if t[j] != x {
          assert t[j] in s[1..];
          var k :| 0 <= k < |s[1..]| && s[1..][k] == t[j];
          assert s[k + 1] == t[j];
        }
      }
      SortedCons(s[0], t);
    }
  }

  /** A record no later than every record of a sorted list can go in front of it. */
  lemma SortedCons(h: ClassDetails, t: seq<ClassDetails>)
    requires Timed(h) && AllTimed(t) && SortedByStart(t)
    requires forall j :: 0 <= j < |t| ==> StartKey(h) <= StartKey(t[j])
    ensures AllTimed([h] + t) && SortedByStart([h] + t)
  {
    var r := [h] + t;
    forall i, j | 0 <= i < j < |r| ensures StartKey(r[i]) <= StartKey(r[j]) {
      assert r[j] == t[j - 1];
      if i > 0 { assert r[i] == t[i - 1]; }
    }
  }

  /** The sorted day list is nondecreasing in start minute. */
  lemma {:induction false} StableSortSorted(s: seq<ClassDetails>)
    requires AllTimed(s)
    ensures SortedByStart(StableSort(s))
  {
    if s != [] {
      StableSortSorted(s[1..]);
      InsertSorted(s[0], StableSort(s[1..]));
    }
  }

  /** The records of one start minute, after an insertion: `x` goes in front of its equals. */
  lemma {:induction false} InsertWithStart(x: ClassDetails, s: seq<ClassDetails>, k: int)
    requires Timed(x) && AllTimed(s)
    ensures WithStart(Insert(x, s), k) == WithStart([x], k) + WithStart(s, k)
  {
    if s == [] || StartKey(x) <= StartKey(s[0]) {
      assert Insert(x, s) == [x] + s;
      FilterAppend([x], s, StartsAt(k));
    } else {
      var t := Insert(x, s[1..]);
      assert Insert(x, s) == [s[0]] + t;
      FilterAppend([s[0]], t, StartsAt(k));
      InsertWithStart(x, s[1..], k);
      GroupsSwap(x, s[0], WithStart(s[1..], k), k);
      FilterAppend([s[0]], s[1..], StartsAt(k));
      assert s == [s[0]] + s[1..];
    }
  }

  /** Records with different start minutes never share a group, so their groups commute. */
  lemma GroupsSwap(x: ClassDetails, y: ClassDetails, rest: seq<ClassDetails>, k: int)
    requires Timed(x) && Timed(y) && StartKey(x) != StartKey(y)
    ensures WithStart([y], k) + (WithStart([x], k) + rest) == WithStart([x], k) + (WithStart([y], k) + rest)
  {
    WithStartSingle(x, k);
    WithStartSingle(y, k);
    if StartKey(x) == k {
      assert WithStart([y], k) == [];
    } else {
      assert WithStart([x], k) == [];
    }
  }

  /** A single record forms its own group or none. */
  lemma WithStartSingle(y: ClassDetails, k: int)
    ensures WithStart([y], k) == if Timed(y) && StartKey(y) == k then [y] else []
  {
    assert [y][1..] == [];
  }

  /** Stability: for every start minute, the records starting then keep their input order. */
  lemma {:induction false} StableSortStable(s: seq<ClassDetails>, k: int)
    requires AllTimed(s)
    ensures WithStart(StableSort(s), k) == WithStart(s, k)
  {
    if s != [] {
      StableSortStable(s[1..], k);
      InsertWithStart(s[0], StableSort(s[1..]), k);
      FilterAppend([s[0]], s[1..], StartsAt(k));
      assert s == [s[0]] + s[1..];
    }
  }

  lemma WithStartMember(s: seq<ClassDetails>, k: int, x: ClassDetails)
    requires x in WithStart(s, k)
    ensures x in s && Timed(x) && StartKey(x) == k
  {
    FilterCount(s, StartsAt(k), x);
    assert x in multiset(WithStart(s, k));
  }

  /** The records starting at the first record's minute begin with that record. */
  lemma WithStartHead(s: seq<ClassDetails>)
    requires AllTimed(s) && s != []
    ensures WithStart(s, StartKey(s[0])) == [s[0]] + WithStart(s[1..], StartKey(s[0]))
  {
  }

  /** Removing equal heads keeps the groups equal. */
  lemma TailGroupsEqual(r: seq<ClassDetails>, q: seq<ClassDetails>, k: int)
    requires r != [] && q != [] && r[0] == q[0]
    requires WithStart(r, k) == WithStart(q, k)
    ensures WithStart(r[1..], k) == WithStart(q[1..], k)
  {
    FilterAppend([r[0]], r[1..], StartsAt(k));
    FilterAppend([q[0]], q[1..], StartsAt(k));
    assert r == [r[0]] + r[1..] && q == [q[0]] + q[1..];
    var head := WithStart([r[0]], k);
    assert WithStart(r[1..], k) == WithStart(r, k)[|head|..];
    assert WithStart(q[1..], k) == WithStart(q, k)[|head|..];
  }

  /** In sorted orders with equal groups, the first records are the same. */
  lemma SortedSameGroupsHead(r: seq<ClassDetails>, q: seq<ClassDetails>)
    requires AllTimed(r) && AllTimed(q) && SortedByStart(r) && SortedByStart(q)
    requires r != [] && q != []
    requires forall k :: WithStart(r, k) == WithStart(q, k)
    ensures r[0] == q[0]
  {
    var kr, kq := StartKey(r[0]), StartKey(q[0]);
    WithStartHead(r);
    WithStartHead(q);
    // The head of each lies in the other, so neither head starts earlier than the other.
    assert r[0] in WithStart(q, kr);
    WithStartMember(q, kr, r[0]);
    var i :| 0 <= i < |q| && q[i] == r[0];
    assert kq <= kr;
    assert q[0] in WithStart(r, kq);
    WithStartMember(r, kq, q[0]);
    var j :| 0 <= j < |r| && r[j] == q[0];
    assert kr <= kq;
    assert WithStart(r, kr) == WithStart(q, kq);
    assert WithStart(r, kr)[0] == r[0] && WithStart(q, kq)[0] == q[0];
  }

  /** Two sorted orders with the same records at every start minute, in the same order, are equal. */
  lemma {:induction false} SortedSameGroupsEqual(r: seq<ClassDetails>, q: seq<ClassDetails>)
    requires AllTimed(r) && AllTimed(q) && SortedByStart(r) && SortedByStart(q)
    requires forall k :: WithStart(r, k) == WithStart(q, k)
    ensures r == q
    decreases |r| + |q|
  {
    if r == [] && q != [] {
      WithStartHead(q);
      assert false;
    } else if r != [] && q == [] {
      WithStartHead(r);
      assert false;
    } else if r != [] {
      SortedSameGroupsHead(r, q);
      forall k ensures WithStart(r[1..], k) == WithStart(q[1..], k) {
        TailGroupsEqual(r, q, k);
      }
      SortedSameGroupsEqual(r[1..], q[1..]);
      assert r == [r[0]] + r[1..] && q == [q[0]] + q[1..];
    }
  }

  /** Stability for every start minute at once. */
  lemma StableSortStableAll(s: seq<ClassDetails>)
    requires AllTimed(s)
    ensures forall k :: WithStart(StableSort(s), k) == WithStart(s, k)
  {
    forall k ensures WithStart(StableSort(s), k) == WithStart(s, k) {
      StableSortStable(s, k);
    }
  }

  /** The sort's result is determined by its two promises: sorted, and stable within each start minute. */
  lemma StableSortUnique(s: seq<ClassDetails>, r: seq<ClassDetails>)
    requires AllTimed(s) && AllTimed(r) && SortedByStart(r)
    requires forall k :: WithStart(r, k) == WithStart(s, k)
    ensures r == StableSort(s)
  {
    StableSortSorted(s);
    forall k ensures WithStart(r, k) == WithStart(StableSort(s), k) {
      StableSortStable(s, k);
    }
    SortedSameGroupsEqual(r, StableSort(s));
  }

  /** `sort` on an array: reorders it in place into the stable start-time order. */
  method SortInPlace(a: array<ClassDetails>)
    requires AllTimed(a[..])
    modifies a
    ensures a[..] == StableSort(old(a[..]))
  {
    var sorted := StableSort(a[..]);
    assert |sorted| == a.Length by {
      assert |multiset(sorted)| == |multiset(a[..])|;
    }
    forall i | 0 <= i < a.Length {
      a[i] := sorted[i];
    }
    assert a[..] == sorted;
  }

  /** A fresh array holding `s`, as `filter` returns one. */
  method NewArray(s: seq<ClassDetails>) returns (a: array<ClassDetails>)
    ensures fresh(a) && a[..] == s
  {
    a := new ClassDetails[|s|](i requires 0 <= i < |s| => s[i]);
  }
}
