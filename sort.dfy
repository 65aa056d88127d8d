/** `bookings.sort(key=lambda b: b.startTime)`: a stable in-place sort of the
    booking list by its start-time string, compared by code point. */
module StartSort {
  import opened Strings
  import opened Calcom

  predicate Before(a: Booking, b: Booking) { LexLe(a.startTime, b.startTime) }

  /** Every booking starts no later than the next one. */
  predicate Sorted(s: seq<Booking>)
  {
    forall i :: 0 < i < |s| ==> Before(s[i - 1], s[i])
  }

  /** `x` placed after every booking of `s` that does not start later than it. */
  function Insert(x: Booking, s: seq<Booking>): (r: seq<Booking>)
    ensures |r| == |s| + 1
  {
    if s == [] || Before(s[|s| - 1], x) then s + [x]
    else Insert(x, s[..|s| - 1]) + [s[|s| - 1]]
  }

  /** The order the stable sort produces. */
  function SortByStart(s: seq<Booking>): (r: seq<Booking>)
    ensures |r| == |s|
  {
    if s == [] then [] else Insert(s[|s| - 1], SortByStart(s[..|s| - 1]))
  }

  /** The bookings of `s` that start at `t`, in their order in `s`. */
  function StartingAt(s: seq<Booking>, t: string): seq<Booking>
  {
    if s == [] then []
    else StartingAt(s[..|s| - 1], t) + (if s[|s| - 1].startTime == t then [s[|s| - 1]] else [])
  }

  /** Insertion places `x` after every booking with the same start. */
  lemma {:induction false} InsertStable(x: Booking, s: seq<Booking>, t: string)
    ensures StartingAt(Insert(x, s), t) == StartingAt(s, t) + (if x.startTime == t then [x] else [])
  {
    if s == [] || Before(s[|s| - 1], x) {
      var r := s + [x];
      assert r[..|r| - 1] == s;
    } else {
      var init := s[..|s| - 1];
      var last := s[|s| - 1];
      InsertStable(x, init, t);
      var r := Insert(x, init) + [last];
      assert r[..|r| - 1] == Insert(x, init);
      LexLeReflexive(x.startTime);
      assert last.startTime != x.startTime;
    }
  }

  /** The sort is stable: bookings with equal starts keep their relative order. */
  lemma {:induction false} SortByStartStable(s: seq<Booking>, t: string)
    ensures StartingAt(SortByStart(s), t) == StartingAt(s, t)
  {
    if s != [] {
      var init := s[..|s| - 1];
      SortByStartStable(init, t);
      InsertStable(s[|s| - 1], SortByStart(init), t);
    }
  }

  /** Insertion into a sorted list keeps it sorted. */
  lemma {:induction false} InsertSorted(x: Booking, s: seq<Booking>)
    requires Sorted(s)
    ensures Sorted(Insert(x, s))
    ensures |s| > 0 ==> Insert(x, s)[|s|] == x || Insert(x, s)[|s|] == s[|s| - 1]
  {
    if s != [] && !Before(s[|s| - 1], x) {
      var init := s[..|s| - 1];
      var last := s[|s| - 1];
      InsertSorted(x, init);
      LexLeTotal(x.startTime, last.startTime);
      var r := Insert(x, init);
      assert Insert(x, s) == r + [last];
      if init != [] {
        assert Before(init[|init| - 1], last);
      }
      assert Before(r[|r| - 1], last);
    }
  }

  /** Insertion adds exactly the inserted booking. */
  lemma {:induction false} InsertPermutes(x: Booking, s: seq<Booking>)
    ensures multiset(Insert(x, s)) == multiset(s) + multiset{x}
  {
    if s != [] && !Before(s[|s| - 1], x) {
      var init := s[..|s| - 1];
      InsertPermutes(x, init);
      assert s == init + [s[|s| - 1]];
    }
  }

  /** The sort's result is in start-time order ... */
  lemma {:induction false} SortByStartSorted(s: seq<Booking>)
    ensures Sorted(SortByStart(s))
  {
    if s != [] {
      SortByStartSorted(s[..|s| - 1]);
      InsertSorted(s[|s| - 1], SortByStart(s[..|s| - 1]));
    }
  }

  /** ... and holds the same bookings, each as often as before. */
  lemma {:induction false} SortByStartPermutes(s: seq<Booking>)
    ensures multiset(SortByStart(s)) == multiset(s)
  {
    if s != [] {
      SortByStartPermutes(s[..|s| - 1]);
      InsertPermutes(s[|s| - 1], SortByStart(s[..|s| - 1]));
      assert s == s[..|s| - 1] + [s[|s| - 1]];
    }
  }

  /** Where a booking ends up in the sorted list. */
  lemma SortedPosition(s: seq<Booking>, k: nat) returns (j: nat)
    requires k < |s|
    ensures j < |SortByStart(s)| && SortByStart(s)[j] == s[k]
  {
    SortByStartPermutes(s);
    assert s[k] in multiset(s);
    assert s[k] in SortByStart(s);
    j :| 0 <= j < |SortByStart(s)| && SortByStart(s)[j] == s[k];
  }

  /** A list already in order is left as it is. */
  lemma {:induction false} SortedUnchanged(s: seq<Booking>)
    requires Sorted(s)
    ensures SortByStart(s) == s
  {
    if s != [] {
      var init := s[..|s| - 1];
      var last := s[|s| - 1];
      assert Sorted(init) by {
        forall i | 0 < i < |init| ensures Before(init[i - 1], init[i]) {
          assert init[i - 1] == s[i - 1] && init[i] == s[i];
        }
      }
      SortedUnchanged(init);
      if init != [] {
        assert Before(init[|init| - 1], last);
      }
      assert Insert(last, init) == init + [last];
      assert s == init + [last];
    }
  }

  /** `x` is inserted before a tail of bookings that all start later than it. */
  lemma {:induction false} InsertPast(x: Booking, s: seq<Booking>, j: nat)
    requires j <= |s| && forall k :: j <= k < |s| ==> !Before(s[k], x)
    ensures Insert(x, s) == Insert(x, s[..j]) + s[j..]
    decreases |s| - j
  {
    if j < |s| {
      var init := s[..|s| - 1];
      assert init[..j] == s[..j];
      InsertPast(x, init, j);
      assert s[j..] == init[j..] + [s[|s| - 1]];
    } else {
      assert s[..j] == s;
    }
  }

  /** The in-place sort: each booking in turn is shifted left past the
      bookings that start later than it. */
  method SortBookings(a: array<Booking>)
    modifies a
    ensures a[..] == SortByStart(old(a[..]))
  {
    ghost var orig := a[..];
    var i := 0;
    while i < a.Length
      invariant 0 <= i <= a.Length
      invariant a[..i] == SortByStart(orig[..i])
      invariant a[i..] == orig[i..]
    {
      ShiftIn(a, i);
      assert orig[..i + 1][..i] == orig[..i];
      i := i + 1;
    }
    assert orig[..a.Length] == orig;
  }

  /** One step of the sort: `a[i]` moves into the sorted prefix `a[..i]`. */
  method ShiftIn(a: array<Booking>, i: nat)
    requires i < a.Length
    modifies a
    ensures a[..i + 1] == Insert(old(a[i]), old(a[..i]))
    ensures a[i + 1..] == old(a[i + 1..])
  {
    var x := a[i];
    ghost var s := a[..i];
    ghost var rest := a[i + 1..];
    var j := ShiftRight(a, i, x);
    a[j] := x;
    Placed(x, s, j, a[..i + 1]);
    assert a[i + 1..] == rest by {
      forall k | 0 <= k < |rest| ensures a[i + 1..][k] == rest[k] {
        assert a[i + 1..][k] == a[i + 1 + k];
      }
    }
  }

  /** `x` placed at `j`, with the bookings before `j` in place and those after
      it shifted right, is the insertion of `x`. */
  lemma Placed(x: Booking, s: seq<Booking>, j: nat, r: seq<Booking>)
    requires j <= |s| && (j == 0 || Before(s[j - 1], x))
    requires forall k :: j <= k < |s| ==> !Before(s[k], x)
    requires |r| == |s| + 1 && r[j] == x
    requires forall k :: 0 <= k < j ==> r[k] == s[k]
    requires forall k :: j < k <= |s| ==> r[k] == s[k - 1]
    ensures r == Insert(x, s)
  {
    InsertPast(x, s, j);
    InsertStops(x, s, j);
    assert r == s[..j] + [x] + s[j..];
  }

  /** The bookings of `a[..i]` that start later than `x` move one place
      right; `j` is the gap left for `x`. */
  method ShiftRight(a: array<Booking>, i: nat, x: Booking) returns (j: nat)
    requires i < a.Length
    modifies a
    ensures j <= i && (j == 0 || Before(old(a[j - 1]), x))
    ensures forall k :: 0 <= k < j ==> a[k] == old(a[k])
    ensures forall k :: j < k <= i ==> a[k] == old(a[k - 1])
    ensures forall k :: i < k < a.Length ==> a[k] == old(a[k])
    ensures forall k :: j <= k < i ==> !Before(old(a[k]), x)
  {
    j := i;
    while j > 0 && !Before(a[j - 1], x)
      invariant 0 <= j <= i
      invariant forall k :: 0 <= k < j ==> a[k] == old(a[k])
      invariant forall k :: j < k <= i ==> a[k] == old(a[k - 1])
      invariant forall k :: i < k < a.Length ==> a[k] == old(a[k])
      invariant forall k :: j <= k < i ==> !Before(old(a[k]), x)
    {
      a[j] := a[j - 1];
      j := j - 1;
    }
  }

  /** Insertion stops at a point where the booking before starts no later. */
  lemma InsertStops(x: Booking, s: seq<Booking>, j: nat)
    requires j <= |s| && (j == 0 || Before(s[j - 1], x))
    ensures Insert(x, s[..j]) == s[..j] + [x]
  {
    if j > 0 {
      assert s[..j][j - 1] == s[j - 1];
    }
  }
}
