/** The activity order, normalized buffers, and buffers as the top of an unbounded history. */
module ActivityOrder {
  import opened Entities

  const ACTIVITY_LIMIT: nat := 10_000

  /** `a` sorts before `b`: newest event first, then newest sighting, then sequenced before unsequenced. */
  predicate Before(a: ActivityItem, b: ActivityItem) {
    if a.eventTimestampMs != b.eventTimestampMs then a.eventTimestampMs > b.eventTimestampMs
    else if a.seenAtMs != b.seenAtMs then a.seenAtMs > b.seenAtMs
    else if a.ingestSeq.Some? != b.ingestSeq.Some? then a.ingestSeq.Some?
    else if a.ingestSeq != b.ingestSeq then a.ingestSeq.value > b.ingestSeq.value
    else a.eventId > b.eventId
  }

  /** The comparison is a strict order, total on items with different identities. */
  lemma BeforeIsTotalOrder(a: ActivityItem, b: ActivityItem, c: ActivityItem)
    ensures !Before(a, a)
    ensures Before(a, b) && Before(b, c) ==> Before(a, c)
    ensures a.eventId != b.eventId ==> Before(a, b) != Before(b, a)
  {
  }

  // ----- normalization

  function Insert(x: ActivityItem, s: seq<ActivityItem>): seq<ActivityItem> {
    if s == [] then [x]
    else if Before(s[0], x) then [s[0]] + Insert(x, s[1..])
    else [x] + s
  }

  /** A stable sort: equal items keep their order. */
  function Sort(s: seq<ActivityItem>): seq<ActivityItem> {
    if s == [] then [] else Insert(s[0], Sort(s[1..]))
  }

  function Ids(s: seq<ActivityItem>): set<EventId> {
    set x | x in s :: x.eventId
  }

  /** Keeps the first item of each identity. */
  function FirstOfEach(s: seq<ActivityItem>): seq<ActivityItem> {
    if s == [] then []
    else
      var init, last := s[..|s| - 1], s[|s| - 1];
      if last.eventId in Ids(init) then FirstOfEach(init) else FirstOfEach(init) + [last]
  }

  function Truncate(s: seq<ActivityItem>, limit: nat): seq<ActivityItem> {
    if |s| <= limit then s else s[..limit]
  }

  function Normalized(s: seq<ActivityItem>): seq<ActivityItem> {
    Truncate(FirstOfEach(Sort(s)), ACTIVITY_LIMIT)
  }

  method SortActivity(s: seq<ActivityItem>) returns (r: seq<ActivityItem>)
    ensures r == Sort(s)
  {
    r := [];
    var i := |s|;
    assert s[|s|..] == [];
    while i > 0
      invariant 0 <= i <= |s| && r == Sort(s[i..])
    {
      i := i - 1;
      assert s[i..][0] == s[i] && s[i..][1..] == s[i + 1..];
      r := Insert(s[i], r);
    }
    assert s[0..] == s;
  }

  /** One more item is kept unless its identity has been seen. */
  lemma FirstsOneMore(s: seq<ActivityItem>, i: nat)
    requires i < |s|
    ensures Ids(s[..i + 1]) == Ids(s[..i]) + {s[i].eventId}
    ensures FirstOfEach(s[..i + 1])
         == FirstOfEach(s[..i]) + if s[i].eventId in Ids(s[..i]) then [] else [s[i]]
  {
    assert s[..i + 1][..i] == s[..i];
    assert s[..i + 1] == s[..i] + [s[i]];
  }

  method NormalizeActivity(s: seq<ActivityItem>) returns (r: seq<ActivityItem>)
    ensures r == Normalized(s)
  {
    var sorted := SortActivity(s);
    r := [];
    var identities: set<EventId> := {};
    for i := 0 to |sorted|
      invariant identities == Ids(sorted[..i]) && r == FirstOfEach(sorted[..i])
    {
      FirstsOneMore(sorted, i);
      if sorted[i].eventId !in identities { r := r + [sorted[i]]; }
      identities := identities + {sorted[i].eventId};
    }
    assert sorted[..|sorted|] == sorted;
    r := Truncate(r, ACTIVITY_LIMIT);
  }

  // ----- sorted buffers

  ghost predicate Sorted(s: seq<ActivityItem>) {
    forall i, j :: 0 <= i < j < |s| ==> Before(s[i], s[j])
  }

  ghost predicate UniqueIds(items: set<ActivityItem>) {
    forall x, y :: x in items && y in items && x.eventId == y.eventId ==> x == y
  }

  ghost predicate DistinctIds(s: seq<ActivityItem>) {
    forall i, j :: 0 <= i < j < |s| ==> s[i].eventId != s[j].eventId
  }

  function Items(s: seq<ActivityItem>): set<ActivityItem> {
    set x | x in s
  }

  /** `top` is the sorted list of the first `limit` items of `all`, or of all of them if they are fewer. */
  ghost predicate IsTop(top: seq<ActivityItem>, all: set<ActivityItem>, limit: nat) {
    && Sorted(top) && |top| <= limit && (forall x :: x in top ==> x in all)
    && forall z :: z in all && z !in top ==> |top| == limit && forall x :: x in top ==> Before(x, z)
  }

  lemma {:induction false} InsertSorts(x: ActivityItem, s: seq<ActivityItem>)
    requires Sorted(s) && x.eventId !in Ids(s)
    ensures Sorted(Insert(x, s)) && |Insert(x, s)| == |s| + 1
    ensures Items(Insert(x, s)) == Items(s) + {x}
  {
    if s != [] && Before(s[0], x) {
      assert s == [s[0]] + s[1..];
      InsertSorts(x, s[1..]);
      var rest := Insert(x, s[1..]);
      forall y | y in rest ensures Before(s[0], y) {
        assert y in Items(rest);
      }
    } else if s != [] {
      BeforeIsTotalOrder(x, s[0], s[0]);
      assert s[0] in s;
    }
  }

  lemma {:induction false} SortSorts(s: seq<ActivityItem>)
    requires DistinctIds(s)
    ensures Sorted(Sort(s)) && |Sort(s)| == |s| && Items(Sort(s)) == Items(s)
  {
    if s != [] {
      SortSorts(s[1..]);
      assert s == [s[0]] + s[1..];
      forall x | x in Sort(s[1..]) ensures x.eventId != s[0].eventId {
        assert x in Items(s[1..]);
      }
      InsertSorts(s[0], Sort(s[1..]));
    }
  }

  lemma {:induction false} NothingToDrop(s: seq<ActivityItem>)
    requires DistinctIds(s)
    ensures FirstOfEach(s) == s
  {
    if s != [] {
      NothingToDrop(s[..|s| - 1]);
    }
  }

  lemma SortedIsDistinct(s: seq<ActivityItem>, all: set<ActivityItem>)
    requires Sorted(s) && UniqueIds(all) && forall x :: x in s ==> x in all
    ensures DistinctIds(s)
  {
    forall i, j | 0 <= i < j < |s| ensures s[i].eventId != s[j].eventId {
      assert Before(s[i], s[j]);
    }
  }

  lemma DistinctIsUnique(s: seq<ActivityItem>)
    requires DistinctIds(s)
    ensures UniqueIds(Items(s))
  {
  }

  /** Normalizing items of distinct identity yields their first ten thousand in order. */
  lemma NormalizedIsTop(s: seq<ActivityItem>)
    requires DistinctIds(s)
    ensures IsTop(Normalized(s), Items(s), ACTIVITY_LIMIT)
  {
    var sorted := Sort(s);
    SortSorts(s);
    DistinctIsUnique(s);
    forall x | x in sorted ensures x in Items(s) { assert x in Items(sorted); }
    SortedIsDistinct(sorted, Items(s));
    NothingToDrop(sorted);
    var top := Truncate(sorted, ACTIVITY_LIMIT);
    forall z | z in Items(s) && z !in top ensures |top| == ACTIVITY_LIMIT && forall x :: x in top ==> Before(x, z) {
      assert z in Items(sorted);
      var j :| 0 <= j < |sorted| && sorted[j] == z;
      assert j >= |top|;
    }
  }

  // ----- normalizing items whose identities may repeat

  ghost predicate Normal(s: seq<ActivityItem>) {
    Sorted(s) && DistinctIds(s) && |s| <= ACTIVITY_LIMIT
  }

  ghost predicate WeaklySorted(s: seq<ActivityItem>) {
    forall i, j :: 0 <= i < j < |s| ==> !Before(s[j], s[i])
  }

  lemma WeakStep(a: ActivityItem, b: ActivityItem, c: ActivityItem)
    requires !Before(b, a) && !Before(c, b)
    ensures !Before(c, a)
  {
  }

  lemma {:induction false} InsertHolds(x: ActivityItem, s: seq<ActivityItem>)
    ensures multiset(Insert(x, s)) == multiset(s) + multiset{x}
  {
    if s != [] {
      assert s == [s[0]] + s[1..];
      if Before(s[0], x) { InsertHolds(x, s[1..]); }
    }
  }

  lemma PrependWeakly(first: ActivityItem, rest: seq<ActivityItem>)
    requires WeaklySorted(rest) && forall y :: y in rest ==> !Before(y, first)
    ensures WeaklySorted([first] + rest)
  {
  }

  lemma {:induction false} InsertSortsWeakly(x: ActivityItem, s: seq<ActivityItem>)
    requires WeaklySorted(s)
    ensures WeaklySorted(Insert(x, s)) && multiset(Insert(x, s)) == multiset(s) + multiset{x}
  {
    InsertHolds(x, s);
    if s != [] {
      if Before(s[0], x) {
        var rest := Insert(x, s[1..]);
        InsertSortsWeakly(x, s[1..]);
        InsertHolds(x, s[1..]);
        forall y | y in rest ensures !Before(y, s[0]) {
          assert y in multiset(rest);
          BeforeIsTotalOrder(s[0], x, s[0]);
        }
        PrependWeakly(s[0], rest);
      } else {
        forall y | y in s ensures !Before(y, x) {
          WeakStep(x, s[0], y);
        }
        PrependWeakly(x, s);
      }
    }
  }

  lemma {:induction false} SortSortsWeakly(s: seq<ActivityItem>)
    ensures WeaklySorted(Sort(s)) && multiset(Sort(s)) == multiset(s)
  {
    if s != [] {
      assert s == [s[0]] + s[1..];
      SortSortsWeakly(s[1..]);
      InsertSortsWeakly(s[0], Sort(s[1..]));
    }
  }

  lemma {:induction false} FirstsAreDistinct(s: seq<ActivityItem>)
    ensures DistinctIds(FirstOfEach(s)) && (forall x :: x in FirstOfEach(s) ==> x in s)
    ensures forall id :: id in Ids(s) ==> id in Ids(FirstOfEach(s))
  {
    if s != [] {
      var init, last := s[..|s| - 1], s[|s| - 1];
      FirstsAreDistinct(init);
      assert s == init + [last];
      var firsts := FirstOfEach(init);
      if last.eventId !in Ids(init) {
        forall i | 0 <= i < |firsts| ensures firsts[i].eventId != last.eventId {
          assert firsts[i] in init;
        }
        assert FirstOfEach(s) == firsts + [last];
        forall id | id in Ids(s) ensures id in Ids(firsts + [last]) {
          if id == last.eventId { assert last in firsts + [last]; }
          else {
            assert id in Ids(firsts);
            var x :| x in firsts && x.eventId == id;
            assert x in firsts + [last];
          }
        }
      }
    }
  }

  /** The last item of a sorted list comes before none of the others. */
  lemma LastIsLast(s: seq<ActivityItem>, x: ActivityItem)
    requires WeaklySorted(s) && s != [] && x in s[..|s| - 1]
    ensures !Before(s[|s| - 1], x)
  {
  }

  lemma {:induction false} FirstsAreSorted(s: seq<ActivityItem>)
    requires WeaklySorted(s)
    ensures Sorted(FirstOfEach(s))
  {
    if s != [] {
      var init, last := s[..|s| - 1], s[|s| - 1];
      FirstsAreSorted(init);
      FirstsAreDistinct(init);
      var firsts := FirstOfEach(init);
      if last.eventId !in Ids(init) {
        forall i | 0 <= i < |firsts| ensures Before(firsts[i], last) {
          assert firsts[i] in firsts;
          LastIsLast(s, firsts[i]);
          assert firsts[i].eventId in Ids(init);
          BeforeIsTotalOrder(firsts[i], last, last);
        }
      }
    }
  }

  /** Of each identity the earliest item in the list survives. */
  lemma {:induction false} FirstsAreFirst(s: seq<ActivityItem>, x: ActivityItem, y: ActivityItem)
    requires WeaklySorted(s) && x in FirstOfEach(s) && y in s && y.eventId == x.eventId
    ensures !Before(y, x)
  {
    var init, last := s[..|s| - 1], s[|s| - 1];
    assert s == init + [last];
    FirstsAreDistinct(init);
    if x in FirstOfEach(init) {
      assert x in init;
      if y in init { FirstsAreFirst(init, x, y); } else { LastIsLast(s, x); }
    } else {
      assert x == last && last.eventId !in Ids(init);
      assert y in init ==> y.eventId in Ids(init);
    }
  }

  /** Any list normalizes to a sorted one without repeated identities, within the limit. */
  lemma NormalizedIsNormal(s: seq<ActivityItem>)
    ensures Normal(Normalized(s))
  {
    SortSortsWeakly(s);
    FirstsAreSorted(Sort(s));
    FirstsAreDistinct(Sort(s));
  }

  /** A normalized item is the first version of its identity among the items given. */
  lemma NormalizedKeepsNewest(s: seq<ActivityItem>, x: ActivityItem, y: ActivityItem)
    requires x in Normalized(s) && y in s && y.eventId == x.eventId
    ensures x in s && !Before(y, x)
  {
    SortSortsWeakly(s);
    FirstsAreDistinct(Sort(s));
    assert x in FirstOfEach(Sort(s));
    assert x in Sort(s);
    assert x in multiset(Sort(s)) && y in multiset(s);
    assert x in multiset(s) && y in multiset(Sort(s));
    FirstsAreFirst(Sort(s), x, y);
  }

  lemma NormalizedHolds(s: seq<ActivityItem>, x: ActivityItem)
    requires x in Normalized(s)
    ensures x in s
  {
    SortSortsWeakly(s);
    FirstsAreDistinct(Sort(s));
    assert x in FirstOfEach(Sort(s));
    assert x in Sort(s);
    assert x in multiset(Sort(s));
    assert x in multiset(s);
  }

  /**
   * Not older: by the event's own time, then by when it was seen, then by sequence, where having one counts as newer.
   */
  ghost predicate NotOlder(a: ActivityItem, b: ActivityItem) {
    || a.eventTimestampMs > b.eventTimestampMs
    || (a.eventTimestampMs == b.eventTimestampMs && a.seenAtMs > b.seenAtMs)
    || (a.eventTimestampMs == b.eventTimestampMs && a.seenAtMs == b.seenAtMs
        && match (a.ingestSeq, b.ingestSeq)
           case (Some(m), Some(n)) => m > n || (m == n && a.eventId >= b.eventId)
           case (Some(_), None) => true
           case (None, Some(_)) => false
           case (None, None) => a.eventId >= b.eventId)
  }

  lemma BeforeIsNotOlder(a: ActivityItem, b: ActivityItem)
    ensures Before(a, b) ==> NotOlder(a, b)
    ensures !Before(b, a) ==> NotOlder(a, b)
  {
  }

  /** The version of the item's identity that the sorted list keeps. */
  lemma KeptVersion(s: seq<ActivityItem>, x: ActivityItem) returns (y: ActivityItem)
    requires x in s
    ensures y in FirstOfEach(Sort(s)) && y.eventId == x.eventId && !Before(x, y)
  {
    SortSortsWeakly(s);
    assert x in multiset(s);
    assert x in Sort(s);
    FirstsAreDistinct(Sort(s));
    assert x.eventId in Ids(Sort(s));
    y :| y in FirstOfEach(Sort(s)) && y.eventId == x.eventId;
    FirstsAreFirst(Sort(s), y, x);
  }

  /**
   * Any list normalizes to its newest events, newest first: what is left out is older than everything in a full list.
   */
  lemma NormalizedIsNewest(s: seq<ActivityItem>, x: ActivityItem)
    requires x in s
    ensures forall i, j :: 0 <= i < j < |Normalized(s)| ==> NotOlder(Normalized(s)[i], Normalized(s)[j])
    ensures x.eventId !in Ids(Normalized(s)) ==>
              |Normalized(s)| == ACTIVITY_LIMIT && forall i :: 0 <= i < ACTIVITY_LIMIT ==> NotOlder(Normalized(s)[i], x)
  {
    var firsts, r := FirstOfEach(Sort(s)), Normalized(s);
    NormalizedIsNormal(s);
    forall i, j | 0 <= i < j < |r| ensures NotOlder(r[i], r[j]) { BeforeIsNotOlder(r[i], r[j]); }
    if x.eventId !in Ids(r) {
      var y := KeptVersion(s, x);
      SortSortsWeakly(s);
      FirstsAreSorted(Sort(s));
      var k :| 0 <= k < |firsts| && firsts[k] == y;
      forall i | 0 <= i < |r| ensures r[i] == firsts[i] && r[i].eventId != x.eventId { assert r[i] in r; }
      assert k >= |r|;
      forall i | 0 <= i < ACTIVITY_LIMIT ensures NotOlder(r[i], x) {
        assert r[i] == firsts[i] && Before(firsts[i], y);
        WeakStep(r[i], y, x);
        BeforeIsNotOlder(r[i], x);
      }
    }
  }

  // ----- uniqueness of the top

  lemma TopHead(top: seq<ActivityItem>, all: set<ActivityItem>, limit: nat, x: ActivityItem)
    requires IsTop(top, all, limit) && UniqueIds(all) && limit > 0 && x in all
    ensures top != [] && (x == top[0] || Before(top[0], x))
  {
    if x in top {
      var j :| 0 <= j < |top| && top[j] == x;
    }
  }

  lemma TopTail(top: seq<ActivityItem>, all: set<ActivityItem>, limit: nat)
    requires IsTop(top, all, limit) && top != []
    ensures IsTop(top[1..], all - {top[0]}, limit - 1)
  {
    assert top == [top[0]] + top[1..];
  }

  lemma {:induction false} ItemsCount(s: seq<ActivityItem>)
    requires DistinctIds(s)
    ensures |Items(s)| == |s|
  {
    if s != [] {
      var init, last := s[..|s| - 1], s[|s| - 1];
      ItemsCount(init);
      assert s == init + [last];
      assert Items(s) == Items(init) + {last};
      assert last !in Items(init);
    }
  }

  /** A history has only one top of a given size. */
  lemma {:induction false} TopIsUnique(a: seq<ActivityItem>, b: seq<ActivityItem>, all: set<ActivityItem>, limit: nat)
    requires IsTop(a, all, limit) && IsTop(b, all, limit) && UniqueIds(all)
    ensures a == b
    decreases limit
  {
    if limit > 0 && all != {} {
      var x :| x in all;
      TopHead(a, all, limit, x);
      TopHead(b, all, limit, x);
      TopHead(a, all, limit, b[0]);
      TopHead(b, all, limit, a[0]);
      BeforeIsTotalOrder(a[0], b[0], a[0]);
      assert a[0] == b[0];
      TopTail(a, all, limit);
      TopTail(b, all, limit);
      TopIsUnique(a[1..], b[1..], all - {a[0]}, limit - 1);
      assert a == [a[0]] + a[1..] && b == [b[0]] + b[1..];
    } else if all == {} {
      SortedIsDistinct(a, all);
      SortedIsDistinct(b, all);
      ItemsCount(a);
      ItemsCount(b);
      assert Items(a) == {} && Items(b) == {};
    }
  }

  // ----- a partial history whose missing items are all beyond the limit

  ghost function Earlier(some: set<ActivityItem>, z: ActivityItem): set<ActivityItem> {
    set y | y in some && Before(y, z)
  }

  /** Every item missing from `some` comes after at least `limit` items that are present. */
  ghost predicate Covers(some: set<ActivityItem>, all: set<ActivityItem>, limit: nat) {
    some <= all && forall z :: z in all && z !in some ==> |Earlier(some, z)| >= limit
  }

  lemma TopCovers(top: seq<ActivityItem>, all: set<ActivityItem>, limit: nat)
    requires IsTop(top, all, limit) && UniqueIds(all)
    ensures Covers(Items(top), all, limit)
  {
    SortedIsDistinct(top, all);
    forall z | z in all && z !in Items(top) ensures |Earlier(Items(top), z)| >= limit {
      assert Earlier(Items(top), z) == Items(top);
      ItemsCount(top);
    }
  }

  lemma SubsetCount<T>(a: set<T>, b: set<T>)
    requires a <= b
    ensures |a| <= |b|
  {
    assert b == a + (b - a);
  }

  /** The top of a covering part is the top of the whole. */
  lemma CoveredTop(top: seq<ActivityItem>, some: set<ActivityItem>, all: set<ActivityItem>, limit: nat)
    requires IsTop(top, some, limit) && Covers(some, all, limit) && UniqueIds(all)
    ensures IsTop(top, all, limit)
  {
    SortedIsDistinct(top, all);
    ItemsCount(top);
    forall z | z in all && z !in top ensures |top| == limit && forall x :: x in top ==> Before(x, z) {
      if z !in some {
        if |top| < limit {
          assert Earlier(some, z) <= Items(top);
          SubsetCount(Earlier(some, z), Items(top));
        }
        forall x | x in top ensures Before(x, z) {
          if !Before(x, z) {
            BeforeIsTotalOrder(x, z, x);
            forall y | y in Earlier(some, z) ensures y in Items(top) - {x} {
              BeforeIsTotalOrder(y, z, x);
              BeforeIsTotalOrder(x, y, x);
            }
            SubsetCount(Earlier(some, z), Items(top) - {x});
          }
        }
      }
    }
  }
}
