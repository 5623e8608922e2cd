/** Canonical department lists: sorted, without duplicates. */
module SortedIds {
  import opened Base

  predicate StrictlyIncreasing(s: seq<int>) {
    forall i, j | 0 <= i < j < |s| :: s[i] < s[j]
  }

  predicate NonDecreasing(s: seq<int>) {
    forall i | 0 < i < |s| :: s[i - 1] <= s[i]
  }

  function Elements(s: seq<int>): set<int> { set x | x in s }

  predicate AllPositive(s: seq<int>) { forall x | x in s :: x > 0 }

  function InsertUnique(x: int, s: seq<int>): seq<int> {
    if s == [] then [x]
    else if x < s[0] then [x] + s
    else if x == s[0] then s
    else [s[0]] + InsertUnique(x, s[1..])
  }

  /** The canonical form of a department list. */
  function SortedUnique(ids: seq<int>): seq<int> {
    if ids == [] then [] else InsertUnique(ids[0], SortedUnique(ids[1..]))
  }

  lemma PrependSmaller(x: int, s: seq<int>)
    requires StrictlyIncreasing(s) && forall y | y in s :: x < y
    ensures StrictlyIncreasing([x] + s)
  {
    assert forall i | 0 <= i < |s| :: s[i] in s;
  }

  lemma {:induction false} InsertUniqueKeepsOrder(x: int, s: seq<int>)
    requires StrictlyIncreasing(s)
    ensures StrictlyIncreasing(InsertUnique(x, s))
    ensures forall y :: y in InsertUnique(x, s) <==> y == x || y in s
    ensures |InsertUnique(x, s)| <= |s| + 1
  {
    if s != [] {
      assert s == [s[0]] + s[1..];
      if x > s[0] {
        InsertUniqueKeepsOrder(x, s[1..]);
        var rest := InsertUnique(x, s[1..]);
        assert InsertUnique(x, s) == [s[0]] + rest;
        PrependSmaller(s[0], rest);
      }
    }
  }

  /** The canonical form is strictly increasing, has the members of the list and is no longer than it. */
  lemma {:induction false} SortedUniqueIsCanonical(ids: seq<int>)
    ensures StrictlyIncreasing(SortedUnique(ids))
    ensures forall x :: x in SortedUnique(ids) <==> x in ids
    ensures SortedUnique(ids) == [] <==> ids == []
    ensures |SortedUnique(ids)| <= |ids|
  {
    if ids != [] {
      assert ids == [ids[0]] + ids[1..];
      SortedUniqueIsCanonical(ids[1..]);
      InsertUniqueKeepsOrder(ids[0], SortedUnique(ids[1..]));
      assert ids[0] in SortedUnique(ids);
    }
  }

  lemma SameElementsSameEmptiness<T>(a: seq<T>, b: seq<T>)
    requires forall x :: x in a <==> x in b
    ensures a == [] <==> b == []
  {
    if a != [] { assert a[0] in b; }
    if b != [] { assert b[0] in a; }
  }

  /** Two canonical lists over the same departments are the same list. */
  lemma {:induction false} CanonicalListsAreUnique(a: seq<int>, b: seq<int>)
    requires StrictlyIncreasing(a) && StrictlyIncreasing(b)
    requires forall x :: x in a <==> x in b
    ensures a == b
  {
    SameElementsSameEmptiness(a, b);
    if a != [] {
      assert a[0] in b && b[0] in a;
      forall x ensures x in a[1..] <==> x in b[1..] {
        if x in a[1..] { assert x in a && x > a[0]; assert x in b; }
        if x in b[1..] { assert x in b && x > b[0]; assert x in a; }
      }
      CanonicalListsAreUnique(a[1..], b[1..]);
      assert a == [a[0]] + a[1..] && b == [b[0]] + b[1..];
    }
  }

  /** Order and repetition never matter: the canonical form depends on the set of departments and nothing else. */
  lemma CanonicalFormIsTheSet(a: seq<int>, b: seq<int>)
    ensures SortedUnique(a) == SortedUnique(b) <==> Elements(a) == Elements(b)
  {
    var ca, cb := SortedUnique(a), SortedUnique(b);
    SortedUniqueIsCanonical(a);
    SortedUniqueIsCanonical(b);
    if Elements(a) == Elements(b) {
      forall x ensures x in ca <==> x in cb {
        assert x in ca <==> x in Elements(a);
        assert x in cb <==> x in Elements(b);
      }
      CanonicalListsAreUnique(ca, cb);
    }
    if ca == cb {
      forall x ensures x in Elements(a) <==> x in Elements(b) {
        assert x in ca <==> x in a;
      }
      assert Elements(a) == Elements(b);
    }
  }

  lemma CanonicalFormIsIdempotent(ids: seq<int>)
    ensures SortedUnique(SortedUnique(ids)) == SortedUnique(ids)
  {
    SortedUniqueIsCanonical(ids);
    SortedUniqueIsCanonical(SortedUnique(ids));
    CanonicalListsAreUnique(SortedUnique(SortedUnique(ids)), SortedUnique(ids));
  }

  // ---- the in-place compaction ------------------------------------------

  function Insert(x: int, s: seq<int>): (r: seq<int>)
    requires NonDecreasing(s)
    ensures NonDecreasing(r) && |r| == |s| + 1
    ensures r[0] == x || (s != [] && r[0] == s[0])
    ensures multiset(r) == multiset{x} + multiset(s)
  {
    if s == [] then [x]
    else if x <= s[0] then [x] + s
    else
      assert s == [s[0]] + s[1..];
      [s[0]] + Insert(x, s[1..])
  }

  /** What `sort.Slice` leaves behind. */
  function Sorted(ids: seq<int>): (r: seq<int>)
    ensures NonDecreasing(r) && |r| == |ids|
    ensures multiset(r) == multiset(ids)
  {
    if ids == [] then []
    else
      assert ids == [ids[0]] + ids[1..];
      Insert(ids[0], Sorted(ids[1..]))
  }

  /** Drop every element equal to the last one kept. */
  function Compact(s: seq<int>): (r: seq<int>)
    requires NonDecreasing(s)
    ensures StrictlyIncreasing(r) && |r| <= |s|
    ensures forall x :: x in r <==> x in s
    ensures s != [] ==> r != [] && r[|r| - 1] == s[|s| - 1]
  {
    if s == [] then []
    else
      var init, last := s[..|s| - 1], s[|s| - 1];
      var r := Compact(init);
      assert s == init + [last];
      if r != [] && r[|r| - 1] == last then r else r + [last]
  }

  lemma CompactSortedIsSortedUnique(values: seq<int>)
    ensures Compact(Sorted(values)) == SortedUnique(values)
  {
    var sorted := Sorted(values);
    SortedUniqueIsCanonical(values);
    forall x ensures x in Compact(sorted) <==> x in SortedUnique(values) {
      assert x in sorted <==> x in multiset(sorted);
      assert x in values <==> x in multiset(values);
    }
    CanonicalListsAreUnique(Compact(sorted), SortedUnique(values));
  }

  /** `sortedUniqueInt64s`: sort a copy, then compact it in place behind a write index. */
  method SortedUniqueInt64s(values: seq<int>) returns (result: seq<int>)
    ensures result == SortedUnique(values)
  {
    var sorted := Sorted(values);
    var a := new int[|sorted|];
    for i := 0 to |sorted|
      invariant a[..i] == sorted[..i]
    {
      a[i] := sorted[i];
    }
    assert a[..] == sorted;
    var write := CompactInPlace(a);
    CompactSortedIsSortedUnique(values);
    result := a[..write];
  }

  method CompactInPlace(a: array<int>) returns (write: nat)
    requires NonDecreasing(a[..])
    modifies a
    ensures write <= a.Length
    ensures a[..write] == Compact(old(a[..]))
  {
    ghost var sorted := a[..];
    write := 0;
    var read := 0;
    while read < a.Length
      invariant 0 <= write <= read <= a.Length
      invariant forall i | read <= i < a.Length :: a[i] == sorted[i]
      invariant a[..write] == Compact(sorted[..read])
    {
      CompactStep(sorted, read);
      write := CompactOne(a, write, read);
      read := read + 1;
    }
    assert sorted[..read] == sorted;
  }

  /** One turn of the compaction loop. */
  method CompactOne(a: array<int>, write: nat, read: nat) returns (next: nat)
    requires write <= read < a.Length
    modifies a
    ensures write <= next <= read + 1
    ensures forall i | read < i < a.Length :: a[i] == old(a[i])
    ensures a[..next] == old(if write > 0 && a[write - 1] == a[read] then a[..write] else a[..write] + [a[read]])
  {
    if write > 0 && a[write - 1] == a[read] { return write; }
    a[write] := a[read];
    next := write + 1;
  }

  lemma CompactStep(s: seq<int>, n: nat)
    requires NonDecreasing(s) && n < |s|
    ensures NonDecreasing(s[..n]) && NonDecreasing(s[..n + 1])
    ensures var r := Compact(s[..n]);
            Compact(s[..n + 1]) == if r != [] && r[|r| - 1] == s[n] then r else r + [s[n]]
  {
    assert s[..n + 1][..n] == s[..n];
  }

  /** `normalizeBusinessKeyDeptIDs`: collect the ids in a set, rejecting the first that is not positive, and sort the set. */
  method NormalizeBusinessKeyDeptIDs(ids: seq<int>) returns (result: Option<seq<int>>)
    ensures result == if AllPositive(ids) then Some(SortedUnique(ids)) else None
  {
    var unique: set<int> := {};
    for i := 0 to |ids|
      invariant AllPositive(ids[..i])
      invariant unique == Elements(ids[..i])
    {
      if ids[i] <= 0 {
        assert ids[i] in ids;
        return None;
      }
      assert ids[..i + 1] == ids[..i] + [ids[i]];
      unique := unique + {ids[i]};
    }
    assert ids[..|ids|] == ids;
    var collected := Listing(unique);
    var sorted := SortedUnique(collected);
    SortedUniqueIsCanonical(collected);
    SortedUniqueIsCanonical(ids);
    CanonicalListsAreUnique(sorted, SortedUnique(ids));
    result := Some(sorted);
  }

  /** The keys of a set in the order the runtime happens to yield them. */
  method Listing<T(==)>(keys: set<T>) returns (listed: seq<T>)
    ensures forall x :: x in keys <==> x in listed
  {
    var rest := keys;
    listed := [];
    while rest != {}
      invariant rest <= keys
      invariant forall x :: x in keys <==> x in rest || x in listed
    {
      SomeElement(rest);
      var x :| x in rest;
      rest := rest - {x};
      listed := listed + [x];
    }
  }
}
