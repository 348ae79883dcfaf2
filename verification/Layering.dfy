/** Ordering layers by key: a stable sort, and that stability and order determine its result. */
module Layering {
  import opened Prelude

  /** Layers are ordered by rank and then by identifier, byte by byte. */
  datatype Key = Key(rank: nat, id: Bytes)

  predicate BytesBelow(a: Bytes, b: Bytes) {
    b != [] && (a == [] || a[0] < b[0] || (a[0] == b[0] && BytesBelow(a[1..], b[1..])))
  }

  predicate Below(a: Key, b: Key) { a.rank < b.rank || (a.rank == b.rank && BytesBelow(a.id, b.id)) }

  lemma {:induction false} BytesTotal(a: Bytes, b: Bytes)
    ensures a == b || BytesBelow(a, b) || BytesBelow(b, a)
    ensures !(BytesBelow(a, b) && BytesBelow(b, a)) && !BytesBelow(a, a)
  {
    if a != [] {
      BytesTotal(a[1..], a[1..]);
      if b != [] && a[0] == b[0] {
        BytesTotal(a[1..], b[1..]);
        HeadTail(a);
        HeadTail(b);
      }
    }
  }

  lemma {:induction false} BytesTransitive(a: Bytes, b: Bytes, c: Bytes)
    requires BytesBelow(a, b) && BytesBelow(b, c)
    ensures BytesBelow(a, c)
  {
    if a != [] && a[0] == b[0] == c[0] {
      BytesTransitive(a[1..], b[1..], c[1..]);
    }
  }

  lemma Total(a: Key, b: Key)
    ensures a == b || Below(a, b) || Below(b, a)
    ensures !(Below(a, b) && Below(b, a)) && !Below(a, a)
  {
    BytesTotal(a.id, b.id);
  }

  lemma Transitive(a: Key, b: Key, c: Key)
    requires Below(a, b) && Below(b, c)
    ensures Below(a, c)
  {
    if a.rank == b.rank == c.rank { BytesTransitive(a.id, b.id, c.id); }
  }

  lemma NotBelow(a: Key, b: Key, c: Key)
    requires !Below(a, c) && !Below(c, b)
    ensures !Below(a, b)
  {
    Total(b, c);
    if Below(a, b) && Below(b, c) { Transitive(a, b, c); }
  }

  // ---------------------------------------------------------------- sorting

  /** Places `x` behind everything that is not above it. */
  function Insert<T>(key: T -> Key, x: T, s: seq<T>): seq<T> {
    if s == [] then [x]
    else if Below(key(x), key(s[|s| - 1])) then Insert(key, x, s[..|s| - 1]) + [s[|s| - 1]]
    else s + [x]
  }

  function Sort<T>(key: T -> Key, s: seq<T>): seq<T> {
    if s == [] then [] else Insert(key, s[|s| - 1], Sort(key, s[..|s| - 1]))
  }

  /** Every element is at or above all earlier ones. */
  predicate Sorted<T>(key: T -> Key, s: seq<T>) {
    s == [] || (Sorted(key, s[1..]) && forall i :: 1 <= i < |s| ==> !Below(key(s[i]), key(s[0])))
  }

  /** The elements with key `k`, in order. */
  function WithKey<T>(key: T -> Key, s: seq<T>, k: Key): seq<T> {
    if s == [] then [] else (if key(s[0]) == k then [s[0]] else []) + WithKey(key, s[1..], k)
  }

  lemma {:induction false} WithKeyAppend<T>(key: T -> Key, a: seq<T>, b: seq<T>, k: Key)
    ensures WithKey(key, a + b, k) == WithKey(key, a, k) + WithKey(key, b, k)
  {
    if a == [] {
      EmptySides(b);
      EmptySides(WithKey(key, b, k));
    } else {
      RegroupHead(a, b);
      WithKeyAppend(key, a[1..], b, k);
      Regroup(if key(a[0]) == k then [a[0]] else [], WithKey(key, a[1..], k), WithKey(key, b, k));
    }
  }

  lemma OneWithKey<T>(key: T -> Key, x: T, k: Key)
    ensures WithKey(key, [x], k) == if key(x) == k then [x] else []
  {
    EmptySides([x]);
  }

  lemma {:induction false} SortedAppend<T>(key: T -> Key, s: seq<T>, x: T)
    requires Sorted(key, s) && forall i :: 0 <= i < |s| ==> !Below(key(x), key(s[i]))
    ensures Sorted(key, s + [x])
  {
    if s != [] {
      RegroupHead(s, [x]);
      SortedAppend(key, s[1..], x);
    }
  }

  lemma {:induction false} SortedInit<T>(key: T -> Key, s: seq<T>)
    requires s != [] && Sorted(key, s)
    ensures Sorted(key, s[..|s| - 1])
    ensures forall i :: 0 <= i < |s| - 1 ==> !Below(key(s[|s| - 1]), key(s[i]))
  {
    if |s| > 1 {
      SortedInit(key, s[1..]);
      var init := s[..|s| - 1];
      assert init[1..] == s[1..][..|s| - 2];
      assert s[1..][|s| - 2] == s[|s| - 1];
      forall i | 0 <= i < |s| - 1 ensures !Below(key(s[|s| - 1]), key(s[i])) {
        if i > 0 { assert s[i] == s[1..][i - 1]; }
      }
    }
  }

  lemma {:induction false} InsertKeeps<T(!new)>(key: T -> Key, x: T, s: seq<T>)
    ensures multiset(Insert(key, x, s)) == multiset(s) + multiset{x}
    ensures forall y :: y in Insert(key, x, s) <==> y in s || y == x
  {
    if s != [] && Below(key(x), key(s[|s| - 1])) {
      InsertKeeps(key, x, s[..|s| - 1]);
      SplitLast(s);
    }
    forall y ensures y in Insert(key, x, s) <==> y in s || y == x {
      assert y in Insert(key, x, s) <==> y in multiset(Insert(key, x, s));
      assert y in s <==> y in multiset(s);
    }
  }

  lemma {:induction false} InsertSorted<T(!new)>(key: T -> Key, x: T, s: seq<T>)
    requires Sorted(key, s)
    ensures Sorted(key, Insert(key, x, s))
  {
    if s == [] {
      assert [x][1..] == [];
    } else {
      var init, last := s[..|s| - 1], s[|s| - 1];
      SortedInit(key, s);
      if Below(key(x), key(last)) {
        InsertSorted(key, x, init);
        LastStaysLast(key, x, init, last);
        SortedAppend(key, Insert(key, x, init), last);
      } else {
        forall i | 0 <= i < |s| ensures !Below(key(x), key(s[i])) {
          Total(key(last), key(last));
          NotBelow(key(x), key(s[i]), key(last));
        }
        SortedAppend(key, s, x);
      }
    }
  }

  lemma LastStaysLast<T(!new)>(key: T -> Key, x: T, init: seq<T>, last: T)
    requires Below(key(x), key(last)) && forall i :: 0 <= i < |init| ==> !Below(key(last), key(init[i]))
    ensures forall i :: 0 <= i < |Insert(key, x, init)| ==> !Below(key(last), key(Insert(key, x, init)[i]))
  {
    InsertKeeps(key, x, init);
    Total(key(x), key(last));
    var r := Insert(key, x, init);
    forall i | 0 <= i < |r| ensures !Below(key(last), key(r[i])) {
      assert r[i] in r;
    }
  }

  lemma {:induction false} InsertStable<T>(key: T -> Key, x: T, s: seq<T>, k: Key)
    ensures WithKey(key, Insert(key, x, s), k) == WithKey(key, s, k) + if key(x) == k then [x] else []
  {
    OneWithKey(key, x, k);
    if s != [] && Below(key(x), key(s[|s| - 1])) {
      var init, last := s[..|s| - 1], s[|s| - 1];
      InsertStable(key, x, init, k);
      SplitLast(s);
      Total(key(x), key(last));
      OneWithKey(key, last, k);
      WithKeyAppend(key, init, [last], k);
      WithKeyAppend(key, Insert(key, x, init), [last], k);
      EmptySides(WithKey(key, init, k));
      EmptySides(WithKey(key, init, k) + if key(x) == k then [x] else []);
    } else {
      WithKeyAppend(key, s, [x], k);
      EmptySides(WithKey(key, s, k));
    }
  }

  /** Sorting orders the elements, keeps each of them, and keeps the order of elements with the same key. */
  lemma {:induction false} SortWorks<T(!new)>(key: T -> Key, s: seq<T>, k: Key)
    ensures Sorted(key, Sort(key, s)) && multiset(Sort(key, s)) == multiset(s)
    ensures WithKey(key, Sort(key, s), k) == WithKey(key, s, k)
  {
    if s != [] {
      var init, last := s[..|s| - 1], s[|s| - 1];
      SortWorks(key, init, k);
      SplitLast(s);
      InsertKeeps(key, last, Sort(key, init));
      InsertSorted(key, last, Sort(key, init));
      InsertStable(key, last, Sort(key, init), k);
      WithKeyAppend(key, init, [last], k);
      OneWithKey(key, last, k);
    }
  }

  // ---------------------------------------------------------------- order and stability leave no choice

  ghost predicate SameByKey<T(!new)>(key: T -> Key, a: seq<T>, b: seq<T>) {
    forall k :: WithKey(key, a, k) == WithKey(key, b, k)
  }

  lemma {:induction false} WithKeyIn<T(!new)>(key: T -> Key, s: seq<T>, k: Key)
    ensures forall x :: x in WithKey(key, s, k) <==> x in s && key(x) == k
  {
    if s != [] {
      WithKeyIn(key, s[1..], k);
      HeadTail(s);
    }
  }

  lemma HeadIsLeast<T>(key: T -> Key, s: seq<T>, x: T)
    requires s != [] && Sorted(key, s) && x in s
    ensures !Below(key(x), key(s[0]))
  {
    Total(key(x), key(x));
  }

  lemma SameHead<T(!new)>(key: T -> Key, a: seq<T>, b: seq<T>)
    requires Sorted(key, a) && Sorted(key, b) && SameByKey(key, a, b) && a != []
    ensures b != [] && a[0] == b[0] && SameByKey(key, a[1..], b[1..])
  {
    var k := key(a[0]);
    assert WithKey(key, a, k) == WithKey(key, b, k);
    WithKeyIn(key, b, k);
    assert a[0] in WithKey(key, a, k);
    WithKeyIn(key, a, key(b[0]));
    assert b[0] in WithKey(key, b, key(b[0]));
    assert WithKey(key, a, key(b[0])) == WithKey(key, b, key(b[0]));
    HeadIsLeast(key, a, b[0]);
    HeadIsLeast(key, b, a[0]);
    Total(key(a[0]), key(b[0]));
    forall k' ensures WithKey(key, a[1..], k') == WithKey(key, b[1..], k') {
      assert WithKey(key, a, k') == WithKey(key, b, k');
      var head := if key(a[0]) == k' then [a[0]] else [];
      TakeDrop(head, WithKey(key, a[1..], k'));
      TakeDrop(head, WithKey(key, b[1..], k'));
    }
  }

  lemma {:induction false} SortedUnique<T(!new)>(key: T -> Key, a: seq<T>, b: seq<T>)
    requires Sorted(key, a) && Sorted(key, b) && SameByKey(key, a, b)
    ensures a == b
  {
    if a == [] {
      if b != [] { SameHead(key, b, a); }
    } else {
      SameHead(key, a, b);
      SortedUnique(key, a[1..], b[1..]);
      HeadTail(a);
      HeadTail(b);
    }
  }

  /** Rearrangements that keep the order within each key sort to the same sequence. */
  lemma SortIgnoresOrder<T(!new)>(key: T -> Key, a: seq<T>, b: seq<T>)
    requires SameByKey(key, a, b)
    ensures Sort(key, a) == Sort(key, b)
  {
    forall k ensures WithKey(key, Sort(key, a), k) == WithKey(key, Sort(key, b), k) {
      assert WithKey(key, a, k) == WithKey(key, b, k);
      SortWorks(key, a, k);
      SortWorks(key, b, k);
    }
    SortWorks(key, a, Key(0, []));
    SortWorks(key, b, Key(0, []));
    SortedUnique(key, Sort(key, a), Sort(key, b));
  }

  predicate DistinctKeys<T>(key: T -> Key, s: seq<T>) {
    forall i, j :: 0 <= i < j < |s| ==> key(s[i]) != key(s[j])
  }

  lemma {:induction false} DistinctWithKey<T(!new)>(key: T -> Key, s: seq<T>, k: Key)
    requires DistinctKeys(key, s)
    ensures |WithKey(key, s, k)| <= 1
  {
    if s != [] {
      DistinctWithKey(key, s[1..], k);
      WithKeyIn(key, s[1..], k);
      var rest := WithKey(key, s[1..], k);
      assert key(s[0]) == k ==> forall x :: x in s[1..] ==> key(x) != k;
      assert rest != [] ==> rest[0] in rest;
    }
  }

  /** Permutations of elements with distinct keys sort to the same sequence. */
  lemma PermutationsSortAlike<T(!new)>(key: T -> Key, a: seq<T>, b: seq<T>)
    requires multiset(a) == multiset(b) && DistinctKeys(key, a) && DistinctKeys(key, b)
    ensures Sort(key, a) == Sort(key, b)
  {
    forall k ensures WithKey(key, a, k) == WithKey(key, b, k) {
      DistinctWithKey(key, a, k);
      DistinctWithKey(key, b, k);
      WithKeyIn(key, a, k);
      WithKeyIn(key, b, k);
      assert forall x :: x in a <==> x in multiset(a);
      assert forall x :: x in b <==> x in multiset(b);
      assert forall x :: x in WithKey(key, a, k) <==> x in WithKey(key, b, k);
      AtMostOne(WithKey(key, a, k), WithKey(key, b, k));
    }
    SortIgnoresOrder(key, a, b);
  }

  lemma AtMostOne<T(!new)>(a: seq<T>, b: seq<T>)
    requires |a| <= 1 && |b| <= 1 && forall x :: x in a <==> x in b
    ensures a == b
  {
    assert a != [] ==> a[0] in b;
    assert b != [] ==> b[0] in a;
  }

  // ---------------------------------------------------------------- permutations and concatenations

  lemma {:induction false} WithKeyCount<T(!new)>(key: T -> Key, s: seq<T>, k: Key, x: T)
    ensures multiset(WithKey(key, s, k))[x] == if key(x) == k then multiset(s)[x] else 0
  {
    if s != [] {
      WithKeyCount(key, s[1..], k, x);
      HeadTail(s);
      assert multiset(s) == multiset{s[0]} + multiset(s[1..]);
      var head := if key(s[0]) == k then [s[0]] else [];
      assert multiset(head + WithKey(key, s[1..], k)) == multiset(head) + multiset(WithKey(key, s[1..], k));
    }
  }

  lemma SameSizes<T(!new)>(key: T -> Key, a: seq<T>, b: seq<T>, k: Key)
    requires multiset(a) == multiset(b)
    ensures |WithKey(key, a, k)| == |WithKey(key, b, k)|
  {
    forall x ensures multiset(WithKey(key, a, k))[x] == multiset(WithKey(key, b, k))[x] {
      WithKeyCount(key, a, k, x);
      WithKeyCount(key, b, k, x);
    }
    assert multiset(WithKey(key, a, k)) == multiset(WithKey(key, b, k));
    assert |multiset(WithKey(key, a, k))| == |WithKey(key, a, k)|;
    assert |multiset(WithKey(key, b, k))| == |WithKey(key, b, k)|;
  }

  lemma TwoWithKey<T(!new)>(key: T -> Key, s: seq<T>, k: Key, i: nat, j: nat)
    requires i < j < |s| && key(s[i]) == key(s[j]) == k
    ensures |WithKey(key, s, k)| >= 2
  {
    CutAt(s, j);
    WithKeyAppend(key, s[..j], s[j..], k);
    WithKeyIn(key, s[..j], k);
    WithKeyIn(key, s[j..], k);
    assert s[..j][i] in WithKey(key, s[..j], k);
    assert s[j..][0] in WithKey(key, s[j..], k);
  }

  /** Whether keys are distinct does not depend on the order. */
  lemma DistinctIgnoresOrder<T(!new)>(key: T -> Key, a: seq<T>, b: seq<T>)
    requires multiset(a) == multiset(b) && DistinctKeys(key, a)
    ensures DistinctKeys(key, b)
  {
    forall i, j | 0 <= i < j < |b| ensures key(b[i]) != key(b[j]) {
      var k := key(b[i]);
      SameSizes(key, a, b, k);
      DistinctWithKey(key, a, k);
      if key(b[j]) == k { TwoWithKey(key, b, k, i, j); }
    }
  }

  ghost predicate AllBelow<T>(key: T -> Key, a: seq<T>, b: seq<T>) {
    forall i, j :: 0 <= i < |a| && 0 <= j < |b| ==> Below(key(a[i]), key(b[j]))
  }

  lemma {:induction false} SortedConcat<T(!new)>(key: T -> Key, a: seq<T>, b: seq<T>)
    requires Sorted(key, a) && Sorted(key, b) && AllBelow(key, a, b)
    ensures Sorted(key, a + b)
  {
    if a == [] {
      EmptySides(b);
    } else {
      RegroupHead(a, b);
      assert AllBelow(key, a[1..], b);
      SortedConcat(key, a[1..], b);
      var all := a + b;
      forall i | 1 <= i < |all| ensures !Below(key(all[i]), key(all[0])) {
        if i >= |a| {
          assert all[i] == b[i - |a|];
          Total(key(all[i]), key(all[0]));
        }
      }
    }
  }

  lemma AllBelowSorted<T(!new)>(key: T -> Key, a: seq<T>, b: seq<T>)
    requires AllBelow(key, a, b)
    ensures AllBelow(key, Sort(key, a), Sort(key, b))
  {
    var sa, sb := Sort(key, a), Sort(key, b);
    SortWorks(key, a, Key(0, []));
    SortWorks(key, b, Key(0, []));
    forall i, j | 0 <= i < |sa| && 0 <= j < |sb| ensures Below(key(sa[i]), key(sb[j])) {
      assert sa[i] in multiset(a);
      assert sb[j] in multiset(b);
    }
  }

  /** Layers that all lie below others can be sorted on their own. */
  lemma SortConcat<T(!new)>(key: T -> Key, a: seq<T>, b: seq<T>)
    requires AllBelow(key, a, b)
    ensures Sort(key, a + b) == Sort(key, a) + Sort(key, b)
  {
    var sa, sb := Sort(key, a), Sort(key, b);
    AllBelowSorted(key, a, b);
    forall k ensures WithKey(key, Sort(key, a + b), k) == WithKey(key, sa + sb, k) {
      SortWorks(key, a, k);
      SortWorks(key, b, k);
      SortWorks(key, a + b, k);
      WithKeyAppend(key, a, b, k);
      WithKeyAppend(key, sa, sb, k);
    }
    SortWorks(key, a, Key(0, []));
    SortWorks(key, b, Key(0, []));
    SortWorks(key, a + b, Key(0, []));
    SortedConcat(key, sa, sb);
    SortedUnique(key, Sort(key, a + b), sa + sb);
  }
}
