/** Maps as sorted lists: the one form equal maps share. */
module Canon {

  ghost predicate StrictOrder<E(!new)>(lt: (E, E) -> bool) {
    && (forall a, b :: lt(a, b) ==> !lt(b, a))
    && (forall a, b, c :: lt(a, b) && lt(b, c) ==> lt(a, c))
  }

  ghost predicate Ascends<E>(lt: (E, E) -> bool, s: seq<E>) {
    forall i, j :: 0 <= i < j < |s| ==> lt(s[i], s[j])
  }

  /** No two elements of `s` are left unordered. */
  ghost predicate Comparable<E>(lt: (E, E) -> bool, s: seq<E>) {
    forall i, j :: 0 <= i < j < |s| ==> lt(s[i], s[j]) || lt(s[j], s[i])
  }

  function Insert<E>(lt: (E, E) -> bool, x: E, s: seq<E>): seq<E> {
    if s == [] || lt(x, s[0]) then [x] + s
    else [s[0]] + Insert(lt, x, s[1..])
  }

  function Sort<E>(lt: (E, E) -> bool, s: seq<E>): seq<E> {
    if s == [] then [] else Insert(lt, s[0], Sort(lt, s[1..]))
  }

  lemma {:induction false} InsertSorts<E(!new)>(lt: (E, E) -> bool, x: E, s: seq<E>)
    requires StrictOrder(lt) && Ascends(lt, s) && forall y :: y in s ==> lt(x, y) || lt(y, x)
    ensures Ascends(lt, Insert(lt, x, s))
    ensures forall y :: y in Insert(lt, x, s) <==> y == x || y in s
  {
    if s != [] && !lt(x, s[0]) {
      var (head, tail) := (s[0], s[1..]);
      assert s == [head] + tail;
      InsertSorts(lt, x, tail);
      var r := Insert(lt, x, tail);
      forall j | 0 <= j < |r|
        ensures lt(head, r[j])
      {
        assert r[j] in r;
        if r[j] != x {
          var i :| 0 <= i < |tail| && tail[i] == r[j];
          assert s[i + 1] == r[j];
        }
      }
      assert Insert(lt, x, s) == [head] + r;
    }
  }

  lemma {:induction false} SortSorts<E(!new)>(lt: (E, E) -> bool, s: seq<E>)
    requires StrictOrder(lt) && Comparable(lt, s)
    ensures Ascends(lt, Sort(lt, s))
    ensures forall y :: y in Sort(lt, s) <==> y in s
  {
    if s != [] {
      var tail := s[1..];
      assert s == [s[0]] + tail;
      SortSorts(lt, tail);
      forall y | y in Sort(lt, tail)
        ensures lt(s[0], y) || lt(y, s[0])
      {
        var i :| 0 <= i < |tail| && tail[i] == y;
        assert s[i + 1] == y;
      }
      InsertSorts(lt, s[0], Sort(lt, tail));
    }
  }

  /** A set has one ascending list. */
  lemma {:induction false} AscendingIsUnique<E(!new)>(lt: (E, E) -> bool, a: seq<E>, b: seq<E>)
    requires StrictOrder(lt) && Ascends(lt, a) && Ascends(lt, b) && forall x :: x in a <==> x in b
    ensures a == b
  {
    assert a != [] ==> a[0] in a;
    assert b != [] ==> b[0] in b;
    if a != [] && b != [] {
      HeadIsLeast(lt, a, b[0]);
      HeadIsLeast(lt, b, a[0]);
      var (restA, restB) := (a[1..], b[1..]);
      assert a == [a[0]] + restA && b == [b[0]] + restB;
      assert forall x :: x in restA ==> x in a && x != a[0];
      assert forall x :: x in restB ==> x in b && x != b[0];
      AscendingIsUnique(lt, restA, restB);
    }
  }

  lemma HeadIsLeast<E(!new)>(lt: (E, E) -> bool, s: seq<E>, x: E)
    requires Ascends(lt, s) && x in s
    ensures x == s[0] || lt(s[0], x)
  {
    var i :| 0 <= i < |s| && s[i] == x;
  }

  // ---- Maps ----

  /** `entries` is `m`, key by key, in some order. */
  ghost predicate Listing<K, V>(entries: seq<(K, V)>, m: map<K, V>) {
    && (forall i, j :: 0 <= i < j < |entries| ==> entries[i].0 != entries[j].0)
    && (forall i :: 0 <= i < |entries| ==> entries[i].0 in m && m[entries[i].0] == entries[i].1)
    && (forall k :: k in m ==> (k, m[k]) in entries)
  }

  /** `lt` orders entries by their keys, all keys. */
  ghost predicate ByKey<K(!new), V(!new)>(lt: ((K, V), (K, V)) -> bool) {
    StrictOrder(lt) && forall x: (K, V), y: (K, V) :: x.0 != y.0 ==> lt(x, y) || lt(y, x)
  }

  /** `entries` is the sorted list of `m`. */
  ghost predicate SortedListing<K, V>(lt: ((K, V), (K, V)) -> bool, entries: seq<(K, V)>, m: map<K, V>) {
    Listing(entries, m) && Ascends(lt, entries)
  }

  lemma ListingMembers<K, V>(entries: seq<(K, V)>, m: map<K, V>, e: (K, V))
    requires Listing(entries, m)
    ensures e in entries <==> e.0 in m && m[e.0] == e.1
  {
  }

  /** One map has one sorted list. */
  lemma SortedIsUnique<K(!new), V(!new)>(lt: ((K, V), (K, V)) -> bool, a: seq<(K, V)>, b: seq<(K, V)>, m: map<K, V>)
    requires ByKey(lt) && SortedListing(lt, a, m) && SortedListing(lt, b, m)
    ensures a == b
  {
    forall e
      ensures e in a <==> e in b
    {
      ListingMembers(a, m, e);
      ListingMembers(b, m, e);
    }
    AscendingIsUnique(lt, a, b);
  }

  lemma SortingLists<K(!new), V(!new)>(lt: ((K, V), (K, V)) -> bool, entries: seq<(K, V)>, m: map<K, V>)
    requires ByKey(lt) && Listing(entries, m)
    ensures SortedListing(lt, Sort(lt, entries), m)
  {
    SortSorts(lt, entries);
    var r := Sort(lt, entries);
    forall i | 0 <= i < |r|
      ensures r[i].0 in m && m[r[i].0] == r[i].1
    {
      assert r[i] in r && r[i] in entries;
      ListingMembers(entries, m, r[i]);
    }
    forall k | k in m
      ensures (k, m[k]) in r
    {
      ListingMembers(entries, m, (k, m[k]));
    }
    forall i, j | 0 <= i < j < |r|
      ensures r[i].0 != r[j].0
    {
      assert lt(r[i], r[j]) && !lt(r[j], r[i]);
      assert r[i] in entries && r[j] in entries;
    }
  }

  /** However a hash map hands its entries over, sorting them gives the one
      sorted list of the map. */
  lemma SortIsCanonical<K(!new), V(!new)>(lt: ((K, V), (K, V)) -> bool, entries: seq<(K, V)>, other: seq<(K, V)>,
                                          m: map<K, V>)
    requires ByKey(lt) && Listing(entries, m) && Listing(other, m)
    ensures Sort(lt, entries) == Sort(lt, other)
  {
    SortingLists(lt, entries, m);
    SortingLists(lt, other, m);
    SortedIsUnique(lt, Sort(lt, entries), Sort(lt, other), m);
  }

  /** A list collected into a map, a later entry replacing an earlier one. */
  function Collected<K, V>(entries: seq<(K, V)>): map<K, V> {
    if entries == [] then map[]
    else
      var last := |entries| - 1;
      Collected(entries[..last])[entries[last].0 := entries[last].1]
  }

  lemma {:induction false} CollectedHolds<K, V>(entries: seq<(K, V)>)
    ensures forall k :: k in Collected(entries) <==> exists i :: 0 <= i < |entries| && entries[i].0 == k
    ensures forall k :: k in Collected(entries) ==> (k, Collected(entries)[k]) in entries
  {
    if entries != [] {
      var last := |entries| - 1;
      CollectedHolds(entries[..last]);
      var m := Collected(entries);
      forall k
        ensures k in m <==> exists i :: 0 <= i < |entries| && entries[i].0 == k
        ensures k in m ==> (k, m[k]) in entries
      {
        if k in Collected(entries[..last]) {
          var i :| 0 <= i < |entries[..last]| && entries[..last][i].0 == k;
          assert entries[i].0 == k;
        }
        if k == entries[last].0 {
          assert entries[last] == (k, m[k]);
        }
        if i :| 0 <= i < |entries| && entries[i].0 == k && k != entries[last].0 {
          assert entries[..last][i].0 == k;
        }
      }
    }
  }

  /** Listing a map and collecting the list gives the map back. */
  lemma CollectedListing<K, V>(entries: seq<(K, V)>, m: map<K, V>)
    requires Listing(entries, m)
    ensures Collected(entries) == m
  {
    CollectedHolds(entries);
    forall k
      ensures k in Collected(entries) <==> k in m
    {
      if k in m {
        var i :| 0 <= i < |entries| && entries[i] == (k, m[k]);
        assert entries[i].0 == k;
      }
    }
    forall k | k in m
      ensures Collected(entries)[k] == m[k]
    {
      var i :| 0 <= i < |entries| && entries[i] == (k, Collected(entries)[k]);
    }
  }
}
