/** The stable sort by a text key that Kotlin's sortedBy performs. */
module Sorting {

  /** Texts compared character by character, a prefix before its extensions. */
  predicate Less(a: string, b: string) {
    |b| > 0 && (|a| == 0 || a[0] < b[0] || (a[0] == b[0] && Less(a[1..], b[1..])))
  }

  // Goes behind everything that is not greater.
  function Insert<T>(sorted: seq<T>, x: T, key: T -> string): (r: seq<T>)
    ensures |r| == |sorted| + 1
  {
    if |sorted| == 0 || !Less(key(x), key(sorted[|sorted| - 1])) then sorted + [x]
    else Insert(sorted[..|sorted| - 1], x, key) + [sorted[|sorted| - 1]]
  }

  function SortedBy<T>(s: seq<T>, key: T -> string): (r: seq<T>)
    ensures |r| == |s|
  {
    if |s| == 0 then [] else Insert(SortedBy(s[..|s| - 1], key), s[|s| - 1], key)
  }

  // ---- Less is a strict weak order ----

  lemma {:induction false} LessIsTransitive(a: string, b: string, c: string)
    requires !Less(b, a) && !Less(c, b)
    ensures !Less(c, a)
    decreases |a|
  {
    if |a| > 0 && |b| > 0 && |c| > 0 && a[0] == b[0] == c[0] {
      LessIsTransitive(a[1..], b[1..], c[1..]);
    }
  }

  lemma {:induction false} LessIsAsymmetric(a: string, b: string)
    requires Less(a, b)
    ensures !Less(b, a)
    decreases |a|
  {
    if |a| > 0 && a[0] == b[0] {
      LessIsAsymmetric(a[1..], b[1..]);
    }
  }

  ghost predicate Ordered<T>(s: seq<T>, key: T -> string) {
    forall i, j :: 0 <= i < j < |s| ==> !Less(key(s[j]), key(s[i]))
  }

  function OfKey<T>(s: seq<T>, key: T -> string, k: string): seq<T> {
    if |s| == 0 then [] else OfKey(s[..|s| - 1], key, k) + if key(s[|s| - 1]) == k then [s[|s| - 1]] else []
  }

  lemma {:induction false} InsertKeepsElements<T>(sorted: seq<T>, x: T, key: T -> string)
    ensures multiset(Insert(sorted, x, key)) == multiset(sorted) + multiset{x}
  {
    if |sorted| > 0 {
      var init, last := sorted[..|sorted| - 1], sorted[|sorted| - 1];
      assert sorted == init + [last];
      InsertKeepsElements(init, x, key);
    }
  }

  lemma {:induction false} InsertKeepsOrder<T>(sorted: seq<T>, x: T, key: T -> string)
    requires Ordered(sorted, key)
    ensures Ordered(Insert(sorted, x, key), key)
  {
    if |sorted| > 0 {
      var init, last := sorted[..|sorted| - 1], sorted[|sorted| - 1];
      if Less(key(x), key(last)) {
        InsertKeepsOrder(init, x, key);
        InsertKeepsElements(init, x, key);
        LessIsAsymmetric(key(x), key(last));
        var r := Insert(init, x, key);
        forall i | 0 <= i < |r| ensures !Less(key(last), key(r[i])) {
          assert r[i] in multiset(init) + multiset{x};
          assert r[i] == x || r[i] in init;
        }
      } else {
        forall i | 0 <= i < |init| ensures !Less(key(x), key(init[i])) {
          LessIsTransitive(key(sorted[i]), key(last), key(x));
        }
      }
    }
  }

  lemma {:induction false} InsertIsStable<T>(sorted: seq<T>, x: T, key: T -> string, k: string)
    requires Ordered(sorted, key)
    ensures OfKey(Insert(sorted, x, key), key, k) == OfKey(sorted, key, k) + if key(x) == k then [x] else []
  {
    if |sorted| > 0 && Less(key(x), key(sorted[|sorted| - 1])) {
      var init, last := sorted[..|sorted| - 1], sorted[|sorted| - 1];
      InsertIsStable(init, x, key, k);
      assert Insert(sorted, x, key)[..|sorted|] == Insert(init, x, key);
      if key(x) == k {
        LessIsAsymmetric(key(x), key(last));
        assert key(last) != k;
      }
    } else {
      assert Insert(sorted, x, key)[..|sorted|] == sorted;
    }
  }

  /** The result is the input rearranged, in order, with equal keys in their old order. */
  lemma {:induction false} SortedByIsStableSort<T>(s: seq<T>, key: T -> string)
    ensures multiset(SortedBy(s, key)) == multiset(s)
    ensures Ordered(SortedBy(s, key), key)
    ensures forall k :: OfKey(SortedBy(s, key), key, k) == OfKey(s, key, k)
  {
    if |s| > 0 {
      var init, last := s[..|s| - 1], s[|s| - 1];
      assert s == init + [last];
      SortedByIsStableSort(init, key);
      InsertKeepsElements(SortedBy(init, key), last, key);
      InsertKeepsOrder(SortedBy(init, key), last, key);
      forall k ensures OfKey(SortedBy(s, key), key, k) == OfKey(s, key, k) {
        InsertIsStable(SortedBy(init, key), last, key, k);
      }
    }
  }

  lemma SortedByMembers<T>(s: seq<T>, key: T -> string)
    ensures forall i :: 0 <= i < |s| ==> SortedBy(s, key)[i] in s
  {
    SortedByIsStableSort(s, key);
    forall i | 0 <= i < |s| ensures SortedBy(s, key)[i] in s {
      assert SortedBy(s, key)[i] in multiset(s);
    }
  }
}
