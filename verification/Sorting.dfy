/** Python's sorted() by a string key. */
module Sorting {

  /** Code-point order. */
  predicate AtMost(a: string, b: string)
  {
    a == [] || (b != [] && (a[0] < b[0] || (a[0] == b[0] && AtMost(a[1..], b[1..]))))
  }

  function InsertBy<T>(key: T -> string, x: T, s: seq<T>): (r: seq<T>)
    ensures |r| == |s| + 1
  {
    if s == [] || AtMost(key(x), key(s[0])) then [x] + s else [s[0]] + InsertBy(key, x, s[1..])
  }

  function SortedBy<T>(key: T -> string, s: seq<T>): (r: seq<T>)
    ensures |r| == |s|
  {
    if s == [] then [] else InsertBy(key, s[0], SortedBy(key, s[1..]))
  }

  function Itself(s: string): string
  {
    s
  }

  /** sorted() without a key. */
  function Sorted(s: seq<string>): seq<string>
  {
    SortedBy(Itself, s)
  }

  predicate Ordered<T>(key: T -> string, s: seq<T>)
  {
    |s| <= 1 || (AtMost(key(s[0]), key(s[1])) && Ordered(key, s[1..]))
  }

  /** The elements with a given key, in order. */
  function WithKey<T>(key: T -> string, k: string, s: seq<T>): seq<T>
  {
    if s == [] then [] else (if key(s[0]) == k then [s[0]] else []) + WithKey(key, k, s[1..])
  }

  lemma {:induction false} AtMostTotal(a: string, b: string)
    ensures AtMost(a, b) || AtMost(b, a)
  {
    if a != [] && b != [] && a[0] == b[0] {
      AtMostTotal(a[1..], b[1..]);
    }
  }

  lemma {:induction false} AtMostSelf(a: string)
    ensures AtMost(a, a)
  {
    if a == [] {
    } else {
      AtMostSelf(a[1..]);
    }
  }

  lemma {:induction false} InsertOrders<T>(key: T -> string, x: T, s: seq<T>)
    requires Ordered(key, s)
    ensures Ordered(key, InsertBy(key, x, s))
    ensures InsertBy(key, x, s)[0] == x || (s != [] && InsertBy(key, x, s)[0] == s[0])
  {
    if s == [] || AtMost(key(x), key(s[0])) {
      assert ([x] + s)[1..] == s;
    } else {
      AtMostTotal(key(x), key(s[0]));
      InsertOrders(key, x, s[1..]);
      assert ([s[0]] + InsertBy(key, x, s[1..]))[1..] == InsertBy(key, x, s[1..]);
    }
  }

  lemma {:induction false} InsertKeeps<T>(key: T -> string, x: T, s: seq<T>)
    ensures multiset(InsertBy(key, x, s)) == multiset(s) + multiset{x}
  {
    if s != [] && !AtMost(key(x), key(s[0])) {
      InsertKeeps(key, x, s[1..]);
      assert s == [s[0]] + s[1..];
    }
  }

  /** An element goes in front of those with the same key. */
  lemma {:induction false} InsertStable<T>(key: T -> string, x: T, s: seq<T>, k: string)
    ensures WithKey(key, k, InsertBy(key, x, s)) == (if key(x) == k then [x] else []) + WithKey(key, k, s)
  {
    if s == [] || AtMost(key(x), key(s[0])) {
      WithKeyCons(key, k, x, s);
    } else {
      AtMostSelf(key(x));
      InsertStable(key, x, s[1..], k);
      WithKeyCons(key, k, s[0], InsertBy(key, x, s[1..]));
      assert key(x) == k ==> key(s[0]) != k;
    }
  }

  lemma WithKeyCons<T>(key: T -> string, k: string, x: T, s: seq<T>)
    ensures WithKey(key, k, [x] + s) == (if key(x) == k then [x] else []) + WithKey(key, k, s)
  {
    assert ([x] + s)[1..] == s;
  }

  /** The result is in key order, with no element lost, added or merged, and equal keys keep their order. */
  lemma {:induction false} SortedSorts<T>(key: T -> string, s: seq<T>)
    ensures Ordered(key, SortedBy(key, s)) && multiset(SortedBy(key, s)) == multiset(s)
    ensures forall k :: WithKey(key, k, SortedBy(key, s)) == WithKey(key, k, s)
  {
    if s == [] {
    } else {
      SortedSorts(key, s[1..]);
      InsertOrders(key, s[0], SortedBy(key, s[1..]));
      InsertKeeps(key, s[0], SortedBy(key, s[1..]));
      assert s == [s[0]] + s[1..];
      forall k
        ensures WithKey(key, k, SortedBy(key, s)) == WithKey(key, k, s)
      {
        FirstStable(key, s, k);
      }
    }
  }

  lemma FirstStable<T>(key: T -> string, s: seq<T>, k: string)
    requires s != [] && WithKey(key, k, SortedBy(key, s[1..])) == WithKey(key, k, s[1..])
    ensures WithKey(key, k, SortedBy(key, s)) == WithKey(key, k, s)
  {
    InsertStable(key, s[0], SortedBy(key, s[1..]), k);
  }

  lemma {:induction false} WithKeyHolds<T>(key: T -> string, k: string, s: seq<T>, i: nat)
    requires i < |s| && key(s[i]) == k
    ensures s[i] in WithKey(key, k, s)
  {
    if i > 0 {
      WithKeyHolds(key, k, s[1..], i - 1);
    }
  }

  lemma {:induction false} WithKeyFrom<T>(key: T -> string, k: string, s: seq<T>, p: nat) returns (a: nat)
    requires p < |WithKey(key, k, s)|
    ensures a < |s| && s[a] == WithKey(key, k, s)[p]
  {
    var first := if key(s[0]) == k then 1 else 0;
    if p < first {
      a := 0;
    } else {
      a := WithKeyFrom(key, k, s[1..], p - first);
      a := a + 1;
    }
  }

  /** Two elements with one key keep their order in WithKey. */
  lemma {:induction false} IntoWithKey<T>(key: T -> string, s: seq<T>, i: nat, j: nat) returns (p: nat, q: nat)
    requires i < j < |s| && key(s[i]) == key(s[j])
    ensures var w := WithKey(key, key(s[i]), s); p < q < |w| && w[p] == s[i] && w[q] == s[j]
  {
    var first := if key(s[0]) == key(s[i]) then 1 else 0;
    if i == 0 {
      WithKeyHolds(key, key(s[i]), s[1..], j - 1);
      p := 0;
      q :| 0 <= q < |WithKey(key, key(s[i]), s[1..])| && WithKey(key, key(s[i]), s[1..])[q] == s[j];
      q := q + 1;
    } else {
      p, q := IntoWithKey(key, s[1..], i - 1, j - 1);
      p, q := p + first, q + first;
    }
  }

  lemma {:induction false} OutOfWithKey<T>(key: T -> string, k: string, s: seq<T>, p: nat, q: nat)
    returns (a: nat, b: nat)
    requires p < q < |WithKey(key, k, s)|
    ensures a < b < |s| && s[a] == WithKey(key, k, s)[p] && s[b] == WithKey(key, k, s)[q]
  {
    var first := if key(s[0]) == k then 1 else 0;
    if p < first {
      a := 0;
      b := WithKeyFrom(key, k, s[1..], q - first);
      b := b + 1;
    } else {
      a, b := OutOfWithKey(key, k, s[1..], p - first, q - first);
      a, b := a + 1, b + 1;
    }
  }

  /** Elements with one key stand in r as they stand in s. */
  lemma TieOrder<T>(key: T -> string, s: seq<T>, r: seq<T>, i: nat, j: nat) returns (a: nat, b: nat)
    requires i < j < |r| && key(r[i]) == key(r[j]) && WithKey(key, key(r[i]), r) == WithKey(key, key(r[i]), s)
    ensures a < b < |s| && s[a] == r[i] && s[b] == r[j]
  {
    var p, q := IntoWithKey(key, r, i, j);
    a, b := OutOfWithKey(key, key(r[i]), s, p, q);
  }

  /** a has the smaller character at i, where the two first differ. */
  predicate SmallerAt(a: string, b: string, i: nat)
  {
    i < |a| && i < |b| && a[..i] == b[..i] && a[i] < b[i]
  }

  /** The order of texts: a is a prefix of b, or has the smaller character where they first differ. */
  lemma {:induction false} AtMostIff(a: string, b: string)
    ensures AtMost(a, b) <==> a <= b || exists i: nat :: SmallerAt(a, b, i)
  {
    if a != [] && b != [] && a[0] == b[0] {
      AtMostIff(a[1..], b[1..]);
      assert a == [a[0]] + a[1..] && b == [b[0]] + b[1..];
      if i: nat :| SmallerAt(a[1..], b[1..], i) {
        SmallerShifts(a, b, i);
      }
      if i: nat :| SmallerAt(a, b, i) {
        SmallerShifts(a, b, i - 1);
      }
    } else if a != [] && b != [] && a[0] < b[0] {
      assert SmallerAt(a, b, 0);
    } else if i: nat :| SmallerAt(a, b, i) {
      SmallerFirst(a, b, i);
    }
  }

  lemma SmallerFirst(a: string, b: string, i: nat)
    requires SmallerAt(a, b, i)
    ensures a[0] <= b[0]
  {
    if i > 0 {
      assert a[0] == a[..i][0] == b[..i][0] == b[0];
    }
  }

  lemma SmallerShifts(a: string, b: string, i: nat)
    requires a != [] && b != [] && a[0] == b[0]
    ensures SmallerAt(a[1..], b[1..], i) <==> SmallerAt(a, b, i + 1)
  {
    if i < |a| - 1 && i < |b| - 1 {
      assert a[..i + 1] == [a[0]] + a[1..][..i] && b[..i + 1] == [b[0]] + b[1..][..i];
      assert a[..i + 1][1..] == a[1..][..i] && b[..i + 1][1..] == b[1..][..i];
    }
  }

  lemma {:induction false} OrderedAt<T>(key: T -> string, s: seq<T>, i: nat)
    requires Ordered(key, s) && i + 1 < |s|
    ensures AtMost(key(s[i]), key(s[i + 1]))
  {
    if i > 0 {
      OrderedAt(key, s[1..], i - 1);
    }
  }
}
