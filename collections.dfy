/** `Array.prototype.filter`, `findIndex` and a stable descending `sort`, with their properties. */
module Collections {

  /** `s.filter(keep)`. */
  function Filter<T>(s: seq<T>, keep: T -> bool): (r: seq<T>)
    ensures |r| <= |s|
    ensures forall x :: x in r ==> x in s && keep(x)
  {
    if s == [] then []
    else
      assert s == [s[0]] + s[1..];
      if keep(s[0]) then [s[0]] + Filter(s[1..], keep) else Filter(s[1..], keep)
  }

  /** An element survives the filter exactly when it is in the input and the predicate holds of it. */
  lemma {:induction false} FilterMembership<T>(s: seq<T>, keep: T -> bool, x: T)
    ensures x in Filter(s, keep) <==> x in s && keep(x)
  {
    if s != [] {
      FilterMembership(s[1..], keep, x);
      assert x in s <==> x == s[0] || x in s[1..];
    }
  }

  /** The filter keeps each element at most as often as the input holds it. */
  lemma {:induction false} FilterSubMultiset<T>(s: seq<T>, keep: T -> bool)
    ensures multiset(Filter(s, keep)) <= multiset(s)
  {
    if s != [] {
      FilterSubMultiset(s[1..], keep);
      FilterHead(s, keep);
      assert multiset(s) == multiset{s[0]} + multiset(s[1..]) by {
        assert s == [s[0]] + s[1..];
      }
    }
  }

  /** Filtering by a predicate and by its negation splits the input: together they hold each element exactly as often. */
  lemma {:induction false} FilterPartition<T>(s: seq<T>, keep: T -> bool, drop: T -> bool)
    requires forall x :: drop(x) == !keep(x)
    ensures multiset(Filter(s, keep)) + multiset(Filter(s, drop)) == multiset(s)
  {
    if s != [] {
      var t := s[1..];
      var x, a, b := multiset{s[0]}, multiset(Filter(t, keep)), multiset(Filter(t, drop));
      var kept, dropped := multiset(Filter(s, keep)), multiset(Filter(s, drop));
      assert a + b == multiset(t) by {
        FilterPartition(t, keep, drop);
      }
      assert multiset(s) == x + multiset(t) by {
        assert s == [s[0]] + t;
      }
      assert kept == (if keep(s[0]) then x else multiset{}) + a by {
        FilterHead(s, keep);
      }
      assert dropped == (if keep(s[0]) then multiset{} else x) + b by {
        FilterHead(s, drop);
      }
      PartitionStep(x, a, b, kept, dropped, keep(s[0]));
    }
  }

  /** The head goes to exactly one side of the partition. */
  lemma {:induction false} PartitionStep<T>(x: multiset<T>, a: multiset<T>, b: multiset<T>, kept: multiset<T>, dropped: multiset<T>, k: bool)
    requires kept == (if k then x else multiset{}) + a
    requires dropped == (if k then multiset{} else x) + b
    ensures kept + dropped == x + (a + b)
  {
    if k {
      MultisetRegroup(x, a, b);
    } else {
      MultisetRegroup(x, b, a);
      assert a + b == b + a;
    }
  }

  /** The first element is counted by the filter exactly when the predicate holds of it. */
  lemma {:induction false} FilterHead<T>(s: seq<T>, keep: T -> bool)
    requires s != []
    ensures multiset(Filter(s, keep)) == (if keep(s[0]) then multiset{s[0]} else multiset{}) + multiset(Filter(s[1..], keep))
  {
    if keep(s[0]) {
      assert Filter(s, keep) == [s[0]] + Filter(s[1..], keep);
    } else {
      assert Filter(s, keep) == Filter(s[1..], keep);
    }
  }

  lemma {:induction false} MultisetRegroup<T>(x: multiset<T>, a: multiset<T>, b: multiset<T>)
    ensures (x + a) + b == x + (a + b) && a + (x + b) == x + (a + b)
  {
  }

  lemma {:induction false} FilterAppend<T>(a: seq<T>, b: seq<T>, keep: T -> bool)
    ensures Filter(a + b, keep) == Filter(a, keep) + Filter(b, keep)
  {
    if a != [] {
      var c := a + b;
      assert c[0] == a[0] && c[1..] == a[1..] + b;
      FilterAppend(a[1..], b, keep);
      if keep(a[0]) {
        assert Filter(c, keep) == [a[0]] + (Filter(a[1..], keep) + Filter(b, keep));
      }
    } else {
      assert a + b == b;
    }
  }

  /** A predicate that holds of every element keeps the whole sequence. */
  lemma {:induction false} FilterAll<T>(s: seq<T>, keep: T -> bool)
    requires forall x :: x in s ==> keep(x)
    ensures Filter(s, keep) == s
  {
    if s != [] {
      FilterAll(s[1..], keep);
    }
  }

  /** `s.findIndex(p)`: the first index where `p` holds, or -1. */
  function FindIndex<T>(s: seq<T>, p: T -> bool): (r: int)
    ensures -1 <= r < |s|
    ensures r == -1 <==> forall i :: 0 <= i < |s| ==> !p(s[i])
    ensures r >= 0 ==> p(s[r]) && forall i :: 0 <= i < r ==> !p(s[i])
  {
    if s == [] then -1
    else if p(s[0]) then 0
    else var k := FindIndex(s[1..], p); if k == -1 then -1 else k + 1
  }

  /** Two sequences on which a predicate agrees position by position have the same first match. */
  lemma {:induction false} FindIndexSame<T>(a: seq<T>, b: seq<T>, p: T -> bool)
    requires |a| == |b| && forall j :: 0 <= j < |a| ==> (p(a[j]) <==> p(b[j]))
    ensures FindIndex(a, p) == FindIndex(b, p)
  {
    var i, k := FindIndex(a, p), FindIndex(b, p);
    if i >= 0 && k >= 0 {
      assert !(i < k) && !(k < i);
    }
  }

  /** Past a first element that does not match, the first match is one further along in the tail. */
  lemma {:induction false} FindIndexCons<T>(s: seq<T>, p: T -> bool)
    requires s != [] && !p(s[0])
    ensures FindIndex(s, p) == if FindIndex(s[1..], p) == -1 then -1 else FindIndex(s[1..], p) + 1
  {
  }

  /**
   * Filtering with a predicate that keeps every match of `p` does not change which
   * element `findIndex` finds first.
   */
  lemma {:induction false} FindIndexFiltered<T>(s: seq<T>, keep: T -> bool, p: T -> bool)
    requires forall x :: p(x) ==> keep(x)
    ensures FindIndex(Filter(s, keep), p) == -1 <==> FindIndex(s, p) == -1
    ensures FindIndex(s, p) >= 0 ==> Filter(s, keep)[FindIndex(Filter(s, keep), p)] == s[FindIndex(s, p)]
  {
    if s != [] {
      FindIndexFiltered(s[1..], keep, p);
      var r, rest := Filter(s, keep), Filter(s[1..], keep);
      if p(s[0]) {
        assert r == [s[0]] + rest;
      } else {
        FindIndexCons(s, p);
        if keep(s[0]) {
          assert r == [s[0]] + rest;
          FindIndexCons(r, p);
          assert r[1..] == rest;
        } else {
          assert r == rest;
        }
      }
    }
  }

  predicate NoDuplicates<T(==)>(s: seq<T>) {
    forall i, j :: 0 <= i < j < |s| ==> s[i] != s[j]
  }

  /** A sequence with a first element is duplicate-free exactly when its tail is and lacks that element. */
  lemma {:induction false} NoDuplicatesCons<T>(x: T, t: seq<T>)
    ensures NoDuplicates([x] + t) <==> x !in t && NoDuplicates(t)
  {
    var s := [x] + t;
    assert forall j :: 0 <= j < |t| ==> s[j + 1] == t[j];
    if x in t {
      var j :| 0 <= j < |t| && t[j] == x;
      assert s[0] == s[j + 1];
    }
  }

  /** Filtering a duplicate-free sequence leaves it duplicate-free. */
  lemma {:induction false} FilterNoDuplicates<T>(s: seq<T>, keep: T -> bool)
    requires NoDuplicates(s)
    ensures NoDuplicates(Filter(s, keep))
  {
    if s != [] {
      assert s == [s[0]] + s[1..];
      NoDuplicatesCons(s[0], s[1..]);
      FilterNoDuplicates(s[1..], keep);
      if keep(s[0]) {
        FilterMembership(s[1..], keep, s[0]);
        NoDuplicatesCons(s[0], Filter(s[1..], keep));
      }
    }
  }

  /** Some element of `s` satisfies `p` exactly when one of all but its last does, or its last does. */
  lemma {:induction false} ExistsSnoc<T>(s: seq<T>, p: T -> bool)
    requires s != []
    ensures (exists x :: x in s && p(x)) <==> (exists x :: x in s[..|s| - 1] && p(x)) || p(s[|s| - 1])
  {
    var init, last := s[..|s| - 1], s[|s| - 1];
    assert s == init + [last];
    if exists x :: x in s && p(x) {
      var x :| x in s && p(x);
      if x != last {
        assert x in init;
      }
    }
  }

  /** A duplicate-free sequence has as many distinct elements as it has positions. */
  lemma {:induction false} DistinctCardinality<T>(s: seq<T>)
    requires NoDuplicates(s)
    ensures |set x | x in s| == |s|
  {
    if s != [] {
      DistinctCardinality(s[1..]);
      var rest := set x | x in s[1..];
      assert (set x | x in s) == {s[0]} + rest;
      assert s[0] !in rest;
    }
  }

  /** A subset is no larger than its superset. */
  lemma {:induction false} SubsetCardinality<T>(a: set<T>, b: set<T>)
    requires a <= b
    ensures |a| <= |b|
  {
    if a != {} {
      var x :| x in a;
      SubsetCardinality(a - {x}, b - {x});
    }
  }

  // ---------------------------------------------------------------------------------
  // Sorting. `Array.prototype.sort` is stable; `SortDescending` is a stable insertion
  // sort that orders by a numeric key, largest first (`(a, b) => key(b) - key(a)`).

  predicate SortedDescending<T>(s: seq<T>, key: T -> int) {
    forall i, j :: 0 <= i < j < |s| ==> key(s[i]) >= key(s[j])
  }

  /** Inserts `x` behind every element whose key is at least `key(x)`. */
  function InsertDescending<T>(s: seq<T>, x: T, key: T -> int): (r: seq<T>)
    requires SortedDescending(s, key)
    ensures SortedDescending(r, key)
    ensures multiset(r) == multiset(s) + multiset{x}
    ensures |r| == |s| + 1
  {
    if s == [] then [x]
    else if key(s[0]) < key(x) then [x] + s
    else
      var rest := InsertDescending(s[1..], x, key);
      assert SortedDescending([s[0]] + rest, key) by {
        assert forall i :: 0 <= i < |s| - 1 ==> key(s[1..][i]) <= key(s[0]);
        KeysBounded(s[1..], x, rest, key, key(s[0]));
        SortedCons(s[0], rest, key);
      }
      assert multiset([s[0]] + rest) == multiset(s) + multiset{x} by {
        assert s == [s[0]] + s[1..];
        MultisetRegroup(multiset{s[0]}, multiset(s[1..]), multiset{x});
      }
      [s[0]] + rest
  }

  /** An element whose key bounds every key of a sorted sequence can go in front of it. */
  lemma {:induction false} SortedCons<T>(h: T, t: seq<T>, key: T -> int)
    requires SortedDescending(t, key) && forall i :: 0 <= i < |t| ==> key(t[i]) <= key(h)
    ensures SortedDescending([h] + t, key)
  {
    var r := [h] + t;
    forall i, j | 0 <= i < j < |r| ensures key(r[i]) >= key(r[j]) {
      assert r[j] == t[j - 1];
      if i > 0 {
        assert r[i] == t[i - 1];
      }
    }
  }

  /** Every key of a permutation of `s` plus `x` is bounded by what bounds the keys of `s` and `x`. */
  lemma {:induction false} KeysBounded<T>(s: seq<T>, x: T, r: seq<T>, key: T -> int, bound: int)
    requires multiset(r) == multiset(s) + multiset{x}
    requires key(x) <= bound && forall i :: 0 <= i < |s| ==> key(s[i]) <= bound
    ensures forall i :: 0 <= i < |r| ==> key(r[i]) <= bound
  {
    forall i | 0 <= i < |r| ensures key(r[i]) <= bound {
      assert r[i] in multiset(r);
      if r[i] != x {
        assert r[i] in multiset(s);
        var j :| 0 <= j < |s| && s[j] == r[i];
      }
    }
  }

  /** The stable descending sort: elements are inserted in their original order. */
  function SortDescending<T>(s: seq<T>, key: T -> int): (r: seq<T>)
    ensures SortedDescending(r, key)
    ensures multiset(r) == multiset(s)
    ensures |r| == |s|
  {
    if s == [] then []
    else
      var init := s[..|s| - 1];
      assert s == init + [s[|s| - 1]];
      InsertDescending(SortDescending(init, key), s[|s| - 1], key)
  }
}
