/**
 * Plain objects used as ordered dictionaries from a string key to a list, as the
 * components build them with `reduce` (`(acc[k] = acc[k] || []).push(x)`) and
 * filter them with `for...in`. String keys that are not array indices keep their
 * insertion order in JavaScript, which the sequence of pairs makes explicit.
 */
module Grouping {
  import opened Collections

  type Groups<T> = seq<(string, seq<T>)>

  function Keys<T>(g: Groups<T>): (ks: seq<string>)
    ensures |ks| == |g|
    ensures forall i :: 0 <= i < |g| ==> ks[i] == g[i].0
  {
    if g == [] then [] else [g[0].0] + Keys(g[1..])
  }

  /** `obj[k] || []`. */
  function Lookup<T>(g: Groups<T>, k: string): seq<T> {
    if g == [] then [] else if g[0].0 == k then g[0].1 else Lookup(g[1..], k)
  }

  lemma {:induction false} LookupAbsent<T>(g: Groups<T>, k: string)
    requires k !in Keys(g)
    ensures Lookup(g, k) == []
  {
    if g != [] {
      assert Keys(g[1..]) == Keys(g)[1..];
      LookupAbsent(g[1..], k);
    }
  }

  lemma {:induction false} LookupAt<T>(g: Groups<T>, i: nat)
    requires i < |g| && NoDuplicates(Keys(g))
    ensures Lookup(g, g[i].0) == g[i].1
  {
    if i > 0 {
      assert Keys(g[1..]) == Keys(g)[1..];
      assert Keys(g)[0] != Keys(g)[i];
      LookupAt(g[1..], i - 1);
    }
  }

  /** The predicate "has key `k`", as one term so that every mention of it is the same function. */
  function HasKey<T>(key: T -> string, k: string): T -> bool {
    x => key(x) == k
  }

  /** `(acc[k] = acc[k] || []).push(x)`: appends to the list under `k`, creating it at the end if absent. */
  function AddToGroup<T>(g: Groups<T>, k: string, x: T): (r: Groups<T>)
    ensures k in Keys(g) ==> Keys(r) == Keys(g)
    ensures k !in Keys(g) ==> Keys(r) == Keys(g) + [k]
    ensures Lookup(r, k) == Lookup(g, k) + [x]
    ensures forall k' :: k' != k ==> Lookup(r, k') == Lookup(g, k')
  {
    if g == [] then [(k, [x])]
    else if g[0].0 == k then [(k, g[0].1 + [x])] + g[1..]
    else
      var r := [g[0]] + AddToGroup(g[1..], k, x);
      assert Keys(g) == [g[0].0] + Keys(g[1..]);
      r
  }

  /** `items.reduce((acc, x) => { (acc[key(x)] = acc[key(x)] || []).push(x); return acc; }, {})`. */
  function GroupBy<T>(items: seq<T>, key: T -> string): Groups<T> {
    if items == [] then []
    else AddToGroup(GroupBy(items[..|items| - 1], key), key(items[|items| - 1]), items[|items| - 1])
  }

  /** `findIndex` on an extended sequence is unchanged when the prefix already has a match. */
  lemma {:induction false} FindIndexAppend<T>(s: seq<T>, x: T, p: T -> bool)
    ensures FindIndex(s + [x], p) == if FindIndex(s, p) >= 0 then FindIndex(s, p) else if p(x) then |s| else -1
  {
    var r := FindIndex(s + [x], p);
    assert forall i :: 0 <= i < |s| ==> (s + [x])[i] == s[i];
    if FindIndex(s, p) >= 0 {
      var k := FindIndex(s, p);
      assert (s + [x])[k] == s[k];
    } else if p(x) {
      assert (s + [x])[|s|] == x;
    }
  }

  /** Under each key the grouping holds exactly the items with that key, in their original order. */
  lemma {:induction false} GroupByLookup<T>(items: seq<T>, key: T -> string, k: string)
    ensures Lookup(GroupBy(items, key), k) == Filter(items, HasKey(key, k))
  {
    if items != [] {
      var init, x := items[..|items| - 1], items[|items| - 1];
      assert items == init + [x];
      GroupByLookup(init, key, k);
      FilterAppend(init, [x], HasKey(key, k));
    }
  }

  /** Every item's key is a key of the grouping. */
  lemma {:induction false} GroupByKeyPresent<T>(items: seq<T>, key: T -> string, x: T)
    requires x in items
    ensures key(x) in Keys(GroupBy(items, key))
  {
    var init, last := items[..|items| - 1], items[|items| - 1];
    assert items == init + [last];
    if x != last {
      assert x in init;
      GroupByKeyPresent(init, key, x);
    }
  }

  /** Every key of the grouping is the key of some item. */
  lemma {:induction false} GroupByKeyHasItem<T>(items: seq<T>, key: T -> string, k: string)
    requires k in Keys(GroupBy(items, key))
    ensures exists x :: x in items && key(x) == k
  {
    assert items != [];
    var init, x := items[..|items| - 1], items[|items| - 1];
    assert GroupBy(items, key) == AddToGroup(GroupBy(init, key), key(x), x);
    if k == key(x) {
      assert x in items;
    } else {
      assert k in Keys(GroupBy(init, key));
      GroupByKeyHasItem(init, key, k);
      var y :| y in init && key(y) == k;
      var m :| 0 <= m < |init| && init[m] == y;
      assert items[m] == y;
    }
  }

  /** The keys of the grouping are exactly the keys of the items. */
  lemma {:induction false} GroupByKeys<T>(items: seq<T>, key: T -> string)
    ensures forall x :: x in items ==> key(x) in Keys(GroupBy(items, key))
    ensures forall k :: k in Keys(GroupBy(items, key)) ==> exists x :: x in items && key(x) == k
  {
    forall y | y in items ensures key(y) in Keys(GroupBy(items, key)) {
      GroupByKeyPresent(items, key, y);
    }
    forall k | k in Keys(GroupBy(items, key)) ensures exists y :: y in items && key(y) == k {
      GroupByKeyHasItem(items, key, k);
    }
  }

  /** No key is repeated. */
  lemma {:induction false} GroupByDistinctKeys<T>(items: seq<T>, key: T -> string)
    ensures NoDuplicates(Keys(GroupBy(items, key)))
  {
    if items != [] {
      var init, x := items[..|items| - 1], items[|items| - 1];
      GroupByDistinctKeys(init, key);
      var ks, ks' := Keys(GroupBy(init, key)), Keys(GroupBy(items, key));
      if key(x) !in ks {
        forall i, j | 0 <= i < j < |ks'| ensures ks'[i] != ks'[j] {
          if j < |ks| { assert ks'[i] == ks[i] && ks'[j] == ks[j]; } else { assert ks'[i] in ks; }
        }
      }
    }
  }

  /** Appending an item does not move the first item of a key the grouping already has. */
  lemma {:induction false} FirstOfKeyStable<T>(init: seq<T>, x: T, key: T -> string, k: string)
    requires k in Keys(GroupBy(init, key))
    ensures 0 <= FindIndex(init, HasKey(key, k)) == FindIndex(init + [x], HasKey(key, k))
  {
    GroupByKeys(init, key);
    FindIndexAppend(init, x, HasKey(key, k));
    var y :| y in init && key(y) == k;
    var m :| 0 <= m < |init| && init[m] == y;
    assert HasKey(key, k)(init[m]);
  }

  /** An item whose key is new to the grouping is the first item with that key. */
  lemma {:induction false} NewKeyFirstAtEnd<T>(init: seq<T>, x: T, key: T -> string)
    requires key(x) !in Keys(GroupBy(init, key))
    ensures FindIndex(init + [x], HasKey(key, key(x))) == |init|
  {
    forall i | 0 <= i < |init| ensures key(init[i]) != key(x) {
      GroupByKeyPresent(init, key, init[i]);
    }
    FindIndexAppend(init, x, HasKey(key, key(x)));
  }

  predicate OrderedByFirstItem<T>(items: seq<T>, key: T -> string, ks: seq<string>) {
    forall i, j :: 0 <= i < j < |ks| ==> 0 <= FindIndex(items, HasKey(key, ks[i])) < FindIndex(items, HasKey(key, ks[j]))
  }

  /** Keys come in the order in which their first item appears. */
  lemma {:induction false} GroupByKeyOrder<T>(items: seq<T>, key: T -> string)
    ensures OrderedByFirstItem(items, key, Keys(GroupBy(items, key)))
  {
    if items != [] {
      var init, x := items[..|items| - 1], items[|items| - 1];
      assert items == init + [x];
      GroupByKeyOrder(init, key);
      var ks' := Keys(GroupBy(items, key));
      forall i, j | 0 <= i < j < |ks'|
        ensures 0 <= FindIndex(items, HasKey(key, ks'[i])) < FindIndex(items, HasKey(key, ks'[j]))
      {
        KeyOrderStep(init, x, key, i, j);
      }
    }
  }

  lemma {:induction false} KeyOrderStep<T>(init: seq<T>, x: T, key: T -> string, i: nat, j: nat)
    requires OrderedByFirstItem(init, key, Keys(GroupBy(init, key)))
    requires i < j < |Keys(GroupBy(init + [x], key))|
    ensures var ks' := Keys(GroupBy(init + [x], key));
      0 <= FindIndex(init + [x], HasKey(key, ks'[i])) < FindIndex(init + [x], HasKey(key, ks'[j]))
  {
    var items := init + [x];
    assert GroupBy(items, key) == AddToGroup(GroupBy(init, key), key(x), x) by {
      assert items[..|items| - 1] == init && items[|items| - 1] == x;
    }
    var ks, ks' := Keys(GroupBy(init, key)), Keys(GroupBy(items, key));
    assert ks'[i] == ks[i];
    assert 0 <= FindIndex(init, HasKey(key, ks[i])) == FindIndex(items, HasKey(key, ks[i])) by {
      FirstOfKeyStable(init, x, key, ks[i]);
    }
    if j < |ks| {
      assert ks'[j] == ks[j];
      assert FindIndex(init, HasKey(key, ks[j])) == FindIndex(items, HasKey(key, ks[j])) by {
        FirstOfKeyStable(init, x, key, ks[j]);
      }
    } else {
      assert ks'[j] == key(x) && key(x) !in ks;
      assert FindIndex(items, HasKey(key, key(x))) == |init| by {
        NewKeyFirstAtEnd(init, x, key);
      }
    }
  }

  /** The entry for one key after filtering: its surviving items, or nothing when none survive. */
  function KeptEntry<T>(entry: (string, seq<T>), keep: T -> bool): (r: Groups<T>)
    ensures |r| <= 1
    ensures r != [] <==> Filter(entry.1, keep) != []
    ensures r != [] ==> r[0] == (entry.0, Filter(entry.1, keep))
  {
    var items := Filter(entry.1, keep);
    if items != [] then [(entry.0, items)] else []
  }

  /**
   * The `for...in` filter: each list is filtered with `keep` and a key whose list
   * becomes empty is left out.
   */
  function FilterGroups<T>(g: Groups<T>, keep: T -> bool): (r: Groups<T>)
    ensures |r| <= |g|
    ensures forall i :: 0 <= i < |r| ==> r[i].1 != []
  {
    if g == [] then [] else KeptEntry(g[0], keep) + FilterGroups(g[1..], keep)
  }

  lemma {:induction false} FilterGroupsAppend<T>(a: Groups<T>, b: Groups<T>, keep: T -> bool)
    ensures FilterGroups(a + b, keep) == FilterGroups(a, keep) + FilterGroups(b, keep)
  {
    if a == [] {
      assert a + b == b;
    } else {
      assert (a + b)[1..] == a[1..] + b;
      FilterGroupsAppend(a[1..], b, keep);
    }
  }

  /** One step of the `for...in` filter: the next key's list is filtered and kept when non-empty. */
  lemma {:induction false} FilterGroupsStep<T>(g: Groups<T>, i: nat, keep: T -> bool)
    requires i < |g|
    ensures FilterGroups(g[..i + 1], keep) == FilterGroups(g[..i], keep) + KeptEntry(g[i], keep)
  {
    assert g[..i + 1] == g[..i] + [g[i]];
    FilterGroupsAppend(g[..i], [g[i]], keep);
  }

  lemma {:induction false} KeysTail<T>(g: Groups<T>)
    requires g != [] && NoDuplicates(Keys(g))
    ensures Keys(g[1..]) == Keys(g)[1..]
    ensures NoDuplicates(Keys(g[1..])) && g[0].0 !in Keys(g[1..])
  {
    assert Keys(g[1..]) == Keys(g)[1..];
    forall j | 0 <= j < |g| - 1 ensures Keys(g[1..])[j] != g[0].0 {
      assert Keys(g)[j + 1] == Keys(g[1..])[j];
    }
  }

  /** Filtering introduces no key. */
  lemma {:induction false} FilterGroupsNoNewKey<T>(g: Groups<T>, keep: T -> bool, k: string)
    requires k !in Keys(g)
    ensures k !in Keys(FilterGroups(g, keep))
  {
    if g != [] {
      assert Keys(g[1..]) == Keys(g)[1..];
      FilterGroupsNoNewKey(g[1..], keep, k);
      KeysAppend(KeptEntry(g[0], keep), FilterGroups(g[1..], keep));
    }
  }

  /** After filtering, a key holds exactly its surviving items. */
  lemma {:induction false} FilterGroupsLookup<T>(g: Groups<T>, keep: T -> bool, k: string)
    requires NoDuplicates(Keys(g))
    ensures Lookup(FilterGroups(g, keep), k) == Filter(Lookup(g, k), keep)
  {
    if g != [] {
      var rest := g[1..];
      KeysTail(g);
      FilterGroupsLookup(rest, keep, k);
      var head := KeptEntry(g[0], keep);
      if head == [] {
        assert FilterGroups(g, keep) == FilterGroups(rest, keep);
        if k == g[0].0 {
          FilterGroupsNoNewKey(rest, keep, k);
          LookupAbsent(FilterGroups(rest, keep), k);
        }
      } else {
        assert FilterGroups(g, keep) == [head[0]] + FilterGroups(rest, keep);
      }
    }
  }

  /** After filtering, a key is present exactly when some of its items survive. */
  lemma {:induction false} FilterGroupsKeys<T>(g: Groups<T>, keep: T -> bool, k: string)
    requires NoDuplicates(Keys(g))
    ensures k in Keys(FilterGroups(g, keep)) <==> k in Keys(g) && Filter(Lookup(g, k), keep) != []
  {
    if g != [] {
      var rest := g[1..];
      KeysTail(g);
      FilterGroupsKeys(rest, keep, k);
      KeysAppend(KeptEntry(g[0], keep), FilterGroups(rest, keep));
      assert k in Keys(g) <==> k == g[0].0 || k in Keys(rest);
      if k == g[0].0 {
        FilterGroupsNoNewKey(rest, keep, k);
      }
    }
  }

  /** Filtering keeps the keys distinct. */
  lemma {:induction false} FilterGroupsDistinct<T>(g: Groups<T>, keep: T -> bool)
    requires NoDuplicates(Keys(g))
    ensures NoDuplicates(Keys(FilterGroups(g, keep)))
  {
    if g != [] {
      var rest := g[1..];
      KeysTail(g);
      FilterGroupsDistinct(rest, keep);
      FilterGroupsNoNewKey(rest, keep, g[0].0);
      var head := KeptEntry(g[0], keep);
      KeysAppend(head, FilterGroups(rest, keep));
      var ks := Keys(FilterGroups(g, keep));
      forall i, j | 0 <= i < j < |ks| ensures ks[i] != ks[j] {
        if head != [] && i == 0 {
          assert ks[j] == Keys(FilterGroups(rest, keep))[j - 1];
        }
      }
    }
  }

  lemma {:induction false} KeysAppend<T>(a: Groups<T>, b: Groups<T>)
    ensures Keys(a + b) == Keys(a) + Keys(b)
  {
  }

  /** Every item of every group through `f`, group by group, in order. */
  function MapItems<T, U>(g: Groups<T>, f: T -> U): seq<U> {
    if g == [] then []
    else seq(|g[0].1|, k requires 0 <= k < |g[0].1| => f(g[0].1[k])) + MapItems(g[1..], f)
  }

  ghost predicate InGroups<T>(g: Groups<T>, x: T) {
    exists i :: 0 <= i < |g| && x in g[i].1
  }

  /** The mapped items are exactly the images of the items of the groups. */
  lemma {:induction false} MapItemsMembers<T, U>(g: Groups<T>, f: T -> U, y: U)
    ensures y in MapItems(g, f) <==> exists x :: InGroups(g, x) && y == f(x)
  {
    if g != [] {
      var items := g[0].1;
      var head := seq(|items|, k requires 0 <= k < |items| => f(items[k]));
      var rest := g[1..];
      MapItemsMembers(rest, f, y);
      assert MapItems(g, f) == head + MapItems(rest, f);
      if y in head {
        var k :| 0 <= k < |head| && head[k] == y;
        assert InGroups(g, items[k]);
      } else if y in MapItems(rest, f) {
        var x :| InGroups(rest, x) && y == f(x);
        var i :| 0 <= i < |rest| && x in rest[i].1;
        assert g[i + 1] == rest[i];
      }
      if exists x :: InGroups(g, x) && y == f(x) {
        var x :| InGroups(g, x) && y == f(x);
        var i :| 0 <= i < |g| && x in g[i].1;
        if i == 0 {
          var k :| 0 <= k < |items| && items[k] == x;
          assert head[k] == y;
        } else {
          assert rest[i - 1] == g[i];
          assert InGroups(rest, x);
        }
      }
    }
  }
}
