/**
 * The dictionary a `forEach` or `reduce` fills in place:
 *
 *   if (!acc[key]) acc[key] = { name, count: 0, total: 0 };
 *   acc[key].count++; acc[key].total += value;
 *
 * JavaScript objects keep string keys in insertion order, so the dictionary is
 * a sequence of groups in order of first appearance; `Object.values` and
 * `Object.entries` read it in that order.
 */
module Grouping {

  /** One input row: its grouping key, a name taken from the first row of a key, and a number to add up. */
  datatype Item<K, L> = Item(key: K, name: L, value: real)

  /** One dictionary entry. */
  datatype Group<K, L> = Group(key: K, name: L, count: nat, total: real)

  /** Position of key `k` in the dictionary, or -1 when absent. */
  function Find<K(==), L>(groups: seq<Group<K, L>>, k: K): (r: int)
    ensures -1 <= r < |groups|
    ensures r == -1 ==> forall i :: 0 <= i < |groups| ==> groups[i].key != k
    ensures r >= 0 ==> groups[r].key == k
    decreases |groups|
  {
    if groups == [] then -1
    else if groups[|groups| - 1].key == k then |groups| - 1
    else Find(groups[..|groups| - 1], k)
  }

  /** One step of the `forEach`: bump the entry for the item's key, or append a fresh one. */
  function Add<K(==), L>(groups: seq<Group<K, L>>, it: Item<K, L>): seq<Group<K, L>> {
    var i := Find(groups, it.key);
    if i < 0 then groups + [Group(it.key, it.name, 1, it.value)]
    else groups[i := groups[i].(count := groups[i].count + 1, total := groups[i].total + it.value)]
  }

  /** The dictionary after the whole `forEach`. */
  function GroupAll<K(==), L>(items: seq<Item<K, L>>): seq<Group<K, L>>
    decreases |items|
  {
    if items == [] then [] else Add(GroupAll(items[..|items| - 1]), items[|items| - 1])
  }

  // ----- reference definitions over the input rows -----

  function CountKey<K(==), L>(items: seq<Item<K, L>>, k: K): nat
    decreases |items|
  {
    if items == [] then 0
    else CountKey(items[..|items| - 1], k) + (if items[|items| - 1].key == k then 1 else 0)
  }

  function SumKey<K(==), L>(items: seq<Item<K, L>>, k: K): real
    decreases |items|
  {
    if items == [] then 0.0
    else SumKey(items[..|items| - 1], k) + (if items[|items| - 1].key == k then items[|items| - 1].value else 0.0)
  }

  /** Index of the first row with key `k`, or -1. */
  function FirstIndex<K(==), L>(items: seq<Item<K, L>>, k: K): (r: int)
    ensures -1 <= r < |items|
    ensures r >= 0 ==> items[r].key == k
    decreases |items|
  {
    if items == [] then -1
    else
      var f := FirstIndex(items[..|items| - 1], k);
      if f >= 0 then f else if items[|items| - 1].key == k then |items| - 1 else -1
  }

  function SumValues<K, L>(items: seq<Item<K, L>>): real
    decreases |items|
  {
    if items == [] then 0.0 else SumValues(items[..|items| - 1]) + items[|items| - 1].value
  }

  function SumCounts<K, L>(groups: seq<Group<K, L>>): nat
    decreases |groups|
  {
    if groups == [] then 0 else SumCounts(groups[..|groups| - 1]) + groups[|groups| - 1].count
  }

  function SumTotals<K, L>(groups: seq<Group<K, L>>): real
    decreases |groups|
  {
    if groups == [] then 0.0 else SumTotals(groups[..|groups| - 1]) + groups[|groups| - 1].total
  }

  predicate DistinctKeys<K(==), L>(groups: seq<Group<K, L>>) {
    forall i, j :: 0 <= i < j < |groups| ==> groups[i].key != groups[j].key
  }

  /** What every entry of the dictionary holds, in terms of the input rows. */
  ghost predicate Describes<K(!new), L>(groups: seq<Group<K, L>>, items: seq<Item<K, L>>) {
    && DistinctKeys(groups)
    && (forall k :: Find(groups, k) >= 0 <==> CountKey(items, k) > 0)
    && (forall i :: 0 <= i < |groups| ==>
          && groups[i].count == CountKey(items, groups[i].key)
          && groups[i].total == SumKey(items, groups[i].key)
          && FirstIndex(items, groups[i].key) >= 0
          && groups[i].name == items[FirstIndex(items, groups[i].key)].name)
  }

  lemma FirstIndexPresent<K, L>(items: seq<Item<K, L>>, k: K)
    ensures FirstIndex(items, k) >= 0 <==> CountKey(items, k) > 0
    decreases |items|
  {
    if items != [] {
      FirstIndexPresent(items[..|items| - 1], k);
    }
  }

  /** Every key that occurs in the rows is counted at least once. */
  lemma {:induction false} CountKeyMember<K, L>(items: seq<Item<K, L>>, j: nat)
    requires j < |items|
    ensures CountKey(items, items[j].key) > 0
    decreases |items|
  {
    if j < |items| - 1 {
      assert items[..|items| - 1][j] == items[j];
      CountKeyMember(items[..|items| - 1], j);
    }
  }

  lemma {:induction false} SumCountsUpdate<K, L>(groups: seq<Group<K, L>>, i: nat, g: Group<K, L>)
    requires i < |groups|
    ensures SumCounts(groups[i := g]) == SumCounts(groups) - groups[i].count + g.count
    ensures SumTotals(groups[i := g]) == SumTotals(groups) - groups[i].total + g.total
    decreases |groups|
  {
    var n := |groups|;
    if i < n - 1 {
      SumCountsUpdate(groups[..n - 1], i, g);
      assert groups[i := g][..n - 1] == groups[..n - 1][i := g];
    } else {
      assert groups[i := g][..n - 1] == groups[..n - 1];
    }
  }

  lemma SumKeyAbsent<K, L>(items: seq<Item<K, L>>, k: K)
    requires CountKey(items, k) == 0
    ensures SumKey(items, k) == 0.0
    decreases |items|
  {
    if items != [] {
      SumKeyAbsent(items[..|items| - 1], k);
    }
  }

  lemma SumsAppend<K, L>(groups: seq<Group<K, L>>, g: Group<K, L>)
    ensures SumCounts(groups + [g]) == SumCounts(groups) + g.count
    ensures SumTotals(groups + [g]) == SumTotals(groups) + g.total
  {
    assert (groups + [g])[..|groups|] == groups;
  }

  lemma SnocFacts<K, L>(prev: seq<Item<K, L>>, it: Item<K, L>, k: K)
    ensures CountKey(prev + [it], k) == CountKey(prev, k) + (if it.key == k then 1 else 0)
    ensures SumKey(prev + [it], k) == SumKey(prev, k) + (if it.key == k then it.value else 0.0)
    ensures FirstIndex(prev + [it], k) ==
      (if FirstIndex(prev, k) >= 0 then FirstIndex(prev, k) else if it.key == k then |prev| else -1)
    ensures SumValues(prev + [it]) == SumValues(prev) + it.value
  {
    assert (prev + [it])[..|prev|] == prev;
  }

  lemma FindUpdate<K, L>(groups: seq<Group<K, L>>, i: nat, g: Group<K, L>, k: K)
    requires i < |groups| && g.key == groups[i].key
    ensures Find(groups[i := g], k) == Find(groups, k)
    decreases |groups|
  {
    var n := |groups|;
    if i < n - 1 {
      FindUpdate(groups[..n - 1], i, g, k);
      assert groups[i := g][..n - 1] == groups[..n - 1][i := g];
    } else {
      assert groups[i := g][..n - 1] == groups[..n - 1];
    }
  }

  lemma FindAppend<K, L>(groups: seq<Group<K, L>>, g: Group<K, L>, k: K)
    ensures Find(groups + [g], k) == if g.key == k then |groups| else Find(groups, k)
  {
    assert (groups + [g])[..|groups|] == groups;
  }

  /** One step of the `forEach` keeps the dictionary describing the rows seen so far. */
  lemma AddDescribes<K(!new), L>(g: seq<Group<K, L>>, prev: seq<Item<K, L>>, it: Item<K, L>)
    requires Describes(g, prev)
    ensures Describes(Add(g, it), prev + [it])
  {
    AddKeys(g, prev, it);
    AddEntries(g, prev, it);
    if Find(g, it.key) < 0 {
      assert CountKey(prev, it.key) == 0;
    }
  }

  lemma AddKeys<K(!new), L>(g: seq<Group<K, L>>, prev: seq<Item<K, L>>, it: Item<K, L>)
    requires Describes(g, prev)
    ensures forall k :: Find(Add(g, it), k) >= 0 <==> CountKey(prev + [it], k) > 0
  {
    var g' := Add(g, it);
    var i := Find(g, it.key);
    forall k ensures Find(g', k) >= 0 <==> CountKey(prev + [it], k) > 0 {
      SnocFacts(prev, it, k);
      if i < 0 {
        FindAppend(g, Group(it.key, it.name, 1, it.value), k);
      } else {
        FindUpdate(g, i, g'[i], k);
      }
    }
  }

  lemma AddEntries<K(!new), L>(g: seq<Group<K, L>>, prev: seq<Item<K, L>>, it: Item<K, L>)
    requires Describes(g, prev)
    ensures var g', items := Add(g, it), prev + [it];
      forall j :: 0 <= j < |g'| ==>
        && g'[j].count == CountKey(items, g'[j].key)
        && g'[j].total == SumKey(items, g'[j].key)
        && FirstIndex(items, g'[j].key) >= 0
        && g'[j].name == items[FirstIndex(items, g'[j].key)].name
  {
    var items := prev + [it];
    var g' := Add(g, it);
    forall j | 0 <= j < |g'|
      ensures g'[j].count == CountKey(items, g'[j].key)
      ensures g'[j].total == SumKey(items, g'[j].key)
      ensures FirstIndex(items, g'[j].key) >= 0
      ensures g'[j].name == items[FirstIndex(items, g'[j].key)].name
    {
      SnocFacts(prev, it, g'[j].key);
      FirstIndexPresent(prev, g'[j].key);
      if j < |g| {
        assert g[j].key == g'[j].key;
      } else {
        SumKeyAbsent(prev, it.key);
      }
    }
  }

  /** The dictionary is exactly the per-key count, total and first name of the rows. */
  lemma {:induction false} GroupAllDescribes<K(!new), L>(items: seq<Item<K, L>>)
    ensures Describes(GroupAll(items), items)
    decreases |items|
  {
    if items != [] {
      var n := |items|;
      GroupAllDescribes(items[..n - 1]);
      AddDescribes(GroupAll(items[..n - 1]), items[..n - 1], items[n - 1]);
      assert items[..n - 1] + [items[n - 1]] == items;
    }
  }

  /** The dictionary's entries come in the order in which their keys first occur among the rows. */
  predicate FirstSeenOrder<K(==), L>(groups: seq<Group<K, L>>, items: seq<Item<K, L>>) {
    forall i, j :: 0 <= i < j < |groups| ==> FirstIndex(items, groups[i].key) < FirstIndex(items, groups[j].key)
  }

  /** The first row of a key comes no later than any row carrying it. */
  lemma {:induction false} FirstIndexAtMost<K, L>(items: seq<Item<K, L>>, j: nat)
    requires j < |items|
    ensures 0 <= FirstIndex(items, items[j].key) <= j
    decreases |items|
  {
    var n := |items|;
    if j < n - 1 {
      assert items[..n - 1][j] == items[j];
      FirstIndexAtMost(items[..n - 1], j);
    }
  }

  /** One step of the `forEach` keeps the entries in first-appearance order: a new key is appended last. */
  lemma AddOrdered<K(!new), L>(g: seq<Group<K, L>>, prev: seq<Item<K, L>>, it: Item<K, L>)
    requires Describes(g, prev) && FirstSeenOrder(g, prev)
    ensures FirstSeenOrder(Add(g, it), prev + [it])
  {
    var g', items := Add(g, it), prev + [it];
    forall j | 0 <= j < |g'|
      ensures FirstIndex(items, g'[j].key) == if j < |g| then FirstIndex(prev, g[j].key) else |prev|
      ensures j < |g| ==> 0 <= FirstIndex(prev, g[j].key) < |prev|
    {
      SnocFacts(prev, it, g'[j].key);
      if j < |g| {
        assert g'[j].key == g[j].key;
      } else {
        assert CountKey(prev, it.key) == 0;
        FirstIndexPresent(prev, it.key);
      }
    }
  }

  /** The filled dictionary lists its keys in the order of their first rows, as `Object.values` reads it. */
  lemma {:induction false} GroupAllOrdered<K(!new), L>(items: seq<Item<K, L>>)
    ensures FirstSeenOrder(GroupAll(items), items)
    decreases |items|
  {
    if items != [] {
      var n := |items|;
      GroupAllOrdered(items[..n - 1]);
      GroupAllDescribes(items[..n - 1]);
      AddOrdered(GroupAll(items[..n - 1]), items[..n - 1], items[n - 1]);
      assert items[..n - 1] + [items[n - 1]] == items;
    }
  }

  /** Every item's key has a group. */
  lemma GroupAllCovers<K(!new), L>(items: seq<Item<K, L>>)
    ensures forall m :: 0 <= m < |items| ==> Find(GroupAll(items), items[m].key) >= 0
  {
    GroupAllDescribes(items);
    forall m | 0 <= m < |items| ensures Find(GroupAll(items), items[m].key) >= 0 {
      CountKeyMember(items, m);
    }
  }

  lemma AddSums<K, L>(g: seq<Group<K, L>>, it: Item<K, L>)
    ensures SumCounts(Add(g, it)) == SumCounts(g) + 1
    ensures SumTotals(Add(g, it)) == SumTotals(g) + it.value
  {
    var i := Find(g, it.key);
    if i < 0 {
      SumsAppend(g, Group(it.key, it.name, 1, it.value));
    } else {
      SumCountsUpdate(g, i, g[i].(count := g[i].count + 1, total := g[i].total + it.value));
    }
  }

  /** Counting every row exactly once: the entry counts add up to the number of rows, the totals to the sum of the values. */
  lemma {:induction false} GroupAllSums<K, L>(items: seq<Item<K, L>>)
    ensures SumCounts(GroupAll(items)) == |items|
    ensures SumTotals(GroupAll(items)) == SumValues(items)
    decreases |items|
  {
    if items != [] {
      var n := |items|;
      GroupAllSums(items[..n - 1]);
      AddSums(GroupAll(items[..n - 1]), items[n - 1]);
    }
  }

  /** The `forEach` loop itself, filling the dictionary one row at a time. */
  method GroupLoop<K(==), L>(items: seq<Item<K, L>>) returns (groups: seq<Group<K, L>>)
    ensures groups == GroupAll(items)
  {
    groups := [];
    var i := 0;
    while i < |items|
      invariant 0 <= i <= |items|
      invariant groups == GroupAll(items[..i])
    {
      assert items[..i + 1][..i] == items[..i];
      groups := Add(groups, items[i]);
      i := i + 1;
    }
    assert items[..|items|] == items;
  }
}
