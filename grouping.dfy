/** Python's "dict of lists" idiom, `groups.setdefault(k, []).append(v)`
    over a sequence of items: the keys in first-insertion order and, under
    each key, the items that carry it in input order. The trace grouping of
    the log parser, the prompt buckets of the retry-loop detector and the
    suppression breakdown are all instances. */
module Grouping {
  import opened Common

  datatype Groups<K, V> = Groups(order: seq<K>, members: map<K, seq<V>>)

  /** Append `v` to the list under `k`, creating the key at the end of the
      insertion order when it is new. */
  function Add<K, V>(g: Groups<K, V>, k: K, v: V): Groups<K, V> {
    if k in g.members then Groups(g.order, g.members[k := g.members[k] + [v]])
    else Groups(g.order + [k], g.members[k := [v]])
  }

  /** Group `items` by `key`; an item whose key is `None` is skipped. */
  function GroupBy<K, V>(items: seq<V>, key: V -> Option<K>): Groups<K, V> {
    if items == [] then Groups([], map[])
    else
      var g := GroupBy(items[..|items| - 1], key);
      var v := items[|items| - 1];
      match key(v)
      case None => g
      case Some(k) => Add(g, k, v)
  }

  /** The keys of the items that have one, in input order. */
  function KeySeq<K, V>(items: seq<V>, key: V -> Option<K>): seq<K> {
    if items == [] then [] else
      var init := KeySeq(items[..|items| - 1], key);
      match key(items[|items| - 1])
      case None => init
      case Some(k) => init + [k]
  }

  /** The items whose key is `k`, in input order. */
  function Keyed<K(==), V>(items: seq<V>, key: V -> Option<K>, k: K): seq<V> {
    Filter(items, v => key(v) == Some(k))
  }

  /** Sum of the list lengths over the insertion order. */
  function TotalSize<K, V>(g: Groups<K, V>): int {
    SumOf(g.order, k => if k in g.members then |g.members[k]| else 0)
  }

  /** Appending one item to the input appends it to the items of its own key
      and leaves every other key's items alone. */
  lemma KeyedSnoc<K, V>(init: seq<V>, v: V, key: V -> Option<K>, k: K)
    ensures Keyed(init + [v], key, k) == Keyed(init, key, k) + (if key(v) == Some(k) then [v] else [])
  {
    assert (init + [v])[..|init + [v]| - 1] == init;
  }

  /** An item is under key `k` exactly when it is one of the items and
      its key is `k`. */
  lemma {:induction false} KeyedMembers<K, V>(items: seq<V>, key: V -> Option<K>, k: K)
    ensures forall v :: v in Keyed(items, key, k) <==> v in items && key(v) == Some(k)
  {
    if items != [] {
      var init := items[..|items| - 1];
      var v := items[|items| - 1];
      assert items == init + [v];
      KeyedMembers(init, key, k);
      KeyedSnoc(init, v, key, k);
    }
  }

  lemma KeySeqSnoc<K, V>(init: seq<V>, v: V, key: V -> Option<K>)
    ensures KeySeq(init + [v], key) == KeySeq(init, key) + (if key(v).Some? then [key(v).value] else [])
  {
    assert (init + [v])[..|init + [v]| - 1] == init;
  }

  /** The insertion order is the distinct keys of the items in order of first
      appearance, and the keys of the dict are exactly those. */
  lemma GroupByOrder<K(!new), V>(items: seq<V>, key: V -> Option<K>)
    ensures GroupBy(items, key).order == Dedup(KeySeq(items, key))
    ensures Distinct(GroupBy(items, key).order)
    ensures forall k :: k in GroupBy(items, key).members <==> k in GroupBy(items, key).order
  {
    GroupByOrderIsDedup(items, key);
    DedupFacts(KeySeq(items, key));
  }

  lemma {:induction false} GroupByOrderIsDedup<K(!new), V>(items: seq<V>, key: V -> Option<K>)
    ensures GroupBy(items, key).order == Dedup(KeySeq(items, key))
    ensures forall k :: k in GroupBy(items, key).members <==> k in GroupBy(items, key).order
  {
    if items != [] {
      var init := items[..|items| - 1];
      var v := items[|items| - 1];
      GroupByOrderIsDedup(init, key);
      var ks := KeySeq(init, key);
      if key(v).Some? {
        var k0 := key(v).value;
        assert KeySeq(items, key) == ks + [k0];
        assert (ks + [k0])[..|ks|] == ks;
      }
    }
  }


  /** Under each key the dict holds exactly the items with that key, in input
      order, and never an empty list; a key the dict lacks has no items. */
  lemma {:induction false} GroupByMembers<K(!new), V>(items: seq<V>, key: V -> Option<K>)
    ensures forall k :: k in GroupBy(items, key).members ==>
      GroupBy(items, key).members[k] == Keyed(items, key, k) && GroupBy(items, key).members[k] != []
    ensures forall k :: k !in GroupBy(items, key).members ==> Keyed(items, key, k) == []
  {
    if items != [] {
      var init := items[..|items| - 1];
      var v := items[|items| - 1];
      assert items == init + [v];
      var g0 := GroupBy(init, key);
      var g := GroupBy(items, key);
      GroupByMembers(init, key);
      forall k
        ensures k in g.members ==> g.members[k] == Keyed(items, key, k) && g.members[k] != []
        ensures k !in g.members ==> Keyed(items, key, k) == []
      {
        KeyedSnoc(init, v, key, k);
        if key(v) == Some(k) {
          if k !in g0.members {
            assert g.members[k] == [v];
          }
        } else if k in g.members {
          assert k in g0.members && g.members[k] == g0.members[k];
        }
      }
    }
  }

  /** No item is lost or counted twice: the list lengths, summed over the
      insertion order, equal the number of items that have a key. */
  lemma {:induction false} GroupByTotal<K(!new), V>(items: seq<V>, key: V -> Option<K>)
    ensures TotalSize(GroupBy(items, key)) == |KeySeq(items, key)|
  {
    if items != [] {
      var init := items[..|items| - 1];
      var v := items[|items| - 1];
      assert items == init + [v];
      var g0 := GroupBy(init, key);
      var g := GroupBy(items, key);
      GroupByTotal(init, key);
      GroupByOrder(init, key);
      KeySeqSnoc(init, v, key);
      if key(v).Some? {
        var k0 := key(v).value;
        var f0 := k => if k in g0.members then |g0.members[k]| else 0;
        var f := k => if k in g.members then |g.members[k]| else 0;
        if k0 in g0.members {
          SumOfPointwise(g0.order, f0, f, k0);
        } else {
          SumOfPointwise(g0.order, f0, f, k0);
          assert g.order == g0.order + [k0];
          assert g.order[..|g.order| - 1] == g0.order;
        }
      }
    }
  }

  // ---------------------------------------------------------------------
  // Counters
  // ---------------------------------------------------------------------

  /** A Python dict of counters: keys in insertion order. */
  datatype Tally<K> = Tally(order: seq<K>, counts: map<K, nat>)

  /** Count one more `k`: a new key starts at one, at the end of the order. */
  function Bump<K>(t: Tally<K>, k: K): Tally<K> {
    if k in t.counts then Tally(t.order, t.counts[k := t.counts[k] + 1])
    else Tally(t.order + [k], t.counts[k := 1])
  }

  /** The counters of a sequence of keys, counted in order. */
  function TallyOf<K>(keys: seq<K>): Tally<K> {
    if keys == [] then Tally([], map[]) else Bump(TallyOf(keys[..|keys| - 1]), keys[|keys| - 1])
  }

  /** How often `k` occurs in `keys`. */
  function Occurrences<K(==)>(keys: seq<K>, k: K): nat {
    if keys == [] then 0
    else Occurrences(keys[..|keys| - 1], k) + if keys[|keys| - 1] == k then 1 else 0
  }

  /** The sum of the counters over the keys in `order`. */
  function CountsSum<K>(order: seq<K>, counts: map<K, nat>): int {
    if order == [] then 0
    else CountsSum(order[..|order| - 1], counts) + (var k := order[|order| - 1]; if k in counts then counts[k] else 0)
  }

  lemma TallyOfSnoc<K>(keys: seq<K>, k: K)
    ensures TallyOf(keys + [k]) == Bump(TallyOf(keys), k)
  {
    assert (keys + [k])[..|keys + [k]| - 1] == keys;
  }

  lemma {:induction false} CountsSumUpdate<K>(order: seq<K>, counts: map<K, nat>, k: K, v: nat)
    requires Distinct(order)
    ensures CountsSum(order, counts[k := v])
         == CountsSum(order, counts) + (if k in order then v - (if k in counts then counts[k] else 0) else 0)
  {
    if order != [] {
      var init := order[..|order| - 1];
      CountsSumUpdate(init, counts, k, v);
      if order[|order| - 1] == k {
        assert k !in init;
      }
    }
  }

  /** The counters list each key that occurs once, in order of first
      appearance, with the number of its occurrences, and they add up to the
      number of keys. */
  lemma {:induction false} TallyOfFacts<K>(keys: seq<K>)
    ensures var t := TallyOf(keys);
      && Distinct(t.order)
      && (forall k :: k in t.counts <==> k in t.order)
      && (forall k :: k in t.counts ==> t.counts[k] == Occurrences(keys, k) > 0)
      && (forall k :: k !in t.counts ==> Occurrences(keys, k) == 0)
      && CountsSum(t.order, t.counts) == |keys|
  {
    if keys != [] {
      var init := keys[..|keys| - 1];
      TallyOfFacts(init);
      var t0 := TallyOf(init);
      var k := keys[|keys| - 1];
      if k in t0.counts {
        CountsSumUpdate(t0.order, t0.counts, k, t0.counts[k] + 1);
      } else {
        var order := t0.order + [k];
        assert order[..|order| - 1] == t0.order;
        CountsSumUpdate(t0.order, t0.counts, k, 1);
        assert CountsSum(t0.order, t0.counts[k := 1]) == CountsSum(t0.order, t0.counts);
      }
    }
  }
}
