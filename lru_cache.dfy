/**
 * LruCache<K, V> of LruCache.cs: a dictionary from keys to the nodes of a linked usage list.
 *
 * The ordering is the one the code implements, not a textbook LRU: a new key is appended at
 * the tail of the list, a lookup hit moves its node to the head, and eviction takes the tail.
 * When the cache is full the tail node is reused in place for the new key, which therefore
 * becomes the next eviction victim.  The eviction callback OnEvict is modelled by `Add`
 * returning the evicted entry.
 *
 * The class is specified against `entries`, the pairs the list carries head first; the functions
 * `AddEntries` and `GetEntries` state what one call does to that sequence and the lemmas below
 * them state what that means.
 */
module LruCache {

  import opened Blocks

  datatype Entry<K, V> = Entry(key: K, value: V)

  /** What `Add` did: OnEvict runs exactly for `Evicted`. */
  datatype AddResult<K, V> =
    | Replaced
    | Appended
    | Evicted(key: K, value: V)
    /** A full cache of capacity 0 has no tail node: `usageList.Last` is null and Add throws. */
    | NoTailNode

  /** The first position holding key `k`, if any. */
  function Find<K(==), V>(es: seq<Entry<K, V>>, k: K): (r: Option<nat>)
    ensures r.Some? ==> r.value < |es| && es[r.value].key == k
    ensures r.None? <==> forall i :: 0 <= i < |es| ==> es[i].key != k
  {
    if |es| == 0 then None
    else if es[0].key == k then Some(0)
    else match Find(es[1..], k)
      case None => None
      case Some(i) => assert es[1..][i] == es[i + 1]; Some(i + 1)
  }

  ghost predicate DistinctKeys<K, V>(es: seq<Entry<K, V>>)
  {
    forall i, j :: 0 <= i < j < |es| ==> es[i].key != es[j].key
  }

  /** The cache read as a dictionary. */
  function Lookup<K(==), V>(es: seq<Entry<K, V>>, k: K): (r: Option<V>)
    ensures r.Some? <==> exists i :: 0 <= i < |es| && es[i].key == k
  {
    match Find(es, k)
    case None => None
    case Some(i) => Some(es[i].value)
  }

  /** LruCache.Add (LruCache.cs:28-52) on the usage list, head first. */
  function AddEntries<K(==), V>(es: seq<Entry<K, V>>, capacity: int, k: K, v: V): (r: (seq<Entry<K, V>>, AddResult<K, V>))
  {
    match Find(es, k)
    case Some(i) => (es[i := Entry(k, v)], Replaced)
    case None =>
      if |es| == capacity then
        if |es| == 0 then (es, NoTailNode)
        else (es[..|es| - 1] + [Entry(k, v)], Evicted(es[|es| - 1].key, es[|es| - 1].value))
      else (es + [Entry(k, v)], Appended)
  }

  /** LruCache.TryGetValue (LruCache.cs:54-71) on the usage list, head first. */
  function GetEntries<K(==), V>(es: seq<Entry<K, V>>, k: K): (r: (seq<Entry<K, V>>, Option<V>))
  {
    match Find(es, k)
    case Some(i) => ([es[i]] + es[..i] + es[i + 1..], Some(es[i].value))
    case None => (es, None)
  }

  /** With a capacity of at least one, an Add never leaves more entries than the capacity. */
  lemma AddStaysWithinCapacity<K, V>(es: seq<Entry<K, V>>, capacity: int, k: K, v: V)
    requires DistinctKeys(es) && 1 <= capacity && |es| <= capacity
    ensures |AddEntries(es, capacity, k, v).0| <= capacity
    ensures DistinctKeys(AddEntries(es, capacity, k, v).0)
    ensures AddEntries(es, capacity, k, v).1 != NoTailNode
  {
    var r := AddEntries(es, capacity, k, v).0;
    match Find(es, k)
    case Some(i) =>
      assert forall j :: 0 <= j < |r| ==> r[j].key == es[j].key;
    case None =>
  }

  /**
   * Read as a dictionary, Add binds `k` to `v`, forgets the evicted key and leaves every other
   * binding as it was.
   */
  lemma AddUpdatesBinding<K, V>(es: seq<Entry<K, V>>, capacity: int, k: K, v: V, other: K)
    requires DistinctKeys(es) && AddEntries(es, capacity, k, v).1 != NoTailNode
    ensures Lookup(AddEntries(es, capacity, k, v).0, k) == Some(v)
    ensures other != k ==>
      Lookup(AddEntries(es, capacity, k, v).0, other) ==
        match AddEntries(es, capacity, k, v).1
        case Evicted(gone, _) => if other == gone then None else Lookup(es, other)
        case _ => Lookup(es, other)
  {
    var r := AddEntries(es, capacity, k, v).0;
    match Find(es, k)
    case Some(i) =>
      assert r[i].key == k;
      LookupDistinct(r, i);
      if other != k {
        assert forall j :: 0 <= j < |r| ==> r[j].key == es[j].key;
        assert DistinctKeys(r);
        match Find(es, other)
        case None =>
        case Some(j) =>
          LookupDistinct(es, j);
          LookupDistinct(r, j);
      }
    case None =>
      if |es| == capacity {
        assert r[|r| - 1].key == k;
        assert DistinctKeys(r);
        LookupDistinct(r, |r| - 1);
        if other != k {
          match Find(es, other)
          case None =>
            assert forall j :: 0 <= j < |r| ==> r[j].key != other;
          case Some(j) =>
            LookupDistinct(es, j);
            if j < |es| - 1 {
              assert r[j] == es[j];
              LookupDistinct(r, j);
            } else {
              assert forall m :: 0 <= m < |r| ==> r[m].key != other;
            }
        }
      } else {
        assert r[|r| - 1].key == k;
        assert DistinctKeys(r);
        LookupDistinct(r, |r| - 1);
        if other != k {
          match Find(es, other)
          case None =>
            assert forall j :: 0 <= j < |r| ==> r[j].key != other;
          case Some(j) =>
            LookupDistinct(es, j);
            assert r[j] == es[j];
            LookupDistinct(r, j);
        }
      }
  }

  /** In a list of distinct keys, the lookup of the key at position i is that entry's value. */
  lemma LookupDistinct<K, V>(es: seq<Entry<K, V>>, i: int)
    requires DistinctKeys(es) && 0 <= i < |es|
    ensures Find(es, es[i].key) == Some(i)
    ensures Lookup(es, es[i].key) == Some(es[i].value)
  {
  }

  /**
   * A new key evicts exactly when the cache is full, and the victim is the tail entry; the new
   * entry takes the tail position, so it is the next victim.
   */
  lemma AddEvictsTail<K, V>(es: seq<Entry<K, V>>, capacity: int, k: K, v: V)
    requires 1 <= capacity
    ensures AddEntries(es, capacity, k, v).1.Evicted? <==> Lookup(es, k).None? && |es| == capacity
    ensures AddEntries(es, capacity, k, v).1.Evicted? ==>
      var r := AddEntries(es, capacity, k, v);
      Entry(r.1.key, r.1.value) == es[|es| - 1] && r.0[|r.0| - 1] == Entry(k, v) && |r.0| == |es|
  {
  }

  /** A hit moves its entry to the head and keeps every entry; a miss changes nothing. */
  lemma GetMovesToHead<K, V>(es: seq<Entry<K, V>>, k: K)
    ensures GetEntries(es, k).1 == Lookup(es, k)
    ensures Lookup(es, k).None? ==> GetEntries(es, k).0 == es
    ensures Lookup(es, k).Some? ==> GetEntries(es, k).0[0].key == k
    ensures multiset(GetEntries(es, k).0) == multiset(es)
  {
    match Find(es, k)
    case None =>
    case Some(i) =>
      calc {
        multiset([es[i]] + es[..i] + es[i + 1..]);
        multiset([es[i]]) + multiset(es[..i]) + multiset(es[i + 1..]);
        multiset(es[..i]) + multiset([es[i]]) + multiset(es[i + 1..]);
        { assert es == es[..i] + [es[i]] + es[i + 1..]; }
        multiset(es);
      }
  }

  /** A sequence of Adds, in order, with the entries each one evicted. */
  function AddAll<K(==), V>(es: seq<Entry<K, V>>, capacity: int, items: seq<Entry<K, V>>): (r: (seq<Entry<K, V>>, seq<Entry<K, V>>))
    decreases |items|
  {
    if |items| == 0 then (es, [])
    else
      var step := AddEntries(es, capacity, items[0].key, items[0].value);
      var rest := AddAll(step.0, capacity, items[1..]);
      (rest.0, (if step.1.Evicted? then [Entry(step.1.key, step.1.value)] else []) + rest.1)
  }

  ghost predicate Fresh<K, V>(es: seq<Entry<K, V>>, items: seq<Entry<K, V>>)
  {
    DistinctKeys(es + items)
  }

  /**
   * Adding distinct new keys until one more than fits evicts a single entry: the one at the
   * capacity-th position of everything inserted, not the oldest.
   */
  lemma {:induction false} OverflowEvictsLastFitting<K, V>(es: seq<Entry<K, V>>, capacity: int, items: seq<Entry<K, V>>)
    requires 1 <= capacity && 1 <= |items| && |es| + |items| == capacity + 1
    requires Fresh(es, items)
    ensures AddAll(es, capacity, items).1 == [(es + items)[capacity - 1]]
    ensures AddAll(es, capacity, items).0 == (es + items)[..capacity - 1] + [items[|items| - 1]]
    decreases |items|
  {
    var all := es + items;
    assert Find(es, items[0].key).None? by {
      assert forall j :: 0 <= j < |es| ==> es[j] == all[j];
      assert items[0] == all[|es|];
    }
    if |items| == 1 {
      assert AddAll(es[..|es| - 1] + [items[0]], capacity, items[1..]) == (es[..|es| - 1] + [items[0]], []);
      assert all[..capacity - 1] == es[..|es| - 1];
    } else {
      var es1 := es + [items[0]];
      assert AddEntries(es, capacity, items[0].key, items[0].value) == (es1, Appended);
      assert es1 + items[1..] == all;
      OverflowEvictsLastFitting(es1, capacity, items[1..]);
    }
  }

  /** Filling an empty cache of capacity n with n + 1 distinct keys evicts the n-th of them. */
  lemma OverflowFromEmpty<K, V>(capacity: int, items: seq<Entry<K, V>>)
    requires 1 <= capacity && |items| == capacity + 1 && DistinctKeys(items)
    ensures AddAll([], capacity, items).1 == [items[capacity - 1]]
  {
    assert [] + items == items;
    OverflowEvictsLastFitting([], capacity, items);
  }

  /** LinkedListNode<KeyValuePair<K, V>>: the pair a node carries is replaced in place. */
  class Node<K, V> {
    var pair: Entry<K, V>

    constructor (pair: Entry<K, V>)
      ensures this.pair == pair
    {
      this.pair := pair;
    }
  }

  /** LinkedList.Remove(node): the list with every occurrence of that node taken out. */
  function Without<T(==)>(s: seq<T>, x: T): (r: seq<T>)
  {
    if |s| == 0 then []
    else if s[0] == x then Without(s[1..], x)
    else [s[0]] + Without(s[1..], x)
  }

  /** Removing a node that occurs once, at position i, leaves the list around it. */
  lemma {:induction false} WithoutOnce<T>(s: seq<T>, x: T, i: int)
    requires 0 <= i < |s| && s[i] == x
    requires forall j :: 0 <= j < |s| && j != i ==> s[j] != x
    ensures Without(s, x) == s[..i] + s[i + 1..]
  {
    if i > 0 {
      WithoutOnce(s[1..], x, i - 1);
      assert s[1..][..i - 1] + s[1..][i..] == s[1..i] + s[i + 1..];
      assert s == [s[0]] + s[1..];
    } else {
      WithoutAbsent(s[1..], x);
    }
  }

  lemma {:induction false} WithoutAbsent<T>(s: seq<T>, x: T)
    requires forall j :: 0 <= j < |s| ==> s[j] != x
    ensures Without(s, x) == s
  {
    if |s| > 0 {
      WithoutAbsent(s[1..], x);
    }
  }

  /** Where the element at position j came from when the element at i moved to the front. */
  function FrontSource(i: int, j: int): int
  {
    if j == 0 then i else if j <= i then j - 1 else j
  }

  /** Moving the element at position i to the front keeps the elements and their distinctness. */
  lemma MoveToFront<T>(s: seq<T>, i: int, t: seq<T>)
    requires 0 <= i < |s| && t == [s[i]] + s[..i] + s[i + 1..]
    ensures |t| == |s|
    ensures forall j :: 0 <= j < |t| ==> 0 <= FrontSource(i, j) < |s| && t[j] == s[FrontSource(i, j)]
    ensures forall j, m :: 0 <= j < m < |t| ==> FrontSource(i, j) != FrontSource(i, m)
    ensures (set n | n in t) == (set n | n in s)
  {
    forall n | n in s ensures n in t {
      var m :| 0 <= m < |s| && s[m] == n;
      if m < i { assert t[m + 1] == n; } else if m > i { assert t[m] == n; } else { assert t[0] == n; }
    }
  }

  /**
   * The representation invariant on values: `list` is the usage list, `es` the pairs its nodes
   * carry, `m` the node map.  Every listed node is distinct and reached from the map under its
   * own key, the map has nothing else, and a cache of non-negative capacity never overfills.
   */
  ghost predicate ValidState<K, V>(list: seq<Node<K, V>>, es: seq<Entry<K, V>>, m: map<K, Node<K, V>>, capacity: int)
  {
    |es| == |list|
    && (forall i, j :: 0 <= i < j < |list| ==> list[i] != list[j])
    && (forall i {:trigger list[i]} :: 0 <= i < |list| ==> es[i].key in m && m[es[i].key] == list[i])
    && (forall k {:trigger Find(es, k)} :: k in m ==> Find(es, k).Some?)
    && |m| == |list|
    && (0 <= capacity ==> |list| <= capacity)
  }

  lemma ValidStateDistinct<K, V>(list: seq<Node<K, V>>, es: seq<Entry<K, V>>, m: map<K, Node<K, V>>, capacity: int)
    requires ValidState(list, es, m, capacity)
    ensures DistinctKeys(es)
  {
    forall i, j | 0 <= i < j < |es| ensures es[i].key != es[j].key {
      var a, b := list[i], list[j];
      assert m[es[i].key] == a && m[es[j].key] == b;
    }
  }

  /** The map's lookup and the list's agree: a mapped key is listed on its node, an unmapped one nowhere. */
  lemma ValidStateFind<K, V>(list: seq<Node<K, V>>, es: seq<Entry<K, V>>, m: map<K, Node<K, V>>, capacity: int, k: K)
    requires ValidState(list, es, m, capacity)
    ensures k in m ==> Find(es, k).Some? && list[Find(es, k).value] == m[k]
    ensures k !in m ==> Find(es, k).None?
  {
    if k !in m {
      forall i | 0 <= i < |es| ensures es[i].key != k {
        var n := list[i];
      }
    }
  }

  lemma ValidStateReplace<K, V>(list: seq<Node<K, V>>, es: seq<Entry<K, V>>, m: map<K, Node<K, V>>, capacity: int, i: int, v: V)
    requires ValidState(list, es, m, capacity) && 0 <= i < |es|
    ensures ValidState(list, es[i := Entry(es[i].key, v)], m, capacity)
  {
    var es' := es[i := Entry(es[i].key, v)];
    forall j | 0 <= j < |list| ensures es'[j].key in m && m[es'[j].key] == list[j] {
      var n := list[j];
      assert es'[j].key == es[j].key;
    }
    forall k | k in m ensures Find(es', k).Some? {
      assert es'[Find(es, k).value].key == k;
    }
  }

  lemma ValidStateAppend<K, V>(list: seq<Node<K, V>>, es: seq<Entry<K, V>>, m: map<K, Node<K, V>>, capacity: int, node: Node<K, V>, k: K, v: V)
    requires ValidState(list, es, m, capacity)
    requires node !in list && k !in m && |list| != capacity
    ensures ValidState(list + [node], es + [Entry(k, v)], m[k := node], capacity)
  {
    var list', es', m' := list + [node], es + [Entry(k, v)], m[k := node];
    forall i | 0 <= i < |list'| ensures es'[i].key in m' && m'[es'[i].key] == list'[i] {
      if i < |list| {
        assert es'[i] == es[i] && list'[i] == list[i];
      }
    }
    forall k' | k' in m' ensures Find(es', k').Some? {
      if k' == k {
        assert es'[|list|].key == k';
      } else {
        assert es'[Find(es, k').value].key == k';
      }
    }
  }

  lemma ValidStateEvict<K, V>(list: seq<Node<K, V>>, es: seq<Entry<K, V>>, m: map<K, Node<K, V>>, capacity: int, k: K, v: V)
    requires ValidState(list, es, m, capacity)
    requires k !in m && |list| > 0 && |m| == capacity
    ensures var last := |list| - 1;
      ValidState(list, es[..last] + [Entry(k, v)], (m - {es[last].key})[k := list[last]], capacity)
  {
    var last := |list| - 1;
    var gone := es[last].key;
    var es' := es[..last] + [Entry(k, v)];
    var m0 := m - {gone};
    var m' := m0[k := list[last]];
    ValidStateDistinct(list, es, m, capacity);
    assert m0.Keys == m.Keys - {gone};
    assert |m0| == |m| - 1;
    forall i | 0 <= i < |list| ensures es'[i].key in m' && m'[es'[i].key] == list[i] {
      var n := list[i];
      if i < last {
        assert es'[i] == es[i] && es[i].key != gone;
      }
    }
    forall k' | k' in m' ensures Find(es', k').Some? {
      if k' == k {
        assert es'[last].key == k';
      } else {
        var j := Find(es, k').value;
        assert j != last;
        assert es'[j].key == k';
      }
    }
  }

  lemma ValidStateMoveToFront<K, V>(list: seq<Node<K, V>>, es: seq<Entry<K, V>>, m: map<K, Node<K, V>>, capacity: int, i: int)
    requires ValidState(list, es, m, capacity) && 0 <= i < |list|
    ensures ValidState([list[i]] + list[..i] + list[i + 1..], [es[i]] + es[..i] + es[i + 1..], m, capacity)
  {
    var list' := [list[i]] + list[..i] + list[i + 1..];
    var es' := [es[i]] + es[..i] + es[i + 1..];
    MoveToFront(list, i, list');
    MoveToFront(es, i, es');
    forall a, b | 0 <= a < b < |list'| ensures list'[a] != list'[b] {
      assert list'[a] == list[FrontSource(i, a)] && list'[b] == list[FrontSource(i, b)];
    }
    forall j | 0 <= j < |list'| ensures es'[j].key in m && m[es'[j].key] == list'[j] {
      assert list'[j] == list[FrontSource(i, j)] && es'[j] == es[FrontSource(i, j)];
    }
    forall k | k in m ensures Find(es', k).Some? {
      var j := Find(es, k).value;
      var j' := if j == i then 0 else if j < i then j + 1 else j;
      assert FrontSource(i, j') == j;
      assert es'[j'].key == k;
    }
  }

  /** The node at position i moved to the head still carries its entry, now at the head. */
  lemma MoveToHeadKeepsState<K, V>(list: seq<Node<K, V>>, es: seq<Entry<K, V>>, m: map<K, Node<K, V>>, capacity: int,
                                   i: int, moved: seq<Node<K, V>>)
    requires ValidState(list, es, m, capacity) && 0 <= i < |list|
    requires forall j :: 0 <= j < |list| ==> list[j].pair == es[j]
    requires moved == [list[i]] + list[..i] + list[i + 1..]
    ensures ValidState(moved, [es[i]] + es[..i] + es[i + 1..], m, capacity)
    ensures forall j :: 0 <= j < |moved| ==> moved[j].pair == ([es[i]] + es[..i] + es[i + 1..])[j]
    ensures (set n | n in moved) == (set n | n in list)
  {
    var es' := [es[i]] + es[..i] + es[i + 1..];
    MoveToFront(list, i, moved);
    MoveToFront(es, i, es');
    ValidStateMoveToFront(list, es, m, capacity, i);
    forall j | 0 <= j < |moved| ensures moved[j].pair == es'[j] {
      assert moved[j] == list[FrontSource(i, j)] && es'[j] == es[FrontSource(i, j)];
    }
  }

  class LruCache<K(==), V> {
    const capacity: int
    /** The usage list, head first. */
    var usageList: seq<Node<K, V>>
    var nodeMap: map<K, Node<K, V>>
    /** The pairs the usage list carries, head first. */
    ghost var entries: seq<Entry<K, V>>

    ghost function Nodes(): set<Node<K, V>>
      reads this
    {
      set n | n in usageList
    }

    /** Each node carries its entry; the map and the list hold the same keys, each once, on the same nodes. */
    ghost predicate Valid()
      reads this, usageList
    {
      |entries| == |usageList|
      && (forall i {:trigger usageList[i]} :: 0 <= i < |usageList| ==> usageList[i].pair == entries[i])
      && ValidState(usageList, entries, nodeMap, capacity)
    }

    constructor (capacity: int)
      ensures Valid() && this.capacity == capacity && entries == []
    {
      this.capacity := capacity;
      usageList := [];
      nodeMap := map[];
      entries := [];
    }

    /** LruCache.Count (LruCache.cs:9-12). */
    function Count(): (n: int)
      requires Valid()
      reads this, usageList
      ensures n == |entries|
    {
      |nodeMap|
    }

    /** LruCache.IsEmpty (LruCache.cs:14). */
    predicate IsEmpty()
      requires Valid()
      reads this, usageList
      ensures IsEmpty() <==> entries == []
    {
      Count() == 0
    }

    /** LruCache.Add (LruCache.cs:28-52). */
    method Add(key: K, value: V) returns (r: AddResult<K, V>)
      requires Valid()
      modifies this, usageList
      ensures Valid()
      ensures forall n :: n in usageList ==> n in old(usageList) || fresh(n)
      ensures (entries, r) == AddEntries(old(entries), capacity, key, value)
    {
      ValidStateFind(usageList, entries, nodeMap, capacity, key);
      if key in nodeMap {
        Replace(key, value);
        return Replaced;
      }
      if |nodeMap| == capacity {
        if |usageList| == 0 {
          return NoTailNode;
        }
        r := Evict(key, value);
      } else {
        Append(key, value);
        r := Appended;
      }
    }

    /** The branch of Add with room left: a new node for the pair goes to the tail. */
    method Append(key: K, value: V)
      requires Valid() && key !in nodeMap && |nodeMap| != capacity
      modifies this
      ensures Valid() && entries == old(entries) + [Entry(key, value)]
      ensures usageList[..|usageList| - 1] == old(usageList) && fresh(usageList[|usageList| - 1])
    {
      var node := new Node(Entry(key, value));
      ValidStateAppend(usageList, entries, nodeMap, capacity, node, key, value);
      usageList := usageList + [node];
      nodeMap := nodeMap[key := node];
      entries := entries + [Entry(key, value)];
    }

    /** The known-key branch of Add: the key's node gets the new pair where it stands. */
    method Replace(key: K, value: V)
      requires Valid() && key in nodeMap
      modifies this, usageList
      ensures Valid() && usageList == old(usageList) && Find(old(entries), key).Some?
      ensures entries == old(entries)[Find(old(entries), key).value := Entry(key, value)]
    {
      ValidStateFind(usageList, entries, nodeMap, capacity, key);
      ghost var i := Find(entries, key).value;
      var node := nodeMap[key];
      ValidStateReplace(usageList, entries, nodeMap, capacity, i, value);
      node.pair := Entry(key, value);
      entries := entries[i := Entry(key, value)];
      forall j | 0 <= j < |usageList| ensures usageList[j].pair == entries[j] {
        if j != i {
          assert usageList[j] != node;
        }
      }
    }

    /** The full-cache branch of Add: the tail node is handed to OnEvict and then reused. */
    method Evict(key: K, value: V) returns (r: AddResult<K, V>)
      requires Valid() && key !in nodeMap && |usageList| > 0 && |nodeMap| == capacity
      modifies this, usageList
      ensures Valid() && usageList == old(usageList)
      ensures r == Evicted(old(entries)[|usageList| - 1].key, old(entries)[|usageList| - 1].value)
      ensures entries == old(entries)[..|usageList| - 1] + [Entry(key, value)]
    {
      ValidStateEvict(usageList, entries, nodeMap, capacity, key, value);
      var last := |usageList| - 1;
      var node := usageList[last];
      r := Evicted(node.pair.key, node.pair.value);
      nodeMap := nodeMap - {node.pair.key};
      node.pair := Entry(key, value);
      nodeMap := nodeMap[key := node];
      entries := entries[..last] + [Entry(key, value)];
      forall j | 0 <= j < |usageList| ensures usageList[j].pair == entries[j] {
        if j < last {
          assert usageList[j] != node;
        }
      }
    }

    /** LruCache.TryGetValue (LruCache.cs:54-71): `None` is the `false` result. */
    method TryGetValue(key: K) returns (r: Option<V>)
      requires Valid()
      modifies this
      ensures Valid() && Nodes() == old(Nodes())
      ensures (entries, r) == GetEntries(old(entries), key)
    {
      ValidStateFind(usageList, entries, nodeMap, capacity, key);
      if key in nodeMap {
        var node := nodeMap[key];
        ghost var i := Find(entries, key).value;
        MoveToHead(node, i);
        return Some(node.pair.value);
      }
      return None;
    }

    /** usageList.Remove(node) then usageList.AddFirst(node), for the node at position i. */
    method MoveToHead(node: Node<K, V>, ghost i: int)
      requires Valid() && 0 <= i < |usageList| && usageList[i] == node
      modifies this
      ensures nodeMap == old(nodeMap) && Nodes() == old(Nodes())
      ensures Valid()
      ensures entries == [old(entries)[i]] + old(entries)[..i] + old(entries)[i + 1..]
    {
      var rest := Without(usageList, node);
      assert rest == usageList[..i] + usageList[i + 1..] by {
        WithoutOnce(usageList, node, i);
      }
      var moved := [node] + rest;
      ghost var es' := [entries[i]] + entries[..i] + entries[i + 1..];
      MoveToHeadKeepsState(usageList, entries, nodeMap, capacity, i, moved);
      usageList := moved;
      entries := es';
    }

    /** LruCache.Clear (LruCache.cs:73-77): empties both structures; nothing is evicted. */
    method Clear()
      requires Valid()
      modifies this
      ensures Valid() && entries == []
    {
      usageList := [];
      nodeMap := map[];
      entries := [];
    }
  }
}
