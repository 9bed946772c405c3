/**
 The TTL store with first-in-first-out eviction of internal/ephemeral/store.go: a map beside
 a slice of its keys in insertion order, refining one list of entries.
 */
module Ephemeral {
  import opened Common

  datatype Entry<V> = Entry(value: V, expires: int)

  /** One element of the reference list. */
  datatype Item<K, V> = Item(key: K, entry: Entry<V>)

  // ---------------------------------------------------------------- the reference list

  function Find<K(==), V>(l: seq<Item<K, V>>, k: K): Option<Entry<V>> {
    if l == [] then None else if l[0].key == k then Some(l[0].entry) else Find(l[1..], k)
  }

  function Without<K(==), V>(l: seq<Item<K, V>>, k: K): seq<Item<K, V>> {
    if l == [] then [] else if l[0].key == k then l[1..] else [l[0]] + Without(l[1..], k)
  }

  function Replaced<K(==), V>(l: seq<Item<K, V>>, k: K, e: Entry<V>): seq<Item<K, V>> {
    if l == [] then [] else if l[0].key == k then [Item(k, e)] + l[1..] else [l[0]] + Replaced(l[1..], k, e)
  }

  predicate Live<V>(e: Entry<V>, now: int) { e.expires > now }

  function LiveOnly<K, V>(l: seq<Item<K, V>>, now: int): seq<Item<K, V>> {
    if l == [] then []
    else LiveOnly(l[..|l| - 1], now) + (if Live(l[|l| - 1].entry, now) then [l[|l| - 1]] else [])
  }

  /** The head goes when a new key finds the list full; a known key keeps its place. */
  function Evicts<K(==), V>(l: seq<Item<K, V>>, k: K, cap: int): bool { Find(l, k).None? && cap > 0 && |l| >= cap }

  function Put<K(==), V>(l: seq<Item<K, V>>, k: K, e: Entry<V>, cap: int): seq<Item<K, V>> {
    if Find(l, k).Some? then Replaced(l, k, e)
    else (if Evicts(l, k, cap) then l[1..] else l) + [Item(k, e)]
  }

  function Answer<V>(found: Option<Entry<V>>, now: int): Option<V> {
    if found.Some? && Live(found.value, now) then Some(found.value.value) else None
  }

  function GetLeaves<K(==), V>(l: seq<Item<K, V>>, k: K, now: int): seq<Item<K, V>> {
    if Find(l, k).Some? && !Live(Find(l, k).value, now) then Without(l, k) else l
  }

  predicate Distinct<K(==), V>(l: seq<Item<K, V>>) {
    forall i, j :: 0 <= i < j < |l| ==> l[i].key != l[j].key
  }

  // ---------------------------------------------------------------- facts about lists

  lemma {:induction false} FindAt<K, V>(l: seq<Item<K, V>>, k: K, i: nat)
    requires Distinct(l) && i < |l| && l[i].key == k
    ensures Find(l, k) == Some(l[i].entry)
    ensures Without(l, k) == l[..i] + l[i + 1..]
  {
    if i > 0 {
      FindAt(l[1..], k, i - 1);
      assert Without(l, k) == [l[0]] + (l[1..][..i - 1] + l[1..][i..]);
    }
  }

  lemma {:induction false} ReplacedAt<K, V>(l: seq<Item<K, V>>, k: K, e: Entry<V>, i: nat)
    requires Distinct(l) && i < |l| && l[i].key == k
    ensures Replaced(l, k, e) == l[i := Item(k, e)]
  {
    if i > 0 {
      ReplacedAt(l[1..], k, e, i - 1);
      assert Replaced(l, k, e) == [l[0]] + l[1..][i - 1 := Item(k, e)];
    }
  }

  lemma {:induction false} FindNone<K, V>(l: seq<Item<K, V>>, k: K)
    ensures Find(l, k).None? <==> forall i :: 0 <= i < |l| ==> l[i].key != k
    ensures Find(l, k).None? ==> Without(l, k) == l
  {
    if l != [] {
      FindNone(l[1..], k);
      if l[0].key != k {
        assert forall i :: 1 <= i < |l| ==> l[i] == l[1..][i - 1];
        assert l == [l[0]] + l[1..];
      }
    }
  }

  // ---------------------------------------------------------------- the object

  /** The keys of `order` that are stored and not expired. */
  function LiveKeys<K(==), V>(order: seq<K>, m: map<K, Entry<V>>, now: int): seq<K> {
    if order == [] then []
    else
      var k := order[|order| - 1];
      LiveKeys(order[..|order| - 1], m, now) + (if k in m && Live(m[k], now) then [k] else [])
  }

  /** Keys of the slice that the map no longer has are passed over until one is found to evict. */
  function DropOldest<K(==), V>(order: seq<K>, m: map<K, Entry<V>>): (seq<K>, map<K, Entry<V>>)
    decreases |order|
  {
    if order == [] then (order, m)
    else if order[0] in m then (order[1..], m - {order[0]})
    else DropOldest(order[1..], m)
  }

  predicate NoRepeats<K(==)>(order: seq<K>) { forall i, j :: 0 <= i < j < |order| ==> order[i] != order[j] }

  ghost predicate Matched<K, V>(order: seq<K>, m: map<K, Entry<V>>) {
    NoRepeats(order) && (forall k :: k in order ==> k in m) && (forall k :: k in m ==> k in order)
  }

  ghost function Items<K, V>(order: seq<K>, m: map<K, Entry<V>>): (l: seq<Item<K, V>>)
    requires forall k :: k in order ==> k in m
    ensures |l| == |order|
    ensures forall i :: 0 <= i < |l| ==> l[i] == Item(order[i], m[order[i]])
  {
    seq(|order|, i requires 0 <= i < |order| => Item(order[i], m[order[i]]))
  }

  /** The slice has as many keys as the map. */
  lemma {:induction false} SameSize<K, V>(order: seq<K>, m: map<K, Entry<V>>)
    requires Matched(order, m)
    ensures |order| == |m|
  {
    if order == [] {
      assert m.Keys == {};
    } else {
      var rest, n := order[1..], m - {order[0]};
      assert forall k :: k in order <==> k == order[0] || k in rest;
      SameSize(rest, n);
      assert n.Keys == m.Keys - {order[0]};
    }
  }

  lemma {:induction false} FindsEntry<K, V>(order: seq<K>, m: map<K, Entry<V>>, k: K)
    requires Matched(order, m)
    ensures Distinct(Items(order, m))
    ensures Find(Items(order, m), k) == if k in m then Some(m[k]) else None
  {
    if k in m {
      var i :| 0 <= i < |order| && order[i] == k;
      FindAt(Items(order, m), k, i);
    } else {
      FindNone(Items(order, m), k);
    }
  }

  lemma {:induction false} LiveKeysOf<K, V>(order: seq<K>, m: map<K, Entry<V>>, now: int)
    requires NoRepeats(order) && (forall k :: k in order ==> k in m)
    ensures NoRepeats(LiveKeys(order, m, now))
    ensures forall k :: k in LiveKeys(order, m, now) <==> k in order && Live(m[k], now)
  {
    if order != [] {
      var n := |order| - 1;
      LiveKeysOf(order[..n], m, now);
      assert order == order[..n] + [order[n]];
    }
  }

  lemma {:induction false} LiveItems<K, V>(order: seq<K>, m: map<K, Entry<V>>, now: int)
    requires forall k :: k in order ==> k in m
    ensures forall k :: k in LiveKeys(order, m, now) ==> k in m
    ensures Items(LiveKeys(order, m, now), m) == LiveOnly(Items(order, m), now)
  {
    if order != [] {
      var n := |order| - 1;
      LiveItems(order[..n], m, now);
      assert Items(order, m)[..n] == Items(order[..n], m);
    }
  }

  /** Removing one key from both keeps slice and map matched. */
  lemma {:induction false} CutOne<K, V>(order: seq<K>, m: map<K, Entry<V>>, i: nat)
    requires Matched(order, m) && i < |order|
    ensures Matched(order[..i] + order[i + 1..], m - {order[i]})
  {
    var cut := order[..i] + order[i + 1..];
    assert forall j :: 0 <= j < |cut| ==> cut[j] == if j < i then order[j] else order[j + 1];
    forall k | k in order && k != order[i] ensures k in cut {
      var j :| 0 <= j < |order| && order[j] == k;
      assert cut[if j < i then j else j - 1] == k;
    }
  }

  /** What holds between calls. */
  ghost predicate Kept<K, V>(order: seq<K>, m: map<K, Entry<V>>, cap: int) {
    Matched(order, m) && (cap > 0 ==> |m| <= cap)
  }

  lemma {:induction false} CutItems<K, V>(order: seq<K>, m: map<K, Entry<V>>, i: nat)
    requires Matched(order, m) && i < |order| && Matched(order[..i] + order[i + 1..], m - {order[i]})
    ensures Items(order[..i] + order[i + 1..], m - {order[i]}) == Items(order, m)[..i] + Items(order, m)[i + 1..]
  {
    var cut, n, l := order[..i] + order[i + 1..], m - {order[i]}, Items(order, m);
    var r := Items(cut, n);
    forall j | 0 <= j < |r| ensures r[j] == (l[..i] + l[i + 1..])[j] {
      assert cut[j] == if j < i then order[j] else order[j + 1];
    }
    assert r == l[..i] + l[i + 1..];
  }

  lemma {:induction false} CutIsWithout<K, V>(order: seq<K>, m: map<K, Entry<V>>, cap: int, i: nat)
    requires Kept(order, m, cap) && i < |order|
    ensures |m - {order[i]}| == |m| - 1 && Kept(order[..i] + order[i + 1..], m - {order[i]}, cap)
    ensures Items(order[..i] + order[i + 1..], m - {order[i]}) == Without(Items(order, m), order[i])
  {
    CutOne(order, m, i);
    FindsEntry(order, m, order[i]);
    FindAt(Items(order, m), order[i], i);
    CutItems(order, m, i);
    assert (m - {order[i]}).Keys == m.Keys - {order[i]};
  }

  lemma {:induction false} PutKnown<K, V>(order: seq<K>, m: map<K, Entry<V>>, k: K, e: Entry<V>, cap: int)
    requires Kept(order, m, cap) && k in m
    ensures Kept(order, m[k := e], cap) && Items(order, m[k := e]) == Put(Items(order, m), k, e, cap)
  {
    var i :| 0 <= i < |order| && order[i] == k;
    FindsEntry(order, m, k);
    FindAt(Items(order, m), k, i);
    ReplacedAt(Items(order, m), k, e, i);
    assert m[k := e].Keys == m.Keys;
    assert forall j :: 0 <= j < |order| && j != i ==> order[j] != k;
    assert Items(order, m[k := e]) == Items(order, m)[i := Item(k, e)];
  }

  lemma {:induction false} PutNew<K, V>(order: seq<K>, m: map<K, Entry<V>>, k: K, e: Entry<V>)
    requires Matched(order, m) && k !in m
    ensures Matched(order + [k], m[k := e]) && |m[k := e]| == |m| + 1
    ensures Items(order + [k], m[k := e]) == Items(order, m) + [Item(k, e)]
  {
    assert m[k := e].Keys == m.Keys + {k};
  }

  lemma {:induction false} TailMatches<K, V>(order: seq<K>, m: map<K, Entry<V>>)
    requires Matched(order, m) && order != []
    ensures Matched(order[1..], m - {order[0]}) && |m - {order[0]}| == |m| - 1
  {
    CutOne(order, m, 0);
    assert order[..0] + order[1..] == order[1..];
    assert (m - {order[0]}).Keys == m.Keys - {order[0]};
  }

  lemma {:induction false} TailItems<K, V>(order: seq<K>, m: map<K, Entry<V>>)
    requires Matched(order, m) && order != [] && Matched(order[1..], m - {order[0]})
    ensures Items(order[1..], m - {order[0]}) == Items(order, m)[1..]
  {
    var l, r := Items(order[1..], m - {order[0]}), Items(order, m);
    forall j | 0 <= j < |l| ensures l[j] == r[j + 1] {
      assert order[1..][j] == order[j + 1];
    }
    assert l == r[1..];
  }

  /** The head of a matched slice is stored, so it is the one that goes. */
  lemma {:induction false} HeadIsDropped<K, V>(order: seq<K>, m: map<K, Entry<V>>)
    requires Matched(order, m) && order != []
    ensures DropOldest(order, m) == (order[1..], m - {order[0]})
  {
    assert order[0] in order;
  }

  ghost function Survivors<K, V>(m: map<K, Entry<V>>, seen: seq<K>, now: int): map<K, Entry<V>> {
    map k | k in m && (k in seen ==> Live(m[k], now)) :: m[k]
  }

  /** A kept key moves down to the slot after the last kept one; what is still to be read stays. */
  lemma {:induction false} MovesDown<K>(buf: seq<K>, kept: nat, i: nat)
    requires kept <= i < |buf|
    ensures buf[kept := buf[i]][..kept + 1] == buf[..kept] + [buf[i]]
    ensures forall j :: i < j < |buf| ==> buf[kept := buf[i]][j] == buf[j]
  {
  }

  lemma {:induction false} SweepOne<K, V>(m: map<K, Entry<V>>, order: seq<K>, i: nat, now: int)
    requires Matched(order, m) && i < |order|
    ensures order[i] in Survivors(m, order[..i], now) && order[i] in m
    ensures Survivors(m, order[..i + 1], now) ==
      if Live(m[order[i]], now) then Survivors(m, order[..i], now) else Survivors(m, order[..i], now) - {order[i]}
    ensures LiveKeys(order[..i + 1], m, now) ==
      LiveKeys(order[..i], m, now) + if Live(m[order[i]], now) then [order[i]] else []
  {
    assert order[..i + 1][..i] == order[..i] && order[..i + 1] == order[..i] + [order[i]];
  }

  /** The sweep has looked at the first `i` keys and kept `kept` of them at the front of the slice. */
  ghost predicate Sweeping<K, V>(order: seq<K>, was: map<K, Entry<V>>, now: int,
                                 buf: seq<K>, kept: nat, i: nat, m: map<K, Entry<V>>) {
    && |buf| == |order| && kept <= i <= |buf|
    && (forall j :: i <= j < |buf| ==> buf[j] == order[j])
    && buf[..kept] == LiveKeys(order[..i], was, now)
    && m == Survivors(was, order[..i], now)
  }

  lemma {:induction false} SweepStep<K, V>(order: seq<K>, was: map<K, Entry<V>>, now: int,
                                           buf: seq<K>, kept: nat, i: nat, m: map<K, Entry<V>>)
    requires Matched(order, was) && Sweeping(order, was, now, buf, kept, i, m) && i < |buf|
    ensures buf[i] in m
    ensures if Live(m[buf[i]], now) then Sweeping(order, was, now, buf[kept := buf[i]], kept + 1, i + 1, m)
            else Sweeping(order, was, now, buf, kept, i + 1, m - {buf[i]})
  {
    SweepOne(was, order, i, now);
    MovesDown(buf, kept, i);
  }

  lemma {:induction false} SweepAll<K, V>(m: map<K, Entry<V>>, order: seq<K>, cap: int, now: int)
    requires Kept(order, m, cap)
    ensures Kept(LiveKeys(order, m, now), Survivors(m, order, now), cap)
    ensures Items(LiveKeys(order, m, now), Survivors(m, order, now)) == LiveOnly(Items(order, m), now)
    ensures forall k :: k in Survivors(m, order, now) <==> k in m && now < m[k].expires
    ensures forall k :: k in Survivors(m, order, now) ==> Survivors(m, order, now)[k] == m[k]
  {
    LiveKeysOf(order, m, now);
    LiveItems(order, m, now);
    SubsetSize(Survivors(m, order, now).Keys, m.Keys);
    assert Items(LiveKeys(order, m, now), Survivors(m, order, now)) == Items(LiveKeys(order, m, now), m);
  }

  class Store<K(==), V> {
    var m: map<K, Entry<V>>
    var order: seq<K>
    const ttl: int
    const cap: int

    ghost predicate Valid()
      reads this
    {
      Kept(order, m, cap)
    }

    ghost function Contents(): seq<Item<K, V>>
      reads this
      requires Valid()
    {
      Items(order, m)
    }

    constructor (ttl: int, capacity: int)
      ensures Valid() && Contents() == [] && this.ttl == ttl && cap == capacity
    {
      this.ttl := ttl;
      cap := capacity;
      m := map[];
      order := [];
    }

    method DeleteLocked(k: K)
      requires Valid()
      modifies this
      ensures Valid() && Contents() == Without(old(Contents()), k)
      ensures m == old(m) - {k}
    {
      FindsEntry(order, m, k);
      if k !in m {
        FindNone(Contents(), k);
        return;
      }
      var i := 0;
      while order[i] != k
        invariant 0 <= i < |order| && k in order[i..]
        decreases |order| - i
      {
        i := i + 1;
      }
      CutIsWithout(order, m, cap, i);
      m := m - {k};
      order := order[..i] + order[i + 1..];
    }

    /** Drops the oldest key that is stored, if any. */
    method EvictOldestLocked()
      modifies this
      ensures (order, m) == DropOldest(old(order), old(m))
    {
      while |order| > 0
        invariant m == old(m) && DropOldest(order, m) == DropOldest(old(order), old(m))
        decreases |order|
      {
        var k := order[0];
        order := order[1..];
        if k in m {
          m := m - {k};
          return;
        }
      }
    }

    method PutTTL(k: K, v: V, ttl: int, now: int)
      requires Valid()
      modifies this
      ensures Valid()
      ensures Contents() == Put(old(Contents()), k, Entry(v, now + if ttl <= 0 then this.ttl else ttl), cap)
      ensures
        var e := Entry(v, now + if ttl <= 0 then this.ttl else ttl);
        if k in old(m) then order == old(order) && m == old(m)[k := e]
        else if cap > 0 && |old(m)| >= cap then
          old(order) != [] && order == old(order)[1..] + [k] && m == (old(m) - {old(order)[0]})[k := e]
        else order == old(order) + [k] && m == old(m)[k := e]
    {
      var e := Entry(v, now + if ttl <= 0 then this.ttl else ttl);
      FindsEntry(order, m, k);
      SameSize(order, m);
      if k !in m && cap > 0 && |m| >= cap {
        TailMatches(order, m);
        TailItems(order, m);
        HeadIsDropped(order, m);
        EvictOldestLocked();
      }
      if k !in m {
        PutNew(order, m, k, e);
        order := order + [k];
      } else {
        PutKnown(order, m, k, e, cap);
      }
      m := m[k := e];
    }

    method Get(k: K, now: int) returns (r: Option<V>)
      requires Valid()
      modifies this
      ensures Valid() && r == Answer(Find(old(Contents()), k), now)
      ensures Contents() == GetLeaves(old(Contents()), k, now)
      ensures
        if k in old(m) && now < old(m)[k].expires then r == Some(old(m)[k].value) && m == old(m)
        else r == None && m == old(m) - {k}
    {
      FindsEntry(order, m, k);
      if k !in m || !Live(m[k], now) {
        if k in m {
          DeleteLocked(k);
        }
        return None;
      }
      return Some(m[k].value);
    }

    method Consume(k: K, now: int) returns (r: Option<V>)
      requires Valid()
      modifies this
      ensures Valid() && r == Answer(Find(old(Contents()), k), now)
      ensures Contents() == Without(old(Contents()), k) && m == old(m) - {k}
      ensures r == if k in old(m) && now < old(m)[k].expires then Some(old(m)[k].value) else None
    {
      FindsEntry(order, m, k);
      FindNone(Contents(), k);
      var found := k in m;
      var e := if found then Some(m[k]) else None;
      if found {
        DeleteLocked(k);
      }
      if !found || !Live(e.value, now) {
        return None;
      }
      return Some(e.value.value);
    }

    /** Expired keys leave the map while the kept ones move down inside the same slice. */
    method Sweep(now: int)
      requires Valid()
      modifies this
      ensures Valid() && Contents() == LiveOnly(old(Contents()), now)
      ensures forall k :: k in m <==> k in old(m) && now < old(m)[k].expires
      ensures forall k :: k in m ==> m[k] == old(m)[k]
    {
      var buf := order;
      var kept, i := 0, 0;
      assert m == Survivors(m, order[..0], now);
      while i < |buf|
        invariant order == old(order) && Sweeping(order, old(m), now, buf, kept, i, m)
      {
        SweepStep(order, old(m), now, buf, kept, i, m);
        var k := buf[i];
        if k in m && !Live(m[k], now) {
          m := m - {k};
        } else if k in m {
          buf := buf[kept := k];
          kept := kept + 1;
        }
        i := i + 1;
      }
      order := buf[..kept];
      assert old(order)[..i] == old(order);
      assert m == Survivors(old(m), old(order), now) && order == LiveKeys(old(order), old(m), now);
      SweepAll(old(m), old(order), cap, now);
    }
  }
}
