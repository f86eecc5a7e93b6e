/**
  The bucketed table (hash_table.c) over lists of items (safe_rw_list.c).

  Ids are values of any type K; `Class(id)` names the ids that compare equal to it. That `compare` and `hash` depend
  on the class only says that `compare` is an equivalence and that `hash` respects it.
 */
module HashTables {
  import opened Words
  import opened Caches

  type Id(==)
  type Class(==)

  datatype TabErr = TabOk | NotFound | Exist

  datatype Item<V> = Item(id: Id, pri: V)

  datatype Found<V> = Nothing | Pri(value: V)

  // The caller's functions: compare(a, b) == 0 iff a and b have one class; the hash is a function of the class.
  datatype Rules = Rules(classOf: Id -> Class, hash: Class -> int) {
    predicate Same(a: Id, b: Id) {
      classOf(a) == classOf(b)
    }
  }

  // ----- One bucket as a map

  ghost function Contents<V>(rules: Rules, items: seq<Item<V>>): map<Class, V> {
    if items == [] then map[]
    else Contents(rules, items[1..])[rules.classOf(items[0].id) := items[0].pri]
  }

  ghost predicate Unique<V>(rules: Rules, items: seq<Item<V>>) {
    forall i, j :: 0 <= i < j < |items| ==> !rules.Same(items[i].id, items[j].id)
  }

  // Where a key is found is what it maps to.
  lemma {:induction false} ContentsAt<V>(rules: Rules, items: seq<Item<V>>)
    requires Unique(rules, items)
    ensures forall i :: 0 <= i < |items| ==> var c := rules.classOf(items[i].id);
              c in Contents(rules, items) && Contents(rules, items)[c] == items[i].pri
    ensures forall c <- Contents(rules, items) :: exists i :: 0 <= i < |items| && rules.classOf(items[i].id) == c
    ensures |Contents(rules, items)| == |items|
  {
    if items == [] {
    } else {
      var tail := items[1..];
      ContentsAt(rules, tail);
      var m, c0 := Contents(rules, tail), rules.classOf(items[0].id);
      assert c0 !in m;
      assert (m[c0 := items[0].pri]).Keys == m.Keys + {c0};
      assert |m| == |m.Keys|;
      forall i | 0 <= i < |items|
        ensures var c := rules.classOf(items[i].id); c in Contents(rules, items) && Contents(rules, items)[c] == items[i].pri
      {
        if i > 0 { assert tail[i - 1] == items[i]; }
      }
      forall c <- Contents(rules, items)
        ensures exists i :: 0 <= i < |items| && rules.classOf(items[i].id) == c
      {
        if c in m {
          var i :| 0 <= i < |tail| && rules.classOf(tail[i].id) == c;
          assert items[i + 1] == tail[i];
        } else {
          assert rules.classOf(items[0].id) == c;
        }
      }
    }
  }

  // A class none of the items has is not in the map.
  lemma {:induction false} NotInContents<V>(rules: Rules, items: seq<Item<V>>, c: Class)
    requires forall i :: 0 <= i < |items| ==> rules.classOf(items[i].id) != c
    ensures c !in Contents(rules, items)
  {
    if items == [] {
    } else {
      NotInContents(rules, items[1..], c);
    }
  }

  lemma UniqueErased<V>(rules: Rules, items: seq<Item<V>>, k: nat)
    requires Unique(rules, items) && k < |items|
    ensures Unique(rules, items[..k] + items[k + 1..])
  {
  }

  lemma EraseOther<V>(m: map<Class, V>, c: Class, pri: V, d: Class)
    requires c != d
    ensures (m - {d})[c := pri] == m[c := pri] - {d}
  {
  }

  lemma {:induction false} ContentsErased<V>(rules: Rules, items: seq<Item<V>>, k: nat)
    requires k < |items| && forall i :: 0 <= i < |items| && i != k ==> !rules.Same(items[i].id, items[k].id)
    ensures Contents(rules, items[..k] + items[k + 1..]) == Contents(rules, items) - {rules.classOf(items[k].id)}
  {
    var rest, tail, c0 := items[..k] + items[k + 1..], items[1..], rules.classOf(items[0].id);
    if k == 0 {
      assert rest == tail;
      NotInContents(rules, tail, c0);
    } else {
      ContentsErased(rules, tail, k - 1);
      assert rest[0] == items[0] && rest[1..] == tail[..k - 1] + tail[k..];
      assert !rules.Same(items[0].id, items[k].id);
      EraseOther(Contents(rules, tail), c0, items[0].pri, rules.classOf(items[k].id));
    }
  }

  lemma UniqueJoined<V>(rules: Rules, a: seq<Item<V>>, b: seq<Item<V>>)
    requires Unique(rules, a) && Unique(rules, b) && Contents(rules, a).Keys !! Contents(rules, b).Keys
    ensures Unique(rules, a + b)
  {
    ContentsAt(rules, a);
    ContentsAt(rules, b);
    forall i, j | 0 <= i < j < |a + b|
      ensures !rules.Same((a + b)[i].id, (a + b)[j].id)
    {
      if i < |a| <= j {
        assert rules.classOf(a[i].id) in Contents(rules, a) && rules.classOf(b[j - |a|].id) in Contents(rules, b);
      }
    }
  }

  lemma {:induction false} ContentsJoined<V>(rules: Rules, a: seq<Item<V>>, b: seq<Item<V>>)
    requires Contents(rules, a).Keys !! Contents(rules, b).Keys
    ensures Contents(rules, a + b) == Contents(rules, a) + Contents(rules, b)
  {
    if a == [] {
      assert a + b == b;
    } else {
      assert (a + b)[1..] == a[1..] + b;
      ContentsJoined(rules, a[1..], b);
    }
  }

  class SafeRwList<V> {
    const rules: Rules
    const cache: MemoryCache
    var items: seq<Item<V>>

    constructor (rules: Rules, cache: MemoryCache)
      ensures this.rules == rules && this.cache == cache && items == []
    {
      this.rules, this.cache, items := rules, cache, [];
    }

    method Find(id: Id) returns (err: TabErr, pri: Found<V>)
      requires Unique(rules, items)
      ensures var m := Contents(rules, items);
        if rules.classOf(id) in m then err == TabOk && pri == Pri(m[rules.classOf(id)]) else err == NotFound && pri == Nothing
    {
      ContentsAt(rules, items);
      err, pri := NotFound, Nothing;
      var i := 0;
      while i < |items|
        invariant 0 <= i <= |items| && err == NotFound && pri == Nothing
        invariant forall j :: 0 <= j < i ==> !rules.Same(items[j].id, id)
      {
        if rules.Same(items[i].id, id) {
          return TabOk, Pri(items[i].pri);
        }
        i := i + 1;
      }
    }

    // An item is taken before the search and goes back when the id is there already.
    method Insert(id: Id, pri: V) returns (err: TabErr)
      requires Unique(rules, items) && cache.Counts() && 0 <= cache.out < cache.unit
      modifies this, cache
      ensures Unique(rules, items) && cache.Counts()
      ensures var m := Contents(rules, old(items));
        if rules.classOf(id) in m
        then err == Exist && items == old(items) && cache.out == old(cache.out)
        else err == TabOk && Contents(rules, items) == m[rules.classOf(id) := pri] && cache.out == old(cache.out) + 1
             && items == [Item(id, pri)] + old(items)
    {
      hide MemoryCache.Counts;
      ContentsAt(rules, items);
      var ok := cache.Alloc();
      assert ok;
      var found, tmp := Find(id);
      err := Exist;
      if found != TabOk {
        items := [Item(id, pri)] + items;
        assert items[1..] == old(items);
        err := TabOk;
      } else {
        cache.Free();
      }
    }

    method Erase(id: Id) returns (err: TabErr, pri: Found<V>)
      requires Unique(rules, items) && cache.Counts()
      modifies this, cache
      ensures Unique(rules, items) && cache.Counts()
      ensures var m := Contents(rules, old(items));
        if rules.classOf(id) in m
        then err == TabOk && pri == Pri(m[rules.classOf(id)]) && Contents(rules, items) == m - {rules.classOf(id)}
             && cache.out == old(cache.out) - 1
             && exists k :: 0 <= k < |old(items)| && old(items)[k].pri == pri.value && items == old(items)[..k] + old(items)[k + 1..]
        else err == NotFound && pri == Nothing && items == old(items) && cache.out == old(cache.out)
    {
      hide MemoryCache.Counts;
      ContentsAt(rules, items);
      var i := 0;
      while i < |items|
        invariant 0 <= i <= |items|
        invariant forall j :: 0 <= j < i ==> !rules.Same(items[j].id, id)
      {
        if rules.Same(items[i].id, id) {
          pri := Pri(items[i].pri);
          UniqueErased(rules, items, i);
          ContentsErased(rules, items, i);
          items := items[..i] + items[i + 1..];
          cache.Free();
          return TabOk, pri;
        }
        i := i + 1;
      }
      return NotFound, Nothing;
    }
  }

  // The entries whose class belongs in bucket i.
  ghost function PartOf<V>(rules: Rules, m: map<Class, V>, i: int): map<Class, V> {
    map c | c in m && rules.hash(c) == i :: m[c]
  }

  lemma PartErased<V>(rules: Rules, m: map<Class, V>, c: Class, i: int)
    ensures PartOf(rules, m - {c}, i) == if rules.hash(c) == i then PartOf(rules, m, i) - {c} else PartOf(rules, m, i)
  {
  }

  lemma PartInserted<V>(rules: Rules, m: map<Class, V>, c: Class, pri: V, i: int)
    ensures PartOf(rules, m[c := pri], i) == if rules.hash(c) == i then PartOf(rules, m, i)[c := pri] else PartOf(rules, m, i)
  {
  }

  class HashTable<V> {
    const rules: Rules
    const cache: MemoryCache
    const buckets: seq<SafeRwList<V>>
    ghost var m: map<Class, V>    // the table as a map

    ghost function Part(i: int): map<Class, V>
      reads this
    {
      PartOf(rules, m, i)
    }

    ghost predicate Valid()
      reads this, buckets, cache
    {
      && cache.Counts() && cache.out == |m| <= cache.unit
      && (forall c <- m :: 0 <= rules.hash(c) < |buckets|)
      && (forall i, j :: 0 <= i < j < |buckets| ==> buckets[i] != buckets[j])
      && (forall i :: 0 <= i < |buckets| ==>
            && buckets[i].rules == rules && buckets[i].cache == cache
            && Unique(rules, buckets[i].items) && Contents(rules, buckets[i].items) == Part(i))
    }

    constructor (rules: Rules, tableLen: nat, itemNum: U64)
      requires tableLen > 0
      ensures Valid() && m == map[] && |buckets| == tableLen && this.rules == rules && cache.unit == itemNum
    {
      var c := new MemoryCache(itemNum);
      var bs: seq<SafeRwList<V>> := [];
      while |bs| < tableLen
        invariant |bs| <= tableLen && c.Counts() && c.out == 0 && c.unit == itemNum && fresh(c)
        invariant forall i :: 0 <= i < |bs| ==> fresh(bs[i]) && bs[i].rules == rules && bs[i].cache == c && bs[i].items == []
        invariant forall i, j :: 0 <= i < j < |bs| ==> bs[i] != bs[j]
      {
        var b := new SafeRwList<V>(rules, c);
        bs := bs + [b];
      }
      this.rules, cache, buckets, m := rules, c, bs, map[];
    }

    lemma InItsPart(id: Id)
      ensures var c := rules.classOf(id);
        (c in Part(rules.hash(c)) <==> c in m) && (c in m ==> Part(rules.hash(c))[c] == m[c])
    {
    }

    method Find(id: Id) returns (err: TabErr, pri: Found<V>)
      requires Valid() && 0 <= rules.hash(rules.classOf(id)) < |buckets|
      ensures if rules.classOf(id) in m then err == TabOk && pri == Pri(m[rules.classOf(id)]) else err == NotFound && pri == Nothing
    {
      var index := rules.hash(rules.classOf(id));
      err, pri := buckets[index].Find(id);
    }

    method Insert(id: Id, pri: V) returns (err: TabErr)
      requires Valid() && 0 <= rules.hash(rules.classOf(id)) < |buckets| && |m| < cache.unit
      modifies this, buckets, cache
      ensures Valid()
      ensures if rules.classOf(id) in old(m) then err == Exist && m == old(m)
              else err == TabOk && m == old(m)[rules.classOf(id) := pri]
    {
      hide MemoryCache.Counts, Unique, Contents, PartOf;
      InItsPart(id);
      var c := rules.classOf(id);
      var index := rules.hash(c);
      err := buckets[index].Insert(id, pri);
      if err == TabOk {
        m := m[c := pri];
        forall i | 0 <= i < |buckets|
          ensures Part(i) == if i == index then old(Part(i))[c := pri] else old(Part(i))
        {
          PartInserted(rules, old(m), c, pri, i);
        }
        assert m.Keys == old(m).Keys + {c};
        assert |m| == |m.Keys| && |old(m)| == |old(m).Keys|;
      }
    }

    method Erase(id: Id) returns (err: TabErr, pri: Found<V>)
      requires Valid() && 0 <= rules.hash(rules.classOf(id)) < |buckets|
      modifies this, buckets, cache
      ensures Valid()
      ensures if rules.classOf(id) in old(m) then err == TabOk && pri == Pri(old(m)[rules.classOf(id)]) && m == old(m) - {rules.classOf(id)}
              else err == NotFound && pri == Nothing && m == old(m)
    {
      hide MemoryCache.Counts, Unique, Contents, PartOf;
      InItsPart(id);
      var c := rules.classOf(id);
      var index := rules.hash(c);
      err, pri := buckets[index].Erase(id);
      if err == TabOk {
        m := m - {c};
        forall i | 0 <= i < |buckets|
          ensures Part(i) == if i == index then old(Part(i)) - {c} else old(Part(i))
        {
          PartErased(rules, old(m), c, i);
        }
        assert m.Keys == old(m).Keys - {c};
        assert |m| == |m.Keys| && |old(m)| == |old(m).Keys|;
      }
    }

    // The items of the first n buckets, bucket by bucket.
    ghost function Listed(n: nat): seq<Item<V>>
      requires n <= |buckets|
      reads buckets
    {
      if n == 0 then [] else Listed(n - 1) + buckets[n - 1].items
    }

    // Every entry of the table is visited, and none twice.
    method ForEachDo() returns (visited: seq<Item<V>>)
      requires Valid()
      ensures Unique(rules, visited) && Contents(rules, visited) == m && visited == Listed(|buckets|)
    {
      visited := [];
      var i := 0;
      while i < |buckets|
        invariant 0 <= i <= |buckets| && visited == Listed(i)
        invariant 0 <= i <= |buckets| && Unique(rules, visited)
        invariant Contents(rules, visited) == map c | c in m && rules.hash(c) < i :: m[c]
      {
        UniqueJoined(rules, visited, buckets[i].items);
        ContentsJoined(rules, visited, buckets[i].items);
        assert Contents(rules, visited + buckets[i].items) == map c | c in m && rules.hash(c) < i + 1 :: m[c];
        visited := visited + buckets[i].items;
        i := i + 1;
      }
    }
  }
}
