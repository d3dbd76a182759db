/** The sharded map from collection name to buffer: 32 plain maps, a key
    living in the shard its 32-bit FNV-1 hash selects. */
module ConcurrentMaps {
  import opened Bytes

  const ShardCount: nat := 32

  const FnvOffset32: bv32 := 2166136261
  const FnvPrime32: bv32 := 16777619

  /** FNV-1 from hash state h: for each byte, multiply by the prime (modulo
      2^32, which bv32 arithmetic is) and then XOR the byte in. */
  function FnvFrom(h: bv32, data: seq<byte>): bv32
    decreases data
  {
    if data == [] then h else FnvFrom((h * FnvPrime32) ^ (data[0] as bv32), data[1..])
  }

  /** `fnv.New32()` fed with `data`, then `Sum32()`. */
  function Fnv32(data: seq<byte>): bv32
  {
    FnvFrom(FnvOffset32, data)
  }

  /** The published FNV-1 32-bit check values for "" and "a". */
  lemma FnvCheckValues()
    ensures Fnv32([]) == 0x811c9dc5
    ensures Fnv32([0x61]) == 0x050c5d7e
  {
  }

  /** The shard `GetShard` selects: the hash read as an unsigned number,
      modulo the shard count. This is the index as the source computes it
      where Go's `int` is 64 bits wide. */
  function ShardOf(key: GoString): (i: nat)
    ensures i < ShardCount
  {
    (Fnv32(key) as int) % ShardCount
  }

  // The index as written, on a platform where Go's `int` is 32 bits wide:
  // `int(hasher.Sum32())` reinterprets the hash as a signed number and Go's
  // `%` truncates toward zero.

  /** Go's `int(u)` for a `uint32` value h when `int` is 32 bits wide. */
  function Int32Of(h: int): int
    requires 0 <= h < 0x1_0000_0000
  {
    if h < 0x8000_0000 then h else h - 0x1_0000_0000
  }

  /** Go's `%`, which truncates toward zero. */
  function GoRem(a: int, b: int): int
    requires b > 0
  {
    if a >= 0 then a % b else -((-a) % b)
  }

  /** The index a 32-bit `int` gives for a hash with unsigned value h. */
  function IndexInt32(h: int): int
    requires 0 <= h < 0x1_0000_0000
  {
    GoRem(Int32Of(h), ShardCount)
  }

  function ShardIndexInt32(key: GoString): int
  {
    IndexInt32(Fnv32(key) as int)
  }

  /** The bytes of "collection". */
  const CollectionKey: GoString := [0x63, 0x6f, 0x6c, 0x6c, 0x65, 0x63, 0x74, 0x69, 0x6f, 0x6e]

  /** With a 32-bit `int`, the key "collection" selects shard -27, an index
      outside the slice of 32 shards. */
  lemma ShardIndexInt32Negative()
    ensures Fnv32(CollectionKey) == 0xae63d045
    ensures ShardIndexInt32(CollectionKey) == -27
  {
  }

  /** The 32-bit reading is negative exactly for the hashes at or above 2^31
      that are not multiples of 32, and otherwise equals the unsigned
      reading `ShardOf` uses. */
  lemma IndexInt32Agrees(h: int)
    requires 0 <= h < 0x1_0000_0000
    ensures IndexInt32(h) < 0 <==> h >= 0x8000_0000 && h % 32 != 0
    ensures IndexInt32(h) >= 0 ==> IndexInt32(h) == h % ShardCount
  {
    if h >= 0x8000_0000 {
      var q, r := h / 32, h % 32;
      assert h == 32 * q + r;
      var d := 0x1_0000_0000 - h;
      if r == 0 {
        assert d == 32 * (0x800_0000 - q);
        assert d % 32 == 0;
      } else {
        assert d == 32 * (0x800_0000 - q - 1) + (32 - r);
        assert d % 32 == 32 - r;
      }
    }
  }

  /** `concurrentMap`: `shards[i]` is the `items` map of shard i. The ghost
      `contents` is the map the shards together represent. */
  class ConcurrentMap<V> {
    const shards: array<map<GoString, V>>
    ghost var contents: map<GoString, V>

    /** The entries of `m` whose key belongs to shard i. */
    static ghost function InShard(m: map<GoString, V>, i: nat): map<GoString, V>
    {
      map k | k in m && ShardOf(k) == i :: m[k]
    }

    /** Every key is stored in the shard `ShardOf` selects and in no other,
        with the value `contents` gives it. */
    ghost predicate Valid()
      reads this, shards
    {
      && shards.Length == ShardCount
      && (forall i :: 0 <= i < ShardCount ==> shards[i] == InShard(contents, i))
    }

    static lemma InShardEmpty(i: nat)
      ensures InShard(map[], i) == map[]
    {
    }

    /** Binding a key changes only the key's own shard. */
    static lemma InShardUpdate(m: map<GoString, V>, key: GoString, v: V, i: nat)
      ensures InShard(m[key := v], i) == if i == ShardOf(key) then InShard(m, i)[key := v] else InShard(m, i)
    {
    }

    /** Removing a key changes only the key's own shard. */
    static lemma InShardRemove(m: map<GoString, V>, key: GoString, i: nat)
      ensures InShard(m - {key}, i) == InShard(m, i) - {key}
    {
    }

    /** `NewConcurrentMap`: 32 empty shards. */
    constructor ()
      ensures Valid() && fresh(shards)
      ensures contents == map[]
    {
      var m := new map<GoString, V>[ShardCount];
      for i := 0 to ShardCount
        invariant forall j :: 0 <= j < i ==> m[j] == InShard(map[], j)
      {
        InShardEmpty(i);
        m[i] := map[];
      }
      shards := m;
      contents := map[];
    }

    /** `GetShard`: the index of the shard a key belongs to. */
    method GetShard(key: GoString) returns (i: nat)
      ensures i < ShardCount
      ensures i == ShardOf(key)
    {
      var h := Fnv32(key);
      i := (h as int) % ShardCount;
    }

    /** `Set`. Every other key keeps its binding. */
    method Set(key: GoString, value: V)
      requires Valid()
      modifies this, shards
      ensures Valid()
      ensures contents == old(contents)[key := value]
    {
      var i := GetShard(key);
      forall j | 0 <= j < ShardCount {
        InShardUpdate(contents, key, value, j);
      }
      shards[i] := shards[i][key := value];
      contents := contents[key := value];
    }

    /** `Get`: the stored value, or nothing when the key is absent. */
    method Get(key: GoString) returns (r: Option<V>)
      requires Valid()
      ensures r.Some? <==> key in contents
      ensures r.Some? ==> r.value == contents[key]
    {
      var i := GetShard(key);
      if key in shards[i] {
        r := Some(shards[i][key]);
      } else {
        r := None;
      }
    }

    /** `Fetch`: fetch-or-create. `candidate` is what the factory `f(key)`
        returns; it is used, and `called` holds, exactly when the key was
        absent. A present key's value is returned and nothing changes. */
    method Fetch(key: GoString, candidate: V) returns (v: V, called: bool)
      requires Valid()
      modifies this, shards
      ensures Valid()
      ensures called <==> key !in old(contents)
      ensures called ==> v == candidate && contents == old(contents)[key := candidate]
      ensures !called ==> v == old(contents)[key] && contents == old(contents)
      ensures key in contents && contents[key] == v
    {
      var i := GetShard(key);
      if key in shards[i] {
        v, called := shards[i][key], false;
      } else {
        v, called := candidate, true;
        forall j | 0 <= j < ShardCount {
          InShardUpdate(contents, key, v, j);
        }
        shards[i] := shards[i][key := v];
        contents := contents[key := v];
      }
    }

    /** The keys stored in the shards below i. */
    ghost function KeysBelow(i: nat): set<GoString>
      reads this
    {
      set k | k in contents && ShardOf(k) < i
    }

    lemma KeysBelowStep(i: nat)
      requires Valid() && i < ShardCount
      ensures KeysBelow(i + 1) == KeysBelow(i) + shards[i].Keys
      ensures KeysBelow(i) !! shards[i].Keys
    {
      forall k | k in KeysBelow(i + 1)
        ensures k in KeysBelow(i) + shards[i].Keys
      {
        if ShardOf(k) == i {
          assert k in InShard(contents, i);
        }
      }
    }

    lemma KeysBelowAll()
      requires Valid()
      ensures KeysBelow(ShardCount) == contents.Keys
    {
    }

    /** Cardinality of a union of disjoint sets. */
    static lemma {:induction false} DisjointUnionSize(a: set<GoString>, b: set<GoString>)
      requires a !! b
      ensures |a + b| == |a| + |b|
      decreases |b|
    {
      if b != {} {
        var x :| x in b;
        DisjointUnionSize(a, b - {x});
        assert a + b == (a + (b - {x})) + {x};
      }
    }

    lemma CountStep(i: nat)
      requires Valid() && i < ShardCount
      ensures |KeysBelow(i + 1)| == |KeysBelow(i)| + |shards[i]|
    {
      KeysBelowStep(i);
      DisjointUnionSize(KeysBelow(i), shards[i].Keys);
    }

    /** `Count`: the number of distinct keys over all shards. */
    method Count() returns (n: nat)
      requires Valid()
      ensures n == |contents|
    {
      n := 0;
      for i := 0 to ShardCount
        invariant n == |KeysBelow(i)|
      {
        CountStep(i);
        n := n + |shards[i]|;
      }
      KeysBelowAll();
    }

    /** `Has`. */
    method Has(key: GoString) returns (b: bool)
      requires Valid()
      ensures b <==> key in contents
    {
      var i := GetShard(key);
      b := key in shards[i];
    }

    /** `Remove`: deleting an absent key changes nothing. */
    method Remove(key: GoString)
      requires Valid()
      modifies this, shards
      ensures Valid()
      ensures contents == old(contents) - {key}
    {
      var i := GetShard(key);
      forall j | 0 <= j < ShardCount {
        InShardRemove(contents, key, j);
      }
      shards[i] := shards[i] - {key};
      contents := contents - {key};
    }

    /** `IsEmpty`. */
    method IsEmpty() returns (b: bool)
      requires Valid()
      ensures b <==> contents == map[]
    {
      var n := Count();
      b := n == 0;
    }

    /** `items` holds the entries of the keys in `keys`, each exactly once. */
    ghost predicate Enumerates(items: seq<(GoString, V)>, keys: set<GoString>)
      reads this`contents
    {
      && (forall j :: 0 <= j < |items| ==>
            items[j].0 in keys && items[j].0 in contents && items[j].1 == contents[items[j].0])
      && (forall k :: k in keys ==> exists j :: 0 <= j < |items| && items[j].0 == k)
      && (forall j, j' :: 0 <= j < j' < |items| ==> items[j].0 != items[j'].0)
    }

    lemma EnumeratesAdd(items: seq<(GoString, V)>, keys: set<GoString>, k: GoString)
      requires Enumerates(items, keys)
      requires k in contents && k !in keys
      ensures Enumerates(items + [(k, contents[k])], keys + {k})
    {
      var items' := items + [(k, contents[k])];
      forall k' | k' in keys + {k}
        ensures exists j :: 0 <= j < |items'| && items'[j].0 == k'
      {
        if k' == k {
          assert items'[|items|].0 == k;
        } else {
          var j :| 0 <= j < |items| && items[j].0 == k';
          assert items'[j].0 == k';
        }
      }
    }

    /** An enumeration has exactly one entry per key. */
    lemma {:induction false} EnumeratesSize(items: seq<(GoString, V)>, keys: set<GoString>)
      requires Enumerates(items, keys)
      ensures |items| == |keys|
      decreases |items|
    {
      if items != [] {
        var n := |items|;
        var k := items[n - 1].0;
        var init := items[..n - 1];
        forall k' | k' in keys - {k}
          ensures exists j :: 0 <= j < |init| && init[j].0 == k'
        {
          var j :| 0 <= j < |items| && items[j].0 == k';
          assert init[j].0 == k';
        }
        EnumeratesSize(init, keys - {k});
      }
    }

    /** Entries appear shard by shard, in shard index order. */
    static ghost predicate ShardOrdered(items: seq<(GoString, V)>)
    {
      forall j, j' :: 0 <= j < j' < |items| ==> ShardOf(items[j].0) <= ShardOf(items[j'].0)
    }

    lemma IterStep(i: nat, items: seq<(GoString, V)>, done: set<GoString>, k: GoString)
      requires Valid() && i < ShardCount
      requires Enumerates(items, KeysBelow(i) + done) && ShardOrdered(items)
      requires forall j :: 0 <= j < |items| ==> ShardOf(items[j].0) <= i
      requires k in shards[i] && k !in done
      ensures Enumerates(items + [(k, shards[i][k])], KeysBelow(i) + (done + {k}))
      ensures ShardOrdered(items + [(k, shards[i][k])])
      ensures forall j :: 0 <= j < |items| + 1 ==> ShardOf((items + [(k, shards[i][k])])[j].0) <= i
    {
      assert ShardOf(k) == i && k in contents && contents[k] == shards[i][k];
      assert KeysBelow(i) + done + {k} == KeysBelow(i) + (done + {k});
      EnumeratesAdd(items, KeysBelow(i) + done, k);
    }

    /** The inner loop of `Iter`: append shard i's entries, in an
        unspecified order. */
    method IterShard(i: nat, items0: seq<(GoString, V)>) returns (items: seq<(GoString, V)>)
      requires Valid() && i < ShardCount
      requires Enumerates(items0, KeysBelow(i)) && ShardOrdered(items0)
      requires forall j :: 0 <= j < |items0| ==> ShardOf(items0[j].0) < i
      ensures Enumerates(items, KeysBelow(i + 1)) && ShardOrdered(items)
      ensures forall j :: 0 <= j < |items| ==> ShardOf(items[j].0) <= i
    {
      KeysBelowStep(i);
      items := items0;
      var rest := shards[i].Keys;
      ghost var done: set<GoString> := {};
      while rest != {}
        invariant rest !! done && rest + done == shards[i].Keys
        invariant Enumerates(items, KeysBelow(i) + done) && ShardOrdered(items)
        invariant forall j :: 0 <= j < |items| ==> ShardOf(items[j].0) <= i
        decreases rest
      {
        var k :| k in rest;
        IterStep(i, items, done, k);
        items := items + [(k, shards[i][k])];
        rest, done := rest - {k}, done + {k};
      }
    }

    /** `Iter`, as a sequential enumeration: shard by shard in index order,
        and within a shard in an unspecified order, every entry exactly
        once. */
    method Iter() returns (items: seq<(GoString, V)>)
      requires Valid()
      ensures Enumerates(items, contents.Keys)
      ensures forall j, j' :: 0 <= j < j' < |items| ==> ShardOf(items[j].0) <= ShardOf(items[j'].0)
    {
      items := [];
      for i := 0 to ShardCount
        invariant Enumerates(items, KeysBelow(i)) && ShardOrdered(items)
        invariant forall j :: 0 <= j < |items| ==> ShardOf(items[j].0) < i
      {
        items := IterShard(i, items);
      }
      KeysBelowAll();
    }
  }
}
