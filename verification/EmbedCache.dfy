/** The embedding cache (embed/cache.go:45-201) over a deterministic inner embedder, under every interleaving of its
    locked sections: whatever other calls do between two sections of one call is a list of sections of its own. */
module EmbedCache {

  import opened Decimal

  predicate Distinct(s: seq<string>) {
    forall i, j :: 0 <= i < j < |s| ==> s[i] != s[j]
  }

  /** The order with one key moved or put to the front. */
  function Front(order: seq<string>, k: string): seq<string> {
    [k] + Without(order, k)
  }

  function Without(order: seq<string>, k: string): (r: seq<string>)
    ensures forall x :: x in r <==> x in order && x != k
    ensures |r| <= |order|
  {
    if order == [] then []
    else if order[0] == k then Without(order[1..], k)
    else [order[0]] + Without(order[1..], k)
  }

  lemma {:induction false} WithoutIsDistinct(order: seq<string>, k: string)
    requires Distinct(order)
    ensures Distinct(Without(order, k)) && |Without(order, k)| == |order| - if k in order then 1 else 0
  {
    if order != [] {
      WithoutIsDistinct(order[1..], k);
      assert order == [order[0]] + order[1..];
      assert forall i :: 1 <= i < |order| ==> order[i] == order[1..][i - 1];
      if order[0] != k {
        ConsIsDistinct(order[0], Without(order[1..], k));
      }
    }
  }

  lemma ConsIsDistinct(k: string, rest: seq<string>)
    requires Distinct(rest) && k !in rest
    ensures Distinct([k] + rest)
  {
    var s := [k] + rest;
    assert forall i :: 0 < i < |s| ==> s[i] == rest[i - 1];
  }

  /** Recency: an earlier key was used later. */
  predicate ByUse(order: seq<string>, used: map<string, nat>) {
    && (forall i :: 0 <= i < |order| ==> order[i] in used)
    && forall i, j :: 0 <= i < j < |order| ==> used[order[i]] > used[order[j]]
  }

  lemma {:induction false} WithoutIsByUse(order: seq<string>, k: string, used: map<string, nat>)
    requires ByUse(order, used)
    ensures ByUse(Without(order, k), used)
  {
    hide ByUse;
    if order != [] {
      TailIsByUse(order, used);
      WithoutIsByUse(order[1..], k, used);
      ConsIsByUse(order[0], Without(order[1..], k), used);
    }
  }

  lemma TailIsByUse(order: seq<string>, used: map<string, nat>)
    requires ByUse(order, used) && order != []
    ensures ByUse(order[1..], used) && order[0] in used
    ensures forall x :: x in order[1..] ==> x in used && used[order[0]] > used[x]
  {
  }

  lemma ConsIsByUse(k: string, rest: seq<string>, used: map<string, nat>)
    requires ByUse(rest, used) && k in used && forall x :: x in rest ==> x in used && used[k] > used[x]
    ensures ByUse([k] + rest, used)
  {
    var s := [k] + rest;
    assert forall i :: 0 < i < |s| ==> s[i] == rest[i - 1] && s[i] in rest;
  }

  lemma FrontIsByUse(order: seq<string>, k: string, used: map<string, nat>, clock: nat)
    requires ByUse(order, used) && Distinct(order) && forall x :: x in used ==> used[x] < clock
    ensures ByUse(Front(order, k), used[k := clock]) && Distinct(Front(order, k))
  {
    WithoutIsByUse(order, k, used);
    WithoutIsDistinct(order, k);
    var f, rest := Front(order, k), Without(order, k);
    assert forall i :: 0 < i < |f| ==> f[i] == rest[i - 1] && f[i] in rest;
  }

  lemma SizeOfFront(order: seq<string>, k: string)
    requires Distinct(order)
    ensures |Front(order, k)| == |order| + if k in order then 0 else 1
  {
    WithoutIsDistinct(order, k);
  }

  lemma EvictedIsOldest(order: seq<string>, used: map<string, nat>)
    requires ByUse(order, used) && order != []
    ensures var last := order[|order| - 1];
            last in used && forall k :: k in order[..|order| - 1] ==> k in used && used[last] < used[k]
  {
  }

  /** One key never stands for two embeddings. */
  ghost predicate KeysTellApart(key: string -> string, inner: string -> seq<real>) {
    forall t: string, u: string :: key(t) == key(u) ==> inner(t) == inner(u)
  }

  /** v is the embedding of whatever text has the key k. */
  ghost predicate Tells(key: string -> string, inner: string -> seq<real>, k: string, v: seq<real>) {
    forall t: string :: key(t) == k ==> inner(t) == v
  }

  lemma TellsOwn(key: string -> string, inner: string -> seq<real>, text: string)
    requires KeysTellApart(key, inner)
    ensures Tells(key, inner, key(text), inner(text))
  {
  }

  lemma ToldIs(key: string -> string, inner: string -> seq<real>, text: string, v: seq<real>)
    requires Tells(key, inner, key(text), v)
    ensures v == inner(text)
  {
  }

  /** A locked section of some other call. */
  datatype Section = Touch(text: string) | Store(text: string) | Wipe

  class CachedEmbedder {
    const inner: string -> seq<real>
    const key: string -> string
    const maxSize: nat
    var cache: map<string, array<real>>
    var lru: seq<string>
    var hits: nat
    var misses: nat
    ghost var used: map<string, nat>
    ghost var clock: nat

    /** Map and list hold the same keys, in order of use. */
    ghost predicate Ordered()
      reads this
    {
      && Distinct(lru) && (forall k :: k in lru <==> k in cache) && ByUse(lru, used)
      && (forall k :: k in used ==> used[k] < clock)
    }

    /** Every stored vector is the inner embedder's. */
    ghost predicate Honest()
      reads this, cache.Values
    {
      && KeysTellApart(key, inner)
      && (forall k :: k in cache ==> Tells(key, inner, k, cache[k][..]))
    }

    ghost predicate Valid()
      reads this, cache.Values
    {
      Ordered() && Honest() && (maxSize > 0 ==> |lru| <= maxSize)
    }

    constructor (inner: string -> seq<real>, key: string -> string, maxSize: int)
      requires KeysTellApart(key, inner)
      ensures Valid() && cache == map[] && this.inner == inner && this.key == key
    {
      this.inner, this.key := inner, key;
      this.maxSize := if maxSize < 0 then 0 else maxSize;
      cache, lru, hits, misses := map[], [], 0, 0;
      used, clock := map[], 0;
    }

    method Copy(v: seq<real>) returns (a: array<real>)
      ensures fresh(a) && a[..] == v
    {
      a := new real[|v|](i requires 0 <= i < |v| => v[i]);
    }

    /** `lru.MoveToFront`. */
    method MoveToFront(k: string)
      requires Valid() && k in cache
      modifies this`lru, this`used, this`clock
      ensures Valid() && lru == Front(old(lru), k)
    {
      FrontIsByUse(lru, k, used, clock);
      WithoutIsDistinct(lru, k);
      lru := Front(lru, k);
      used := used[k := clock];
      clock := clock + 1;
    }

    /** The first section of `Embed`. */
    method LookUp(text: string) returns (hit: Option<array<real>>)
      requires Valid()
      modifies this
      ensures Valid() && cache == old(cache)
      ensures hit.Some? <==> key(text) in cache
      ensures hit.Some? ==> fresh(hit.value) && hit.value[..] == inner(text) && lru == Front(old(lru), key(text))
      ensures hits == old(hits) + (if hit.Some? then 1 else 0) && misses == old(misses) + (if hit.Some? then 0 else 1)
    {
      hide Front, Without, ByUse, Distinct, KeysTellApart, Tells;
      var k := key(text);
      if k in cache {
        ToldIs(key, inner, text, cache[k][..]);
        MoveToFront(k);
        hits := hits + 1;
        var v := Copy(cache[k][..]);
        return Some(v);
      }
      misses := misses + 1;
      return None;
    }

    /** `insert`: the new entry comes first, and whoever is evicted was used before everyone who stays. */
    method Insert(text: string, emb: seq<real>)
      requires Valid() && emb == inner(text)
      modifies this
      ensures Valid() && hits == old(hits) && misses == old(misses)
      ensures forall k :: k in cache ==>
              (k in old(cache) && cache[k] == old(cache)[k]) || (k == key(text) && fresh(cache[k]))
      ensures forall k, l :: k in old(cache) && k !in cache && l in cache ==>
              k in used && l in used && used[k] < used[l]
      ensures var moved := Front(old(lru), key(text));
              lru == if maxSize > 0 && |moved| > maxSize then moved[..maxSize] else moved
    {
      hide Front, Without, ByUse, Distinct, KeysTellApart, Tells;
      var k := key(text);
      var cp := Copy(emb);
      TellsOwn(key, inner, text);
      SizeOfFront(lru, k);
      if k in cache {
        Replace(k, cp);
      } else {
        AddNew(k, cp);
      }
    }

    method AddNew(k: string, cp: array<real>)
      requires Valid() && k !in cache && Tells(key, inner, k, cp[..])
      modifies this`cache, this`lru, this`used, this`clock
      ensures Valid()
      ensures forall l :: l in cache ==> (l in old(cache) && cache[l] == old(cache)[l]) || (l == k && cache[l] == cp)
      ensures forall l, m :: l in old(cache) && l !in cache && m in cache ==>
              l in used && m in used && used[l] < used[m]
      ensures var moved := Front(old(lru), k);
              lru == if maxSize > 0 && |moved| > maxSize then moved[..maxSize] else moved
    {
      hide Front, Without, ByUse, Distinct, KeysTellApart, Tells;
      SizeOfFront(lru, k);
      PushFront(k, cp);
      Shrink();
    }

    method Replace(k: string, cp: array<real>)
      requires Valid() && k in cache && Tells(key, inner, k, cp[..])
      modifies this`cache, this`lru, this`used, this`clock
      ensures Valid() && cache == old(cache)[k := cp] && lru == Front(old(lru), k)
    {
      hide Front, Without, ByUse, Distinct, KeysTellApart, Tells;
      cache := cache[k := cp];
      MoveToFront(k);
    }

    /** Back within the bound: whoever goes was used before everyone who stays. */
    method Shrink()
      requires Ordered() && Honest() && |cache| == |lru| && (maxSize > 0 ==> |lru| <= maxSize + 1)
      modifies this`cache, this`lru
      ensures Valid() && lru == (if maxSize > 0 && |old(lru)| > maxSize then old(lru)[..maxSize] else old(lru))
      ensures forall k :: k in cache ==> k in old(cache) && cache[k] == old(cache)[k]
      ensures forall k, l :: k in old(cache) && k !in cache && l in cache ==>
              k in used && l in used && used[k] < used[l]
    {
      hide Front, Without, ByUse, Distinct, KeysTellApart, Tells;
      ghost var order := lru;
      if maxSize > 0 && |cache| > maxSize {
        EvictOldest();
        EvictedIsOldest(order, used);
      }
    }

    method PushFront(k: string, cp: array<real>)
      requires Ordered() && k !in cache
      modifies this`cache, this`lru, this`used, this`clock
      ensures Ordered() && lru == Front(old(lru), k) && cache == old(cache)[k := cp] && |cache| == |lru|
    {
      hide ByUse, Distinct, Tells;
      FrontIsByUse(lru, k, used, clock);
      cache := cache[k := cp];
      lru := Front(lru, k);
      used := used[k := clock];
      clock := clock + 1;
      SameSize(lru, cache.Keys);
    }

    method Clear()
      requires Valid()
      modifies this`cache, this`lru
      ensures Valid() && cache == map[] && lru == []
    {
      cache, lru := map[], [];
    }

    /** What other calls do in between. They store only vectors of their own. */
    method Others(sections: seq<Section>)
      requires Valid()
      modifies this
      ensures Valid() && hits >= old(hits) && misses >= old(misses)
      ensures forall k :: k in cache ==> cache[k] in old(cache.Values) || fresh(cache[k])
    {
      hide Front, Without, ByUse, Distinct, KeysTellApart, Tells;
      for i := 0 to |sections|
        invariant Valid() && hits >= old(hits) && misses >= old(misses)
        invariant forall k :: k in cache ==> cache[k] in old(cache.Values) || fresh(cache[k])
      {
        match sections[i] {
          case Touch(text) => var _ := LookUp(text);
          case Store(text) => Insert(text, inner(text));
          case Wipe => Clear();
        }
      }
    }

    /** `Embed`: what the inner embedder says, in memory of the caller's own. */
    method Embed(text: string, fails: bool, between: seq<Section>) returns (r: Option<array<real>>)
      requires Valid()
      modifies this
      ensures Valid()
      ensures r.None? <==> fails && key(text) !in old(cache)
      ensures r.Some? ==> fresh(r.value) && r.value[..] == inner(text) && r.value !in cache.Values
    {
      hide Front, Without, ByUse, Distinct, KeysTellApart, Tells;
      r := LookUp(text);
      if r.Some? {
        return;
      }
      Others(between);
      if fails {
        return None;
      }
      var emb := inner(text);
      Insert(text, emb);
      var v := Copy(emb);
      r := Some(v);
    }

    /** Vectors of the caller's own: none of them is stored. */
    ghost predicate Private(results: seq<Option<array<real>>>)
      reads this
    {
      forall j :: 0 <= j < |results| && results[j].Some? ==> results[j].value !in cache.Values
    }

    /** Every result that is there is the right one. */
    ghost predicate Right(texts: seq<string>, results: seq<Option<array<real>>>)
      reads set j | 0 <= j < |results| && results[j].Some? :: results[j].value
    {
      |results| <= |texts| && forall j :: 0 <= j < |results| && results[j].Some? ==>
        results[j].value[..] == inner(texts[j])
    }

    /** The first section of `EmbedBatch`. */
    method LookUpAll(texts: seq<string>) returns (results: seq<Option<array<real>>>, missing: seq<nat>)
      requires Valid()
      modifies this
      ensures Valid() && |results| == |texts| && Right(texts, results) && Private(results)
      ensures forall j :: 0 <= j < |results| && results[j].Some? ==> fresh(results[j].value)
      ensures forall m :: 0 <= m < |missing| ==> missing[m] < |texts|
      ensures forall j :: 0 <= j < |texts| && results[j].None? ==> j in missing
      ensures forall j :: 0 <= j < |texts| ==> (results[j].None? <==> key(texts[j]) !in old(cache))
      ensures missing != [] <==> exists j :: 0 <= j < |texts| && key(texts[j]) !in old(cache)
      ensures hits + misses == old(hits) + old(misses) + |texts|
    {
      hide Front, Without, ByUse, Distinct, KeysTellApart, Tells;
      results, missing := [], [];
      for i := 0 to |texts|
        invariant Valid() && cache == old(cache) && |results| == i && Right(texts, results)
        invariant forall j :: 0 <= j < i && results[j].Some? ==> fresh(results[j].value)
        invariant forall m :: 0 <= m < |missing| ==> missing[m] < i
        invariant forall j :: 0 <= j < i && results[j].None? ==> j in missing
        invariant forall j :: 0 <= j < i ==> (results[j].None? <==> key(texts[j]) !in cache)
        invariant missing != [] ==> results[missing[0]].None?
        invariant hits + misses == old(hits) + old(misses) + i
      {
        var hit := LookUp(texts[i]);
        results := results + [hit];
        if hit.None? {
          missing := missing + [i];
        }
      }
    }

    /** `EmbedBatch`: index-aligned with the texts. */
    method EmbedBatch(texts: seq<string>, fails: bool, count: nat,
                      between: seq<Section>) returns (r: Option<seq<array<real>>>)
      requires Valid()
      modifies this
      ensures Valid()
      ensures r.None? <==> (fails || count != 0) && exists i :: 0 <= i < |texts| && key(texts[i]) !in old(cache)
      ensures r.Some? ==> |r.value| == |texts|
      ensures r.Some? ==> forall i :: 0 <= i < |texts| ==>
                fresh(r.value[i]) && r.value[i][..] == inner(texts[i]) && r.value[i] !in cache.Values
    {
      hide Front, Without, ByUse, Distinct, KeysTellApart, Tells;
      if texts == [] {
        return Some([]);
      }
      var results, missing := LookUpAll(texts);
      if missing != [] {
        Others(between);
        // The inner embedder fails, or answers with `count` vectors too many or too few.
        if fails || count != 0 {
          return None;
        }
        results := StoreMissing(texts, results, missing);
      }
      r := Some(seq(|texts|, i requires 0 <= i < |texts| && results[i].Some? => results[i].value));
    }

    /** The last section of `EmbedBatch`. */
    method StoreMissing(texts: seq<string>, found: seq<Option<array<real>>>,
                        missing: seq<nat>) returns (results: seq<Option<array<real>>>)
      requires Valid() && |found| == |texts| && Right(texts, found) && Private(found)
      requires forall m :: 0 <= m < |missing| ==> missing[m] < |texts|
      requires forall j :: 0 <= j < |texts| && found[j].None? ==> j in missing
      modifies this
      ensures Valid() && |results| == |texts| && Right(texts, results) && Private(results)
      ensures forall j :: 0 <= j < |texts| ==> results[j].Some? && (results[j] == found[j] || fresh(results[j].value))
    {
      hide Front, Without, ByUse, Distinct, KeysTellApart, Tells;
      results := found;
      for m := 0 to |missing|
        invariant Valid() && |results| == |texts| && Right(texts, results) && Private(results)
        invariant forall j :: 0 <= j < |texts| ==>
                  results[j] == found[j] || (results[j].Some? && fresh(results[j].value))
        invariant forall l :: 0 <= l < m ==> results[missing[l]].Some?
      {
        var emb := inner(texts[missing[m]]);
        var v := Copy(emb);
        results := results[missing[m] := Some(v)];
        Insert(texts[missing[m]], emb);
      }
    }

    method EvictOldest()
      requires Ordered() && lru != []
      modifies this`cache, this`lru
      ensures Ordered() && lru == old(lru)[..|old(lru)| - 1] && cache == old(cache) - {old(lru)[|old(lru)| - 1]}
    {
      var oldest := lru[|lru| - 1];
      cache := cache - {oldest};
      lru := lru[..|lru| - 1];
      assert old(lru) == lru + [oldest];
    }
  }

  lemma {:induction false} SameSize(order: seq<string>, keys: set<string>)
    requires Distinct(order) && forall k :: k in order <==> k in keys
    ensures |keys| == |order|
    decreases |order|
  {
    if order != [] {
      var last := order[|order| - 1];
      assert order == order[..|order| - 1] + [last];
      SameSize(order[..|order| - 1], keys - {last});
    } else {
      assert keys == {};
    }
  }
}
