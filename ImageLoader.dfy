/**
 * The bounded LRU image cache (`LruImgCache`) and the synchronous loader built on it
 * (`ImageLoader.getImage`).
 *
 * Bitmaps are opaque values; decoding is a parameter `decode(url)` that yields `None` when
 * the platform decoder throws.  The cache keeps a recency list (most recent first), a map from
 * url to stored image and cost, and a running byte counter checked against a fixed budget.
 */
module ImageCache {
  import opened Wrappers
  import opened Strings

  /** A decoded bitmap, or the 1x1 placeholder made by `createFallbackBitmap`
      (a `RenderTargetBitmap` in the default, 32-bit, pixel format). */
  datatype Bitmap =
    | Decoded(bitsPerPixel: nat, pixelWidth: nat, pixelHeight: nat, source: string)
    | Fallback
  {
    function BitsPerPixel(): nat { if Decoded? then bitsPerPixel else 32 }
    function Width(): nat { if Decoded? then pixelWidth else 1 }
    function Height(): nat { if Decoded? then pixelHeight else 1 }
  }

  /** The cost charged for the placeholder when an image is too big for the cache. */
  const FallbackCost: int := 4

  /** Budget of the loader's cache: 200 million bytes. */
  const CacheMaxBytes: int := 200 * 1000000

  /** Cost in bytes of a bitmap: bits per pixel times pixel count, divided by 8 and truncated.
      Computed on unbounded integers (the corrected form of the source's 32-bit product). */
  function Cost(b: Bitmap): (c: nat)
    ensures c * 8 <= b.BitsPerPixel() * b.Width() * b.Height() < c * 8 + 8
  {
    (b.BitsPerPixel() * b.Width() * b.Height()) / 8
  }

  /** The placeholder costs exactly the fallback cost, whichever way it is charged. */
  lemma FallbackCostsFour()
    ensures Cost(Fallback) == FallbackCost
  {
  }

  // ---------------------------------------------------------------------------------------
  // The cost formula as written: `(int)((bpp * w * h) / 8.0)` with a 32-bit `int` product.

  const TwoTo31: int := 0x8000_0000
  const TwoTo32: int := 0x1_0000_0000

  /** Two's-complement wrap-around of a C# `int` operation (unchecked context). */
  function Wrap32(x: int): (r: int)
    ensures -TwoTo31 <= r < TwoTo31
    ensures (r - x) % TwoTo32 == 0
  {
    (x + TwoTo31) % TwoTo32 - TwoTo31
  }

  /** Conversion of a double to `int`, which truncates toward zero; `x / 8.0` is exact for
      any 32-bit `x`, so the division and the cast together truncate `x / 8` toward zero. */
  function TruncDiv8(x: int): (r: int)
    ensures x >= 0 ==> r == x / 8
    ensures x < 0 ==> r == -((-x) / 8)
  {
    if x >= 0 then x / 8 else -((-x) / 8)
  }

  /** The source's cost expression: the product is evaluated left to right in 32-bit `int`. */
  function CostAsWritten(bpp: int, w: int, h: int): int
  {
    TruncDiv8(Wrap32(Wrap32(bpp * w) * h))
  }

  /** Where the product fits in 32 bits, the written formula and `Cost` agree. */
  lemma CostAsWrittenAgreesWithoutOverflow(b: Bitmap)
    requires b.BitsPerPixel() * b.Width() * b.Height() < TwoTo31
    ensures CostAsWritten(b.BitsPerPixel(), b.Width(), b.Height()) == Cost(b)
  {
    var bpp, w, h := b.BitsPerPixel(), b.Width(), b.Height();
    if w == 0 || h == 0 || bpp == 0 {
      assert bpp * w * h == 0;
      assert bpp * w == 0 || h == 0;
    } else {
      assert bpp * w <= bpp * w * h by {
        assert bpp * w * h == (bpp * w) * h;
      }
      assert Wrap32(bpp * w) == bpp * w;
      assert Wrap32(bpp * w * h) == bpp * w * h;
    }
  }

  /** An 8192 x 8192 image at 32 bits per pixel: the product is 2^31, which wraps to -2^31,
      so the written formula charges a negative cost that passes the "too big" test, while
      its real cost (268435456 bytes) exceeds the 200 MB budget. */
  lemma CostAsWrittenOverflows()
    ensures CostAsWritten(32, 8192, 8192) == -268435456
    ensures Cost(Decoded(32, 8192, 8192, "")) == 268435456
    ensures !(CostAsWritten(32, 8192, 8192) > CacheMaxBytes)
    ensures Cost(Decoded(32, 8192, 8192, "")) > CacheMaxBytes
  {
    assert 32 * 8192 == 262144;
    assert Wrap32(262144) == 262144;
    assert 262144 * 8192 == TwoTo31;
    assert Wrap32(TwoTo31) == -TwoTo31;
  }

  // ---------------------------------------------------------------------------------------
  // Loading

  /** `loadBitmap`: only a MIME type starting with `image/` is decoded; a non-image type or a
      failing decode gives the placeholder. */
  function LoadBitmap(url: string, mimeType: string, decode: string -> Option<Bitmap>): (b: Bitmap)
    ensures b != Fallback ==> StartsWith(mimeType, "image/") && decode(url) == Some(b)
    ensures !StartsWith(mimeType, "image/") ==> b == Fallback
    ensures decode(url).None? ==> b == Fallback
  {
    if StartsWith(mimeType, "image/") then
      match decode(url)
      case Some(image) => image
      case None => Fallback
    else Fallback
  }

  /** A stored entry. */
  datatype ImageNode = ImageNode(image: Bitmap, cost: int)

  /** What `putBitmap` stores for `url`: the loaded image at its cost, or the placeholder at
      cost 4 when the image alone exceeds the budget. */
  function NodeFor(url: string, mimeType: string, decode: string -> Option<Bitmap>, maxBytes: int): (n: ImageNode)
    ensures n.cost >= 0
    ensures Cost(LoadBitmap(url, mimeType, decode)) > maxBytes ==> n == ImageNode(Fallback, FallbackCost)
    ensures Cost(LoadBitmap(url, mimeType, decode)) <= maxBytes ==> n.cost <= maxBytes
    ensures n.image != Fallback ==> n.cost == Cost(n.image) && decode(url) == Some(n.image)
  {
    var image := LoadBitmap(url, mimeType, decode);
    if Cost(image) > maxBytes then ImageNode(Fallback, FallbackCost) else ImageNode(image, Cost(image))
  }

  /** With a budget of at least 4 bytes, whatever is stored fits in the budget on its own. */
  lemma NodeFits(url: string, mimeType: string, decode: string -> Option<Bitmap>, maxBytes: int)
    requires maxBytes >= FallbackCost
    ensures 0 <= NodeFor(url, mimeType, decode, maxBytes).cost <= maxBytes
  {
  }

  // ---------------------------------------------------------------------------------------
  // Cost accounting over the recency list

  predicate NoDups<T(==)>(s: seq<T>) {
    forall i, j :: 0 <= i < j < |s| ==> s[i] != s[j]
  }

  /** Sum of the stored costs of `keys`, taken from the back of the list. */
  function SumCosts(keys: seq<string>, cache: map<string, ImageNode>): int
    requires forall k :: k in keys ==> k in cache
  {
    if keys == [] then 0
    else SumCosts(keys[..|keys| - 1], cache) + cache[keys[|keys| - 1]].cost
  }

  /** The entries of `cache` whose key is in `keys`. */
  function Restrict(cache: map<string, ImageNode>, keys: seq<string>): map<string, ImageNode> {
    map k | k in cache && k in keys :: cache[k]
  }

  /** The sum only depends on the entries of the listed keys. */
  lemma {:induction false} SumCostsFrame(keys: seq<string>, c1: map<string, ImageNode>, c2: map<string, ImageNode>)
    requires forall k :: k in keys ==> k in c1 && k in c2 && c1[k] == c2[k]
    ensures SumCosts(keys, c1) == SumCosts(keys, c2)
  {
    if keys != [] {
      SumCostsFrame(keys[..|keys| - 1], c1, c2);
    }
  }

  /** The sum over a concatenation is the sum of the sums. */
  lemma {:induction false} SumCostsConcat(a: seq<string>, b: seq<string>, cache: map<string, ImageNode>)
    requires forall k :: k in a + b ==> k in cache
    ensures SumCosts(a + b, cache) == SumCosts(a, cache) + SumCosts(b, cache)
  {
    if b == [] {
      assert a + b == a;
    } else {
      assert (a + b)[..|a + b| - 1] == a + b[..|b| - 1];
      SumCostsConcat(a, b[..|b| - 1], cache);
    }
  }

  /** Non-negative costs give a non-negative sum. */
  lemma {:induction false} SumCostsNonNegative(keys: seq<string>, cache: map<string, ImageNode>)
    requires forall k :: k in keys ==> k in cache && cache[k].cost >= 0
    ensures SumCosts(keys, cache) >= 0
  {
    if keys != [] {
      SumCostsNonNegative(keys[..|keys| - 1], cache);
    }
  }

  /** How many of the most recent entries survive the eviction loop of `putBitmap` for an
      incoming cost, or `None` when even the empty cache cannot take it (the loop then reads
      the last node of an empty list). */
  function Kept(keys: seq<string>, cache: map<string, ImageNode>, cost: int, maxBytes: int): (r: Option<nat>)
    requires forall k :: k in keys ==> k in cache
    ensures r.Some? ==> r.value <= |keys|
    ensures r.None? ==> cost > maxBytes
  {
    if SumCosts(keys, cache) + cost <= maxBytes then Some(|keys|)
    else if keys == [] then None
    else Kept(keys[..|keys| - 1], cache, cost, maxBytes)
  }

  /** Eviction keeps the longest prefix of the recency list that leaves room for the new
      cost: the kept prefix fits, each longer prefix does not, and `None` means no prefix fits. */
  lemma {:induction false} KeptIsLongestFit(keys: seq<string>, cache: map<string, ImageNode>, cost: int, maxBytes: int)
    requires forall k :: k in keys ==> k in cache
    ensures var r := Kept(keys, cache, cost, maxBytes);
      && (r.Some? ==> SumCosts(keys[..r.value], cache) + cost <= maxBytes)
      && (r.Some? ==> forall m :: r.value < m <= |keys| ==> SumCosts(keys[..m], cache) + cost > maxBytes)
      && (r.None? ==> forall m :: 0 <= m <= |keys| ==> SumCosts(keys[..m], cache) + cost > maxBytes)
  {
    assert keys[..|keys|] == keys;
    if SumCosts(keys, cache) + cost > maxBytes && keys != [] {
      var front := keys[..|keys| - 1];
      assert forall m :: 0 <= m <= |front| ==> front[..m] == keys[..m];
      KeptIsLongestFit(front, cache, cost, maxBytes);
    }
  }

  /** Eviction only depends on the entries of the listed keys. */
  lemma {:induction false} KeptFrame(keys: seq<string>, c1: map<string, ImageNode>, c2: map<string, ImageNode>, cost: int, maxBytes: int)
    requires forall k :: k in keys ==> k in c1 && k in c2 && c1[k] == c2[k]
    ensures Kept(keys, c1, cost, maxBytes) == Kept(keys, c2, cost, maxBytes)
  {
    SumCostsFrame(keys, c1, c2);
    if keys != [] {
      KeptFrame(keys[..|keys| - 1], c1, c2, cost, maxBytes);
    }
  }

  /** A cost that fits in the budget never empties the cache without success. */
  lemma KeptSomeWhenFits(keys: seq<string>, cache: map<string, ImageNode>, cost: int, maxBytes: int)
    requires forall k :: k in keys ==> k in cache
    requires cost <= maxBytes
    ensures Kept(keys, cache, cost, maxBytes).Some?
  {
  }

  /** Position of the first occurrence of `x` in `s`. */
  function IndexOf(s: seq<string>, x: string): (i: nat)
    requires x in s
    ensures i < |s| && s[i] == x && x !in s[..i]
  {
    if s[0] == x then 0
    else
      var i := 1 + IndexOf(s[1..], x);
      assert s[..i] == [s[0]] + s[1..][..i - 1];
      i
  }

  /** `LinkedList.Remove(x)`: drops the first occurrence of `x`, keeping the order of the rest. */
  function RemoveFirst(s: seq<string>, x: string): seq<string> {
    if x in s then s[..IndexOf(s, x)] + s[IndexOf(s, x) + 1..] else s
  }

  /** The cache invariant over the three pieces of state: keys of the map are exactly the
      distinct elements of the recency list, the counter is the sum of the stored
      (non-negative) costs, and a non-empty cache is within budget. */
  ghost predicate Consistent(lru: seq<string>, cache: map<string, ImageNode>, curBytes: int, maxBytes: int) {
    && NoDups(lru)
    && (forall k :: k in lru <==> k in cache)
    && (forall k :: k in cache ==> cache[k].cost >= 0)
    && curBytes == SumCosts(lru, cache)
    && (lru == [] || curBytes <= maxBytes)
  }

  /** The cache `getImage` leaves behind, from the recency list and map before the call. A hit
      keeps the entries and moves `url` to the front; a miss keeps the prefix `putBitmap`'s
      eviction keeps and stores the new node at the front. */
  predicate Fetched(url: string, mimeType: string, decode: string -> Option<Bitmap>,
                    lru0: seq<string>, cache0: map<string, ImageNode>,
                    lru: seq<string>, cache: map<string, ImageNode>)
  {
    if url in cache0 then
      cache == cache0 && lru == [url] + RemoveFirst(lru0, url)
    else
      && (forall k :: k in lru0 ==> k in cache0)
      && var node := NodeFor(url, mimeType, decode, CacheMaxBytes);
         var n := Kept(lru0, cache0, node.cost, CacheMaxBytes);
         && n.Some?
         && lru == [url] + lru0[..n.value]
         && cache == Restrict(cache0, lru0[..n.value])[url := node]
  }

  datatype PutOutcome =
    | Stored
    | EvictedAll    // `_lru.Last` is null: NullReferenceException after emptying the cache
    | DuplicateKey  // `Dictionary.Add` on a url still present after eviction: ArgumentException

  datatype GetError = KeyNotFound  // `_cache[url]` on an absent url

  /** `LruImgCache` */
  class LruImgCache {
    var lru: seq<string>
    var cache: map<string, ImageNode>
    var curBytes: int
    const maxBytes: int

    /** Keys of the map are exactly the (distinct) elements of the recency list, the counter
        is the sum of stored costs, and a non-empty cache is within budget. */
    ghost predicate Valid()
      reads this
    {
      Consistent(lru, cache, curBytes, maxBytes)
    }

    constructor (maxBytes: int)
      ensures Valid()
      ensures this.maxBytes == maxBytes && lru == [] && cache == map[] && curBytes == 0
    {
      this.maxBytes := maxBytes;
      lru := [];
      cache := map[];
      curBytes := 0;
    }

    /** `containsBitmap`: dictionary membership, nothing changed. */
    method ContainsBitmap(url: string) returns (b: bool)
      requires Valid()
      ensures b <==> url in cache
      ensures b <==> url in lru
    {
      b := url in cache;
    }

    /** `getBitmap`: the url moves to the front of the recency list (others keep their order);
        the stored image is returned. On an absent url the list has already been changed when
        the dictionary indexer throws. */
    method GetBitmap(url: string) returns (r: Result<Bitmap, GetError>)
      requires Valid()
      modifies this
      ensures lru == [url] + RemoveFirst(old(lru), url)
      ensures cache == old(cache) && curBytes == old(curBytes)
      ensures url in cache ==> r == Ok(cache[url].image) && Valid()
      ensures url !in cache ==> r == Err(KeyNotFound) && lru == [url] + old(lru)
    {
      ghost var before := lru;
      lru := [url] + RemoveFirst(lru, url);
      if url !in cache {
        return Err(KeyNotFound);
      }
      r := Ok(cache[url].image);
      MoveToFrontNoDups(before, IndexOf(before, url));
      MoveToFrontKeepsCosts(before, IndexOf(before, url), cache);
    }

    /** `putBitmap`: load, substitute the placeholder when too big, evict from the tail until
        the new cost fits, then insert at the front. */
    method PutBitmap(url: string, mimeType: string, decode: string -> Option<Bitmap>) returns (r: PutOutcome)
      requires Valid()
      modifies this
      ensures Valid()
      ensures var node := NodeFor(url, mimeType, decode, maxBytes);
        match Kept(old(lru), old(cache), node.cost, maxBytes)
        case None => r == EvictedAll && lru == [] && cache == map[]
        case Some(n) =>
          var kept := old(lru)[..n];
          if url in kept then r == DuplicateKey && lru == kept && cache == Restrict(old(cache), kept)
          else r == Stored && lru == [url] + kept && cache == Restrict(old(cache), kept)[url := node]
      ensures r == Stored ==> curBytes <= maxBytes && lru[0] == url
      ensures maxBytes >= FallbackCost ==> r != EvictedAll
      ensures maxBytes >= FallbackCost && old(url !in cache) ==> r == Stored
    {
      var image := LoadBitmap(url, mimeType, decode);
      var imageBytes: int := Cost(image);

      if imageBytes > maxBytes {
        image := Fallback;
        imageBytes := FallbackCost;
      }
      var node := ImageNode(image, imageBytes);
      assert node == NodeFor(url, mimeType, decode, maxBytes);
      if maxBytes >= FallbackCost {
        KeptSomeWhenFits(lru, cache, imageBytes, maxBytes);
      }
      var keys, entries, bytes, fits := Evict(lru, cache, curBytes, imageBytes, maxBytes);
      if !fits {
        lru, cache, curBytes := keys, entries, bytes;
        return EvictedAll;
      }
      if url in entries {
        lru, cache, curBytes := keys, entries, bytes;
        return DuplicateKey;
      }
      InsertFront(keys, entries, bytes, maxBytes, url, node);
      lru, cache, curBytes := [url] + keys, entries[url := node], bytes + imageBytes;
      r := Stored;
    }
  }

  /** The eviction loop of `putBitmap`: drops the least recent entry until `cost` fits
      beside what is left; `fits` is false when the list ran empty first. */
  method Evict(lru: seq<string>, cache: map<string, ImageNode>, curBytes: int, cost: int, maxBytes: int)
    returns (keys: seq<string>, entries: map<string, ImageNode>, bytes: int, fits: bool)
    requires Consistent(lru, cache, curBytes, maxBytes)
    ensures Consistent(keys, entries, bytes, maxBytes)
    ensures entries == Restrict(cache, keys)
    ensures match Kept(lru, cache, cost, maxBytes)
      case None => !fits && keys == [] && entries == map[]
      case Some(n) => fits && keys == lru[..n] && bytes + cost <= maxBytes
  {
    ghost var k0 := Kept(lru, cache, cost, maxBytes);
    assert lru[..|lru|] == lru;
    keys, entries, bytes := lru, cache, curBytes;
    while bytes + cost > maxBytes
      invariant Consistent(keys, entries, bytes, maxBytes)
      invariant |keys| <= |lru| && keys == lru[..|keys|]
      invariant entries == Restrict(cache, keys)
      invariant Kept(keys, entries, cost, maxBytes) == k0
      decreases |keys|
    {
      if keys == [] {
        return keys, entries, bytes, false;
      }
      var lruKey := keys[|keys| - 1];
      var lruNode := entries[lruKey];
      EvictLast(keys, entries, bytes, cache, cost, maxBytes);
      bytes := bytes - lruNode.cost;
      entries := entries - {lruKey};
      keys := keys[..|keys| - 1];
    }
    assert Kept(keys, entries, cost, maxBytes) == Some(|keys|);
    fits := true;
  }

  /** One step of the eviction loop: dropping the tail entry of the list and of the map keeps
      them consistent, subtracts exactly that entry's cost and does not change the outcome. */
  lemma EvictLast(keys: seq<string>, cache: map<string, ImageNode>, bytes: int, origCache: map<string, ImageNode>, cost: int, maxBytes: int)
    requires keys != [] && Consistent(keys, cache, bytes, maxBytes)
    requires cache == Restrict(origCache, keys)
    requires bytes + cost > maxBytes
    ensures var front, last := keys[..|keys| - 1], keys[|keys| - 1];
      && Consistent(front, cache - {last}, bytes - cache[last].cost, maxBytes)
      && cache - {last} == Restrict(origCache, front)
      && Kept(front, cache - {last}, cost, maxBytes) == Kept(keys, cache, cost, maxBytes)
  {
    var front, last := keys[..|keys| - 1], keys[|keys| - 1];
    assert keys == front + [last];
    assert last !in front;
    assert forall k :: k in keys <==> k in front || k == last;
    SumCostsFrame(front, cache, cache - {last});
    KeptFrame(front, cache, cache - {last}, cost, maxBytes);
    SumCostsNonNegative(front, cache);
  }

  /** Inserting a fresh url at the front, when its cost fits, keeps the invariant. */
  lemma InsertFront(keys: seq<string>, cache: map<string, ImageNode>, curBytes: int, maxBytes: int, url: string, node: ImageNode)
    requires Consistent(keys, cache, curBytes, maxBytes)
    requires url !in cache && node.cost >= 0 && curBytes + node.cost <= maxBytes
    ensures Consistent([url] + keys, cache[url := node], curBytes + node.cost, maxBytes)
  {
    var c := cache[url := node];
    SumCostsFrame(keys, cache, c);
    SumCostsConcat([url], keys, c);
    assert SumCosts([url], c) == node.cost by {
      assert [url][..0] == [];
    }
  }

  /** Moving the entry at position `i` to the front keeps the list duplicate-free and its
      set of elements. */
  lemma MoveToFrontNoDups(s: seq<string>, i: nat)
    requires i < |s| && NoDups(s)
    ensures NoDups([s[i]] + (s[..i] + s[i + 1..]))
    ensures forall k :: k in s <==> k in [s[i]] + (s[..i] + s[i + 1..])
  {
    var t := [s[i]] + (s[..i] + s[i + 1..]);
    assert |t| == |s|;
    forall p | 0 <= p < |t|
      ensures t[p] == s[if p == 0 then i else if p <= i then p - 1 else p]
    {
    }
    assert s == s[..i] + [s[i]] + s[i + 1..];
  }

  /** Moving the entry at position `i` to the front keeps the cost sum. */
  lemma MoveToFrontKeepsCosts(s: seq<string>, i: nat, cache: map<string, ImageNode>)
    requires i < |s|
    requires forall k :: k in s ==> k in cache
    ensures SumCosts([s[i]] + (s[..i] + s[i + 1..]), cache) == SumCosts(s, cache)
  {
    var a, x, b := s[..i], s[i], s[i + 1..];
    assert s == (a + [x]) + b;
    SumCostsConcat(a + [x], b, cache);
    SumCostsConcat(a, [x], cache);
    SumCostsConcat([x], a + b, cache);
    SumCostsConcat(a, b, cache);
  }

  /** `ImageLoader`: the cache owned by the loader, with its 200 MB budget. */
  class ImageLoader {
    const cache: LruImgCache

    ghost predicate Valid()
      reads this, cache
    {
      cache.Valid() && cache.maxBytes == CacheMaxBytes
    }

    constructor ()
      ensures Valid() && fresh(cache) && cache.lru == []
    {
      cache := new LruImgCache(CacheMaxBytes);
    }

    /** `getImage`: "contains, else put; then get". Afterwards the url is cached and most
        recent, and the result is the image stored under it; a miss stores the loaded image
        (or the placeholder) under the requested url. The error paths of `putBitmap` and
        `getBitmap` cannot be reached from here. */
    method GetImage(url: string, mimeType: string, decode: string -> Option<Bitmap>) returns (image: Bitmap)
      requires Valid()
      modifies cache
      ensures Valid()
      ensures url in cache.cache && cache.lru != [] && cache.lru[0] == url
      ensures image == cache.cache[url].image
      ensures cache.curBytes <= CacheMaxBytes
      ensures old(url !in cache.cache) ==> cache.cache[url] == NodeFor(url, mimeType, decode, CacheMaxBytes)
      ensures Fetched(url, mimeType, decode, old(cache.lru), old(cache.cache), cache.lru, cache.cache)
    {
      var present := cache.ContainsBitmap(url);
      if !present {
        ghost var node := NodeFor(url, mimeType, decode, CacheMaxBytes);
        NodeFits(url, mimeType, decode, CacheMaxBytes);
        KeptSomeWhenFits(cache.lru, cache.cache, node.cost, CacheMaxBytes);
        ghost var kept := cache.lru[..Kept(cache.lru, cache.cache, node.cost, CacheMaxBytes).value];
        var put := cache.PutBitmap(url, mimeType, decode);
        assert cache.lru == [url] + kept;
        assert IndexOf(cache.lru, url) == 0;
        assert RemoveFirst(cache.lru, url) == kept;
      }
      var got := cache.GetBitmap(url);
      image := got.value;
      assert cache.lru[..1] == [url];
      SumCostsNonNegative(cache.lru, cache.cache);
    }
  }
}
