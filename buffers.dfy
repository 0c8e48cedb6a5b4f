/**
 * The block cache of src/buffer.ts. `SyncBuffer` is a byte array read and
 * written in place. `AsyncXHRBuffer` fetches a remote file lazily in ranges and
 * keeps a cache of 256-byte blocks keyed by block index (`offset / 256`); blocks
 * written by the guest are remembered in a set so that a later read of the
 * remote file is patched with them and so that only they are saved in a state
 * snapshot.
 *
 * The download itself is asynchronous: `Get` returns either the cached bytes or
 * the range it would request, and `Complete` is the download's `done` callback,
 * given the bytes that arrived.
 */
module Buffers {
  import opened Wrappers

  /** `BLOCK_SIZE`, the smallest size the emulated hardware reads or writes. */
  const BlockSize: nat := 256

  /** The contents with `data` copied over the bytes from `start` on. */
  function Spliced(s: seq<bv8>, start: nat, data: seq<bv8>): (r: seq<bv8>)
    requires start + |data| <= |s|
    ensures |r| == |s|
    ensures r[start..start + |data|] == data
    ensures forall k :: 0 <= k < |s| && !(start <= k < start + |data|) ==> r[k] == s[k]
  {
    s[..start] + data + s[start + |data|..]
  }

  /** `SyncBuffer`: an `ArrayBuffer` of fixed `byteLength`, read and written synchronously. */
  class SyncBuffer {
    const bytes: array<bv8>

    constructor(contents: seq<bv8>)
      ensures fresh(bytes) && bytes[..] == contents
    {
      bytes := new bv8[|contents|](i requires 0 <= i < |contents| => contents[i]);
    }

    /** `get(start, len, fn)`: the `len` bytes from `start`; the source asserts the range lies inside. */
    method Get(start: nat, len: nat) returns (r: seq<bv8>)
      requires start + len <= bytes.Length
      ensures |r| == len
      ensures forall k :: 0 <= k < len ==> r[k] == bytes[start + k]
    {
      r := bytes[start..start + len];
    }

    /** `set(start, slice, fn)`: copy `slice` into the buffer at `start`; nothing else changes. */
    method Set(start: nat, slice: seq<bv8>)
      requires start + |slice| <= bytes.Length
      modifies bytes
      ensures bytes[..] == Spliced(old(bytes[..]), start, slice)
    {
      var i := 0;
      while i < |slice|
        invariant 0 <= i <= |slice|
        invariant forall k :: 0 <= k < bytes.Length && !(start <= k < start + i) ==> bytes[k] == old(bytes[k])
        invariant forall k :: 0 <= k < i ==> bytes[start + k] == slice[k]
      {
        bytes[start + i] := slice[i];
        i := i + 1;
      }
      assert bytes[..] == Spliced(old(bytes[..]), start, slice);
    }
  }

  /** After `set(start, d)` a `get(start, |d|)` returns `d`, and bytes outside the range keep their value. */
  lemma {:induction false} SetThenGet(s: seq<bv8>, start: nat, d: seq<bv8>, k: nat)
    requires start + |d| <= |s| && k < |s|
    ensures Spliced(s, start, d)[start..start + |d|] == d
    ensures !(start <= k < start + |d|) ==> Spliced(s, start, d)[k] == s[k]
    ensures start <= k < start + |d| ==> Spliced(s, start, d)[k] == d[k - start]
  {
    var r := Spliced(s, start, d);
    if start <= k < start + |d| {
      assert r[start..start + |d|][k - start] == r[k];
    }
  }

  // ---------------------------------------------------------------------------
  // The block cache
  // ---------------------------------------------------------------------------

  /** Every cached block holds exactly `BLOCK_SIZE` bytes. */
  predicate WholeBlocks(cache: map<nat, seq<bv8>>)
  {
    forall b :: b in cache ==> |cache[b]| == BlockSize
  }

  /** Block `i` of `data`, the bytes `[256 * i, 256 * (i + 1))`. */
  function BlockOf(data: seq<bv8>, i: nat): (r: seq<bv8>)
    requires BlockSize * (i + 1) <= |data|
    ensures |r| == BlockSize
  {
    data[BlockSize * i..BlockSize * (i + 1)]
  }

  /** The block indices `first .. first + n - 1`. */
  function Range(first: nat, n: nat): (r: set<nat>)
    ensures forall b :: b in r <==> first <= b < first + n
    decreases n
  {
    if n == 0 then {} else Range(first, n - 1) + {first + n - 1}
  }

  /** Whether blocks `first .. first + n - 1` are all in the cache. */
  predicate AllCached(cache: map<nat, seq<bv8>>, first: nat, n: nat)
  {
    forall b :: first <= b < first + n ==> b in cache
  }

  /** The cached blocks `first .. first + n - 1`, concatenated in order. */
  function Joined(cache: map<nat, seq<bv8>>, first: nat, n: nat): (r: seq<bv8>)
    requires WholeBlocks(cache) && AllCached(cache, first, n)
    ensures |r| == BlockSize * n
    decreases n
  {
    if n == 0 then [] else Joined(cache, first, n - 1) + cache[first + n - 1]
  }

  /** Byte `k` of the joined blocks is byte `k % 256` of block `first + k / 256`. */
  lemma {:induction false} JoinedAt(cache: map<nat, seq<bv8>>, first: nat, n: nat, k: nat)
    requires WholeBlocks(cache) && AllCached(cache, first, n) && k < BlockSize * n
    ensures first + k / BlockSize in cache
    ensures Joined(cache, first, n)[k] == cache[first + k / BlockSize][k % BlockSize]
    decreases n
  {
    if k < BlockSize * (n - 1) {
      JoinedAt(cache, first, n - 1, k);
    }
  }

  /** The cache after `set` stores `data`'s blocks at `first, first + 1, …`. */
  function StoreBlocks(cache: map<nat, seq<bv8>>, first: nat, data: seq<bv8>, n: nat): (r: map<nat, seq<bv8>>)
    requires BlockSize * n <= |data|
    ensures r.Keys == cache.Keys + Range(first, n)
    ensures forall b :: b in cache && !(first <= b < first + n) ==> r[b] == cache[b]
    ensures forall b :: first <= b < first + n ==> r[b] == BlockOf(data, b - first)
    ensures WholeBlocks(cache) ==> WholeBlocks(r)
    decreases n
  {
    if n == 0 then cache else StoreBlocks(cache, first, data, n - 1)[first + n - 1 := BlockOf(data, n - 1)]
  }

  /**
   * The bytes `handle_read` leaves in a fresh read of the blocks from `first` on:
   * each block that is cached replaces the bytes read for it.
   */
  function Patched(read: seq<bv8>, cache: map<nat, seq<bv8>>, first: nat, n: nat): (r: seq<bv8>)
    requires WholeBlocks(cache) && BlockSize * n <= |read|
    ensures |r| == |read|
    decreases n
  {
    if n == 0 then read
    else
      var p := Patched(read, cache, first, n - 1);
      if first + n - 1 in cache then Spliced(p, BlockSize * (n - 1), cache[first + n - 1]) else p
  }

  /** Bytes past the first `n` blocks are left as they were read. */
  lemma {:induction false} PatchedBeyond(read: seq<bv8>, cache: map<nat, seq<bv8>>, first: nat, n: nat, k: nat)
    requires WholeBlocks(cache) && BlockSize * n <= k < |read|
    ensures Patched(read, cache, first, n)[k] == read[k]
    decreases n
  {
    if n > 0 {
      PatchedBeyond(read, cache, first, n - 1, k);
    }
  }

  /** A patched byte comes from the cached block when there is one, and from the read otherwise. */
  lemma {:induction false} PatchedAt(read: seq<bv8>, cache: map<nat, seq<bv8>>, first: nat, n: nat, k: nat)
    requires WholeBlocks(cache) && BlockSize * n <= |read| && k < BlockSize * n
    ensures var b := first + k / BlockSize;
      Patched(read, cache, first, n)[k] == if b in cache then cache[b][k % BlockSize] else read[k]
    decreases n
  {
    var p := Patched(read, cache, first, n - 1);
    var last := first + n - 1;
    if last in cache {
      SetThenGet(p, BlockSize * (n - 1), cache[last], k);
    }
    if k < BlockSize * (n - 1) {
      PatchedAt(read, cache, first, n - 1, k);
      assert first + k / BlockSize < last;
    } else {
      assert k / BlockSize == n - 1;
      PatchedBeyond(read, cache, first, n - 1, k);
    }
  }

  /** With `cache_reads`, the blocks among `first .. first + n - 1` that were not cached, as they were read. */
  function CachedReads(read: seq<bv8>, cache: map<nat, seq<bv8>>, first: nat, n: nat): (r: map<nat, seq<bv8>>)
    requires BlockSize * n <= |read|
    ensures r.Keys == cache.Keys + Range(first, n)
    ensures forall b :: b in cache ==> r[b] == cache[b]
    ensures forall b :: first <= b < first + n && b !in cache ==> r[b] == BlockOf(read, b - first)
    ensures WholeBlocks(cache) ==> WholeBlocks(r)
    decreases n
  {
    if n == 0 then cache
    else
      var c := CachedReads(read, cache, first, n - 1);
      if first + n - 1 in cache then c else c[first + n - 1 := BlockOf(read, n - 1)]
  }

  /** The range `get` downloads: whole chunks of `chunk` bytes around `[offset, offset + len)`, or exactly it. */
  function RequestedRange(offset: nat, len: nat, chunk: nat): (r: (nat, nat))
    ensures r.0 <= offset && offset + len <= r.0 + r.1
    ensures chunk == 0 ==> r == (offset, len)
    ensures chunk > 0 ==> r.0 % chunk == 0 && r.1 % chunk == 0 && r.0 + r.1 < offset + len + chunk
    ensures chunk > 0 ==> offset - r.0 < chunk
  {
    if chunk == 0 then (offset, len)
    else
      var start := offset - offset % chunk;
      var span := offset - start + len;
      var q := (span + chunk - 1) / chunk;
      assert start == chunk * (offset / chunk);
      MulMod(offset / chunk, chunk);
      MulMod(q, chunk);
      CeilMul(span, chunk);
      (start, chunk * q)
  }

  /** A multiple of `c` leaves no remainder. */
  lemma MulMod(q: nat, c: nat)
    requires c > 0
    ensures (c * q) % c == 0
  {
    var d, m := (c * q) / c, (c * q) % c;
    assert c * q == c * d + m;
    assert c * (q - d) == m;
    assert q - d == 0 by {
      if q - d != 0 {
        MulAwayFromZero(c, q - d);
      }
    }
  }

  /** A nonzero multiple of `c` is at least `c` away from 0. */
  lemma MulAwayFromZero(c: nat, x: int)
    requires c > 0 && x != 0
    ensures c * x >= c || c * x <= -(c as int)
  {
  }

  /** `Math.ceil(span / c) * c` is the least multiple of `c` that is at least `span`. */
  lemma CeilMul(span: nat, c: nat)
    requires c > 0
    ensures var q := (span + c - 1) / c; span <= c * q < span + c
  {
    var q := (span + c - 1) / c;
    assert span + c - 1 == c * q + (span + c - 1) % c;
  }

  /** One more block stored and marked written. */
  lemma StoreNext(cache: map<nat, seq<bv8>>, written: set<nat>, first: nat, data: seq<bv8>, i: nat)
    requires BlockSize * (i + 1) <= |data|
    ensures StoreBlocks(cache, first, data, i + 1) == StoreBlocks(cache, first, data, i)[first + i := BlockOf(data, i)]
    ensures written + Range(first, i + 1) == written + Range(first, i) + {first + i}
  {
  }

  /** Block `i` of `data` exists for every `i < |data| / BlockSize`. */
  lemma BlockExists(data: seq<bv8>, i: nat)
    requires i < |data| / BlockSize
    ensures BlockSize * (i + 1) <= |data|
  {
  }

  /** What `get` does at once: answer from the cache, or start a download of a range. */
  datatype Lookup = Cached(bytes: seq<bv8>) | Request(start: nat, length: nat)

  /** The written blocks a state snapshot keeps. */
  function WrittenBlocks(cache: map<nat, seq<bv8>>, written: set<nat>): (r: map<nat, seq<bv8>>)
    ensures r.Keys == cache.Keys * written
    ensures forall b :: b in r ==> r[b] == cache[b]
  {
    map b | b in cache && b in written :: cache[b]
  }

  /** Restoring a snapshot and taking one again gives the same snapshot. */
  lemma StateRoundTrip(state: map<nat, seq<bv8>>)
    ensures WrittenBlocks(state, state.Keys) == state
  {
  }

  /** A block written since the last snapshot survives the next one. */
  lemma {:induction false} WrittenBlockSurvives(cache: map<nat, seq<bv8>>, written: set<nat>, first: nat, data: seq<bv8>, n: nat, i: nat)
    requires BlockSize * n <= |data| && i < n
    ensures var c := StoreBlocks(cache, first, data, n);
      var w := written + Range(first, n);
      first + i in WrittenBlocks(c, w) && WrittenBlocks(c, w)[first + i] == BlockOf(data, i)
  {
  }

  /**
   * `AsyncXHRBuffer`: a remote file of `byteLength` bytes, cached in 256-byte
   * blocks. A `fixed_chunk_size` of 0 stands for an absent one; `cache_reads`
   * is set exactly when there is one.
   */
  class AsyncXHRBuffer {
    const byteLength: nat
    const fixedChunkSize: nat
    const cacheReads: bool
    var blockCache: map<nat, seq<bv8>>
    var blockCacheIsWrite: set<nat>

    ghost predicate Valid()
      reads this
    {
      WholeBlocks(blockCache) && blockCacheIsWrite <= blockCache.Keys &&
      cacheReads == (fixedChunkSize != 0) && fixedChunkSize % BlockSize == 0
    }

    constructor(size: nat, fixedChunkSize: nat)
      requires fixedChunkSize % BlockSize == 0
      ensures Valid() && byteLength == size && this.fixedChunkSize == fixedChunkSize
      ensures blockCache == map[] && blockCacheIsWrite == {}
    {
      byteLength := size;
      this.fixedChunkSize := fixedChunkSize;
      cacheReads := fixedChunkSize != 0;
      blockCache := map[];
      blockCacheIsWrite := {};
    }

    /**
     * `get_from_cache(offset, len)`: the `len / 256` blocks from block
     * `offset / 256` joined, or `None` as soon as one of them is missing.
     */
    method GetFromCache(offset: nat, len: nat) returns (r: Option<seq<bv8>>)
      requires Valid() && offset % BlockSize == 0 && len % BlockSize == 0
      ensures r.Some? <==> AllCached(blockCache, offset / BlockSize, len / BlockSize)
      ensures r.Some? ==> |r.value| == len && r.value == Joined(blockCache, offset / BlockSize, len / BlockSize)
    {
      var n, first := len / BlockSize, offset / BlockSize;
      var i := 0;
      while i < n
        invariant 0 <= i <= n
        invariant AllCached(blockCache, first, i)
      {
        if first + i !in blockCache {
          return None;
        }
        i := i + 1;
      }
      var result: seq<bv8> := [];
      i := 0;
      while i < n
        invariant 0 <= i <= n
        invariant result == Joined(blockCache, first, i)
      {
        result := result + blockCache[first + i];
        i := i + 1;
      }
      r := Some(result);
    }

    /**
     * `get(offset, len, fn)`: the cached bytes when every block is cached;
     * otherwise the range to download, whole chunks when there is a fixed chunk size.
     */
    method Get(offset: nat, len: nat) returns (r: Lookup)
      requires Valid() && offset + len <= byteLength
      requires offset % BlockSize == 0 && len % BlockSize == 0 && len > 0
      ensures r.Cached? <==> AllCached(blockCache, offset / BlockSize, len / BlockSize)
      ensures r.Cached? ==> |r.bytes| == len
      ensures r.Cached? ==> forall k :: 0 <= k < len ==>
        (offset / BlockSize + k / BlockSize in blockCache &&
         r.bytes[k] == blockCache[offset / BlockSize + k / BlockSize][k % BlockSize])
      ensures r.Request? ==> (r.start, r.length) == RequestedRange(offset, len, fixedChunkSize)
      ensures r.Request? ==> r.start <= offset && offset + len <= r.start + r.length
      ensures r.Request? && fixedChunkSize == 0 ==> r.start == offset && r.length == len
      ensures r.Request? && fixedChunkSize > 0 ==>
        r.start % fixedChunkSize == 0 && r.length % fixedChunkSize == 0 && offset - r.start < fixedChunkSize
    {
      var block := GetFromCache(offset, len);
      if block.Some? {
        forall k | 0 <= k < len
          ensures offset / BlockSize + k / BlockSize in blockCache &&
            block.value[k] == blockCache[offset / BlockSize + k / BlockSize][k % BlockSize]
        {
          JoinedAt(blockCache, offset / BlockSize, len / BlockSize, k);
        }
        return Cached(block.value);
      }
      var range := RequestedRange(offset, len, fixedChunkSize);
      r := Request(range.0, range.1);
    }

    /**
     * `handle_read(offset, len, block)`: patch a fresh read with the cached
     * blocks it covers; with `cache_reads`, cache the blocks that were missing.
     */
    method HandleRead(offset: nat, len: nat, block: array<bv8>)
      requires Valid() && offset % BlockSize == 0 && len % BlockSize == 0 && block.Length == len
      modifies this`blockCache, block
      ensures Valid()
      ensures block[..] == Patched(old(block[..]), old(blockCache), offset / BlockSize, len / BlockSize)
      ensures blockCache == if cacheReads
        then CachedReads(old(block[..]), old(blockCache), offset / BlockSize, len / BlockSize)
        else old(blockCache)
    {
      var n, first := len / BlockSize, offset / BlockSize;
      ghost var read := block[..];
      ghost var cache0 := blockCache;
      var i := 0;
      while i < n
        invariant 0 <= i <= n && Valid()
        invariant block[..] == Patched(read, cache0, first, i)
        invariant blockCache == if cacheReads then CachedReads(read, cache0, first, i) else cache0
      {
        forall k | BlockSize * i <= k < BlockSize * (i + 1)
          ensures block[k] == read[k]
        {
          PatchedBeyond(read, cache0, first, i, k);
        }
        assert block[BlockSize * i..BlockSize * (i + 1)] == BlockOf(read, i);
        if first + i in blockCache {
          assert first + i in cache0;
          CopyBlock(block, BlockSize * i, blockCache[first + i]);
        } else if cacheReads {
          blockCache := blockCache[first + i := block[BlockSize * i..BlockSize * (i + 1)]];
        }
        i := i + 1;
      }
    }

    /** `block.set(cached, at)`: copy one cached block into the read. */
    static method CopyBlock(block: array<bv8>, at: nat, cached: seq<bv8>)
      requires at + |cached| <= block.Length
      modifies block
      ensures block[..] == Spliced(old(block[..]), at, cached)
    {
      var j := 0;
      while j < |cached|
        invariant 0 <= j <= |cached|
        invariant forall k :: 0 <= k < block.Length && !(at <= k < at + j) ==> block[k] == old(block[k])
        invariant forall k :: 0 <= k < j ==> block[at + k] == cached[k]
      {
        block[at + j] := cached[j];
        j := j + 1;
      }
      assert block[..] == Spliced(old(block[..]), at, cached);
    }

    /**
     * The download's `done` callback: `handle_read` over the requested range,
     * then the caller's `len` bytes from `offset - requested_start`.
     */
    method Complete(offset: nat, len: nat, requestedStart: nat, loaded: array<bv8>) returns (r: seq<bv8>)
      requires Valid() && requestedStart <= offset && offset + len <= requestedStart + loaded.Length
      requires requestedStart % BlockSize == 0 && loaded.Length % BlockSize == 0
      modifies this`blockCache, loaded
      ensures Valid()
      ensures var p := Patched(old(loaded[..]), old(blockCache), requestedStart / BlockSize, loaded.Length / BlockSize);
        r == p[offset - requestedStart..offset - requestedStart + len]
      ensures loaded[..] == Patched(old(loaded[..]), old(blockCache), requestedStart / BlockSize, loaded.Length / BlockSize)
      ensures blockCache == if cacheReads
        then CachedReads(old(loaded[..]), old(blockCache), requestedStart / BlockSize, loaded.Length / BlockSize)
        else old(blockCache)
    {
      HandleRead(requestedStart, loaded.Length, loaded);
      r := loaded[offset - requestedStart..offset - requestedStart + len];
    }

    /**
     * `set(start, data, fn)`: store each 256-byte block of `data` at block
     * `start / 256 + i` and mark it written; the source asserts the alignment,
     * a non-empty `data` and the range inside the file.
     */
    method Set(start: nat, data: seq<bv8>)
      requires Valid() && start + |data| <= byteLength
      requires start % BlockSize == 0 && |data| % BlockSize == 0 && |data| > 0
      modifies this`blockCache, this`blockCacheIsWrite
      ensures Valid()
      ensures blockCache == StoreBlocks(old(blockCache), start / BlockSize, data, |data| / BlockSize)
      ensures blockCacheIsWrite == old(blockCacheIsWrite) + Range(start / BlockSize, |data| / BlockSize)
    {
      var cache, written := StoreAll(blockCache, blockCacheIsWrite, start / BlockSize, data);
      blockCache, blockCacheIsWrite := cache, written;
    }

    /**
     * The loop of `set`: block `i` of `data` stored at `first + i` (a copy when
     * the block is new, the cached block overwritten otherwise, the same value
     * either way) and marked written.
     */
    static method StoreAll(cache0: map<nat, seq<bv8>>, written0: set<nat>, first: nat, data: seq<bv8>)
      returns (cache: map<nat, seq<bv8>>, written: set<nat>)
      requires |data| % BlockSize == 0
      ensures cache == StoreBlocks(cache0, first, data, |data| / BlockSize)
      ensures written == written0 + Range(first, |data| / BlockSize)
    {
      var n := |data| / BlockSize;
      cache, written := cache0, written0;
      assert Range(first, 0) == {};
      var i := 0;
      while i < n
        invariant 0 <= i <= n && BlockSize * i <= |data|
        invariant cache == StoreBlocks(cache0, first, data, i)
        invariant written == written0 + Range(first, i)
      {
        BlockExists(data, i);
        StoreNext(cache0, written0, first, data, i);
        cache := cache[first + i := BlockOf(data, i)];
        written := written + {first + i};
        i := i + 1;
      }
    }

    /** `get_state()`: the written blocks only. */
    function GetState(): (state: map<nat, seq<bv8>>)
      reads this
      requires Valid()
      ensures state.Keys == blockCacheIsWrite
      ensures WholeBlocks(state)
      ensures forall b :: b in state ==> state[b] == blockCache[b]
    {
      WrittenBlocks(blockCache, blockCacheIsWrite)
    }

    /** `set_state(state)`: the saved blocks become the whole cache, every one of them written. */
    method SetState(state: map<nat, seq<bv8>>)
      requires Valid() && WholeBlocks(state)
      modifies this`blockCache, this`blockCacheIsWrite
      ensures Valid() && blockCache == state && blockCacheIsWrite == state.Keys
      ensures GetState() == state
    {
      blockCache := state;
      blockCacheIsWrite := state.Keys;
      StateRoundTrip(state);
    }
  }

  /** After `set(start, d)`, `get_from_cache(start, |d|)` finds every block and joins them back into `d`. */
  lemma SetThenGetFromCache(cache: map<nat, seq<bv8>>, start: nat, d: seq<bv8>)
    requires WholeBlocks(cache) && start % BlockSize == 0 && |d| % BlockSize == 0
    ensures var c := StoreBlocks(cache, start / BlockSize, d, |d| / BlockSize);
      AllCached(c, start / BlockSize, |d| / BlockSize) &&
      Joined(c, start / BlockSize, |d| / BlockSize) == d
  {
    var n, first := |d| / BlockSize, start / BlockSize;
    var c := StoreBlocks(cache, first, d, n);
    JoinedBlocks(c, first, d, n);
  }

  /** Blocks `first .. first + n - 1` of a cache holding `d`'s blocks there join into `d`'s first `n` blocks. */
  lemma {:induction false} JoinedBlocks(c: map<nat, seq<bv8>>, first: nat, d: seq<bv8>, n: nat)
    requires WholeBlocks(c) && BlockSize * n <= |d|
    requires forall b :: first <= b < first + n ==> b in c && c[b] == BlockOf(d, b - first)
    ensures AllCached(c, first, n) && Joined(c, first, n) == d[..BlockSize * n]
    decreases n
  {
    if n > 0 {
      JoinedBlocks(c, first, d, n - 1);
      assert d[..BlockSize * n] == d[..BlockSize * (n - 1)] + BlockOf(d, n - 1);
    }
  }

  /**
   * With no block of the range cached, `Complete` hands back the loaded bytes of
   * the caller's range untouched.
   */
  lemma {:induction false} UncachedReadPassesThrough(read: seq<bv8>, cache: map<nat, seq<bv8>>, first: nat, n: nat)
    requires WholeBlocks(cache) && BlockSize * n <= |read|
    requires forall b :: first <= b < first + n ==> b !in cache
    ensures Patched(read, cache, first, n) == read
    decreases n
  {
    if n > 0 {
      UncachedReadPassesThrough(read, cache, first, n - 1);
    }
  }
}
