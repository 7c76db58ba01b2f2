/** Publishing a push: packs first, the contract update last, with a failure
    or a crash possible at every step. */
module Publish {
  import opened Octets
  import opened Repo
  import opened ChunkedPack
  import PackCache
  import BundleIds

  /** What has certainly happened on the network, in order: a confirmed PUT, a
      read that returned bytes hashing to the key, an UPDATE that was sent. */
  datatype Event = PutConfirmed(bytes: Bytes) | ReadBack(key: Bytes) | UpdateSent(delta: RepoState)

  /** The gateway and the local disk, about which nothing is assumed: `puts`,
      `gets` and `updates` answer the operation of that number. */
  datatype World = World(
    puts: (nat, Bytes) -> bool,
    gets: (nat, Bytes) -> Result<Bytes, PackCache.PackError>,
    updates: nat -> bool,
    disks: nat -> PackCache.Disk)

  /** Every PUT is confirmed, and every GET of the hash of anything is answered
      with bytes that have it. */
  ghost predicate Serving(c: Codec, world: World) {
    && CollisionFree(c.hash)
    && (forall n, bytes :: world.puts(n, bytes))
    && forall n, bytes :: world.gets(n, c.hash(bytes)) == Ok(bytes)
  }

  class Node {
    const codec: Codec
    const world: World
    const cache: PackCache.Cache?
    var ops: nat
    ghost var trace: seq<Event>

    constructor (codec: Codec, world: World, cache: PackCache.Cache?)
      requires cache != null ==> cache.hash == codec.hash
      ensures this.codec == codec && this.world == world && this.cache == cache && Valid() && trace == []
    {
      this.codec, this.world, this.cache := codec, world, cache;
      ops, trace := 0, [];
    }

    ghost predicate Valid() {
      cache != null ==> cache.hash == codec.hash
    }

    ghost function Disk(): set<object> {
      if cache == null then {} else {cache}
    }

    /** `put_pack`: up to three tries. */
    method Put(bytes: Bytes) returns (ok: bool)
      requires Valid()
      modifies this`ops, this`trace, Disk()
      ensures trace == old(trace) + if ok then [PutConfirmed(bytes)] else []
      ensures Serving(codec, world) ==> ok
    {
      var attempts;
      var first: nat := ops;
      ok, attempts := PackCache.PutPack(codec.hash, cache, bytes, (a: nat) => world.puts(first + a, bytes),
        world.disks(ops));
      ops := ops + attempts;
      trace := trace + if ok then [PutConfirmed(bytes)] else [];
    }

    /** `get_pack`: the local cache first, then the network. */
    method Get(key: Bytes) returns (r: Result<Bytes, PackCache.PackError>)
      requires Valid()
      modifies this`ops, this`trace, Disk()
      ensures r.Ok? ==> codec.hash(r.value) == key
      ensures trace == old(trace) + if r.Ok? then [ReadBack(key)] else []
      ensures Serving(codec, world) && (exists bytes :: codec.hash(bytes) == key) ==> r.Ok?
    {
      r := PackCache.GetPackWithFetcher(codec.hash, cache, key, world.gets(ops, key), world.disks(ops));
      ops := ops + 1;
      trace := trace + if r.Ok? then [ReadBack(key)] else [];
    }

    method Update(delta: RepoState) returns (ok: bool)
      modifies this`ops, this`trace
      ensures trace == old(trace) + [UpdateSent(delta)]
    {
      ok := world.updates(ops);
      ops := ops + 1;
      trace := trace + [UpdateSent(delta)];
    }
  }

  datatype Failure =
    | BadArgument
    | TooManyChunks
    | PutFailed
    | ReadBackFailed
    | Unresolved(dst: RefName)
    | RejectedLocally
    | UpdateFailed

  // ----- what a finished publication leaves in the trace -----

  ghost function Puts(chunks: seq<Bytes>, order: seq<nat>): (t: seq<Event>)
    requires forall k :: 0 <= k < |order| ==> order[k] < |chunks|
    ensures |t| == |order|
  {
    seq(|order|, k requires 0 <= k < |order| => PutConfirmed(chunks[order[k]]))
  }

  ghost function Reads(keys: seq<Bytes>, order: seq<nat>): (t: seq<Event>)
    requires forall k :: 0 <= k < |order| ==> order[k] < |keys|
    ensures |t| == |order|
  {
    seq(|order|, k requires 0 <= k < |order| => ReadBack(keys[order[k]]))
  }

  predicate Publishable(chunkSize: u32, pack: Bytes) {
    && pack != [] && chunkSize > 0
    && |SplitPack(pack, chunkSize)| < 0x1_0000_0000 && |pack| < 0x1_0000_0000_0000_0000
  }

  /** A pack can be published in chunks of `chunkSize` exactly when a `u32`
      counts them. */
  lemma PublishableIff(chunkSize: u32, pack: Bytes)
    requires chunkSize > 0
    ensures Publishable(chunkSize, pack) <==>
              0 < |pack| <= chunkSize * 0xFFFF_FFFF && |pack| < 0x1_0000_0000_0000_0000
  {
    if pack != [] {
      SplitShape(pack, chunkSize);
      var n := |SplitPack(pack, chunkSize)|;
      Distributes(chunkSize, n);
      if n <= 0xFFFF_FFFF {
        TimesMonotone(chunkSize, n, 0xFFFF_FFFF);
      } else {
        TimesMonotone(chunkSize, 0xFFFF_FFFF, n - 1);
      }
    }
  }

  function ManifestOf(c: Codec, chunkSize: u32, pack: Bytes): Manifest
    requires Publishable(chunkSize, pack)
  {
    SplitShape(pack, chunkSize);
    SumIsLength(SplitPack(pack, chunkSize));
    FromChunks(c.hash, chunkSize, SplitPack(pack, chunkSize))
  }

  /** The steps between `before` and `after` are the first of `full`; all of
      them, if the operation succeeded. */
  ghost predicate Ran(before: seq<Event>, after: seq<Event>, full: seq<Event>, ok: bool) {
    && before <= after
    && (if ok then after == before + full else after[|before|..] <= full)
  }

  lemma RanMore(before: seq<Event>, middle: seq<Event>, after: seq<Event>, first: seq<Event>, second: seq<Event>,
                ok: bool)
    requires Ran(before, middle, first, true) && Ran(middle, after, second, ok)
    ensures Ran(before, after, first + second, ok)
  {
    assert after == middle + after[|middle|..];
    if ok {
      assert before + first + second == before + (first + second);
    } else {
      assert after[|before|..] == first + after[|middle|..];
    }
  }

  lemma RanLess(before: seq<Event>, after: seq<Event>, first: seq<Event>, second: seq<Event>)
    requires Ran(before, after, first, false)
    ensures Ran(before, after, first + second, false)
  {
  }

  // ----- publishing -----

  ghost predicate Indices(order: seq<nat>, n: nat) {
    forall k :: 0 <= k < |order| ==> order[k] < n
  }

  /** One phase: PUT the chunks in completion order, stopping at a failure. */
  method PutChunks(node: Node, chunks: seq<Bytes>, order: seq<nat>) returns (ok: bool)
    requires node.Valid() && Indices(order, |chunks|)
    modifies node`ops, node`trace, node.Disk()
    ensures Ran(old(node.trace), node.trace, Puts(chunks, order), ok)
    ensures Serving(node.codec, node.world) ==> ok
  {
    for k := 0 to |order|
      invariant node.trace == old(node.trace) + Puts(chunks, order)[..k]
    {
      ok := node.Put(chunks[order[k]]);
      if !ok { return; }
      assert Puts(chunks, order)[..k + 1] == Puts(chunks, order)[..k] + [PutConfirmed(chunks[order[k]])];
    }
    ok := true;
  }

  ghost predicate AreHashes(c: Codec, keys: seq<Bytes>) {
    forall i :: 0 <= i < |keys| ==> exists bytes :: c.hash(bytes) == keys[i]
  }

  /** The next phase: read the chunks back, in completion order. */
  method ReadChunks(node: Node, keys: seq<Bytes>, order: seq<nat>) returns (ok: bool)
    requires node.Valid() && Indices(order, |keys|)
    modifies node`ops, node`trace, node.Disk()
    ensures Ran(old(node.trace), node.trace, Reads(keys, order), ok)
    ensures Serving(node.codec, node.world) && AreHashes(node.codec, keys) ==> ok
  {
    for k := 0 to |order|
      invariant node.trace == old(node.trace) + Reads(keys, order)[..k]
    {
      var got := node.Get(keys[order[k]]);
      if got.Err? { return false; }
      assert Reads(keys, order)[..k + 1] == Reads(keys, order)[..k] + [ReadBack(keys[order[k]])];
    }
    ok := true;
  }

  ghost function ManifestTrace(c: Codec, bytes: Bytes): seq<Event> {
    [PutConfirmed(bytes), ReadBack(c.hash(bytes))]
  }

  /** The last phases: PUT the manifest and compare what is read back. */
  method PutManifest(node: Node, bytes: Bytes) returns (ok: bool)
    requires node.Valid()
    modifies node`ops, node`trace, node.Disk()
    ensures Ran(old(node.trace), node.trace, ManifestTrace(node.codec, bytes), ok)
    ensures Serving(node.codec, node.world) ==> ok
  {
    ok := node.Put(bytes);
    if !ok { return; }
    var got := node.Get(node.codec.hash(bytes));
    ok := got.Ok? && got.value == bytes;
    assert got.Ok? ==> node.trace == old(node.trace) + ManifestTrace(node.codec, bytes);
  }

  ghost function ChunkedTrace(c: Codec, chunkSize: u32, pack: Bytes, putOrder: seq<nat>,
                              readOrder: seq<nat>): seq<Event>
    requires Publishable(chunkSize, pack)
    requires Indices(putOrder, |SplitPack(pack, chunkSize)|) && Indices(readOrder, |SplitPack(pack, chunkSize)|)
  {
    var m := ManifestOf(c, chunkSize, pack);
    Puts(SplitPack(pack, chunkSize), putOrder) + Reads(m.chunkHashes, readOrder) + ManifestTrace(c, c.encode(m))
  }

  /** A split pack with its manifest: every phase, in order. */
  method PublishSplit(node: Node, chunkSize: u32, pack: Bytes, putOrder: seq<nat>, readOrder: seq<nat>)
    returns (failure: Option<Failure>)
    requires node.Valid() && Publishable(chunkSize, pack)
    requires Indices(putOrder, |SplitPack(pack, chunkSize)|) && Indices(readOrder, |SplitPack(pack, chunkSize)|)
    modifies node`ops, node`trace, node.Disk()
    ensures Ran(old(node.trace), node.trace, ChunkedTrace(node.codec, chunkSize, pack, putOrder, readOrder),
                failure.None?)
    ensures Serving(node.codec, node.world) ==> failure.None?
  {
    var chunks, m := SplitPack(pack, chunkSize), ManifestOf(node.codec, chunkSize, pack);
    ghost var t0, puts, gets := node.trace, Puts(chunks, putOrder), Reads(m.chunkHashes, readOrder);
    ghost var last := ManifestTrace(node.codec, node.codec.encode(m));
    var ok := PutChunks(node, chunks, putOrder);
    if !ok {
      RanLess(t0, node.trace, puts, gets);
      RanLess(t0, node.trace, puts + gets, last);
      return Some(PutFailed);
    }
    ghost var t1 := node.trace;
    ok := ReadChunks(node, m.chunkHashes, readOrder);
    RanMore(t0, t1, node.trace, puts, gets, ok);
    if !ok {
      RanLess(t0, node.trace, puts + gets, last);
      return Some(ReadBackFailed);
    }
    ghost var t2 := node.trace;
    ok := PutManifest(node, node.codec.encode(m));
    RanMore(t0, t2, node.trace, puts + gets, last, ok);
    failure := if ok then None else Some(ReadBackFailed);
  }

  function ChunkedBundle(c: Codec, chunkSize: u32, pack: Bytes): ObjectBundle
    requires Publishable(chunkSize, pack)
  {
    var m := ManifestOf(c, chunkSize, pack);
    ObjectBundle.ChunkedPack(c.hash(c.encode(m)), m.totalSize, m.chunkCount)
  }

  /** `publish_chunked_pack`: whatever fails, the trace is the start of the
      full one, and success means all of it. `putOrder` and `readOrder` say
      in which order `n` parallel operations complete. */
  method PublishChunkedPack(node: Node, pack: Bytes, chunkSize: u32, parallelism: nat,
                            putOrder: nat -> seq<nat>, readOrder: nat -> seq<nat>)
    returns (r: Result<ObjectBundle, Failure>)
    requires node.Valid() && |pack| < 0x1_0000_0000_0000_0000
    requires forall n :: Indices(putOrder(n), n) && Indices(readOrder(n), n)
    modifies node`ops, node`trace, node.Disk()
    ensures r.Ok? ==> Publishable(chunkSize, pack) && r.value == ChunkedBundle(node.codec, chunkSize, pack)
    ensures if parallelism > 0 && Publishable(chunkSize, pack) then
              var n := |SplitPack(pack, chunkSize)|;
              && Indices(putOrder(n), n) && Indices(readOrder(n), n)
              && Ran(old(node.trace), node.trace,
                     ChunkedTrace(node.codec, chunkSize, pack, putOrder(n), readOrder(n)), r.Ok?)
            else r.Err? && node.trace == old(node.trace)
    ensures Serving(node.codec, node.world) && parallelism > 0 && Publishable(chunkSize, pack) ==> r.Ok?
  {
    if pack == [] || chunkSize == 0 || parallelism == 0 { return Err(BadArgument); }
    var n := |SplitPack(pack, chunkSize)|;
    if n >= 0x1_0000_0000 { return Err(TooManyChunks); }
    assert Indices(putOrder(n), n) && Indices(readOrder(n), n);
    var failure := PublishSplit(node, chunkSize, pack, putOrder(n), readOrder(n));
    r := if failure.None? then Ok(ChunkedBundle(node.codec, chunkSize, pack)) else Err(failure.value);
  }

  // ----- what backs a bundle -----

  ghost predicate ChunksStored(c: Codec, t: seq<Event>, chunks: seq<Bytes>) {
    forall i :: 0 <= i < |chunks| ==> PutConfirmed(chunks[i]) in t && ReadBack(c.hash(chunks[i])) in t
  }

  /** Everything that a reader of the bundle needs was PUT, and what is
      chunked was read back. */
  ghost predicate Backed(c: Codec, t: seq<Event>, chunkSize: u32, pack: Bytes, b: ObjectBundle) {
    match b
    case SinglePack(hash, size) =>
      PutConfirmed(pack) in t && hash == c.hash(pack) && size == |pack|
    case ChunkedPack(_, _, _) =>
      && Publishable(chunkSize, pack) && b == ChunkedBundle(c, chunkSize, pack)
      && ChunksStored(c, t, SplitPack(pack, chunkSize))
      && PutConfirmed(c.encode(ManifestOf(c, chunkSize, pack))) in t && ReadBack(b.manifestHash) in t
  }

  lemma BackedLater(c: Codec, t: seq<Event>, t': seq<Event>, chunkSize: u32, pack: Bytes, b: ObjectBundle)
    requires Backed(c, t, chunkSize, pack, b) && t <= t'
    ensures Backed(c, t', chunkSize, pack, b)
  {
    assert forall e :: e in t ==> e in t';
  }

  /** Wherever a publication stops, a manifest that was PUT has all its
      chunks. */
  lemma ChunksBeforeManifest(c: Codec, chunkSize: u32, pack: Bytes, putOrder: seq<nat>, readOrder: seq<nat>,
                             t: seq<Event>)
    requires Publishable(chunkSize, pack)
    requires IsOrder(putOrder, |SplitPack(pack, chunkSize)|) && IsOrder(readOrder, |SplitPack(pack, chunkSize)|)
    requires t <= ChunkedTrace(c, chunkSize, pack, putOrder, readOrder) && |t| > |putOrder| + |readOrder|
    ensures ChunksStored(c, t, SplitPack(pack, chunkSize))
  {
    var chunks, m := SplitPack(pack, chunkSize), ManifestOf(c, chunkSize, pack);
    var puts, gets := Puts(chunks, putOrder), Reads(m.chunkHashes, readOrder);
    assert puts + gets <= t;
    forall i | 0 <= i < |chunks| ensures PutConfirmed(chunks[i]) in t && ReadBack(c.hash(chunks[i])) in t {
      assert i in putOrder && i in readOrder;
      var j :| 0 <= j < |putOrder| && putOrder[j] == i;
      var k :| 0 <= k < |readOrder| && readOrder[k] == i;
      assert t[j] == puts[j] && t[|puts| + k] == gets[k];
    }
  }

  lemma FullTraceBacks(c: Codec, chunkSize: u32, pack: Bytes, putOrder: seq<nat>, readOrder: seq<nat>)
    requires Publishable(chunkSize, pack)
    requires IsOrder(putOrder, |SplitPack(pack, chunkSize)|) && IsOrder(readOrder, |SplitPack(pack, chunkSize)|)
    ensures Backed(c, ChunkedTrace(c, chunkSize, pack, putOrder, readOrder), chunkSize, pack,
                   ChunkedBundle(c, chunkSize, pack))
  {
    var m := ManifestOf(c, chunkSize, pack);
    var t := ChunkedTrace(c, chunkSize, pack, putOrder, readOrder);
    ChunksBeforeManifest(c, chunkSize, pack, putOrder, readOrder, t);
    assert t[|t| - 2] == PutConfirmed(c.encode(m)) && t[|t| - 1] == ReadBack(c.hash(c.encode(m)));
  }
}
