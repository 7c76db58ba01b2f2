/** Packs too large for one contract: split into chunks under a manifest, and
    put together again from chunks that arrive in any order. */
module ChunkedPack {
  import opened Octets

  datatype Manifest = Manifest(version: byte, chunkSize: u32, totalSize: u64, chunkCount: u32, chunkHashes: seq<Bytes>)

  datatype ManifestError =
    | UnsupportedVersion
    | NoChunks
    | ZeroChunkSize
    | ZeroTotalSize
    | HashCountMismatch
    | SizeOutOfRange

  /** BLAKE3 and bincode; what is needed of them is stated where it is used. */
  datatype Codec = Codec(hash: Bytes -> Bytes, encode: Manifest -> Bytes, decode: Bytes -> Option<Manifest>)

  function CheckedMul(a: u64, b: u64): Option<u64> {
    if a * b < 0x1_0000_0000_0000_0000 then Some(a * b) else None
  }

  // ----- the manifest -----

  function Validate(m: Manifest): Option<ManifestError> {
    if m.version != 1 then Some(UnsupportedVersion)
    else if m.chunkCount == 0 then Some(NoChunks)
    else if m.chunkSize == 0 then Some(ZeroChunkSize)
    else if m.totalSize == 0 then Some(ZeroTotalSize)
    else if m.chunkCount != |m.chunkHashes| then Some(HashCountMismatch)
    else
      var upper := CheckedMul(m.chunkSize, m.chunkCount);
      if upper.None? then Some(SizeOutOfRange)
      else
        var lower := CheckedMul(m.chunkSize, m.chunkCount - 1);
        if lower.None? then Some(SizeOutOfRange)
        else if m.totalSize > upper.value || m.totalSize <= lower.value then Some(SizeOutOfRange)
        else None
  }

  function CeilDiv(a: nat, b: nat): nat
    requires b > 0
  {
    (a + b - 1) / b
  }

  lemma CeilDivBounds(a: nat, b: nat)
    requires b > 0
    ensures b * (CeilDiv(a, b) - 1) < a <= b * CeilDiv(a, b)
  {
    var q: int := CeilDiv(a, b);
    assert b * q <= a + b - 1 < b * q + b by {
      assert a + b - 1 == b * q + (a + b - 1) % b;
    }
    assert b * (q - 1) == b * q - b;
  }

  lemma TimesMonotone(b: nat, x: int, y: int)
    requires x <= y
    ensures b * x <= b * y
  {
    assert b * (y - x) >= 0;
    assert b * (y - x) == b * y - b * x;
  }

  lemma CeilDivIff(a: nat, b: nat, n: nat)
    requires b > 0
    ensures n == CeilDiv(a, b) <==> b * (n - 1) < a <= b * n
  {
    var q := CeilDiv(a, b);
    CeilDivBounds(a, b);
    if n < q {
      TimesMonotone(b, n, q - 1);
    } else if n > q {
      TimesMonotone(b, q, n - 1);
    }
  }

  lemma Product32(a: u32, b: u32)
    ensures 0 <= a * b < 0x1_0000_0000_0000_0000
  {
    TimesMonotone(a, 0, b);
    TimesMonotone(a, b, 0xFFFF_FFFF);
  }

  /** A manifest is accepted exactly when its chunk count is the number of
      chunks that its total size needs; no product overflows. */
  lemma ValidateIff(m: Manifest)
    ensures Validate(m).None? <==>
            && m.version == 1 && m.chunkCount == |m.chunkHashes|
            && m.chunkSize > 0 && m.totalSize > 0 && m.chunkCount == CeilDiv(m.totalSize, m.chunkSize)
    ensures CheckedMul(m.chunkSize, m.chunkCount).Some?
    ensures m.chunkCount > 0 ==> CheckedMul(m.chunkSize, m.chunkCount - 1).Some?
  {
    Product32(m.chunkSize, m.chunkCount);
    if m.chunkCount > 0 {
      Product32(m.chunkSize, m.chunkCount - 1);
    }
    if m.chunkSize > 0 {
      CeilDivIff(m.totalSize, m.chunkSize, m.chunkCount);
    }
  }

  /** The types say that nothing overflows or goes below zero. */
  function ChunkLen(m: Manifest, i: u32): (n: u64)
    requires Validate(m).None? && i < m.chunkCount
    ensures 0 < n <= m.chunkSize
  {
    ValidateIff(m);
    CeilDivIff(m.totalSize, m.chunkSize, m.chunkCount);
    Distributes(m.chunkSize, m.chunkCount);
    var next: u32 := i + 1;
    if next < m.chunkCount then m.chunkSize
    else
      var full: u64 := m.chunkSize * (m.chunkCount - 1);
      m.totalSize - full
  }

  lemma Distributes(size: nat, count: nat)
    requires count > 0
    ensures size * count == size * (count - 1) + size
  {
  }

  function SumLens(m: Manifest, n: u32): nat
    requires Validate(m).None? && n <= m.chunkCount
  {
    if n == 0 then 0 else SumLens(m, n - 1) + ChunkLen(m, n - 1)
  }

  lemma {:induction false} FullChunks(m: Manifest, n: u32)
    requires Validate(m).None? && n < m.chunkCount
    ensures SumLens(m, n) == n * m.chunkSize
  {
    if n > 0 {
      FullChunks(m, n - 1);
      assert n * m.chunkSize == (n - 1) * m.chunkSize + m.chunkSize;
    }
  }

  /** The chunk lengths add up to the total size. */
  lemma LensSum(m: Manifest)
    requires Validate(m).None?
    ensures SumLens(m, m.chunkCount) == m.totalSize
  {
    FullChunks(m, m.chunkCount - 1);
  }

  // ----- splitting -----

  function SplitPack(pack: Bytes, chunkSize: nat): (chunks: seq<Bytes>)
    requires pack != [] && chunkSize > 0
    ensures chunks != []
  {
    if |pack| <= chunkSize then [pack]
    else [pack[..chunkSize]] + SplitPack(pack[chunkSize..], chunkSize)
  }

  function Concat(chunks: seq<Bytes>): Bytes {
    if chunks == [] then [] else chunks[0] + Concat(chunks[1..])
  }

  lemma {:induction false} ConcatSnoc(chunks: seq<Bytes>, last: Bytes)
    ensures Concat(chunks + [last]) == Concat(chunks) + last
  {
    if chunks == [] {
      assert [last][1..] == [];
    } else {
      ConcatSnoc(chunks[1..], last);
      assert (chunks + [last])[1..] == chunks[1..] + [last];
      assert chunks[0] + (Concat(chunks[1..]) + last) == (chunks[0] + Concat(chunks[1..])) + last;
    }
  }

  ghost predicate SplitInto(chunks: seq<Bytes>, size: nat, total: nat) {
    && chunks != []
    && (forall i :: 0 <= i < |chunks| - 1 ==> |chunks[i]| == size)
    && 0 < |chunks[|chunks| - 1]| <= size
    && total == size * (|chunks| - 1) + |chunks[|chunks| - 1]|
  }

  /** Splitting loses nothing, and every chunk but the last is full. */
  lemma {:induction false} SplitShape(pack: Bytes, size: nat)
    requires pack != [] && size > 0
    ensures Concat(SplitPack(pack, size)) == pack && SplitInto(SplitPack(pack, size), size, |pack|)
  {
    var chunks := SplitPack(pack, size);
    if |pack| <= size {
      assert chunks[1..] == [];
    } else {
      var tail := SplitPack(pack[size..], size);
      SplitShape(pack[size..], size);
      assert chunks[1..] == tail && pack == pack[..size] + pack[size..];
      Distributes(size, |tail|);
    }
  }

  function SumOf(chunks: seq<Bytes>): nat {
    if chunks == [] then 0 else SumOf(chunks[..|chunks| - 1]) + |chunks[|chunks| - 1]|
  }

  lemma {:induction false} SumIsLength(chunks: seq<Bytes>)
    ensures SumOf(chunks) == |Concat(chunks)|
  {
    if chunks != [] {
      var front, last := chunks[..|chunks| - 1], chunks[|chunks| - 1];
      SumIsLength(front);
      ConcatSnoc(front, last);
      assert chunks == front + [last];
    }
  }

  /** Refuses more chunks than a `u32` counts. */
  function FromChunks(hash: Bytes -> Bytes, chunkSize: u32, chunks: seq<Bytes>): Manifest
    requires |chunks| < 0x1_0000_0000 && SumOf(chunks) < 0x1_0000_0000_0000_0000
  {
    Manifest(1, chunkSize, SumOf(chunks), |chunks|, seq(|chunks|, i requires 0 <= i < |chunks| => hash(chunks[i])))
  }

  /** The manifest of a split pack is accepted and describes its chunks. */
  lemma SplitManifest(hash: Bytes -> Bytes, pack: Bytes, size: u32)
    requires pack != [] && size > 0 && |pack| < 0x1_0000_0000_0000_0000
    requires |SplitPack(pack, size)| < 0x1_0000_0000
    ensures var chunks := SplitPack(pack, size);
            && SumOf(chunks) == |pack|
            && var m := FromChunks(hash, size, chunks);
            && Validate(m).None? && m.totalSize == |pack| && m.chunkCount == |chunks|
            && forall i :: 0 <= i < |chunks| ==> m.chunkHashes[i] == hash(chunks[i]) && ChunkLen(m, i) == |chunks[i]|
  {
    var chunks := SplitPack(pack, size);
    SplitShape(pack, size);
    SumIsLength(chunks);
    var m := FromChunks(hash, size, chunks);
    Distributes(size, |chunks|);
    CeilDivIff(m.totalSize, size, |chunks|);
    ValidateIff(m);
  }

  // ----- reassembly -----

  datatype FetchError =
    | NotFetched
    | BadManifest
    | SizeDisagrees
    | CountDisagrees
    | ChunkFailed(index: nat)
    | ChunkMissing(index: nat)
    | AssembledSizeDisagrees

  type Arrival = Result<(nat, Bytes), FetchError>

  ghost predicate InRange(arrivals: seq<Arrival>, n: nat) {
    forall k :: 0 <= k < |arrivals| && arrivals[k].Ok? ==> arrivals[k].value.0 < n
  }

  predicate AllArrived(arrivals: seq<Arrival>) {
    forall k :: 0 <= k < |arrivals| ==> arrivals[k].Ok?
  }

  function NoChunksYet(n: nat): (slots: seq<Option<Bytes>>)
    ensures |slots| == n
  {
    seq(n, _ => None)
  }

  /** The slots after all arrivals; a later arrival for the same index wins. */
  function Slots(arrivals: seq<Arrival>, n: nat): (slots: seq<Option<Bytes>>)
    requires AllArrived(arrivals) && forall k :: 0 <= k < |arrivals| ==> arrivals[k].value.0 < n
    ensures |slots| == n
  {
    if arrivals == [] then NoChunksYet(n)
    else
      var (i, chunk) := arrivals[|arrivals| - 1].value;
      Slots(arrivals[..|arrivals| - 1], n)[i := Some(chunk)]
  }

  /** Drains the stream of completed GETs; the first failure ends it. */
  method CollectChunksIntoSlots(arrivals: seq<Arrival>, n: nat) returns (r: Result<seq<Option<Bytes>>, FetchError>)
    requires InRange(arrivals, n)
    ensures r.Ok? <==> AllArrived(arrivals)
    ensures r.Ok? ==> r.value == Slots(arrivals, n)
    ensures r.Err? ==> exists k :: 0 <= k < |arrivals| && arrivals[k] == Err(r.error) && AllArrived(arrivals[..k])
  {
    var received := NoChunksYet(n);
    for k := 0 to |arrivals|
      invariant AllArrived(arrivals[..k]) && received == Slots(arrivals[..k], n)
    {
      if arrivals[k].Err? {
        return Err(arrivals[k].error);
      }
      var (i, chunk) := arrivals[k].value;
      received := received[i := Some(chunk)];
      assert arrivals[..k + 1][..k] == arrivals[..k];
    }
    assert arrivals[..|arrivals|] == arrivals;
    r := Ok(received);
  }

  predicate Full(received: seq<Option<Bytes>>) {
    forall i :: 0 <= i < |received| ==> received[i].Some?
  }

  function Contents(received: seq<Option<Bytes>>): (chunks: seq<Bytes>)
    requires Full(received)
    ensures |chunks| == |received|
  {
    seq(|received|, i requires 0 <= i < |received| => received[i].value)
  }

  method AssembleChunks(received: seq<Option<Bytes>>, expectedTotalSize: u64) returns (r: Result<Bytes, FetchError>)
    ensures r.Ok? <==> Full(received) && |Concat(Contents(received))| == expectedTotalSize
    ensures r.Ok? ==> r.value == Concat(Contents(received))
    ensures r.Err? && Full(received) ==> r.error == AssembledSizeDisagrees
    ensures r.Err? && !Full(received) ==>
              r.error.ChunkMissing? && r.error.index < |received| && received[r.error.index].None?
  {
    var assembled := [];
    for i := 0 to |received|
      invariant Full(received[..i]) && assembled == Concat(Contents(received[..i]))
    {
      if received[i].None? {
        return Err(ChunkMissing(i));
      }
      ConcatSnoc(Contents(received[..i]), received[i].value);
      assert Contents(received[..i + 1]) == Contents(received[..i]) + [received[i].value];
      assembled := assembled + received[i].value;
    }
    assert received[..|received|] == received;
    if |assembled| != expectedTotalSize {
      return Err(AssembledSizeDisagrees);
    }
    r := Ok(assembled);
  }

  /** Each index below `n` once. */
  ghost predicate IsOrder(order: seq<nat>, n: nat) {
    && (forall k :: 0 <= k < |order| ==> order[k] < n)
    && (forall i :: 0 <= i < n ==> i in order)
    && (forall a, b :: 0 <= a < b < |order| ==> order[a] != order[b])
  }

  ghost predicate ArriveAs(arrivals: seq<Arrival>, chunks: seq<Bytes>) {
    forall k :: 0 <= k < |arrivals| ==>
      arrivals[k].Ok? && arrivals[k].value.0 < |chunks| && arrivals[k].value.1 == chunks[arrivals[k].value.0]
  }

  lemma {:induction false} SlotsHold(arrivals: seq<Arrival>, chunks: seq<Bytes>)
    requires ArriveAs(arrivals, chunks)
    ensures forall i :: 0 <= i < |chunks| ==>
              Slots(arrivals, |chunks|)[i] ==
              if exists k :: 0 <= k < |arrivals| && arrivals[k].value.0 == i then Some(chunks[i]) else None
  {
    if arrivals != [] {
      SlotsHold(arrivals[..|arrivals| - 1], chunks);
    }
  }

  /** Whatever the order in which the chunks arrive, they land where they
      belong. */
  lemma AnyOrderFills(arrivals: seq<Arrival>, order: seq<nat>, chunks: seq<Bytes>)
    requires IsOrder(order, |chunks|) && |arrivals| == |order|
    requires forall k :: 0 <= k < |order| ==> arrivals[k] == Ok((order[k], chunks[order[k]]))
    ensures AllArrived(arrivals) && InRange(arrivals, |chunks|)
    ensures Full(Slots(arrivals, |chunks|)) && Contents(Slots(arrivals, |chunks|)) == chunks
  {
    SlotsHold(arrivals, chunks);
    forall i | 0 <= i < |chunks| ensures Slots(arrivals, |chunks|)[i] == Some(chunks[i]) {
      assert i in order;
      var k :| 0 <= k < |order| && order[k] == i;
      assert arrivals[k].value.0 == i;
    }
  }

  /** Splitting a pack and putting the chunks together in any arrival order
      gives the pack back. */
  lemma RoundTrip(pack: Bytes, size: u32, order: seq<nat>, arrivals: seq<Arrival>)
    requires pack != [] && size > 0
    requires IsOrder(order, |SplitPack(pack, size)|) && |arrivals| == |order|
    requires forall k :: 0 <= k < |order| ==> arrivals[k] == Ok((order[k], SplitPack(pack, size)[order[k]]))
    ensures AllArrived(arrivals) && InRange(arrivals, |SplitPack(pack, size)|)
    ensures var slots := Slots(arrivals, |SplitPack(pack, size)|);
            Full(slots) && Concat(Contents(slots)) == pack
  {
    SplitShape(pack, size);
    AnyOrderFills(arrivals, order, SplitPack(pack, size));
  }

  // ----- fetching -----

  /** What the network answers to the GET number `n` of a fetch, for a key. */
  type Network = (nat, Bytes) -> Option<Bytes>

  /** `get_pack` returns only bytes that hash to the key. */
  function GetPack(c: Codec, net: Network, n: nat, key: Bytes): Option<Bytes> {
    if net(n, key).Some? && c.hash(net(n, key).value) == key then net(n, key) else None
  }

  function ManifestAt(c: Codec, net: Network, manifestHash: Bytes): Option<Manifest> {
    var bytes := GetPack(c, net, 0, manifestHash);
    if bytes.None? then None
    else
      var m := c.decode(bytes.value);
      if m.Some? && Validate(m.value).None? then m else None
  }

  function ChunkAt(c: Codec, net: Network, m: Manifest, i: nat): Arrival
    requires Validate(m).None? && i < m.chunkCount
  {
    ValidateIff(m);
    var chunk := GetPack(c, net, i + 1, m.chunkHashes[i]);
    if chunk.None? || |chunk.value| != ChunkLen(m, i) then Err(ChunkFailed(i)) else Ok((i, chunk.value))
  }

  /** The manifest arrives, agrees with the bundle, and so does every chunk. */
  predicate Answers(c: Codec, net: Network, manifestHash: Bytes, total: u64, count: u32) {
    var m := ManifestAt(c, net, manifestHash);
    && m.Some? && m.value.totalSize == total && m.value.chunkCount == count
    && forall i :: 0 <= i < count ==> ChunkAt(c, net, m.value, i).Ok?
  }

  function Received(c: Codec, net: Network, manifestHash: Bytes, total: u64, count: u32): (chunks: seq<Bytes>)
    requires Answers(c, net, manifestHash, total, count)
    ensures |chunks| == count
  {
    var m := ManifestAt(c, net, manifestHash).value;
    seq(count, i requires 0 <= i < count => ChunkAt(c, net, m, i).value.1)
  }

  /** `order` is the order in which the parallel GETs complete. */
  method FetchChunks(c: Codec, net: Network, m: Manifest, order: seq<nat>) returns (arrivals: seq<Arrival>)
    requires Validate(m).None? && IsOrder(order, m.chunkCount)
    ensures |arrivals| == |order|
    ensures forall k :: 0 <= k < |order| ==> arrivals[k] == ChunkAt(c, net, m, order[k])
  {
    arrivals := [];
    for k := 0 to |order|
      invariant |arrivals| == k && forall j :: 0 <= j < k ==> arrivals[j] == ChunkAt(c, net, m, order[j])
    {
      arrivals := arrivals + [ChunkAt(c, net, m, order[k])];
    }
  }

  /** A fetch succeeds exactly when every GET is answered with the right
      bytes, whatever the order; the last two checks of the reassembly never
      fail. */
  method FetchChunkedPack(c: Codec, net: Network, order: nat -> seq<nat>, manifestHash: Bytes, total: u64, count: u32)
    returns (r: Result<Bytes, FetchError>)
    requires forall n :: IsOrder(order(n), n)
    ensures r.Ok? <==> Answers(c, net, manifestHash, total, count)
    ensures r.Ok? ==> r.value == Concat(Received(c, net, manifestHash, total, count)) && |r.value| == total
    ensures r.Err? ==> !r.error.ChunkMissing? && r.error != AssembledSizeDisagrees
  {
    var bytes := GetPack(c, net, 0, manifestHash);
    if bytes.None? { return Err(NotFetched); }
    var decoded := c.decode(bytes.value);
    if decoded.None? || Validate(decoded.value).Some? { return Err(BadManifest); }
    var m := decoded.value;
    if m.totalSize != total { return Err(SizeDisagrees); }
    if m.chunkCount != count { return Err(CountDisagrees); }
    assert IsOrder(order(count), count);
    var arrivals := FetchChunks(c, net, m, order(count));
    ArrivalsMatch(c, net, m, order(count), arrivals);
    var received := CollectChunksIntoSlots(arrivals, count);
    if received.Err? { return Err(received.error); }
    ghost var chunks := Received(c, net, manifestHash, total, count);
    AnyOrderFills(arrivals, order(count), chunks);
    ReceivedLength(c, net, manifestHash, total, count);
    r := AssembleChunks(received.value, total);
  }

  lemma ArrivalsMatch(c: Codec, net: Network, m: Manifest, order: seq<nat>, arrivals: seq<Arrival>)
    requires Validate(m).None? && IsOrder(order, m.chunkCount) && |arrivals| == |order|
    requires forall k :: 0 <= k < |order| ==> arrivals[k] == ChunkAt(c, net, m, order[k])
    ensures InRange(arrivals, m.chunkCount)
    ensures AllArrived(arrivals) <==> forall i :: 0 <= i < m.chunkCount ==> ChunkAt(c, net, m, i).Ok?
    ensures forall k :: 0 <= k < |arrivals| && arrivals[k].Err? ==> arrivals[k].error.ChunkFailed?
  {
    forall i | 0 <= i < m.chunkCount ensures exists k :: 0 <= k < |order| && arrivals[k] == ChunkAt(c, net, m, i) {
      assert i in order;
    }
  }

  lemma ReceivedLength(c: Codec, net: Network, manifestHash: Bytes, total: u64, count: u32)
    requires Answers(c, net, manifestHash, total, count)
    ensures |Concat(Received(c, net, manifestHash, total, count))| == total
  {
    var m, chunks := ManifestAt(c, net, manifestHash).value, Received(c, net, manifestHash, total, count);
    LensAddUp(m, chunks, count);
    assert chunks[..count] == chunks;
    LensSum(m);
    SumIsLength(chunks);
  }

  lemma {:induction false} LensAddUp(m: Manifest, chunks: seq<Bytes>, n: u32)
    requires Validate(m).None? && n <= m.chunkCount == |chunks|
    requires forall i :: 0 <= i < |chunks| ==> |chunks[i]| == ChunkLen(m, i)
    ensures SumOf(chunks[..n]) == SumLens(m, n)
  {
    if n > 0 {
      LensAddUp(m, chunks, n - 1);
      assert chunks[..n][..n - 1] == chunks[..n - 1];
    }
  }

  // ----- what was published comes back -----

  ghost predicate DecodesOwn(c: Codec) {
    forall m :: c.decode(c.encode(m)) == Some(m)
  }

  /** The network answers the GET with the bytes published under the key. */
  ghost predicate Serves(net: Network, n: nat, c: Codec, bytes: Bytes) {
    net(n, c.hash(bytes)) == Some(bytes)
  }

  /** For a published pack, whatever the network answers: a fetch that
      succeeds returns that pack, and it succeeds exactly when each GET is
      served. */
  lemma FetchesPublished(c: Codec, net: Network, pack: Bytes, size: u32)
    requires CollisionFree(c.hash) && DecodesOwn(c)
    requires pack != [] && size > 0 && |pack| < 0x1_0000_0000_0000_0000
    requires |SplitPack(pack, size)| < 0x1_0000_0000 && SumOf(SplitPack(pack, size)) == |pack|
    ensures var chunks := SplitPack(pack, size);
            var encoded := c.encode(FromChunks(c.hash, size, chunks));
            var key := c.hash(encoded);
            && (Answers(c, net, key, |pack|, |chunks|) <==>
                Serves(net, 0, c, encoded) && forall i :: 0 <= i < |chunks| ==> Serves(net, i + 1, c, chunks[i]))
            && (Answers(c, net, key, |pack|, |chunks|) ==> Concat(Received(c, net, key, |pack|, |chunks|)) == pack)
  {
    var chunks := SplitPack(pack, size);
    var m := FromChunks(c.hash, size, chunks);
    var key := c.hash(c.encode(m));
    SplitManifest(c.hash, pack, size);
    SplitShape(pack, size);
    GetIff(c, net, 0, c.encode(m));
    if Serves(net, 0, c, c.encode(m)) {
      forall i | 0 <= i < |chunks|
        ensures ChunkAt(c, net, m, i) ==
                if Serves(net, i + 1, c, chunks[i]) then Ok((i, chunks[i])) else Err(ChunkFailed(i))
      {
        GetIff(c, net, i + 1, chunks[i]);
      }
      AnsweredChunks(c, net, m, chunks);
    }
  }

  lemma AnsweredChunks(c: Codec, net: Network, m: Manifest, chunks: seq<Bytes>)
    requires Validate(m).None? && m.chunkCount == |chunks| && ManifestAt(c, net, c.hash(c.encode(m))) == Some(m)
    requires forall i :: 0 <= i < |chunks| ==>
               ChunkAt(c, net, m, i) ==
                   if Serves(net, i + 1, c, chunks[i]) then Ok((i, chunks[i])) else Err(ChunkFailed(i))
    ensures var key := c.hash(c.encode(m));
            && (Answers(c, net, key, m.totalSize, m.chunkCount) <==>
                forall i :: 0 <= i < |chunks| ==> Serves(net, i + 1, c, chunks[i]))
            && (Answers(c, net, key, m.totalSize, m.chunkCount) ==>
                Received(c, net, key, m.totalSize, m.chunkCount) == chunks)
  {
    var key := c.hash(c.encode(m));
    if Answers(c, net, key, m.totalSize, m.chunkCount) {
      forall i | 0 <= i < |chunks| ensures Received(c, net, key, m.totalSize, m.chunkCount)[i] == chunks[i] {
        assert ChunkAt(c, net, m, i).Ok?;
      }
    }
  }

  lemma GetIff(c: Codec, net: Network, n: nat, bytes: Bytes)
    requires CollisionFree(c.hash)
    ensures GetPack(c, net, n, c.hash(bytes)) == if Serves(net, n, c, bytes) then Some(bytes) else None
  {
  }
}
