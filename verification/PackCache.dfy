/** The on-disk pack cache: content-addressed files that anyone may damage. */
module PackCache {
  import opened Octets

  /** Files by the hash in their name. */
  type Files = map<Bytes, Bytes>

  /** What the file system does with one operation. */
  datatype Disk = Disk(readable: bool, removable: bool, writable: bool)

  datatype PackError = NetworkError | HashMismatch

  function Stored(files: Files, key: Bytes, bytes: Bytes, disk: Disk): Files {
    if disk.writable then files[key := bytes] else files
  }

  predicate Hit(hash: Bytes -> Bytes, files: Files, key: Bytes, disk: Disk) {
    disk.readable && key in files && hash(files[key]) == key
  }

  /** A readable file that does not hash to its name. */
  predicate Poisoned(hash: Bytes -> Bytes, files: Files, key: Bytes, disk: Disk) {
    disk.readable && key in files && hash(files[key]) != key
  }

  function AfterRead(hash: Bytes -> Bytes, files: Files, key: Bytes, disk: Disk): Files {
    if Poisoned(hash, files, key, disk) && disk.removable then files - {key} else files
  }

  /** A GET that does not know the cache. */
  function Verified(hash: Bytes -> Bytes, key: Bytes, fetched: Result<Bytes, PackError>): Result<Bytes, PackError> {
    if fetched.Err? then Err(NetworkError)
    else if hash(fetched.value) != key then Err(HashMismatch)
    else fetched
  }

  function GetResult(hash: Bytes -> Bytes, files: Files, key: Bytes, fetched: Result<Bytes, PackError>,
                     disk: Disk): Result<Bytes, PackError> {
    if Hit(hash, files, key, disk) then Ok(files[key]) else Verified(hash, key, fetched)
  }

  function AfterGet(hash: Bytes -> Bytes, files: Files, key: Bytes, fetched: Result<Bytes, PackError>,
                    disk: Disk): Files {
    var read := AfterRead(hash, files, key, disk);
    if Hit(hash, files, key, disk) || Verified(hash, key, fetched).Err? then read
    else Stored(read, key, fetched.value, disk)
  }

  class Cache {
    const hash: Bytes -> Bytes
    var files: Files

    constructor (hash: Bytes -> Bytes, files: Files)
      ensures this.hash == hash && this.files == files
    {
      this.hash, this.files := hash, files;
    }

    /** Returns only bytes that hash to the key, and tries to remove a file
        that does not. */
    method Read(key: Bytes, disk: Disk) returns (r: Option<Bytes>)
      modifies this`files
      ensures r == if Hit(hash, old(files), key, disk) then Some(old(files)[key]) else None
      ensures files == AfterRead(hash, old(files), key, disk)
    {
      if !disk.readable || key !in files { return None; }
      var bytes := files[key];
      if hash(bytes) != key {
        if disk.removable {
          files := files - {key};
        }
        return None;
      }
      r := Some(bytes);
    }

    /** Best effort: other files stay as they are, a file that could be
        written is found again, and no file that does not hash to its name
        comes from bytes that hash to the key. */
    method Write(key: Bytes, bytes: Bytes, disk: Disk)
      modifies this`files
      ensures files == Stored(old(files), key, bytes, disk)
      ensures files - {key} == old(files) - {key} && (key in old(files) ==> key in files)
      ensures hash(bytes) == key ==>
                && (forall k :: k in files && hash(files[k]) != k ==> k in old(files) && old(files)[k] == files[k])
                && (forall d: Disk :: d.readable && (disk.writable || Hit(hash, old(files), key, d)) ==>
                      Hit(hash, files, key, d))
    {
      if disk.writable {
        files := files[key := bytes];
      }
    }
  }

  /** `get_pack_with_fetcher`; `cache` is null when caching is off, and
      `fetched` is what the network would answer. */
  method GetPackWithFetcher(hash: Bytes -> Bytes, cache: Cache?, key: Bytes, fetched: Result<Bytes, PackError>,
                            disk: Disk)
    returns (r: Result<Bytes, PackError>)
    requires cache != null ==> cache.hash == hash
    modifies if cache == null then {} else {cache}
    ensures cache == null ==> r == Verified(hash, key, fetched)
    ensures cache != null ==>
              && r == GetResult(hash, old(cache.files), key, fetched, disk)
              && cache.files == AfterGet(hash, old(cache.files), key, fetched, disk)
    ensures r.Ok? ==> hash(r.value) == key
    ensures r == Err(NetworkError) ==> fetched.Err?
    ensures r == Err(HashMismatch) ==> fetched.Ok? && hash(fetched.value) != key
  {
    if cache != null {
      var cached := cache.Read(key, disk);
      if cached.Some? && hash(cached.value) == key {
        return Ok(cached.value);
      }
    }
    if fetched.Err? { return Err(NetworkError); }
    if hash(fetched.value) != key { return Err(HashMismatch); }
    if cache != null {
      cache.Write(key, fetched.value, disk);
    }
    r := Ok(fetched.value);
  }

  const MAX_ATTEMPTS := 3

  /** `put_pack`: up to three tries; only a confirmed PUT writes the cache.
      `confirmed` says which try the gateway confirms. */
  method PutPack(hash: Bytes -> Bytes, cache: Cache?, bytes: Bytes, confirmed: nat -> bool, disk: Disk)
    returns (ok: bool, attempts: nat)
    requires cache != null ==> cache.hash == hash
    modifies if cache == null then {} else {cache}
    ensures 1 <= attempts <= MAX_ATTEMPTS && forall a :: 1 <= a < attempts ==> !confirmed(a)
    ensures ok == confirmed(attempts) && (!ok ==> attempts == MAX_ATTEMPTS)
    ensures ok <==> confirmed(1) || confirmed(2) || confirmed(3)
    ensures cache != null ==>
              cache.files == if ok then Stored(old(cache.files), hash(bytes), bytes, disk) else old(cache.files)
  {
    attempts := 1;
    while !confirmed(attempts) && attempts < MAX_ATTEMPTS
      invariant 1 <= attempts <= MAX_ATTEMPTS
      invariant forall a :: 1 <= a < attempts ==> !confirmed(a)
    {
      attempts := attempts + 1;
    }
    ok := confirmed(attempts);
    if ok && cache != null {
      cache.Write(hash(bytes), bytes, disk);
    }
  }

  // ----- any sequence of operations -----

  /** `Damage` replaces or removes a file behind the cache's back. */
  datatype Op =
    | Get(key: Bytes, fetched: Result<Bytes, PackError>, disk: Disk)
    | Put(bytes: Bytes, disk: Disk)
    | Damage(key: Bytes, left: Option<Bytes>)

  function Apply(hash: Bytes -> Bytes, files: Files, op: Op): Files {
    match op
    case Get(key, fetched, disk) => AfterGet(hash, files, key, fetched, disk)
    case Put(bytes, disk) => Stored(files, hash(bytes), bytes, disk)
    case Damage(key, left) => if left.Some? then files[key := left.value] else files - {key}
  }

  function Run(hash: Bytes -> Bytes, files: Files, ops: seq<Op>): Files {
    if ops == [] then files else Apply(hash, Run(hash, files, ops[..|ops| - 1]), ops[|ops| - 1])
  }

  /** However the files were used and damaged before: a GET that would succeed
      without the cache returns the same bytes with it, and the only other way
      to succeed is a cached file with those very bytes. */
  lemma CacheTransparent(hash: Bytes -> Bytes, start: Files, ops: seq<Op>, key: Bytes,
                         fetched: Result<Bytes, PackError>, disk: Disk)
    requires CollisionFree(hash)
    ensures var files := Run(hash, start, ops);
            var r := GetResult(hash, files, key, fetched, disk);
            && (Verified(hash, key, fetched).Ok? ==> r == Verified(hash, key, fetched))
            && (r.Ok? ==> hash(r.value) == key && forall b :: hash(b) == key ==> b == r.value)
            && (r.Ok? <==> Verified(hash, key, fetched).Ok? || Hit(hash, files, key, disk))
  {
  }

  /** A file whose bytes do not hash to its name was damaged, or damaged
      before the run: neither GET nor PUT ever writes one. */
  lemma {:induction false} OnlyDamagePoisons(hash: Bytes -> Bytes, start: Files, ops: seq<Op>, key: Bytes)
    requires var files := Run(hash, start, ops); key in files && hash(files[key]) != key
    ensures var files := Run(hash, start, ops);
            || (key in start && start[key] == files[key])
            || exists i :: 0 <= i < |ops| && ops[i] == Damage(key, Some(files[key]))
  {
    if ops != [] {
      var init, last := ops[..|ops| - 1], ops[|ops| - 1];
      var before, after := Run(hash, start, init), Run(hash, start, ops);
      if key in before && before[key] == after[key] {
        OnlyDamagePoisons(hash, start, init, key);
        if !(key in start && start[key] == after[key]) {
          var i :| 0 <= i < |init| && init[i] == Damage(key, Some(after[key]));
          assert ops[i] == init[i];
        }
      } else {
        assert last == Damage(key, Some(after[key]));
      }
    }
  }

  /** Reading a poisoned file leaves nothing poisoned under that name: the
      file is gone, or replaced by bytes that hash to it. */
  lemma PoisonEvicted(hash: Bytes -> Bytes, files: Files, key: Bytes, fetched: Result<Bytes, PackError>, disk: Disk)
    requires Poisoned(hash, files, key, disk) && disk.removable
    ensures var after := AfterGet(hash, files, key, fetched, disk);
            && (key in after ==>
                hash(after[key]) == key && GetResult(hash, files, key, fetched, disk) == Ok(after[key]))
            && forall k :: k != key ==> (k in after <==> k in files) && (k in files ==> after[k] == files[k])
  {
  }

  /** A pack that was fetched once is not asked for again: as long as the
      cache could write and can be read, the next GET returns the same bytes
      whatever the network answers. */
  lemma GetFillsCache(hash: Bytes -> Bytes, files: Files, key: Bytes, fetched: Result<Bytes, PackError>, disk: Disk,
                      again: Result<Bytes, PackError>, disk': Disk)
    requires GetResult(hash, files, key, fetched, disk).Ok? && disk.writable && disk'.readable
    ensures GetResult(hash, AfterGet(hash, files, key, fetched, disk), key, again, disk')
            == GetResult(hash, files, key, fetched, disk)
  {
  }

  /** After a confirmed PUT the pack reads back whatever the network answers,
      as long as the cache could write and nothing damages the file: reading
      back does not show that the network still has it. */
  lemma {:induction false} PutReadsBack(hash: Bytes -> Bytes, start: Files, bytes: Bytes, disk: Disk, ops: seq<Op>,
                                        fetched: Result<Bytes, PackError>, disk': Disk)
    requires CollisionFree(hash) && disk.writable && disk'.readable
    requires forall i :: 0 <= i < |ops| ==> !(ops[i].Damage? && ops[i].key == hash(bytes))
    ensures var files := Run(hash, Apply(hash, start, Put(bytes, disk)), ops);
            && hash(bytes) in files && files[hash(bytes)] == bytes
            && GetResult(hash, files, hash(bytes), fetched, disk') == Ok(bytes)
  {
    if ops != [] {
      var init, last := ops[..|ops| - 1], ops[|ops| - 1];
      PutReadsBack(hash, start, bytes, disk, init, fetched, disk');
      assert last == ops[|ops| - 1];
      if last.Get? && last.key == hash(bytes) && Verified(hash, last.key, last.fetched).Ok? {
        assert last.fetched.value == bytes;
      }
      if last.Put? && hash(last.bytes) == hash(bytes) {
        assert last.bytes == bytes;
      }
    }
  }
}
