/** `validate_state` and `update_state`: what a peer accepts. */
module Validate {
  import opened Octets
  import opened Repo
  import opened Merge
  import SignedPayload
  import BundleIds

  /** ed25519 verification, BLAKE3 and base58, about which nothing is assumed. */
  datatype Crypto = Crypto(
    verify: (Bytes, PublicKey, Signature) -> bool,
    hash: Bytes -> Bytes,
    isBase58: Bytes -> bool,
    prefixOf: (PublicKey, nat) -> Bytes)

  datatype RepoParams = RepoParams(prefix: Bytes)

  const MIN_PREFIX_LEN := 4
  const MAX_PREFIX_LEN := 32
  const MAX_NAME_BYTES := 256
  const MAX_DESCRIPTION_BYTES := 4096
  const MAX_REF_NAME_BYTES := 256
  const MAX_EXTENSION_KEY_BYTES := 256
  const MAX_EXTENSION_VALUE_BYTES := 64 * 1024

  datatype ValidateError =
    | InvalidPrefixLength
    | InvalidPrefixChars
    | PrefixMismatch
    | FieldTooLong
    | NonOwnerSigner
    | BundleIdMismatch
    | InvalidSignature

  /** `BLAKE3-32(WIRE_VERSION || prefix || owner)`. */
  function DomainKey(c: Crypto, params: RepoParams, owner: PublicKey): RepoKey {
    c.hash(SignedPayload.Ascii("v1") + params.prefix + owner)
  }

  function CheckPrefix(c: Crypto, params: RepoParams, owner: PublicKey): Option<ValidateError> {
    var n := |params.prefix|;
    if n < MIN_PREFIX_LEN || n > MAX_PREFIX_LEN then Some(InvalidPrefixLength)
    else if !c.isBase58(params.prefix) then Some(InvalidPrefixChars)
    else if c.prefixOf(owner, n) != params.prefix then Some(PrefixMismatch)
    else None
  }

  /** An entry of the kind its slot holds. */
  predicate Typed(k: SlotKey, e: Entry) {
    match k
    case OfField(Name) => e.value.Text?
    case OfField(Description) => e.value.Text?
    case OfField(DefaultBranch) => e.value.Text?
    case OfField(ForcePushAllowed) => e.value.RefList?
    case OfField(Acl) => e.value.Grants?
    case OfField(Upgrade) => e.value.Successor?
    case OfRef(_) => e.value.Target?
    case OfExtension(_) => e.value.Raw?
  }

  /** What the signer of an entry signed. */
  function MessageFor(key: RepoKey, k: SlotKey, e: Entry): SignedPayload.Message
    requires Typed(k, e)
  {
    match k
    case OfField(Name) => SignedPayload.TextField(Name, key, e.value.text, e.updateSeq)
    case OfField(Description) => SignedPayload.TextField(Description, key, e.value.text, e.updateSeq)
    case OfField(DefaultBranch) => SignedPayload.TextField(DefaultBranch, key, e.value.text, e.updateSeq)
    case OfField(ForcePushAllowed) => SignedPayload.RefListField(key, e.value.names, e.updateSeq)
    case OfField(Acl) => SignedPayload.AclField(key, e.value.acl, e.updateSeq)
    case OfField(Upgrade) => SignedPayload.UpgradeField(key, e.value.key, e.updateSeq)
    case OfRef(n) =>
      var t := e.value.target;
      SignedPayload.RefUpdate(key, n, t.target, e.updateSeq, t.authEpoch)
    case OfExtension(x) => SignedPayload.ExtensionSet(key, x, e.value.bytes, e.updateSeq)
  }

  predicate TooLong(k: SlotKey, e: Entry)
    requires Typed(k, e)
  {
    match k
    case OfField(Name) => |e.value.text| > MAX_NAME_BYTES
    case OfField(Description) => |e.value.text| > MAX_DESCRIPTION_BYTES
    case OfField(DefaultBranch) => |e.value.text| > MAX_REF_NAME_BYTES
    case OfField(_) => false
    case OfRef(n) => |n| > MAX_REF_NAME_BYTES
    case OfExtension(x) => |x| > MAX_EXTENSION_KEY_BYTES || |e.value.bytes| > MAX_EXTENSION_VALUE_BYTES
  }

  function CheckEntry(c: Crypto, params: RepoParams, owner: PublicKey, k: SlotKey, e: Entry): Option<ValidateError>
    requires Typed(k, e)
  {
    if TooLong(k, e) then Some(FieldTooLong)
    else if k.OfRef? && e.value.target.updater != owner then Some(NonOwnerSigner)
    else
      var payload := SignedPayload.PayloadOf(MessageFor(DomainKey(c, params, owner), k, e));
      if c.verify(payload, if k.OfRef? then e.value.target.updater else owner, e.signature) then None
      else Some(InvalidSignature)
  }

  function CheckRecord(c: Crypto, params: RepoParams, owner: PublicKey, id: BundleId,
                       r: BundleRecord): Option<ValidateError> {
    if !BundleIds.BundleSized(r.bundle) || BundleIds.IdOf(c.hash, r.bundle) != id then Some(BundleIdMismatch)
    else if r.addedBy != owner then Some(NonOwnerSigner)
    else
      var m := SignedPayload.BundleAdd(DomainKey(c, params, owner), BundleIds.IdOf(c.hash, r.bundle), r.authEpoch);
      if c.verify(SignedPayload.PayloadOf(m), r.addedBy, r.signature) then None else Some(InvalidSignature)
  }

  /** Why a prefix is refused: length, alphabet, owner, in this order. */
  lemma PrefixErrors(c: Crypto, params: RepoParams, owner: PublicKey)
    ensures var n, err := |params.prefix|, CheckPrefix(c, params, owner);
            && (err == Some(InvalidPrefixLength) <==> n < 4 || n > 32)
            && (err == Some(InvalidPrefixChars) <==> 4 <= n <= 32 && !c.isBase58(params.prefix))
            && (err == Some(PrefixMismatch) <==>
                  4 <= n <= 32 && c.isBase58(params.prefix) && c.prefixOf(owner, n) != params.prefix)
  {
  }

  /** Why an entry is refused: size, signer, signature, in this order. */
  lemma EntryErrors(c: Crypto, params: RepoParams, owner: PublicKey, k: SlotKey, e: Entry)
    requires Typed(k, e)
    ensures var err := CheckEntry(c, params, owner, k, e);
            && (err == Some(FieldTooLong) <==> TooLong(k, e))
            && (err == Some(NonOwnerSigner) <==> !TooLong(k, e) && k.OfRef? && e.value.target.updater != owner)
            && (err.Some? ==> err.value in {FieldTooLong, NonOwnerSigner, InvalidSignature})
  {
  }

  lemma SlotTyped(st: RepoState, k: SlotKey)
    ensures Slot(st, k).Some? ==> Typed(k, Slot(st, k).value)
  {
  }

  ghost predicate EntryValid(c: Crypto, params: RepoParams, owner: PublicKey, k: SlotKey, e: Option<Entry>) {
    e.Some? ==> Typed(k, e.value) && CheckEntry(c, params, owner, k, e.value).None?
  }

  ghost predicate RecordValid(c: Crypto, params: RepoParams, owner: PublicKey, id: BundleId, r: Option<BundleRecord>) {
    r.Some? ==> CheckRecord(c, params, owner, id, r.value).None?
  }

  /** Every signature in the state verifies on its own. */
  ghost predicate ValidState(c: Crypto, params: RepoParams, st: RepoState) {
    && CheckPrefix(c, params, st.owner).None?
    && (forall k :: EntryValid(c, params, st.owner, k, Slot(st, k)))
    && (forall id :: RecordValid(c, params, st.owner, id, Lookup(st.objectIndex, id)))
  }

  /** `err` is the verdict on some part of the state. */
  ghost predicate Blames(c: Crypto, params: RepoParams, st: RepoState, err: ValidateError) {
    || CheckPrefix(c, params, st.owner) == Some(err)
    || (exists k :: Slot(st, k).Some? && Typed(k, Slot(st, k).value)
                    && CheckEntry(c, params, st.owner, k, Slot(st, k).value) == Some(err))
    || (exists id :: id in st.objectIndex && CheckRecord(c, params, st.owner, id, st.objectIndex[id]) == Some(err))
  }

  function CheckSlot(c: Crypto, params: RepoParams, st: RepoState, k: SlotKey): (r: Option<ValidateError>)
    ensures r.None? <==> EntryValid(c, params, st.owner, k, Slot(st, k))
  {
    SlotTyped(st, k);
    if Slot(st, k).None? then None else CheckEntry(c, params, st.owner, k, Slot(st, k).value)
  }

  /** The checks of one map, entry by entry; stops at the first failure. */
  method CheckAll(c: Crypto, params: RepoParams, st: RepoState, keys: set<SlotKey>) returns (r: Option<ValidateError>)
    ensures r.None? <==> forall k :: k in keys ==> EntryValid(c, params, st.owner, k, Slot(st, k))
    ensures r.Some? ==> Blames(c, params, st, r.value)
  {
    var todo := keys;
    while todo != {}
      invariant todo <= keys
      invariant forall k :: k in keys && k !in todo ==> EntryValid(c, params, st.owner, k, Slot(st, k))
      decreases todo
    {
      var k :| k in todo;
      r := CheckSlot(c, params, st, k);
      if r.Some? {
        SlotTyped(st, k);
        return;
      }
      todo := todo - {k};
    }
    r := None;
  }

  method CheckIndex(c: Crypto, params: RepoParams, st: RepoState) returns (r: Option<ValidateError>)
    ensures r.None? <==> forall id :: RecordValid(c, params, st.owner, id, Lookup(st.objectIndex, id))
    ensures r.Some? ==> Blames(c, params, st, r.value)
  {
    var todo := st.objectIndex.Keys;
    while todo != {}
      invariant todo <= st.objectIndex.Keys
      invariant forall id :: id in st.objectIndex && id !in todo ==>
                  RecordValid(c, params, st.owner, id, Lookup(st.objectIndex, id))
      decreases todo
    {
      var id :| id in todo;
      r := CheckRecord(c, params, st.owner, id, st.objectIndex[id]);
      if r.Some? {
        assert !RecordValid(c, params, st.owner, id, Lookup(st.objectIndex, id));
        return;
      }
      todo := todo - {id};
    }
    r := None;
  }

  method CheckFields(c: Crypto, params: RepoParams, st: RepoState) returns (r: Option<ValidateError>)
    ensures r.None? <==> forall f :: EntryValid(c, params, st.owner, OfField(f), Slot(st, OfField(f)))
    ensures r.Some? ==> Blames(c, params, st, r.value)
  {
    var order := [Name, Description, DefaultBranch, ForcePushAllowed, Acl, Upgrade];
    for i := 0 to |order|
      invariant forall j :: 0 <= j < i ==>
              EntryValid(c, params, st.owner, OfField(order[j]), Slot(st, OfField(order[j])))
    {
      r := CheckSlot(c, params, st, OfField(order[i]));
      if r.Some? {
        SlotTyped(st, OfField(order[i]));
        return;
      }
    }
    forall f ensures EntryValid(c, params, st.owner, OfField(f), Slot(st, OfField(f))) {
      assert f == order[0] || f == order[1] || f == order[2] || f == order[3] || f == order[4] || f == order[5];
    }
    r := None;
  }

  method ValidateState(c: Crypto, params: RepoParams, st: RepoState) returns (r: Option<ValidateError>)
    ensures r.None? <==> ValidState(c, params, st)
    ensures r.Some? ==> Blames(c, params, st, r.value)
  {
    r := CheckPrefix(c, params, st.owner);
    if r.Some? { return; }
    r := CheckFields(c, params, st);
    if r.Some? { return; }
    var refs := set n | n in st.refs.Keys :: OfRef(n);
    r := CheckAll(c, params, st, refs);
    if r.Some? { return; }
    r := CheckIndex(c, params, st);
    if r.Some? { return; }
    var extensions := set x | x in st.extensions.Keys :: OfExtension(x);
    r := CheckAll(c, params, st, extensions);
    if r.None? {
      forall k ensures EntryValid(c, params, st.owner, k, Slot(st, k)) {
        match k
        case OfField(f) =>
        case OfRef(n) => assert n in st.refs ==> k in refs;
        case OfExtension(x) => assert x in st.extensions ==> k in extensions;
      }
    }
  }

  /** `update_state`: merge first, then validate the result. */
  method UpdateState(c: Crypto, params: RepoParams, current: RepoState, delta: RepoState)
    returns (r: Result<RepoState, ValidateError>)
    ensures r.Ok? <==> ValidState(c, params, Merged(current, delta))
    ensures r.Ok? ==> r.value == Merged(current, delta)
    ensures r.Err? ==> Blames(c, params, Merged(current, delta), r.error)
  {
    var merged := MergeState(current, delta);
    var verdict := ValidateState(c, params, merged);
    r := if verdict.None? then Ok(merged) else Err(verdict.value);
  }

  // ----- what a valid state is, field by field -----

  ghost predicate Vouched(c: Crypto, owner: PublicKey, m: SignedPayload.Message, s: Signature) {
    c.verify(SignedPayload.PayloadOf(m), owner, s)
  }

  ghost predicate OwnPrefix(c: Crypto, params: RepoParams, owner: PublicKey) {
    && 4 <= |params.prefix| <= 32 && c.isBase58(params.prefix)
    && c.prefixOf(owner, |params.prefix|) == params.prefix
  }

  ghost predicate OwnText(c: Crypto, key: RepoKey, owner: PublicKey, f: Field, e: Option<Signed<Bytes>>, limit: nat) {
    e.Some? ==>
      && |e.value.value| <= limit
      && Vouched(c, owner, SignedPayload.TextField(f, key, e.value.value, e.value.updateSeq), e.value.signature)
  }

  ghost predicate OwnField(c: Crypto, key: RepoKey, st: RepoState, f: Field) {
    match f
    case Name => OwnText(c, key, st.owner, Name, st.name, 256)
    case Description => OwnText(c, key, st.owner, Description, st.description, 4096)
    case DefaultBranch => OwnText(c, key, st.owner, DefaultBranch, st.defaultBranch, 256)
    case ForcePushAllowed => st.forcePushAllowed.Some? ==> var e := st.forcePushAllowed.value;
      Vouched(c, st.owner, SignedPayload.RefListField(key, e.value, e.updateSeq), e.signature)
    case Acl => st.acl.Some? ==> var e := st.acl.value;
      Vouched(c, st.owner, SignedPayload.AclField(key, e.value, e.updateSeq), e.signature)
    case Upgrade => st.upgrade.Some? ==> var e := st.upgrade.value;
      Vouched(c, st.owner, SignedPayload.UpgradeField(key, e.value, e.updateSeq), e.signature)
  }

  ghost predicate OwnRef(c: Crypto, key: RepoKey, owner: PublicKey, n: RefName, e: Signed<RefTarget>) {
    && |n| <= 256 && e.value.updater == owner
    && Vouched(c, owner, SignedPayload.RefUpdate(key, n, e.value.target, e.updateSeq, e.value.authEpoch), e.signature)
  }

  ghost predicate OwnBundle(c: Crypto, key: RepoKey, owner: PublicKey, id: BundleId, r: BundleRecord) {
    && BundleIds.BundleSized(r.bundle) && BundleIds.IdOf(c.hash, r.bundle) == id && r.addedBy == owner
    && Vouched(c, owner, SignedPayload.BundleAdd(key, id, r.authEpoch), r.signature)
  }

  ghost predicate OwnExtension(c: Crypto, key: RepoKey, owner: PublicKey, x: Bytes, e: Signed<Bytes>) {
    && |x| <= 256 && |e.value| <= 65536
    && Vouched(c, owner, SignedPayload.ExtensionSet(key, x, e.value, e.updateSeq), e.signature)
  }

  /** A state is valid exactly when its prefix is the owner's, everything in
      it is within its limit, and the owner vouches for every part under that
      part's own name, counter and, where it has one, epoch. */
  lemma ValidIff(c: Crypto, params: RepoParams, st: RepoState)
    ensures var key := DomainKey(c, params, st.owner);
            ValidState(c, params, st) <==>
            && OwnPrefix(c, params, st.owner) && (forall f :: OwnField(c, key, st, f))
            && (forall n :: n in st.refs ==> OwnRef(c, key, st.owner, n, st.refs[n]))
            && (forall id :: id in st.objectIndex ==> OwnBundle(c, key, st.owner, id, st.objectIndex[id]))
            && (forall x :: x in st.extensions ==> OwnExtension(c, key, st.owner, x, st.extensions[x]))
  {
    SlotsByKind(c, params, st);
    ValidFields(c, params, st);
    ValidMaps(c, params, st);
  }

  lemma SlotsByKind(c: Crypto, params: RepoParams, st: RepoState)
    ensures (forall k :: EntryValid(c, params, st.owner, k, Slot(st, k))) <==>
            && (forall f :: EntryValid(c, params, st.owner, OfField(f), Slot(st, OfField(f))))
            && (forall n :: EntryValid(c, params, st.owner, OfRef(n), Slot(st, OfRef(n))))
            && (forall x :: EntryValid(c, params, st.owner, OfExtension(x), Slot(st, OfExtension(x))))
  {
  }

  lemma ValidMaps(c: Crypto, params: RepoParams, st: RepoState)
    ensures var key := DomainKey(c, params, st.owner);
            && ((forall n :: EntryValid(c, params, st.owner, OfRef(n), Slot(st, OfRef(n)))) <==>
                forall n :: n in st.refs ==> OwnRef(c, key, st.owner, n, st.refs[n]))
            && ((forall x :: EntryValid(c, params, st.owner, OfExtension(x), Slot(st, OfExtension(x)))) <==>
                forall x :: x in st.extensions ==> OwnExtension(c, key, st.owner, x, st.extensions[x]))
            && ((forall id :: RecordValid(c, params, st.owner, id, Lookup(st.objectIndex, id))) <==>
                forall id :: id in st.objectIndex ==> OwnBundle(c, key, st.owner, id, st.objectIndex[id]))
  {
    var key := DomainKey(c, params, st.owner);
    forall n ensures EntryValid(c, params, st.owner, OfRef(n), Slot(st, OfRef(n))) <==>
                     (n in st.refs ==> OwnRef(c, key, st.owner, n, st.refs[n])) {
    }
    forall x ensures EntryValid(c, params, st.owner, OfExtension(x), Slot(st, OfExtension(x))) <==>
                     (x in st.extensions ==> OwnExtension(c, key, st.owner, x, st.extensions[x])) {
    }
    forall id ensures RecordValid(c, params, st.owner, id, Lookup(st.objectIndex, id)) <==>
                      (id in st.objectIndex ==> OwnBundle(c, key, st.owner, id, st.objectIndex[id])) {
    }
  }

  lemma ValidFields(c: Crypto, params: RepoParams, st: RepoState)
    ensures (forall f :: EntryValid(c, params, st.owner, OfField(f), Slot(st, OfField(f)))) <==>
            forall f :: OwnField(c, DomainKey(c, params, st.owner), st, f)
  {
    forall f ensures EntryValid(c, params, st.owner, OfField(f), Slot(st, OfField(f))) <==>
                     OwnField(c, DomainKey(c, params, st.owner), st, f) {
      ValidField(c, params, st, f);
    }
  }

  lemma ValidField(c: Crypto, params: RepoParams, st: RepoState, f: Field)
    ensures EntryValid(c, params, st.owner, OfField(f), Slot(st, OfField(f))) <==>
            OwnField(c, DomainKey(c, params, st.owner), st, f)
  {
    match f
    case Name =>
    case Description =>
    case DefaultBranch =>
    case ForcePushAllowed =>
    case Acl =>
    case Upgrade =>
  }

  // ----- validity under merging -----

  /** Merging two valid states of the same repo gives a valid state. */
  lemma MergeValid(c: Crypto, params: RepoParams, a: RepoState, b: RepoState)
    requires ValidState(c, params, a) && ValidState(c, params, b) && a.owner == b.owner
    ensures ValidState(c, params, Merged(a, b))
  {
    var m := Merged(a, b);
    forall k ensures EntryValid(c, params, m.owner, k, Slot(m, k)) {
      MergeSourced(a, b, k);
      assert EntryValid(c, params, a.owner, k, Slot(a, k)) && EntryValid(c, params, b.owner, k, Slot(b, k));
    }
    forall id ensures RecordValid(c, params, m.owner, id, Lookup(m.objectIndex, id)) {
      assert RecordValid(c, params, a.owner, id, Lookup(a.objectIndex, id));
      assert RecordValid(c, params, b.owner, id, Lookup(b.objectIndex, id));
    }
  }

  /** The delta has the entry that the merge keeps, and it is new. */
  predicate WonByDelta(current: RepoState, delta: RepoState, k: SlotKey) {
    var mine, theirs := Slot(current, k), Slot(delta, k);
    theirs.Some? && (mine.None? || !Wins(mine.value, theirs.value))
  }

  /** From a valid state, an update succeeds exactly when every entry the
      delta wins and every bundle it adds is itself valid for the owner. The
      delta's own owner and its losing entries play no part. */
  lemma UpdateSucceedsIff(c: Crypto, params: RepoParams, current: RepoState, delta: RepoState)
    requires ValidState(c, params, current)
    ensures ValidState(c, params, Merged(current, delta)) <==>
            && (forall k :: WonByDelta(current, delta, k) ==> EntryValid(c, params, current.owner, k, Slot(delta, k)))
            && (forall id :: id in delta.objectIndex && id !in current.objectIndex ==>
                  RecordValid(c, params, current.owner, id, Lookup(delta.objectIndex, id)))
  {
    var m := Merged(current, delta);
    forall k ensures EntryValid(c, params, m.owner, k, Slot(m, k)) <==>
                     (WonByDelta(current, delta, k) ==> EntryValid(c, params, current.owner, k, Slot(delta, k)))
    {
      MergedSlot(current, delta, k);
      assert EntryValid(c, params, current.owner, k, Slot(current, k));
    }
    forall id ensures RecordValid(c, params, m.owner, id, Lookup(m.objectIndex, id)) <==>
                      (id in delta.objectIndex && id !in current.objectIndex ==>
                        RecordValid(c, params, current.owner, id, Lookup(delta.objectIndex, id)))
    {
      assert RecordValid(c, params, current.owner, id, Lookup(current.objectIndex, id));
    }
  }

  // ----- a signature vouches for one entry only -----

  /** Entries of one repo that share a signed payload are the same entry in
      the same slot, whatever the signature scheme does. */
  lemma SignedOnce(key: RepoKey, k: SlotKey, e: Entry, k': SlotKey, e': Entry)
    requires Typed(k, e) && Typed(k', e')
    requires SignedPayload.Sized(MessageFor(key, k, e)) && SignedPayload.Sized(MessageFor(key, k', e'))
    requires SignedPayload.PayloadOf(MessageFor(key, k, e)) == SignedPayload.PayloadOf(MessageFor(key, k', e'))
    ensures k == k' && e.updateSeq == e'.updateSeq
    ensures k.OfRef? ==> e.value.target.(updater := []) == e'.value.target.(updater := [])
    ensures !k.OfRef? ==> e.value == e'.value
  {
    SignedPayload.PayloadInjective(MessageFor(key, k, e), MessageFor(key, k', e'));
  }

  /** A repo's key hashes `v1`, the prefix and the owner; without collisions,
      two repos with 32-byte owners share it only if they are one. */
  lemma KeysApart(c: Crypto, params: RepoParams, owner: PublicKey, params': RepoParams, owner': PublicKey)
    requires CollisionFree(c.hash) && |owner| == |owner'| == 32
    requires DomainKey(c, params, owner) == DomainKey(c, params', owner')
    ensures params == params' && owner == owner'
    ensures DomainKey(c, params, owner) == c.hash([0x76, 0x31] + params.prefix + owner)
  {
    var wire := SignedPayload.Ascii("v1");
    assert wire == [0x76, 0x31];
    var x, x' := wire + params.prefix + owner, wire + params'.prefix + owner';
    assert c.hash(x) == c.hash(x');
    assert x[2..|x| - 32] == params.prefix && x'[2..|x'| - 32] == params'.prefix;
    assert x[|x| - 32..] == owner && x'[|x'| - 32..] == owner';
  }

  /** No signature carries over to another repo: entries that share a signed
      payload belong to the same repo and the same slot. */
  lemma SignedForOneRepo(c: Crypto, params: RepoParams, owner: PublicKey, params': RepoParams, owner': PublicKey,
                         k: SlotKey, e: Entry, k': SlotKey, e': Entry)
    requires CollisionFree(c.hash) && |owner| == |owner'| == 32 && Typed(k, e) && Typed(k', e')
    requires var m := MessageFor(DomainKey(c, params, owner), k, e);
             var m' := MessageFor(DomainKey(c, params', owner'), k', e');
             && SignedPayload.Sized(m) && SignedPayload.Sized(m')
             && SignedPayload.PayloadOf(m) == SignedPayload.PayloadOf(m')
    ensures params == params' && owner == owner' && k == k'
  {
    var key, key' := DomainKey(c, params, owner), DomainKey(c, params', owner');
    SignedPayload.PayloadInjective(MessageFor(key, k, e), MessageFor(key', k', e'));
    assert key == key' by {
      assert MessageFor(key, k, e).repoKey == MessageFor(key', k', e').repoKey;
    }
    KeysApart(c, params, owner, params', owner');
    SignedOnce(key, k, e, k', e');
  }
}
