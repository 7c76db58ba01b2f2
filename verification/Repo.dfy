/** The state of a repo contract, and one uniform view of its signed entries. */
module Repo {
  import opened Octets

  type PublicKey = Bytes
  type Signature = Bytes
  type RepoKey = Bytes

  /** A value with its update counter and its signature. */
  datatype Signed<+T> = Signed(value: T, updateSeq: u64, signature: Signature)

  datatype WriterGrant = WriterGrant(grantedAtEpoch: u64, revokedAtEpoch: Option<u64>)

  /** `grants` lists the map's entries in key order. */
  datatype AclState = AclState(epoch: u64, grants: seq<(PublicKey, WriterGrant)>)

  datatype RefTarget = RefTarget(target: Bytes, updater: PublicKey, authEpoch: u64)

  datatype ObjectBundle =
    | SinglePack(packHash: Bytes, sizeBytes: u64)
    | ChunkedPack(manifestHash: Bytes, totalSize: u64, chunkCount: u32)

  datatype BundleRecord = BundleRecord(bundle: ObjectBundle, addedBy: PublicKey, authEpoch: u64, signature: Signature)

  datatype RepoState = RepoState(
    owner: PublicKey,
    name: Option<Signed<Bytes>>,
    description: Option<Signed<Bytes>>,
    defaultBranch: Option<Signed<RefName>>,
    forcePushAllowed: Option<Signed<seq<RefName>>>,
    acl: Option<Signed<AclState>>,
    upgrade: Option<Signed<Option<RepoKey>>>,
    refs: map<RefName, Signed<RefTarget>>,
    objectIndex: map<BundleId, BundleRecord>,
    extensions: map<Bytes, Signed<Bytes>>)

  const NO_OWNER: PublicKey := Zeros(32)

  function Zeros(n: nat): (bytes: Bytes)
    ensures |bytes| == n
  {
    if n == 0 then [] else [0] + Zeros(n - 1)
  }

  /** `RepoState::default()`. */
  const EMPTY_STATE := RepoState(NO_OWNER, None, None, None, None, None, None, map[], map[], map[])

  // ----- the uniform view -----

  datatype Field = Name | Description | DefaultBranch | ForcePushAllowed | Acl | Upgrade

  datatype SlotKey = OfField(field: Field) | OfRef(name: RefName) | OfExtension(key: Bytes)

  datatype Payload =
    | Text(text: Bytes)
    | RefList(names: seq<RefName>)
    | Grants(acl: AclState)
    | Successor(key: Option<RepoKey>)
    | Target(target: RefTarget)
    | Raw(bytes: Bytes)

  type Entry = Signed<Payload>

  function Lift<T>(wrap: T -> Payload, s: Option<Signed<T>>): Option<Entry> {
    if s.None? then None else Some(Signed(wrap(s.value.value), s.value.updateSeq, s.value.signature))
  }

  function Lookup<K, V>(m: map<K, V>, k: K): Option<V> {
    if k in m then Some(m[k]) else None
  }

  /** The signed entry under `k`, if any. */
  function Slot(s: RepoState, k: SlotKey): Option<Entry> {
    match k
    case OfField(Name) => Lift(t => Text(t), s.name)
    case OfField(Description) => Lift(t => Text(t), s.description)
    case OfField(DefaultBranch) => Lift(t => Text(t), s.defaultBranch)
    case OfField(ForcePushAllowed) => Lift(t => RefList(t), s.forcePushAllowed)
    case OfField(Acl) => Lift(t => Grants(t), s.acl)
    case OfField(Upgrade) => Lift(t => Successor(t), s.upgrade)
    case OfRef(name) => Lift(t => Target(t), Lookup(s.refs, name))
    case OfExtension(key) => Lift(t => Raw(t), Lookup(s.extensions, key))
  }

  lemma SameFields(a: RepoState, b: RepoState)
    requires forall f :: Slot(a, OfField(f)) == Slot(b, OfField(f))
    ensures a.name == b.name && a.description == b.description && a.defaultBranch == b.defaultBranch
    ensures a.forcePushAllowed == b.forcePushAllowed && a.acl == b.acl && a.upgrade == b.upgrade
  {
    assert Slot(a, OfField(Name)) == Slot(b, OfField(Name));
    assert Slot(a, OfField(Description)) == Slot(b, OfField(Description));
    assert Slot(a, OfField(DefaultBranch)) == Slot(b, OfField(DefaultBranch));
    assert Slot(a, OfField(ForcePushAllowed)) == Slot(b, OfField(ForcePushAllowed));
    assert Slot(a, OfField(Acl)) == Slot(b, OfField(Acl));
    assert Slot(a, OfField(Upgrade)) == Slot(b, OfField(Upgrade));
  }

  lemma SameMaps(a: RepoState, b: RepoState)
    requires forall n :: Slot(a, OfRef(n)) == Slot(b, OfRef(n))
    requires forall n :: Slot(a, OfExtension(n)) == Slot(b, OfExtension(n))
    ensures a.refs == b.refs && a.extensions == b.extensions
  {
    forall n ensures Lookup(a.refs, n) == Lookup(b.refs, n) && Lookup(a.extensions, n) == Lookup(b.extensions, n) {
      assert Slot(a, OfRef(n)) == Slot(b, OfRef(n));
      assert Slot(a, OfExtension(n)) == Slot(b, OfExtension(n));
    }
    SameMap(a.refs, b.refs);
    SameMap(a.extensions, b.extensions);
  }

  lemma SameMap<K(!new), V>(a: map<K, V>, b: map<K, V>)
    requires forall k :: Lookup(a, k) == Lookup(b, k)
    ensures a == b
  {
    forall k ensures (k in a <==> k in b) && (k in a ==> a[k] == b[k]) {
      assert Lookup(a, k) == Lookup(b, k);
    }
  }

  /** States with the same owner, entries and bundles are the same state. */
  lemma SameSlots(a: RepoState, b: RepoState)
    requires a.owner == b.owner && a.objectIndex == b.objectIndex
    requires forall k :: Slot(a, k) == Slot(b, k)
    ensures a == b
  {
    SameFields(a, b);
    SameMaps(a, b);
  }
}
