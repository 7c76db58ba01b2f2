/** The length-prefixed encoding of signed messages. */
module SignedPayload {
  import opened Octets
  import opened Repo

  /** ASCII text as bytes. */
  function Ascii(text: string): (bytes: Bytes)
    ensures |bytes| == |text|
  {
    seq(|text|, i requires 0 <= i < |text| => (text[i] as int) % 256)
  }

  const MAX_FIELD := 0x1_0000_0000

  /** `field(x) = u32_le(len(x)) || raw(x)`. */
  function FieldBytes(x: Bytes): Bytes {
    LittleEndian(|x|, 4) + x
  }

  function EncodeFields(fields: seq<Bytes>): Bytes {
    if fields == [] then [] else EncodeFields(fields[..|fields| - 1]) + FieldBytes(fields[|fields| - 1])
  }

  /** Reads a whole payload back into its fields. */
  function DecodeFields(b: Bytes): Option<seq<Bytes>> {
    if b == [] then Some([])
    else if |b| < 4 then None
    else
      var n := FromLittleEndian(b[..4]);
      if |b| < 4 + n then None
      else
        var rest := DecodeFields(b[4 + n..]);
        if rest.None? then None else Some([b[4..4 + n]] + rest.value)
  }

  ghost predicate Small(fields: seq<Bytes>) {
    forall i :: 0 <= i < |fields| ==> |fields[i]| < MAX_FIELD
  }

  lemma {:induction false} DecodeFront(f: Bytes, tail: Bytes)
    requires |f| < MAX_FIELD
    ensures DecodeFields(FieldBytes(f) + tail) ==
            if DecodeFields(tail).None? then None else Some([f] + DecodeFields(tail).value)
  {
    var b := FieldBytes(f) + tail;
    Pow256Values();
    LittleEndianInverse(|f|, 4);
    assert b[..4] == LittleEndian(|f|, 4);
    assert b[4..4 + |f|] == f && b[4 + |f|..] == tail;
  }

  lemma {:induction false} DecodeAppended(fields: seq<Bytes>, tail: Bytes)
    requires Small(fields) && DecodeFields(tail).Some?
    ensures DecodeFields(EncodeFields(fields) + tail) == Some(fields + DecodeFields(tail).value)
  {
    if fields == [] {
      assert EncodeFields(fields) + tail == tail;
      assert fields + DecodeFields(tail).value == DecodeFields(tail).value;
    } else {
      var init, last := fields[..|fields| - 1], fields[|fields| - 1];
      DecodeFront(last, tail);
      DecodeAppended(init, FieldBytes(last) + tail);
      EncodeSnoc(fields, tail);
      Resplit(fields, DecodeFields(tail).value);
    }
  }

  lemma EncodeSnoc(fields: seq<Bytes>, tail: Bytes)
    requires fields != []
    ensures EncodeFields(fields) + tail ==
            EncodeFields(fields[..|fields| - 1]) + (FieldBytes(fields[|fields| - 1]) + tail)
  {
  }

  lemma Resplit<T>(a: seq<T>, b: seq<T>)
    requires a != []
    ensures a[..|a| - 1] + ([a[|a| - 1]] + b) == a + b
  {
  }

  /** A payload determines its list of fields. */
  lemma FieldsRecovered(fields: seq<Bytes>)
    requires Small(fields)
    ensures DecodeFields(EncodeFields(fields)) == Some(fields)
  {
    DecodeAppended(fields, []);
    assert EncodeFields(fields) + [] == EncodeFields(fields) && fields + [] == fields;
  }

  // ----- the builder -----

  /** Accumulates a payload; the buffer always begins with a domain field. */
  class Builder {
    var buf: Bytes
    ghost var fields: seq<Bytes>

    ghost predicate Valid()
      reads this
    {
      buf == EncodeFields(fields) && Small(fields)
    }

    constructor (domainSuffix: string)
      requires |domainSuffix| < 1000
      ensures Valid() && fields == [Domain(domainSuffix)]
    {
      buf := FieldBytes(Domain(domainSuffix));
      fields := [Domain(domainSuffix)];
      new;
      assert fields[..0] == [];
    }

    method AddBytes(x: Bytes)
      requires Valid() && |x| < MAX_FIELD
      modifies this
      ensures Valid() && fields == old(fields) + [x]
    {
      buf := buf + LittleEndian(|x|, 4);
      buf := buf + x;
      fields := fields + [x];
      assert fields[..|fields| - 1] == old(fields);
      assert buf == old(buf) + FieldBytes(x);
    }

    method AddU32(x: u32)
      requires Valid()
      modifies this
      ensures Valid() && fields == old(fields) + [U32(x)]
    {
      AddBytes(LittleEndian(x, 4));
    }

    method AddU64(x: u64)
      requires Valid()
      modifies this
      ensures Valid() && fields == old(fields) + [U64(x)]
    {
      AddBytes(LittleEndian(x, 8));
    }

    method AddOption(x: Option<Bytes>)
      requires Valid() && (x.Some? ==> |x.value| < MAX_FIELD - 1)
      modifies this
      ensures Valid() && fields == old(fields) + [OptionBytes(x)]
    {
      if x.None? {
        AddBytes([0]);
      } else {
        AddBytes([1] + x.value);
      }
    }
  }

  function Domain(suffix: string): Bytes {
    Ascii("freenet-git/v1/" + suffix)
  }

  function U32(x: u32): Bytes {
    LittleEndian(x, 4)
  }

  function U64(x: u64): Bytes {
    LittleEndian(x, 8)
  }

  function OptionBytes(x: Option<Bytes>): Bytes {
    if x.None? then [0] else [1] + x.value
  }

  // ----- the messages -----

  /** Everything an owner ever signs. */
  datatype Message =
    | TextField(field: Field, repoKey: RepoKey, text: Bytes, counter: u64)
    | RefListField(repoKey: RepoKey, refs: seq<RefName>, counter: u64)
    | AclField(repoKey: RepoKey, acl: AclState, counter: u64)
    | UpgradeField(repoKey: RepoKey, successor: Option<RepoKey>, counter: u64)
    | RefUpdate(repoKey: RepoKey, name: RefName, target: Bytes, counter: u64, authEpoch: u64)
    | BundleAdd(repoKey: RepoKey, id: BundleId, authEpoch: u64)
    | ExtensionSet(repoKey: RepoKey, key: Bytes, value: Bytes, counter: u64)

  function Suffix(m: Message): string {
    match m
    case TextField(f, _, _, _) =>
      if f == Name then "name" else if f == Description then "description" else "default_branch"
    case RefListField(_, _, _) => "force_push_allowed"
    case AclField(_, _, _) => "acl"
    case UpgradeField(_, _, _) => "upgrade"
    case RefUpdate(_, _, _, _, _) => "ref-update"
    case BundleAdd(_, _, _) => "object-bundle"
    case ExtensionSet(_, _, _, _) => "extension"
  }

  /** `u32::try_from(len).unwrap_or(u32::MAX)`. */
  function Count(n: nat): u32 {
    if n < 0x1_0000_0000 then n else 0xFFFF_FFFF
  }

  function GrantFields(grants: seq<(PublicKey, WriterGrant)>): (fields: seq<Bytes>)
    ensures |fields| == 3 * |grants|
  {
    if grants == [] then []
    else
      var (writer, grant) := grants[|grants| - 1];
      GrantFields(grants[..|grants| - 1]) + [writer, U64(grant.grantedAtEpoch), RevokedBytes(grant.revokedAtEpoch)]
  }

  function RevokedBytes(epoch: Option<u64>): Bytes {
    OptionBytes(if epoch.None? then None else Some(U64(epoch.value)))
  }

  function Body(m: Message): seq<Bytes> {
    match m
    case TextField(_, _, text, counter) => [text, U64(counter)]
    case RefListField(_, refs, counter) => [U32(Count(|refs|))] + refs + [U64(counter)]
    case AclField(_, acl, counter) =>
      [U64(acl.epoch), U32(Count(|acl.grants|))] + GrantFields(acl.grants) + [U64(counter)]
    case UpgradeField(_, successor, counter) => [OptionBytes(successor), U64(counter)]
    case RefUpdate(_, name, target, counter, authEpoch) => [name, target, U64(counter), U64(authEpoch)]
    case BundleAdd(_, id, authEpoch) => [id, U64(authEpoch)]
    case ExtensionSet(_, key, value, counter) => [key, value, U64(counter)]
  }

  function Fields(m: Message): seq<Bytes> {
    [Domain(Suffix(m)), m.repoKey] + Body(m)
  }

  function PayloadOf(m: Message): Bytes {
    EncodeFields(Fields(m))
  }

  /** Text messages are only signed for the three text fields, and no part of
      a message reaches 4 GiB. */
  ghost predicate Sized(m: Message) {
    && (m.TextField? ==> m.field in {Name, Description, DefaultBranch})
    && |m.repoKey| < MAX_FIELD
    && match m
       case TextField(_, _, text, _) => |text| < MAX_FIELD
       case RefListField(_, refs, _) => Small(refs)
       case AclField(_, acl, _) => forall i :: 0 <= i < |acl.grants| ==> |acl.grants[i].0| < MAX_FIELD
       case UpgradeField(_, successor, _) => successor.Some? ==> |successor.value| < MAX_FIELD - 1
       case RefUpdate(_, name, target, _, _) => |name| < MAX_FIELD && |target| < MAX_FIELD
       case BundleAdd(_, id, _) => |id| < MAX_FIELD
       case ExtensionSet(_, key, value, _) => |key| < MAX_FIELD && |value| < MAX_FIELD
  }

  /** The domains of the text fields, in full. */
  lemma TextDomains(m: Message)
    requires Sized(m) && m.TextField?
    ensures Fields(m)[0] == Domain(Suffix(m))
    ensures m.field == Name ==> "freenet-git/v1/" + Suffix(m) == "freenet-git/v1/name"
    ensures m.field == Description ==> "freenet-git/v1/" + Suffix(m) == "freenet-git/v1/description"
    ensures m.field == DefaultBranch ==> "freenet-git/v1/" + Suffix(m) == "freenet-git/v1/default_branch"
  {
  }

  lemma RefListDomain(m: Message)
    requires m.RefListField?
    ensures Fields(m)[0] == Domain(Suffix(m))
    ensures "freenet-git/v1/" + Suffix(m) == "freenet-git/v1/force_push_allowed"
  {
  }

  lemma FieldDomains(m: Message)
    requires m.AclField? || m.UpgradeField?
    ensures Fields(m)[0] == Domain(Suffix(m))
    ensures m.AclField? ==> "freenet-git/v1/" + Suffix(m) == "freenet-git/v1/acl"
    ensures m.UpgradeField? ==> "freenet-git/v1/" + Suffix(m) == "freenet-git/v1/upgrade"
  {
  }

  lemma EntryDomains(m: Message)
    requires m.RefUpdate? || m.BundleAdd? || m.ExtensionSet?
    ensures Fields(m)[0] == Domain(Suffix(m))
    ensures m.RefUpdate? ==> "freenet-git/v1/" + Suffix(m) == "freenet-git/v1/ref-update"
    ensures m.BundleAdd? ==> "freenet-git/v1/" + Suffix(m) == "freenet-git/v1/object-bundle"
    ensures m.ExtensionSet? ==> "freenet-git/v1/" + Suffix(m) == "freenet-git/v1/extension"
  {
  }

  /** What a domain spells: `freenet-git/v1/example`, byte by byte. */
  lemma DomainBytes()
    ensures Domain("example") == [0x66, 0x72, 0x65, 0x65, 0x6E, 0x65, 0x74, 0x2D, 0x67, 0x69, 0x74, 0x2F,
                                  0x76, 0x31, 0x2F, 0x65, 0x78, 0x61, 0x6D, 0x70, 0x6C, 0x65]
  {
  }

  /** The eight bytes of `number`. */
  ghost predicate Reads(field: Bytes, number: u64) {
    |field| == 8 && FromLittleEndian(field) == number
  }

  lemma NumberReads(x: u64)
    ensures Reads(U64(x), x)
  {
    Pow256Values();
    LittleEndianInverse(x, 8);
  }

  /** What a reader of the payload finds, field by field: the domain, the
      repo's key, and the parts of the message. */
  lemma EntriesRead(m: Message)
    requires Sized(m) && (m.RefUpdate? || m.BundleAdd? || m.ExtensionSet?)
    ensures DecodeFields(PayloadOf(m)) == Some(Fields(m)) && Fields(m)[1] == m.repoKey
    ensures m.RefUpdate? ==>
              var f := Fields(m);
              |f| == 6 && f[2] == m.name && f[3] == m.target && Reads(f[4], m.counter) && Reads(f[5], m.authEpoch)
    ensures m.BundleAdd? ==>
              var f := Fields(m); |f| == 4 && f[2] == m.id && Reads(f[3], m.authEpoch)
    ensures m.ExtensionSet? ==>
              var f := Fields(m); |f| == 5 && f[2] == m.key && f[3] == m.value && Reads(f[4], m.counter)
  {
    FieldsSmall(m);
    FieldsRecovered(Fields(m));
    if !m.BundleAdd? {
      NumberReads(m.counter);
    }
    if !m.ExtensionSet? {
      NumberReads(m.authEpoch);
    }
  }

  lemma TextsRead(m: Message)
    requires Sized(m) && (m.TextField? || m.UpgradeField?)
    ensures DecodeFields(PayloadOf(m)) == Some(Fields(m)) && Fields(m)[1] == m.repoKey
    ensures |Fields(m)| == 4 && Reads(Fields(m)[3], m.counter)
    ensures m.TextField? ==> Fields(m)[2] == m.text
    ensures m.UpgradeField? ==> Fields(m)[2] == if m.successor.None? then [0] else [1] + m.successor.value
  {
    FieldsSmall(m);
    FieldsRecovered(Fields(m));
    NumberReads(m.counter);
  }

  lemma RefListReads(m: Message)
    requires Sized(m) && m.RefListField?
    ensures DecodeFields(PayloadOf(m)) == Some(Fields(m)) && Fields(m)[1] == m.repoKey
    ensures var f := Fields(m); |f| == 4 + |m.refs| && f[3..|f| - 1] == m.refs && Reads(f[|f| - 1], m.counter)
  {
    FieldsSmall(m);
    FieldsRecovered(Fields(m));
    NumberReads(m.counter);
  }

  lemma AclReads(m: Message)
    requires Sized(m) && m.AclField?
    ensures DecodeFields(PayloadOf(m)) == Some(Fields(m)) && Fields(m)[1] == m.repoKey
    ensures var f := Fields(m);
            && |f| == 5 + 3 * |m.acl.grants| && Reads(f[2], m.acl.epoch)
            && f[4..|f| - 1] == GrantFields(m.acl.grants) && Reads(f[|f| - 1], m.counter)
  {
    FieldsSmall(m);
    FieldsRecovered(Fields(m));
    NumberReads(m.counter);
    NumberReads(m.acl.epoch);
  }

  /** Each grant is three fields: the writer, the epoch it was granted at, and
      the epoch it was revoked at, if it was. */
  lemma {:induction false} GrantReads(grants: seq<(PublicKey, WriterGrant)>, i: nat)
    requires i < |grants|
    ensures var f, (writer, grant) := GrantFields(grants), grants[i];
            && f[3 * i] == writer && Reads(f[3 * i + 1], grant.grantedAtEpoch)
            && (if grant.revokedAtEpoch.None? then f[3 * i + 2] == [0]
                else
                  && f[3 * i + 2] != [] && f[3 * i + 2][0] == 1
                  && Reads(f[3 * i + 2][1..], grant.revokedAtEpoch.value))
  {
    if i < |grants| - 1 {
      GrantReads(grants[..|grants| - 1], i);
    } else {
      var (_, grant) := grants[i];
      NumberReads(grant.grantedAtEpoch);
      if grant.revokedAtEpoch.Some? {
        NumberReads(grant.revokedAtEpoch.value);
        assert RevokedBytes(grant.revokedAtEpoch)[1..] == U64(grant.revokedAtEpoch.value);
      }
    }
  }

  /** The count in a list message reads back as the length of the list; from
      2^32 on it stays at the largest count there is. */
  lemma CountsRead(m: Message)
    requires m.RefListField? || m.AclField?
    ensures var n := if m.RefListField? then |m.refs| else |m.acl.grants|;
            var field := Fields(m)[if m.RefListField? then 2 else 3];
            |field| == 4 && FromLittleEndian(field) == if n < 0x1_0000_0000 then n else 0xFFFF_FFFF
  {
    Pow256Values();
    LittleEndianInverse(Count(if m.RefListField? then |m.refs| else |m.acl.grants|), 4);
  }

  /** A field goes over the wire as its length and then its bytes; an absent
      value is one zero byte, a present one follows a one. */
  lemma FieldsOnTheWire()
    ensures EncodeFields([[0xAA, 0xBB, 0xCC]]) == [0x03, 0, 0, 0, 0xAA, 0xBB, 0xCC]
    ensures EncodeFields([OptionBytes(None)]) == [0x01, 0, 0, 0, 0x00]
    ensures EncodeFields([OptionBytes(Some([0xDE, 0xAD]))]) == [0x03, 0, 0, 0, 0x01, 0xDE, 0xAD]
  {
    assert LittleEndian(3, 4) == [3, 0, 0, 0] && LittleEndian(1, 4) == [1, 0, 0, 0];
    OneField([0xAA, 0xBB, 0xCC]);
    OneField([0x00]);
    OneField([0x01, 0xDE, 0xAD]);
  }

  lemma OneField(x: Bytes)
    ensures EncodeFields([x]) == FieldBytes(x)
  {
  }

  // ----- the payload constructors -----

  method SignedPayloadStringField(repoKey: RepoKey, field: Field, value: Bytes, counter: u64) returns (payload: Bytes)
    requires Sized(TextField(field, repoKey, value, counter))
    ensures payload == PayloadOf(TextField(field, repoKey, value, counter))
  {
    ghost var m := TextField(field, repoKey, value, counter);
    var b := new Builder(
      if field == Name then "name" else if field == Description then "description" else "default_branch");
    b.AddBytes(repoKey);
    b.AddBytes(value);
    b.AddU64(counter);
    payload := b.buf;
    assert b.fields == Fields(m);
  }

  method SignedPayloadRefListField(repoKey: RepoKey, refs: seq<RefName>, counter: u64) returns (payload: Bytes)
    requires Sized(RefListField(repoKey, refs, counter))
    ensures payload == PayloadOf(RefListField(repoKey, refs, counter))
  {
    var b := new Builder("force_push_allowed");
    b.AddBytes(repoKey);
    b.AddU32(Count(|refs|));
    ghost var head := b.fields;
    AddRefs(b, refs);
    b.AddU64(counter);
    payload := b.buf;
    FieldsAre(RefListField(repoKey, refs, counter), head, refs, b.fields);
  }

  method SignedPayloadAclField(repoKey: RepoKey, acl: AclState, counter: u64) returns (payload: Bytes)
    requires Sized(AclField(repoKey, acl, counter))
    ensures payload == PayloadOf(AclField(repoKey, acl, counter))
  {
    var b := new Builder("acl");
    b.AddBytes(repoKey);
    b.AddU64(acl.epoch);
    b.AddU32(Count(|acl.grants|));
    ghost var head := b.fields;
    AddGrants(b, acl.grants);
    b.AddU64(counter);
    payload := b.buf;
    FieldsAre(AclField(repoKey, acl, counter), head, GrantFields(acl.grants), b.fields);
  }

  /** A list message: its head, the list, and the counter. */
  lemma FieldsAre(m: Message, head: seq<Bytes>, list: seq<Bytes>, fields: seq<Bytes>)
    requires m.RefListField? || m.AclField?
    requires m.RefListField? ==> head == [Domain(Suffix(m)), m.repoKey, U32(Count(|m.refs|))] && list == m.refs
    requires m.AclField? ==>
               && head == [Domain(Suffix(m)), m.repoKey, U64(m.acl.epoch), U32(Count(|m.acl.grants|))]
               && list == GrantFields(m.acl.grants)
    requires fields == head + list + [U64(m.counter)]
    ensures fields == Fields(m)
  {
  }

  method SignedPayloadOptionalRepoKeyField(repoKey: RepoKey, successor: Option<RepoKey>, counter: u64)
    returns (payload: Bytes)
    requires Sized(UpgradeField(repoKey, successor, counter))
    ensures payload == PayloadOf(UpgradeField(repoKey, successor, counter))
  {
    var b := new Builder("upgrade");
    b.AddBytes(repoKey);
    b.AddOption(successor);
    b.AddU64(counter);
    payload := b.buf;
    assert b.fields == Fields(UpgradeField(repoKey, successor, counter));
  }

  method SignedPayloadRefEntry(repoKey: RepoKey, name: RefName, target: Bytes, counter: u64, authEpoch: u64)
    returns (payload: Bytes)
    requires Sized(RefUpdate(repoKey, name, target, counter, authEpoch))
    ensures payload == PayloadOf(RefUpdate(repoKey, name, target, counter, authEpoch))
  {
    var b := new Builder("ref-update");
    b.AddBytes(repoKey);
    b.AddBytes(name);
    b.AddBytes(target);
    b.AddU64(counter);
    b.AddU64(authEpoch);
    payload := b.buf;
    assert b.fields == Fields(RefUpdate(repoKey, name, target, counter, authEpoch));
  }

  method SignedPayloadBundleRecord(repoKey: RepoKey, id: BundleId, authEpoch: u64) returns (payload: Bytes)
    requires Sized(BundleAdd(repoKey, id, authEpoch))
    ensures payload == PayloadOf(BundleAdd(repoKey, id, authEpoch))
  {
    var b := new Builder("object-bundle");
    b.AddBytes(repoKey);
    b.AddBytes(id);
    b.AddU64(authEpoch);
    payload := b.buf;
    assert b.fields == Fields(BundleAdd(repoKey, id, authEpoch));
  }

  method SignedPayloadExtension(repoKey: RepoKey, key: Bytes, value: Bytes, counter: u64) returns (payload: Bytes)
    requires Sized(ExtensionSet(repoKey, key, value, counter))
    ensures payload == PayloadOf(ExtensionSet(repoKey, key, value, counter))
  {
    var b := new Builder("extension");
    b.AddBytes(repoKey);
    b.AddBytes(key);
    b.AddBytes(value);
    b.AddU64(counter);
    payload := b.buf;
    assert b.fields == Fields(ExtensionSet(repoKey, key, value, counter));
  }

  method AddRefs(b: Builder, refs: seq<RefName>)
    requires b.Valid() && Small(refs)
    modifies b
    ensures b.Valid() && b.fields == old(b.fields) + refs
  {
    for i := 0 to |refs|
      invariant b.Valid() && b.fields == old(b.fields) + refs[..i]
    {
      b.AddBytes(refs[i]);
      assert refs[..i + 1] == refs[..i] + [refs[i]];
    }
    assert refs[..|refs|] == refs;
  }

  method AddGrants(b: Builder, grants: seq<(PublicKey, WriterGrant)>)
    requires b.Valid() && forall i :: 0 <= i < |grants| ==> |grants[i].0| < MAX_FIELD
    modifies b
    ensures b.Valid() && b.fields == old(b.fields) + GrantFields(grants)
  {
    for i := 0 to |grants|
      invariant b.Valid() && b.fields == old(b.fields) + GrantFields(grants[..i])
    {
      AddGrant(b, grants[i].0, grants[i].1);
      assert grants[..i + 1][..i] == grants[..i];
    }
    assert grants[..|grants|] == grants;
  }

  method AddGrant(b: Builder, writer: PublicKey, grant: WriterGrant)
    requires b.Valid() && |writer| < MAX_FIELD
    modifies b
    ensures b.Valid()
    ensures b.fields == old(b.fields) + [writer, U64(grant.grantedAtEpoch), RevokedBytes(grant.revokedAtEpoch)]
  {
    b.AddBytes(writer);
    b.AddU64(grant.grantedAtEpoch);
    b.AddOption(if grant.revokedAtEpoch.None? then None else Some(U64(grant.revokedAtEpoch.value)));
  }

  // ----- no two messages share a payload -----

  lemma U64Injective(x: u64, y: u64)
    requires U64(x) == U64(y)
    ensures x == y
  {
    Pow256Values();
    LittleEndianInverse(x, 8);
    LittleEndianInverse(y, 8);
  }

  lemma RevokedInjective(x: Option<u64>, y: Option<u64>)
    requires RevokedBytes(x) == RevokedBytes(y)
    ensures x == y
  {
    assert RevokedBytes(x)[1..] == if x.None? then [] else U64(x.value);
    assert RevokedBytes(y)[1..] == if y.None? then [] else U64(y.value);
    if x.Some? && y.Some? {
      U64Injective(x.value, y.value);
    }
  }

  lemma {:induction false} GrantsInjective(a: seq<(PublicKey, WriterGrant)>, b: seq<(PublicKey, WriterGrant)>)
    requires GrantFields(a) == GrantFields(b)
    ensures a == b
  {
    if a != [] {
      var n := |a| - 1;
      var fa, fb := GrantFields(a), GrantFields(b);
      assert fa[..3 * n] == GrantFields(a[..n]) && fb[..3 * n] == GrantFields(b[..n]);
      GrantsInjective(a[..n], b[..n]);
      assert fa[3 * n] == a[n].0 && fb[3 * n] == b[n].0;
      assert fa[3 * n + 1] == U64(a[n].1.grantedAtEpoch) && fb[3 * n + 1] == U64(b[n].1.grantedAtEpoch);
      assert fa[3 * n + 2] == RevokedBytes(a[n].1.revokedAtEpoch)
          && fb[3 * n + 2] == RevokedBytes(b[n].1.revokedAtEpoch);
      U64Injective(a[n].1.grantedAtEpoch, b[n].1.grantedAtEpoch);
      RevokedInjective(a[n].1.revokedAtEpoch, b[n].1.revokedAtEpoch);
      assert a == a[..n] + [a[n]] && b == b[..n] + [b[n]];
    }
  }

  /** The domain tells the kinds, and the three text fields, apart. */
  lemma DomainsDiffer(m: Message, m': Message)
    requires Sized(m) && Sized(m') && Domain(Suffix(m)) == Domain(Suffix(m'))
    ensures Suffix(m) == Suffix(m')
    ensures m.TextField? <==> m'.TextField?
    ensures m.RefListField? <==> m'.RefListField?
    ensures m.AclField? <==> m'.AclField?
    ensures m.UpgradeField? <==> m'.UpgradeField?
    ensures m.RefUpdate? <==> m'.RefUpdate?
    ensures m.BundleAdd? <==> m'.BundleAdd?
    ensures m.TextField? ==> m.field == m'.field
  {
    assert |Domain(Suffix(m))| == 15 + |Suffix(m)| && |Domain(Suffix(m'))| == 15 + |Suffix(m')|;
  }

  lemma BodyInjective(m: Message, m': Message)
    requires Sized(m) && Sized(m') && Domain(Suffix(m)) == Domain(Suffix(m'))
    requires m.repoKey == m'.repoKey && Body(m) == Body(m')
    ensures m == m'
  {
    DomainsDiffer(m, m');
    var b, b' := Body(m), Body(m');
    match m {
      case TextField(_, _, _, counter) =>
        assert b[1] == b'[1];
        U64Injective(counter, m'.counter);
      case RefListField(_, refs, counter) =>
        assert b[|b| - 1] == b'[|b'| - 1];
        U64Injective(counter, m'.counter);
        assert b[1..|b| - 1] == refs && b'[1..|b'| - 1] == m'.refs;
      case AclField(_, acl, counter) =>
        assert b[0] == b'[0] && b[|b| - 1] == b'[|b'| - 1];
        U64Injective(counter, m'.counter);
        U64Injective(acl.epoch, m'.acl.epoch);
        assert b[2..|b| - 1] == GrantFields(acl.grants) && b'[2..|b'| - 1] == GrantFields(m'.acl.grants);
        GrantsInjective(acl.grants, m'.acl.grants);
      case UpgradeField(_, successor, counter) =>
        assert b[0] == b'[0] && b[1] == b'[1];
        U64Injective(counter, m'.counter);
        assert b[0][0] == b'[0][0];
        assert b[0][1..] == if successor.None? then [] else successor.value;
        assert b'[0][1..] == if m'.successor.None? then [] else m'.successor.value;
      case RefUpdate(_, _, _, counter, authEpoch) =>
        assert b[0] == b'[0] && b[1] == b'[1] && b[2] == b'[2] && b[3] == b'[3];
        U64Injective(counter, m'.counter);
        U64Injective(authEpoch, m'.authEpoch);
      case BundleAdd(_, _, authEpoch) =>
        assert b[0] == b'[0] && b[1] == b'[1];
        U64Injective(authEpoch, m'.authEpoch);
      case ExtensionSet(_, _, _, counter) =>
        assert b[0] == b'[0] && b[1] == b'[1] && b[2] == b'[2];
        U64Injective(counter, m'.counter);
    }
  }

  lemma FieldsSmall(m: Message)
    requires Sized(m)
    ensures Small(Fields(m))
  {
    BodySmall(m);
    SmallAppend([Domain(Suffix(m)), m.repoKey], Body(m));
  }

  lemma SmallAppend(a: seq<Bytes>, b: seq<Bytes>)
    requires Small(a) && Small(b)
    ensures Small(a + b)
  {
  }

  lemma BodySmall(m: Message)
    requires Sized(m)
    ensures Small(Body(m))
  {
    match m
    case RefListField(_, refs, counter) =>
      SmallAppend([U32(Count(|refs|))], refs);
      SmallAppend([U32(Count(|refs|))] + refs, [U64(counter)]);
    case AclField(_, acl, counter) =>
      var counts := [U64(acl.epoch), U32(Count(|acl.grants|))];
      GrantFieldsSmall(acl.grants);
      SmallAppend(counts, GrantFields(acl.grants));
      SmallAppend(counts + GrantFields(acl.grants), [U64(counter)]);
    case _ =>
  }

  lemma {:induction false} GrantFieldsSmall(grants: seq<(PublicKey, WriterGrant)>)
    requires forall i :: 0 <= i < |grants| ==> |grants[i].0| < MAX_FIELD
    ensures Small(GrantFields(grants))
  {
    if grants != [] {
      GrantFieldsSmall(grants[..|grants| - 1]);
    }
  }

  /** Equal payloads: the same kind of message with the same contents. */
  lemma PayloadInjective(m: Message, m': Message)
    requires Sized(m) && Sized(m') && PayloadOf(m) == PayloadOf(m')
    ensures m == m'
  {
    FieldsSmall(m);
    FieldsSmall(m');
    FieldsRecovered(Fields(m));
    FieldsRecovered(Fields(m'));
    var f, f' := Fields(m), Fields(m');
    assert f == f';
    assert f[0] == f'[0] && f[1] == f'[1];
    assert f[2..] == Body(m) && f'[2..] == Body(m');
    BodyInjective(m, m');
  }
}
