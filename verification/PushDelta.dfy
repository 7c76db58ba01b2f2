/** The delta that a push signs, and the contract state it leads to, seen the
    way fetch sees it. */
module PushDelta {
  import opened Octets
  import opened Repo
  import opened Merge
  import opened CommitGraph
  import opened Fetch
  import BundleIds
  import SignedPayload
  import Validate

  /** The signer, and how a bundle id is spelled in a `bundle-tip:` key. */
  datatype Publisher = Publisher(
    crypto: Validate.Crypto,
    params: Validate.RepoParams,
    owner: PublicKey,
    sign: Bytes -> Signature,
    tipKey: BundleId -> Bytes,
    parseTipKey: Bytes -> Option<BundleId>)
  {
    function RepoKey(): Repo.RepoKey {
      Validate.DomainKey(crypto, params, owner)
    }

    function Id(b: ObjectBundle): BundleId
      requires BundleIds.BundleSized(b)
    {
      BundleIds.IdOf(crypto.hash, b)
    }

    ghost predicate KeysParse() {
      forall id :: parseTipKey(tipKey(id)) == Some(id)
    }

    ghost predicate SignaturesVerify() {
      forall payload :: crypto.verify(payload, owner, sign(payload))
    }
  }

  const BUNDLE_TIP_UPDATE_SEQ: u64 := 1

  /** `update_seq + 1`, in the wrapping arithmetic of a release build. */
  function NextSeq<T>(e: Option<Signed<T>>): u64 {
    ((if e.Some? then e.value.updateSeq else 0) + 1) % 0x1_0000_0000_0000_0000
  }

  function RefEntry(pub: Publisher, dst: RefName, want: Oid, counter: u64): Signed<RefTarget> {
    var m := SignedPayload.RefUpdate(pub.RepoKey(), dst, want, counter, 0);
    Signed(RefTarget(want, pub.owner, 0), counter, pub.sign(SignedPayload.PayloadOf(m)))
  }

  function Record(pub: Publisher, b: ObjectBundle): BundleRecord
    requires BundleIds.BundleSized(b)
  {
    var m := SignedPayload.BundleAdd(pub.RepoKey(), pub.Id(b), 0);
    BundleRecord(b, pub.owner, 0, pub.sign(SignedPayload.PayloadOf(m)))
  }

  function TipEntry(pub: Publisher, id: BundleId, want: Oid): Signed<Bytes> {
    var m := SignedPayload.ExtensionSet(pub.RepoKey(), pub.tipKey(id), want, BUNDLE_TIP_UPDATE_SEQ);
    Signed(want, BUNDLE_TIP_UPDATE_SEQ, pub.sign(SignedPayload.PayloadOf(m)))
  }

  function Added(delta: RepoState, dst: RefName, entry: Signed<RefTarget>, id: BundleId, record: BundleRecord,
                 key: Bytes, tip: Signed<Bytes>): RepoState {
    delta.(objectIndex := delta.objectIndex[id := record], refs := delta.refs[dst := entry],
           extensions := delta.extensions[key := tip])
  }

  /** What one ref adds to the delta of a push against `st`. */
  function WithPush(pub: Publisher, st: RepoState, delta: RepoState, dst: RefName, want: Oid,
                    b: ObjectBundle): RepoState
    requires BundleIds.BundleSized(b)
  {
    var id := pub.Id(b);
    Added(delta, dst, RefEntry(pub, dst, want, NextSeq(Lookup(st.refs, dst))), id, Record(pub, b),
          pub.tipKey(id), TipEntry(pub, id, want))
  }

  // ----- what fetch reads -----

  /** The tips advertised by `extensions`; where several keys spell one id,
      either may count. */
  ghost predicate AreTips(pub: Publisher, extensions: map<Bytes, Signed<Bytes>>, tips: map<BundleId, Oid>) {
    && (forall k, id :: k in extensions && pub.parseTipKey(k) == Some(id) && |extensions[k].value| == 20 ==> id in tips)
    && forall id :: id in tips ==>
         exists k :: k in extensions && pub.parseTipKey(k) == Some(id) && |tips[id]| == 20
             && tips[id] == extensions[k].value
  }

  method CollectBundleTipExtensions(pub: Publisher, extensions: map<Bytes, Signed<Bytes>>)
    returns (tips: map<BundleId, Oid>)
    ensures AreTips(pub, extensions, tips)
  {
    tips := map[];
    var todo := extensions.Keys;
    while todo != {}
      invariant todo <= extensions.Keys
      invariant forall k, id ::
                  && k in extensions && k !in todo && pub.parseTipKey(k) == Some(id) && |extensions[k].value| == 20
                  ==> id in tips
      invariant forall id :: id in tips ==>
                  exists k :: k in extensions && pub.parseTipKey(k) == Some(id) && |tips[id]| == 20
                      && tips[id] == extensions[k].value
      decreases todo
    {
      var k :| k in todo;
      todo := todo - {k};
      var id := pub.parseTipKey(k);
      if id.Some? && |extensions[k].value| == 20 {
        tips := tips[id.value := extensions[k].value];
      }
    }
  }

  /** Tip keys are spelled the way pushes spell them. */
  ghost predicate TipsWellFormed(pub: Publisher, extensions: map<Bytes, Signed<Bytes>>) {
    && pub.KeysParse()
    && forall k :: k in extensions && pub.parseTipKey(k).Some? ==>
         k == pub.tipKey(pub.parseTipKey(k).value) && |extensions[k].value| == 20
  }

  function TipAt(pub: Publisher, extensions: map<Bytes, Signed<Bytes>>, id: BundleId): Option<Oid> {
    if pub.tipKey(id) in extensions then Some(extensions[pub.tipKey(id)].value) else None
  }

  lemma TipsAre(pub: Publisher, extensions: map<Bytes, Signed<Bytes>>, tips: map<BundleId, Oid>, id: BundleId)
    requires TipsWellFormed(pub, extensions) && AreTips(pub, extensions, tips)
    ensures Lookup(tips, id) == TipAt(pub, extensions, id)
  {
    assert pub.parseTipKey(pub.tipKey(id)) == Some(id);
  }

  ghost predicate SameRefs(entries: map<RefName, Signed<RefTarget>>, refs: map<RefName, Oid>) {
    refs.Keys == entries.Keys && forall n :: n in refs ==> refs[n] == entries[n].value.target
  }

  ghost predicate SameTips(pub: Publisher, extensions: map<Bytes, Signed<Bytes>>, tips: map<BundleId, Oid>) {
    forall id :: Lookup(tips, id) == TipAt(pub, extensions, id)
  }

  /** `r` is what a fetch reads from `st`. */
  ghost predicate IsView(pub: Publisher, st: RepoState, r: Remote) {
    && TipsWellFormed(pub, st.extensions)
    && SameRefs(st.refs, r.refs) && r.index == st.objectIndex.Keys && SameTips(pub, st.extensions, r.tips)
  }

  /** Fetch reads a state in one way only. */
  lemma ViewUnique(pub: Publisher, st: RepoState, r: Remote, tips: map<BundleId, Oid>)
    requires IsView(pub, st, r) && AreTips(pub, st.extensions, tips)
    ensures tips == r.tips
  {
    forall id ensures Lookup(tips, id) == Lookup(r.tips, id) {
      TipsAre(pub, st.extensions, tips, id);
    }
    SameMap(tips, r.tips);
  }

  // ----- one more ref in a push -----

  /** The tips that `extensions` advertises are among `tips`. */
  ghost predicate TipsKept(pub: Publisher, extensions: map<Bytes, Signed<Bytes>>, tips: map<BundleId, Oid>) {
    forall id :: TipAt(pub, extensions, id).Some? ==> Lookup(tips, id) == TipAt(pub, extensions, id)
  }

  ghost function Advance(r: Remote, dst: RefName, want: Oid, id: BundleId): Remote {
    Remote(r.refs[dst := want], r.index + {id}, r.tips[id := want])
  }

  lemma PickMapUpdate<K(!new), V>(a: map<K, Signed<V>>, b: map<K, Signed<V>>, k: K, v: Signed<V>)
    ensures PickMap(a, b[k := v]) == PickMap(a, b)[k := Pick(Lookup(a, k), Some(v)).value]
  {
    assert (a.Keys + b.Keys) + {k} == a.Keys + (b.Keys + {k});
  }

  /** What one more ref does to the merged state, map by map. */
  lemma MergedParts(st: RepoState, delta: RepoState, dst: RefName, entry: Signed<RefTarget>, id: BundleId,
                    record: BundleRecord, key: Bytes, tip: Signed<Bytes>)
    ensures var m, m' := Merged(st, delta), Merged(st, Added(delta, dst, entry, id, record, key, tip));
            && m'.refs == m.refs[dst := Pick(Lookup(st.refs, dst), Some(entry)).value]
            && m'.extensions == m.extensions[key := Pick(Lookup(st.extensions, key), Some(tip)).value]
            && m'.objectIndex == m.objectIndex[id := if id in st.objectIndex then st.objectIndex[id] else record]
            && m' == m.(refs := m'.refs, extensions := m'.extensions, objectIndex := m'.objectIndex)
  {
    PickMapUpdate(st.refs, delta.refs, dst, entry);
    PickMapUpdate(st.extensions, delta.extensions, key, tip);
  }

  /** A push moves the ref unless the largest counter is already taken: then
      the new one wraps to 0 and loses. */
  lemma PushMovesIff(pub: Publisher, st: RepoState, dst: RefName, want: Oid)
    ensures var entry := RefEntry(pub, dst, want, NextSeq(Lookup(st.refs, dst)));
            Pick(Lookup(st.refs, dst), Some(entry)) == Some(entry)
            <==> !(dst in st.refs && st.refs[dst].updateSeq == 0xFFFF_FFFF_FFFF_FFFF)
  {
  }

  /** A push counts its ref up by one, from 1 for a new one. */
  lemma PushCounts(pub: Publisher, st: RepoState, delta: RepoState, dst: RefName, want: Oid, b: ObjectBundle)
    requires BundleIds.BundleSized(b)
    ensures var refs := WithPush(pub, st, delta, dst, want, b).refs;
            && dst in refs && refs[dst].value.target == want
            && (dst !in st.refs ==> refs[dst].updateSeq == 1)
            && (dst in st.refs && st.refs[dst].updateSeq < 0xFFFF_FFFF_FFFF_FFFF ==>
                  refs[dst].updateSeq == st.refs[dst].updateSeq + 1)
  {
    CountsUp(Lookup(st.refs, dst));
    assert WithPush(pub, st, delta, dst, want, b).refs[dst] == RefEntry(pub, dst, want, NextSeq(Lookup(st.refs, dst)));
  }

  lemma CountsUp<T>(e: Option<Signed<T>>)
    ensures e.None? ==> NextSeq(e) == 1
    ensures e.Some? && e.value.updateSeq < 0xFFFF_FFFF_FFFF_FFFF ==> NextSeq(e) == e.value.updateSeq + 1
  {
  }

  /** A push adds its bundle and advertises its tip at counter 1. */
  lemma PushAdvertises(pub: Publisher, st: RepoState, delta: RepoState, dst: RefName, want: Oid, b: ObjectBundle)
    requires BundleIds.BundleSized(b)
    ensures var after := WithPush(pub, st, delta, dst, want, b);
            && TipAt(pub, after.extensions, pub.Id(b)) == Some(want)
            && after.extensions[pub.tipKey(pub.Id(b))].updateSeq == 1
            && pub.Id(b) in after.objectIndex && after.objectIndex[pub.Id(b)].bundle == b
  {
    var id := pub.Id(b);
    assert WithPush(pub, st, delta, dst, want, b).extensions[pub.tipKey(id)] == TipEntry(pub, id, want);
  }

  lemma RefMoved(entries: map<RefName, Signed<RefTarget>>, refs: map<RefName, Oid>, dst: RefName, e: Signed<RefTarget>)
    requires SameRefs(entries, refs)
    ensures SameRefs(entries[dst := e], refs[dst := e.value.target])
  {
  }

  lemma TipShown(pub: Publisher, extensions: map<Bytes, Signed<Bytes>>, tips: map<BundleId, Oid>, id: BundleId,
                 e: Signed<Bytes>)
    requires TipsWellFormed(pub, extensions) && SameTips(pub, extensions, tips) && |e.value| == 20
    ensures TipsWellFormed(pub, extensions[pub.tipKey(id) := e])
    ensures SameTips(pub, extensions[pub.tipKey(id) := e], tips[id := e.value])
  {
    var more, tips' := extensions[pub.tipKey(id) := e], tips[id := e.value];
    assert pub.parseTipKey(pub.tipKey(id)) == Some(id);
    forall i ensures Lookup(tips', i) == TipAt(pub, more, i) {
      assert Lookup(tips, i) == TipAt(pub, extensions, i);
      assert pub.parseTipKey(pub.tipKey(i)) == Some(i);
    }
  }

  /** Merging in one more ref moves that ref, adds the bundle and advertises
      its tip; nothing else changes. */
  lemma PushSeen(pub: Publisher, st: RepoState, delta: RepoState, r: Remote, dst: RefName, want: Oid, b: ObjectBundle)
    requires BundleIds.BundleSized(b) && |want| == 20 && dst !in delta.refs
    requires dst in st.refs ==> st.refs[dst].updateSeq < 0xFFFF_FFFF_FFFF_FFFF
    requires IsView(pub, Merged(st, delta), r) && TipsKept(pub, st.extensions, r.tips)
    requires pub.Id(b) in r.tips ==> r.tips[pub.Id(b)] == want
    ensures IsView(pub, Merged(st, WithPush(pub, st, delta, dst, want, b)), Advance(r, dst, want, pub.Id(b)))
    ensures TipsKept(pub, st.extensions, Advance(r, dst, want, pub.Id(b)).tips)
  {
    var id := pub.Id(b);
    PushMovesIff(pub, st, dst, want);
    TipAgrees(pub, st.extensions, r.tips, id, want);
    AddedSeen(pub, st, delta, r, dst, RefEntry(pub, dst, want, NextSeq(Lookup(st.refs, dst))), id, Record(pub, b),
      TipEntry(pub, id, want), want);
  }

  lemma AddedSeen(pub: Publisher, st: RepoState, delta: RepoState, r: Remote, dst: RefName, entry: Signed<RefTarget>,
                  id: BundleId, record: BundleRecord, tip: Signed<Bytes>, want: Oid)
    requires IsView(pub, Merged(st, delta), r) && |want| == 20
    requires entry.value.target == want && Pick(Lookup(st.refs, dst), Some(entry)) == Some(entry)
    requires Pick(Lookup(st.extensions, pub.tipKey(id)), Some(tip)).value.value == want
    ensures IsView(pub, Merged(st, Added(delta, dst, entry, id, record, pub.tipKey(id), tip)),
                   Advance(r, dst, want, id))
  {
    var m, key := Merged(st, delta), pub.tipKey(id);
    MergedParts(st, delta, dst, entry, id, record, key, tip);
    RefMoved(m.refs, r.refs, dst, entry);
    TipShown(pub, m.extensions, r.tips, id, Pick(Lookup(st.extensions, key), Some(tip)).value);
  }

  /** Whichever entry the merge keeps for a tip key, it names the same tip. */
  lemma TipAgrees(pub: Publisher, extensions: map<Bytes, Signed<Bytes>>, tips: map<BundleId, Oid>, id: BundleId,
                  want: Oid)
    requires TipsKept(pub, extensions, tips) && (id in tips ==> tips[id] == want)
    ensures Pick(Lookup(extensions, pub.tipKey(id)), Some(TipEntry(pub, id, want))).value.value == want
    ensures TipsKept(pub, extensions, tips[id := want])
  {
    assert TipAt(pub, extensions, id).Some? ==> Lookup(tips, id) == TipAt(pub, extensions, id);
  }

  // ----- what the contract makes of it -----

  ghost predicate Fits(pub: Publisher, dst: RefName, want: Oid, id: BundleId) {
    |dst| <= Validate.MAX_REF_NAME_BYTES && |want| == 20 && |pub.tipKey(id)| <= Validate.MAX_EXTENSION_KEY_BYTES
  }

  /** From a valid state, the owner's push is accepted: the local check before
      the UPDATE never stops it. */
  lemma PushAccepted(pub: Publisher, st: RepoState, delta: RepoState, dst: RefName, want: Oid, b: ObjectBundle)
    requires BundleIds.BundleSized(b) && pub.SignaturesVerify() && st.owner == pub.owner
    requires Fits(pub, dst, want, pub.Id(b))
    requires Validate.ValidState(pub.crypto, pub.params, Merged(st, delta))
    requires Validate.ValidState(pub.crypto, pub.params, st)
    ensures Validate.ValidState(pub.crypto, pub.params, Merged(st, WithPush(pub, st, delta, dst, want, b)))
  {
    var id, counter := pub.Id(b), NextSeq(Lookup(st.refs, dst));
    RefEntryValid(pub, dst, want, counter);
    TipEntryValid(pub, id, want);
    RecordOwnValid(pub, b);
    AddedValid(pub.crypto, pub.params, st, delta, dst, RefEntry(pub, dst, want, counter), id, Record(pub, b),
      pub.tipKey(id), TipEntry(pub, id, want));
  }

  function RefSlot(e: Signed<RefTarget>): Entry {
    Signed(Payload.Target(e.value), e.updateSeq, e.signature)
  }

  function TipSlot(e: Signed<Bytes>): Entry {
    Signed(Raw(e.value), e.updateSeq, e.signature)
  }

  lemma AddedValid(c: Validate.Crypto, params: Validate.RepoParams, st: RepoState, delta: RepoState, dst: RefName,
                   entry: Signed<RefTarget>, id: BundleId, record: BundleRecord, key: Bytes, tip: Signed<Bytes>)
    requires Validate.ValidState(c, params, Merged(st, delta)) && Validate.ValidState(c, params, st)
    requires Validate.EntryValid(c, params, st.owner, OfRef(dst), Some(RefSlot(entry)))
    requires Validate.EntryValid(c, params, st.owner, OfExtension(key), Some(TipSlot(tip)))
    requires Validate.RecordValid(c, params, st.owner, id, Some(record))
    ensures Validate.ValidState(c, params, Merged(st, Added(delta, dst, entry, id, record, key, tip)))
  {
    var m, m' := Merged(st, delta), Merged(st, Added(delta, dst, entry, id, record, key, tip));
    MergedParts(st, delta, dst, entry, id, record, key, tip);
    forall k ensures Validate.EntryValid(c, params, st.owner, k, Slot(m', k)) {
      assert Validate.EntryValid(c, params, m.owner, k, Slot(m, k));
      assert Validate.EntryValid(c, params, st.owner, k, Slot(st, k));
      SlotAfter(st, m, m', dst, entry, key, tip, k);
    }
    forall i ensures Validate.RecordValid(c, params, st.owner, i, Lookup(m'.objectIndex, i)) {
      assert Validate.RecordValid(c, params, m.owner, i, Lookup(m.objectIndex, i));
      assert Validate.RecordValid(c, params, st.owner, i, Lookup(st.objectIndex, i));
    }
  }

  lemma SlotAfter(st: RepoState, m: RepoState, m': RepoState, dst: RefName, entry: Signed<RefTarget>,
                  key: Bytes, tip: Signed<Bytes>, k: SlotKey)
    requires m'.refs == m.refs[dst := Pick(Lookup(st.refs, dst), Some(entry)).value]
    requires m'.extensions == m.extensions[key := Pick(Lookup(st.extensions, key), Some(tip)).value]
    requires m' == m.(refs := m'.refs, extensions := m'.extensions, objectIndex := m'.objectIndex)
    ensures || Slot(m', k) == Slot(m, k) || Slot(m', k) == Slot(st, k)
            || (k == OfRef(dst) && Slot(m', k) == Some(RefSlot(entry)))
            || (k == OfExtension(key) && Slot(m', k) == Some(TipSlot(tip)))
  {
  }

  lemma RefEntryValid(pub: Publisher, dst: RefName, want: Oid, counter: u64)
    requires pub.SignaturesVerify() && |dst| <= Validate.MAX_REF_NAME_BYTES
    ensures Validate.EntryValid(pub.crypto, pub.params, pub.owner, OfRef(dst),
                                Some(RefSlot(RefEntry(pub, dst, want, counter))))
  {
    var m := SignedPayload.RefUpdate(pub.RepoKey(), dst, want, counter, 0);
    assert pub.crypto.verify(SignedPayload.PayloadOf(m), pub.owner, pub.sign(SignedPayload.PayloadOf(m)));
  }

  lemma TipEntryValid(pub: Publisher, id: BundleId, want: Oid)
    requires pub.SignaturesVerify() && |want| == 20 && |pub.tipKey(id)| <= Validate.MAX_EXTENSION_KEY_BYTES
    ensures Validate.EntryValid(pub.crypto, pub.params, pub.owner, OfExtension(pub.tipKey(id)),
                                Some(TipSlot(TipEntry(pub, id, want))))
  {
    var m := SignedPayload.ExtensionSet(pub.RepoKey(), pub.tipKey(id), want, BUNDLE_TIP_UPDATE_SEQ);
    assert pub.crypto.verify(SignedPayload.PayloadOf(m), pub.owner, pub.sign(SignedPayload.PayloadOf(m)));
  }

  lemma RecordOwnValid(pub: Publisher, b: ObjectBundle)
    requires pub.SignaturesVerify() && BundleIds.BundleSized(b)
    ensures Validate.RecordValid(pub.crypto, pub.params, pub.owner, pub.Id(b), Some(Record(pub, b)))
  {
    var m := SignedPayload.BundleAdd(pub.RepoKey(), pub.Id(b), 0);
    assert pub.crypto.verify(SignedPayload.PayloadOf(m), pub.owner, pub.sign(SignedPayload.PayloadOf(m)));
  }
}
