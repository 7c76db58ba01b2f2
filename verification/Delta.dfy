/** `summarize_state` and `get_state_delta`: synchronising by counters alone. */
module Delta {
  import opened Octets
  import opened Repo
  import opened Merge

  /** The counters a peer already holds. */
  datatype RepoSummary = RepoSummary(
    fieldSeqs: map<Field, u64>, refSeqs: map<RefName, u64>, bundleIds: seq<BundleId>, extensionSeqs: map<Bytes, u64>)

  function SeqUnder(s: RepoSummary, k: SlotKey): Option<u64> {
    match k
    case OfField(f) => Lookup(s.fieldSeqs, f)
    case OfRef(n) => Lookup(s.refSeqs, n)
    case OfExtension(n) => Lookup(s.extensionSeqs, n)
  }

  function SeqOf<T>(e: Option<Signed<T>>): Option<u64> {
    if e.None? then None else Some(e.value.updateSeq)
  }

  /** `s` says of `st` exactly which counters and bundles it holds. */
  ghost predicate Summarizes(s: RepoSummary, st: RepoState) {
    && (forall k :: SeqUnder(s, k) == SeqOf(Slot(st, k)))
    && (forall id :: id in s.bundleIds <==> id in st.objectIndex)
  }

  /** The peer has never seen the key, or holds it at a lower counter. */
  predicate Needs(known: Option<u64>, counter: u64) {
    known.None? || known.value < counter
  }

  function NeededField<T>(s: RepoSummary, f: Field, e: Option<Signed<T>>): Option<Signed<T>> {
    if e.Some? && Needs(Lookup(s.fieldSeqs, f), e.value.updateSeq) then e else None
  }

  function NeededEntries<K, V>(seqs: map<K, u64>, entries: map<K, Signed<V>>): map<K, Signed<V>> {
    map k | k in entries && Needs(Lookup(seqs, k), entries[k].updateSeq) :: entries[k]
  }

  function UnknownBundles(known: seq<BundleId>, index: map<BundleId, BundleRecord>): map<BundleId, BundleRecord> {
    map id | id in index && id !in known :: index[id]
  }

  /** The delta that takes a peer with summary `s` to `st`. */
  function DeltaOf(st: RepoState, s: RepoSummary): RepoState {
    RepoState(
      NO_OWNER,
      NeededField(s, Name, st.name),
      NeededField(s, Description, st.description),
      NeededField(s, DefaultBranch, st.defaultBranch),
      NeededField(s, ForcePushAllowed, st.forcePushAllowed),
      NeededField(s, Acl, st.acl),
      NeededField(s, Upgrade, st.upgrade),
      NeededEntries(s.refSeqs, st.refs),
      UnknownBundles(s.bundleIds, st.objectIndex),
      NeededEntries(s.extensionSeqs, st.extensions))
  }

  // ----- the loops -----

  method CollectSeqs<K(==), V>(entries: map<K, Signed<V>>) returns (seqs: map<K, u64>)
    ensures forall k :: Lookup(seqs, k) == SeqOf(Lookup(entries, k))
  {
    seqs := map[];
    var todo := entries.Keys;
    while todo != {}
      invariant todo <= entries.Keys && seqs.Keys == entries.Keys - todo
      invariant forall k :: k in seqs ==> seqs[k] == entries[k].updateSeq
      decreases todo
    {
      var k :| k in todo;
      seqs := seqs[k := entries[k].updateSeq];
      todo := todo - {k};
    }
  }

  method CollectIds(index: map<BundleId, BundleRecord>) returns (ids: seq<BundleId>)
    ensures forall id :: id in ids <==> id in index
  {
    ids := [];
    var todo := index.Keys;
    while todo != {}
      invariant todo <= index.Keys
      invariant forall id :: id in ids <==> id in index && id !in todo
      decreases todo
    {
      var id :| id in todo;
      ids := ids + [id];
      todo := todo - {id};
    }
  }

  /** The map with `f` added when the field is set. */
  function WithSeq<T>(seqs: map<Field, u64>, f: Field, e: Option<Signed<T>>): map<Field, u64> {
    if e.Some? then seqs[f := e.value.updateSeq] else seqs
  }

  function FieldSeqs(st: RepoState): map<Field, u64> {
    var seqs := WithSeq(map[], Name, st.name);
    var seqs := WithSeq(seqs, Description, st.description);
    var seqs := WithSeq(seqs, DefaultBranch, st.defaultBranch);
    var seqs := WithSeq(seqs, ForcePushAllowed, st.forcePushAllowed);
    var seqs := WithSeq(seqs, Acl, st.acl);
    WithSeq(seqs, Upgrade, st.upgrade)
  }

  lemma FieldSeqsAt(st: RepoState, f: Field)
    ensures Lookup(FieldSeqs(st), f) == SeqOf(Slot(st, OfField(f)))
  {
  }

  method SummarizeState(st: RepoState) returns (s: RepoSummary)
    ensures Summarizes(s, st)
  {
    var refSeqs := CollectSeqs(st.refs);
    var ids := CollectIds(st.objectIndex);
    var extensionSeqs := CollectSeqs(st.extensions);
    s := RepoSummary(FieldSeqs(st), refSeqs, ids, extensionSeqs);
    forall k ensures SeqUnder(s, k) == SeqOf(Slot(st, k)) {
      match k
      case OfField(f) => FieldSeqsAt(st, f);
      case OfRef(n) => assert Lookup(refSeqs, n) == SeqOf(Lookup(st.refs, n));
      case OfExtension(n) => assert Lookup(extensionSeqs, n) == SeqOf(Lookup(st.extensions, n));
    }
  }

  method CollectNeeded<K(==), V>(seqs: map<K, u64>, entries: map<K, Signed<V>>) returns (needed: map<K, Signed<V>>)
    ensures needed == NeededEntries(seqs, entries)
  {
    needed := map[];
    var todo := entries.Keys;
    while todo != {}
      invariant todo <= entries.Keys
      invariant forall k :: k in needed <==> k in entries && k !in todo && Needs(Lookup(seqs, k), entries[k].updateSeq)
      invariant forall k :: k in needed ==> needed[k] == entries[k]
      decreases todo
    {
      var k :| k in todo;
      if Needs(Lookup(seqs, k), entries[k].updateSeq) {
        needed := needed[k := entries[k]];
      }
      todo := todo - {k};
    }
  }

  method CollectUnknown(known: seq<BundleId>, index: map<BundleId, BundleRecord>)
    returns (unknown: map<BundleId, BundleRecord>)
    ensures unknown == UnknownBundles(known, index)
  {
    unknown := map[];
    var todo := index.Keys;
    while todo != {}
      invariant todo <= index.Keys
      invariant forall id :: id in unknown <==> id in index && id !in todo && id !in known
      invariant forall id :: id in unknown ==> unknown[id] == index[id]
      decreases todo
    {
      var id :| id in todo;
      if id !in known {
        unknown := unknown[id := index[id]];
      }
      todo := todo - {id};
    }
  }

  method GetStateDelta(st: RepoState, s: RepoSummary) returns (d: RepoState)
    ensures d == DeltaOf(st, s)
  {
    d := EMPTY_STATE;
    d := d.(name := NeededField(s, Name, st.name));
    d := d.(description := NeededField(s, Description, st.description));
    d := d.(defaultBranch := NeededField(s, DefaultBranch, st.defaultBranch));
    d := d.(forcePushAllowed := NeededField(s, ForcePushAllowed, st.forcePushAllowed));
    d := d.(acl := NeededField(s, Acl, st.acl));
    d := d.(upgrade := NeededField(s, Upgrade, st.upgrade));
    var refs := CollectNeeded(s.refSeqs, st.refs);
    var index := CollectUnknown(s.bundleIds, st.objectIndex);
    var extensions := CollectNeeded(s.extensionSeqs, st.extensions);
    d := d.(refs := refs, objectIndex := index, extensions := extensions);
  }

  // ----- what a delta carries -----

  lemma DeltaSlot(st: RepoState, s: RepoSummary, k: SlotKey)
    ensures Slot(DeltaOf(st, s), k) ==
            if Slot(st, k).Some? && Needs(SeqUnder(s, k), Slot(st, k).value.updateSeq) then Slot(st, k) else None
  {
  }

  /** The peer `p` holds at least what the summary promises. */
  ghost predicate CoversSummary(p: RepoState, s: RepoSummary) {
    && (forall k {:trigger SeqUnder(s, k)} :: SeqUnder(s, k).Some? ==>
          Slot(p, k).Some? && SeqUnder(s, k).value <= Slot(p, k).value.updateSeq)
    && (forall id :: id in s.bundleIds ==> id in p.objectIndex)
  }

  /** A summary stays good however much its author has grown since. */
  lemma StaleSummaryCovered(s: RepoSummary, earlier: RepoState, later: RepoState)
    requires Summarizes(s, earlier) && Covers(later, earlier)
    ensures CoversSummary(later, s)
  {
    forall k | SeqUnder(s, k).Some?
      ensures Slot(later, k).Some? && SeqUnder(s, k).value <= Slot(later, k).value.updateSeq
    {
      assert SeqUnder(s, k) == SeqOf(Slot(earlier, k)) && EntryAtMost(Slot(earlier, k), Slot(later, k));
    }
  }

  lemma CoversSummaryGrows(p: RepoState, more: RepoState, s: RepoSummary)
    requires CoversSummary(p, s) && Covers(more, p)
    ensures CoversSummary(more, s)
  {
    forall k | SeqUnder(s, k).Some?
      ensures Slot(more, k).Some? && SeqUnder(s, k).value <= Slot(more, k).value.updateSeq
    {
      assert EntryAtMost(Slot(p, k), Slot(more, k));
    }
  }

  /** The one thing a delta can leave behind: an entry whose counter the
      summary already has, but which a full merge would prefer for its
      smaller signature. */
  predicate LostTie(p: RepoState, st: RepoState, s: RepoSummary, k: SlotKey) {
    var mine, theirs := Slot(p, k), Slot(st, k);
    && mine.Some? && theirs.Some? && !Needs(SeqUnder(s, k), theirs.value.updateSeq)
    && mine.value.updateSeq == theirs.value.updateSeq && LexLt(theirs.value.signature, mine.value.signature)
  }

  /** Delta sync does what full-state sync does exactly when no tie is lost. */
  lemma DeltaExactIff(p: RepoState, st: RepoState, s: RepoSummary)
    requires CoversSummary(p, s)
    ensures Merged(p, DeltaOf(st, s)) == Merged(p, st) <==> forall k :: !LostTie(p, st, s, k)
  {
    var viaDelta, viaFull := Merged(p, DeltaOf(st, s)), Merged(p, st);
    forall k ensures Slot(viaDelta, k) == Slot(viaFull, k) <==> !LostTie(p, st, s, k) {
      DeltaExactAt(p, st, s, k);
    }
    assert viaDelta.objectIndex == viaFull.objectIndex;
    if forall k :: !LostTie(p, st, s, k) {
      SameSlots(viaDelta, viaFull);
    }
    if viaDelta == viaFull {
      forall k ensures !LostTie(p, st, s, k) {
        assert Slot(viaDelta, k) == Slot(viaFull, k);
      }
    }
  }

  lemma DeltaExactAt(p: RepoState, st: RepoState, s: RepoSummary, k: SlotKey)
    requires CoversSummary(p, s)
    ensures Slot(Merged(p, DeltaOf(st, s)), k) == Slot(Merged(p, st), k) <==> !LostTie(p, st, s, k)
  {
    DeltaSlot(st, s, k);
    MergedSlot(p, DeltaOf(st, s), k);
    MergedSlot(p, st, k);
    if Slot(p, k).Some? && Slot(st, k).Some? {
      LexTotal(Slot(p, k).value.signature, Slot(st, k).value.signature);
    }
  }

  /** Whoever signs at most one entry per counter never loses a tie. */
  ghost predicate TieFree(a: RepoState, b: RepoState) {
    forall k {:trigger Slot(a, k)} {:trigger Slot(b, k)} ::
      Slot(a, k).Some? && Slot(b, k).Some? && Slot(a, k).value.updateSeq == Slot(b, k).value.updateSeq ==>
        Slot(a, k) == Slot(b, k)
  }

  lemma DeltaExact(p: RepoState, st: RepoState, s: RepoSummary)
    requires CoversSummary(p, s) && TieFree(p, st)
    ensures Merged(p, DeltaOf(st, s)) == Merged(p, st)
  {
    forall k ensures !LostTie(p, st, s, k) {
      assert Slot(p, k) == Slot(p, k);
    }
    DeltaExactIff(p, st, s);
  }

  // ----- the deployed contract's rule -----

  /** The rule in the deployed contract reads an unknown key as counter 0. */
  predicate DeployedNeeds(known: Option<u64>, counter: u64) {
    (if known.Some? then known.value else 0) < counter
  }

  function DeployedEntries<K, V>(seqs: map<K, u64>, entries: map<K, Signed<V>>): map<K, Signed<V>> {
    map k | k in entries && DeployedNeeds(Lookup(seqs, k), entries[k].updateSeq) :: entries[k]
  }

  /** Both rules pick the same entries exactly when every entry the peer has
      never seen has a counter of at least 1. */
  lemma DeployedRuleAgreesIff<K(!new), V>(seqs: map<K, u64>, entries: map<K, Signed<V>>)
    ensures DeployedEntries(seqs, entries) == NeededEntries(seqs, entries)
       <==> forall k :: k in entries && k !in seqs ==> entries[k].updateSeq >= 1
  {
    var deployed, needed := DeployedEntries(seqs, entries), NeededEntries(seqs, entries);
    if deployed == needed {
      forall k | k in entries && k !in seqs ensures entries[k].updateSeq >= 1 {
        assert k in needed && k in deployed;
      }
    }
  }
}
