/** `merge_state`: the join of two repo states. */
module Merge {
  import opened Octets
  import opened Repo

  /** `pick_higher_seq`: the higher counter wins; on a tie, the smaller signature. */
  predicate PickHigherSeq(aSeq: u64, aSig: Signature, bSeq: u64, bSig: Signature) {
    aSeq > bSeq || (aSeq == bSeq && LexLe(aSig, bSig))
  }

  predicate Wins<T>(a: Signed<T>, b: Signed<T>) {
    PickHigherSeq(a.updateSeq, a.signature, b.updateSeq, b.signature)
  }

  function Pick<T>(a: Option<Signed<T>>, b: Option<Signed<T>>): Option<Signed<T>> {
    if a.None? then b
    else if b.None? then a
    else if Wins(a.value, b.value) then a else b
  }

  function PickEntry<T>(a: Signed<T>, b: Signed<T>): Signed<T> {
    if Wins(a, b) then a else b
  }

  function PickMap<K, V>(a: map<K, Signed<V>>, b: map<K, Signed<V>>): map<K, Signed<V>> {
    map k | k in a.Keys + b.Keys :: Pick(Lookup(a, k), Lookup(b, k)).value
  }

  /** The result of merging `b` into `a`. */
  function Merged(a: RepoState, b: RepoState): RepoState {
    RepoState(
      a.owner,
      Pick(a.name, b.name),
      Pick(a.description, b.description),
      Pick(a.defaultBranch, b.defaultBranch),
      Pick(a.forcePushAllowed, b.forcePushAllowed),
      Pick(a.acl, b.acl),
      Pick(a.upgrade, b.upgrade),
      PickMap(a.refs, b.refs),
      b.objectIndex + a.objectIndex,
      PickMap(a.extensions, b.extensions))
  }

  /** One of the two loops that merge a map of signed entries. */
  method MergeEntries<K(==), V>(current: map<K, Signed<V>>, incoming: map<K, Signed<V>>)
    returns (out: map<K, Signed<V>>)
    ensures out == PickMap(current, incoming)
  {
    out := current;
    var todo := incoming.Keys;
    while todo != {}
      invariant todo <= incoming.Keys
      invariant out.Keys == current.Keys + (incoming.Keys - todo)
      invariant forall k :: k in out ==>
        out[k] == if k in todo then current[k] else Pick(Lookup(current, k), Lookup(incoming, k)).value
      decreases todo
    {
      var k :| k in todo;
      var pick := if k in out then PickEntry(out[k], incoming[k]) else incoming[k];
      out := out[k := pick];
      todo := todo - {k};
    }
  }

  method MergeIndex(current: map<BundleId, BundleRecord>, incoming: map<BundleId, BundleRecord>)
    returns (out: map<BundleId, BundleRecord>)
    ensures out == incoming + current
  {
    out := current;
    var todo := incoming.Keys;
    while todo != {}
      invariant todo <= incoming.Keys
      invariant out.Keys == current.Keys + (incoming.Keys - todo)
      invariant forall k :: k in out ==> out[k] == if k in current then current[k] else incoming[k]
      decreases todo
    {
      var k :| k in todo;
      if k !in out {
        out := out[k := incoming[k]];
      }
      todo := todo - {k};
    }
  }

  method MergeState(current: RepoState, incoming: RepoState) returns (out: RepoState)
    ensures out == Merged(current, incoming)
  {
    out := current;
    out := out.(name := Pick(out.name, incoming.name));
    out := out.(description := Pick(out.description, incoming.description));
    out := out.(defaultBranch := Pick(out.defaultBranch, incoming.defaultBranch));
    out := out.(forcePushAllowed := Pick(out.forcePushAllowed, incoming.forcePushAllowed));
    out := out.(acl := Pick(out.acl, incoming.acl));
    out := out.(upgrade := Pick(out.upgrade, incoming.upgrade));
    var refs := MergeEntries(out.refs, incoming.refs);
    var index := MergeIndex(out.objectIndex, incoming.objectIndex);
    var extensions := MergeEntries(out.extensions, incoming.extensions);
    out := out.(refs := refs, objectIndex := index, extensions := extensions);
  }

  // ----- merging, slot by slot -----

  lemma MergedSlot(a: RepoState, b: RepoState, k: SlotKey)
    ensures Slot(Merged(a, b), k) == Pick(Slot(a, k), Slot(b, k))
  {
    match k
    case OfField(Name) => LiftPick(t => Text(t), a.name, b.name);
    case OfField(Description) => LiftPick(t => Text(t), a.description, b.description);
    case OfField(DefaultBranch) => LiftPick(t => Text(t), a.defaultBranch, b.defaultBranch);
    case OfField(ForcePushAllowed) => LiftPick(t => RefList(t), a.forcePushAllowed, b.forcePushAllowed);
    case OfField(Acl) => LiftPick(t => Grants(t), a.acl, b.acl);
    case OfField(Upgrade) => LiftPick(t => Successor(t), a.upgrade, b.upgrade);
    case OfRef(name) => LiftPick(t => Target(t), Lookup(a.refs, name), Lookup(b.refs, name));
    case OfExtension(key) => LiftPick(t => Raw(t), Lookup(a.extensions, key), Lookup(b.extensions, key));
  }

  lemma LiftPick<T>(wrap: T -> Payload, a: Option<Signed<T>>, b: Option<Signed<T>>)
    ensures Lift(wrap, Pick(a, b)) == Pick(Lift(wrap, a), Lift(wrap, b))
  {
  }

  lemma WinsTotal<T>(a: Signed<T>, b: Signed<T>)
    ensures Wins(a, b) || Wins(b, a)
    ensures Wins(a, b) && Wins(b, a) <==> a.updateSeq == b.updateSeq && a.signature == b.signature
  {
    LexTotal(a.signature, b.signature);
  }

  lemma WinsTransitive<T>(a: Signed<T>, b: Signed<T>, c: Signed<T>)
    requires Wins(a, b) && Wins(b, c)
    ensures Wins(a, c)
  {
    if a.updateSeq == b.updateSeq == c.updateSeq {
      LexTransitive(a.signature, b.signature, c.signature);
    }
  }

  lemma PickAssociative<T>(a: Option<Signed<T>>, b: Option<Signed<T>>, c: Option<Signed<T>>)
    ensures Pick(Pick(a, b), c) == Pick(a, Pick(b, c))
  {
    if a.Some? && b.Some? && c.Some? {
      if Wins(a.value, b.value) && Wins(b.value, c.value) {
        WinsTransitive(a.value, b.value, c.value);
      } else if !Wins(a.value, b.value) && !Wins(b.value, c.value) {
        WinsTotal(a.value, b.value);
        WinsTotal(b.value, c.value);
        if Wins(a.value, c.value) {
          WinsTransitive(b.value, a.value, c.value);
        }
      }
    }
  }

  /** Two entries agree unless they carry the same counter and signature but
      differ otherwise. */
  predicate Agree(a: Option<Entry>, b: Option<Entry>) {
    a.Some? && b.Some? && a.value.updateSeq == b.value.updateSeq && a.value.signature == b.value.signature ==> a == b
  }

  lemma PickCommutesIff(a: Option<Entry>, b: Option<Entry>)
    ensures Pick(a, b) == Pick(b, a) <==> Agree(a, b)
  {
    if a.Some? && b.Some? {
      WinsTotal(a.value, b.value);
    }
  }

  // ----- merge laws -----

  lemma MergeAssociative(a: RepoState, b: RepoState, c: RepoState)
    ensures Merged(Merged(a, b), c) == Merged(a, Merged(b, c))
  {
    var l, r := Merged(Merged(a, b), c), Merged(a, Merged(b, c));
    forall k ensures Slot(l, k) == Slot(r, k) {
      MergedSlot(Merged(a, b), c, k);
      MergedSlot(a, b, k);
      MergedSlot(a, Merged(b, c), k);
      MergedSlot(b, c, k);
      PickAssociative(Slot(a, k), Slot(b, k), Slot(c, k));
    }
    SameSlots(l, r);
  }

  lemma MergeIdempotent(a: RepoState)
    ensures Merged(a, a) == a
  {
    forall k ensures Slot(Merged(a, a), k) == Slot(a, k) {
      MergedSlot(a, a, k);
    }
    SameSlots(Merged(a, a), a);
  }

  ghost predicate StatesAgree(a: RepoState, b: RepoState) {
    && a.owner == b.owner
    && (forall k :: Agree(Slot(a, k), Slot(b, k)))
    && (forall id :: id in a.objectIndex && id in b.objectIndex ==> a.objectIndex[id] == b.objectIndex[id])
  }

  /** Exactly when the order of a merge does not matter. */
  lemma MergeCommutesIff(a: RepoState, b: RepoState)
    ensures Merged(a, b) == Merged(b, a) <==> StatesAgree(a, b)
  {
    var l, r := Merged(a, b), Merged(b, a);
    forall k ensures Slot(l, k) == Slot(r, k) <==> Agree(Slot(a, k), Slot(b, k)) {
      MergedSlot(a, b, k);
      MergedSlot(b, a, k);
      PickCommutesIff(Slot(a, k), Slot(b, k));
    }
    if StatesAgree(a, b) {
      SameSlots(l, r);
    }
    if l == r {
      forall id | id in a.objectIndex && id in b.objectIndex ensures a.objectIndex[id] == b.objectIndex[id] {
        assert l.objectIndex[id] == a.objectIndex[id] && r.objectIndex[id] == b.objectIndex[id];
      }
    }
  }

  // ----- nothing is ever lost -----

  predicate EntryAtMost(a: Option<Entry>, b: Option<Entry>) {
    a.Some? ==> b.Some? && Wins(b.value, a.value) && a.value.updateSeq <= b.value.updateSeq
  }

  /** Every entry of `a` is in `b` with a counter at least as high, and every
      bundle id of `a` is in `b`. */
  ghost predicate Covers(b: RepoState, a: RepoState) {
    (forall k :: EntryAtMost(Slot(a, k), Slot(b, k))) && a.objectIndex.Keys <= b.objectIndex.Keys
  }

  lemma CoversTransitive(a: RepoState, b: RepoState, c: RepoState)
    requires Covers(c, b) && Covers(b, a)
    ensures Covers(c, a)
  {
    forall k ensures EntryAtMost(Slot(a, k), Slot(c, k)) {
      assert EntryAtMost(Slot(a, k), Slot(b, k)) && EntryAtMost(Slot(b, k), Slot(c, k));
      if Slot(a, k).Some? {
        WinsTransitive(Slot(c, k).value, Slot(b, k).value, Slot(a, k).value);
      }
    }
  }

  /** A merge keeps both sides: no key is lost, no counter goes down, and the
      receiver's owner and bundle records stay as they were. */
  lemma MergeCovers(a: RepoState, b: RepoState)
    ensures Covers(Merged(a, b), a) && Covers(Merged(a, b), b)
    ensures Merged(a, b).owner == a.owner
    ensures forall id :: id in a.objectIndex ==> Merged(a, b).objectIndex[id] == a.objectIndex[id]
  {
    forall k ensures EntryAtMost(Slot(a, k), Slot(Merged(a, b), k)) && EntryAtMost(Slot(b, k), Slot(Merged(a, b), k)) {
      MergedSlot(a, b, k);
      if Slot(a, k).Some? {
        WinsTotal(Slot(a, k).value, Slot(a, k).value);
      }
      if Slot(b, k).Some? {
        WinsTotal(Slot(b, k).value, Slot(b, k).value);
      }
      if Slot(a, k).Some? && Slot(b, k).Some? {
        WinsTotal(Slot(a, k).value, Slot(b, k).value);
      }
    }
  }

  /** Which entry a merge keeps, whichever side holds it: that of the higher
      counter, and of two with one counter that whose signature has the
      smaller byte where the two first differ. */
  lemma MergeKeeps(x: RepoState, y: RepoState, k: SlotKey, i: nat)
    requires Slot(x, k).Some? && Slot(y, k).Some?
    requires var a, b := Slot(x, k).value, Slot(y, k).value;
             || a.updateSeq > b.updateSeq
             || (a.updateSeq == b.updateSeq && SmallerAt(a.signature, b.signature, i))
    ensures Slot(Merged(x, y), k) == Slot(x, k) && Slot(Merged(y, x), k) == Slot(x, k)
  {
    MergedSlot(x, y, k);
    MergedSlot(y, x, k);
    LexLtIff(Slot(x, k).value.signature, Slot(y, k).value.signature);
    LexTotal(Slot(x, k).value.signature, Slot(y, k).value.signature);
  }

  /** An entry that only one side has is kept as it is. */
  lemma MergeKeepsOnly(x: RepoState, y: RepoState, k: SlotKey)
    requires Slot(y, k).None?
    ensures Slot(Merged(x, y), k) == Slot(x, k) && Slot(Merged(y, x), k) == Slot(x, k)
  {
    MergedSlot(x, y, k);
    MergedSlot(y, x, k);
  }

  /** Nothing appears from nowhere. */
  lemma MergeSourced(a: RepoState, b: RepoState, k: SlotKey)
    ensures Slot(Merged(a, b), k) == Slot(a, k) || Slot(Merged(a, b), k) == Slot(b, k)
    ensures Merged(a, b).objectIndex.Keys == a.objectIndex.Keys + b.objectIndex.Keys
  {
    MergedSlot(a, b, k);
  }
}
