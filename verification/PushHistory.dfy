/** `git push`, and whether a contract built by pushes can be cloned. */
module PushHistory {
  import opened Octets
  import opened CommitGraph
  import opened Fetch

  /** One ref update as `handle_push` sees it: `pusher` is the pusher's object
      store, `id` the id of the bundle its pack is published under. */
  datatype Push = Push(dst: RefName, want: Oid, force: bool, pusher: set<Oid>, id: BundleId)

  datatype PushError = RemoteTipNotLocal

  /** A contract with the packs it refers to and, for each bundle, the commit
      its pack was cut against. */
  datatype Ledger = Ledger(remote: Remote, packs: Packs, haves: map<BundleId, Option<Oid>>)

  const EMPTY := Ledger(Remote(map[], {}, map[]), map[], map[])

  /** The `^<have>` that `build_pack` passes on, or its refusal. */
  function EffectiveHave(g: Graph, pusher: set<Oid>, prev: Option<Oid>, force: bool): Result<Option<Oid>, PushError>
    requires g.Valid()
  {
    if prev.None? || Peel(g, pusher, prev.value).Some? then Ok(prev)
    else if force then Ok(None)
    else Err(RemoteTipNotLocal)
  }

  /** The objects `git rev-list --objects want ^have` lists. */
  ghost function PackContents(g: Graph, have: Option<Oid>, want: Oid): set<Oid>
    requires g.Valid()
  {
    Reach(g, want) - if have.Some? then Reach(g, have.value) else {}
  }

  function PreviousTarget(l: Ledger, p: Push): Option<Oid> {
    if p.dst in l.remote.refs then Some(l.remote.refs[p.dst]) else None
  }

  ghost function Pushed(l: Ledger, p: Push, have: Option<Oid>, contents: set<Oid>): Ledger {
    Ledger(Remote(l.remote.refs[p.dst := p.want], l.remote.index + {p.id}, l.remote.tips[p.id := p.want]),
           l.packs[p.id := contents], l.haves[p.id := have])
  }

  predicate Published(g: Graph, l: Ledger, p: Push)
    requires g.Valid()
  {
    PreviousTarget(l, p) != Some(p.want) && EffectiveHave(g, p.pusher, PreviousTarget(l, p), p.force).Ok?
  }

  /** The contract after one ref update: unchanged when the ref is already
      there or the pack is refused. */
  ghost function Apply(g: Graph, l: Ledger, p: Push): Ledger
    requires g.Valid()
  {
    var prev := PreviousTarget(l, p);
    var have := EffectiveHave(g, p.pusher, prev, p.force);
    if prev == Some(p.want) || have.Err? then l
    else Pushed(l, p, have.value, PackContents(g, have.value, p.want))
  }

  ghost function Replay(g: Graph, pushes: seq<Push>): Ledger
    requires g.Valid()
  {
    if pushes == [] then EMPTY
    else Apply(g, Replay(g, pushes[..|pushes| - 1]), pushes[|pushes| - 1])
  }

  // ----- what a push does -----

  /** The ref moved, and its bundle was added and advertised with `contents`. */
  ghost predicate Moved(l: Ledger, p: Push, l': Ledger, contents: set<Oid>) {
    && l'.remote.refs == l.remote.refs[p.dst := p.want]
    && l'.remote.index == l.remote.index + {p.id}
    && l'.remote.tips == l.remote.tips[p.id := p.want]
    && l'.packs == l.packs[p.id := contents]
  }

  /** A new ref is published whole. An old target that the pusher has is left
      out with all below it. One that it does not have is ignored by a forced
      push, and stops any other. */
  lemma PushMeans(g: Graph, l: Ledger, p: Push)
    requires g.Valid()
    ensures p.dst !in l.remote.refs ==> Moved(l, p, Apply(g, l, p), Reach(g, p.want))
    ensures p.dst in l.remote.refs && l.remote.refs[p.dst] == p.want ==> Apply(g, l, p) == l
    ensures p.dst in l.remote.refs && l.remote.refs[p.dst] != p.want ==>
              var prev := l.remote.refs[p.dst];
              && (HasCommit(g, p.pusher, prev) ==> Moved(l, p, Apply(g, l, p), Reach(g, p.want) - Reach(g, prev)))
              && (!HasCommit(g, p.pusher, prev) && p.force ==> Moved(l, p, Apply(g, l, p), Reach(g, p.want)))
              && (!HasCommit(g, p.pusher, prev) && !p.force ==> Apply(g, l, p) == l)
  {
    assert Reach(g, p.want) - {} == Reach(g, p.want);
    if p.dst in l.remote.refs {
      HasCommitIff(g, p.pusher, l.remote.refs[p.dst]);
    }
  }

  /** Some chain of tags, all of it local, leads from `o` to a local commit. */
  ghost predicate HasCommit(g: Graph, local: set<Oid>, o: Oid)
    requires g.Valid()
  {
    exists chain: seq<Oid> :: IsChain(g, local, o, chain)
  }

  ghost predicate IsChain(g: Graph, local: set<Oid>, o: Oid, chain: seq<Oid>) {
    && chain != [] && chain[0] == o && g.IsCommit(chain[|chain| - 1])
    && (forall i :: 0 <= i < |chain| ==> chain[i] in local)
    && forall i :: 0 <= i < |chain| - 1 ==> g.IsTag(chain[i]) && g.objects[chain[i]].target == chain[i + 1]
  }

  lemma {:induction false} HasCommitIff(g: Graph, local: set<Oid>, o: Oid)
    requires g.Valid()
    ensures HasCommit(g, local, o) <==> Peel(g, local, o).Some?
    decreases g.height(o)
  {
    if g.IsTag(o) {
      var t := g.objects[o].target;
      assert t in g.Edges(o);
      HasCommitIff(g, local, t);
      if o in local && HasCommit(g, local, t) {
        var chain :| IsChain(g, local, t, chain);
        assert IsChain(g, local, o, [o] + chain);
      }
      if HasCommit(g, local, o) {
        var chain :| IsChain(g, local, o, chain);
        assert IsChain(g, local, t, chain[1..]);
      }
    } else if g.IsCommit(o) && o in local {
      assert IsChain(g, local, o, [o]);
    }
  }

  // ----- which pushes are covered -----

  /** The last commit or tag along what an annotated tag names. */
  function Base(g: Graph, o: Oid): Oid
    requires g.Valid()
    decreases g.height(o)
  {
    if g.IsTag(o) && g.InHistory(g.objects[o].target) then
      assert g.objects[o].target in g.Edges(o);
      Base(g, g.objects[o].target)
    else o
  }

  /** First push of a ref, fast-forward, or forced push whose old tip is not
      local; from a complete clone; not an annotated tag put over a ref that
      already holds the tagged commit. */
  ghost predicate Covered(g: Graph, l: Ledger, p: Push)
    requires g.Valid()
  {
    var have := EffectiveHave(g, p.pusher, PreviousTarget(l, p), p.force);
    && p.pusher <= g.objects.Keys && Reach(g, p.want) <= p.pusher
    && (have.Ok? ==>
          && (have.value.Some? ==> have.value.value in Reach(g, p.want))
          && (have.value.Some? && g.IsTag(p.want) && PreviousTarget(l, p) != Some(p.want) ==>
                Base(g, p.want) !in Reach(g, have.value.value))
          && (p.id in l.packs ==> l.packs[p.id] == PackContents(g, have.value, p.want)))
  }

  ghost predicate CoveredRun(g: Graph, pushes: seq<Push>)
    requires g.Valid()
  {
    forall i :: 0 <= i < |pushes| ==> Covered(g, Replay(g, pushes[..i]), pushes[i])
  }

  lemma RunSnoc(g: Graph, pushes: seq<Push>, p: Push)
    requires g.Valid() && CoveredRun(g, pushes) && Covered(g, Replay(g, pushes), p)
    ensures CoveredRun(g, pushes + [p]) && Replay(g, pushes + [p]) == Apply(g, Replay(g, pushes), p)
  {
    var all := pushes + [p];
    assert all[..|pushes|] == pushes;
    forall i | 0 <= i < |all| ensures Covered(g, Replay(g, all[..i]), all[i]) {
      assert all[..i] == pushes[..i];
    }
  }

  // ----- what pushes keep -----

  ghost predicate BundleSound(g: Graph, l: Ledger, b: BundleId)
    requires g.Valid()
  {
    && b in l.remote.tips && b in l.packs && b in l.haves
    && l.packs[b] == PackContents(g, l.haves[b], l.remote.tips[b])
    && l.remote.tips[b] in l.packs[b]
    && l.packs[b] <= g.objects.Keys && TagClosed(g, l.packs[b])
    && (l.haves[b].Some? ==>
          var h := l.haves[b].value;
          && h in Reach(g, l.remote.tips[b]) && h != l.remote.tips[b]
          && h in l.remote.tips.Values && g.InHistory(h))
  }

  ghost predicate Sound(g: Graph, l: Ledger)
    requires g.Valid()
  {
    && l.remote.index == l.remote.tips.Keys == l.packs.Keys == l.haves.Keys
    && (forall b {:trigger BundleSound(g, l, b)} :: b in l.remote.tips ==> BundleSound(g, l, b))
    && l.remote.refs.Values <= l.remote.tips.Values
  }

  /** A pack carries its tip unless the pushed commit was already behind the
      old tip. */
  lemma TipInPackIff(g: Graph, have: Oid, want: Oid)
    requires g.Valid()
    ensures want in PackContents(g, Some(have), want) <==> want !in Reach(g, have)
    ensures want in Reach(g, have) ==> PackContents(g, Some(have), want) == {}
  {
    if want in Reach(g, have) {
      ReachTransitive(g, have, want);
    }
  }

  lemma {:induction false} TagsReachedByTags(g: Graph, o: Oid, x: Oid)
    requires g.Valid() && x in Reach(g, o) && g.IsTag(x)
    ensures g.IsTag(o) && Base(g, x) == Base(g, o)
    decreases g.height(o)
  {
    if x != o {
      var e :| e in g.Edges(o) && x in Reach(g, e);
      TagsReachedByTags(g, e, x);
    }
  }

  lemma {:induction false} BaseReached(g: Graph, o: Oid)
    requires g.Valid()
    ensures Base(g, o) in Reach(g, o)
    decreases g.height(o)
  {
    if g.IsTag(o) {
      var t := g.objects[o].target;
      assert t in g.Edges(o);
      BaseReached(g, t);
    }
  }

  lemma {:induction false} ChainStaysInPack(g: Graph, have: Oid, want: Oid, x: Oid)
    requires g.Valid() && TagClosed(g, PackContents(g, Some(have), want))
    requires x in PackContents(g, Some(have), want)
    ensures Base(g, x) !in Reach(g, have)
    decreases g.height(x)
  {
    if g.IsTag(x) && g.InHistory(g.objects[x].target) {
      assert g.objects[x].target in g.Edges(x);
      ChainStaysInPack(g, have, want, g.objects[x].target);
    }
  }

  /** A pack ships its annotated tags together with the commits and tags they
      name exactly when the last of those is not already behind the old tip. */
  lemma PackTagClosedIff(g: Graph, have: Oid, want: Oid)
    requires g.Valid() && want !in Reach(g, have) && g.IsTag(want)
    ensures TagClosed(g, PackContents(g, Some(have), want)) <==> Base(g, want) !in Reach(g, have)
  {
    var s := PackContents(g, Some(have), want);
    if Base(g, want) !in Reach(g, have) {
      forall x | x in s && g.IsTag(x) && g.InHistory(g.objects[x].target) ensures g.objects[x].target in s {
        var t := g.objects[x].target;
        assert t in g.Edges(x) && t in Reach(g, t) && t in Reach(g, x);
        TagsReachedByTags(g, want, x);
        ReachTransitive(g, want, x);
        BaseReached(g, t);
        if t in Reach(g, have) {
          ReachTransitive(g, have, t);
        }
      }
    }
    if TagClosed(g, s) {
      ChainStaysInPack(g, have, want, want);
    }
  }

  lemma PackWithoutTags(g: Graph, have: Option<Oid>, want: Oid)
    requires g.Valid() && (have.None? || !g.IsTag(want))
    ensures TagClosed(g, PackContents(g, have, want))
  {
    var s := PackContents(g, have, want);
    forall x | x in s && g.IsTag(x) ensures g.objects[x].target in s {
      TagsReachedByTags(g, want, x);
      ReachTransitive(g, want, x);
      assert g.objects[x].target in g.Edges(x) && g.objects[x].target in Reach(g, g.objects[x].target);
      assert g.objects[x].target in Reach(g, x);
    }
  }

  /** Equal packs were pushed for the same commit. */
  lemma SamePackSameTip(g: Graph, have: Option<Oid>, want: Oid, have': Option<Oid>, want': Oid)
    requires g.Valid() && PackContents(g, have, want) == PackContents(g, have', want')
    requires want in PackContents(g, have, want) && want' in PackContents(g, have', want')
    ensures want == want'
  {
    ReachDescends(g, want, want');
    ReachDescends(g, want', want);
  }

  lemma PushKeepsSound(g: Graph, l: Ledger, p: Push)
    requires g.Valid() && Sound(g, l) && Covered(g, l, p)
    ensures Sound(g, Apply(g, l, p))
    ensures l.remote.tips.Values <= Apply(g, l, p).remote.tips.Values
  {
    var prev := PreviousTarget(l, p);
    var have := EffectiveHave(g, p.pusher, prev, p.force);
    if prev != Some(p.want) && have.Ok? {
      NewBundleSound(g, l, p, have.value);
      PushedSound(g, l, p, have.value, Apply(g, l, p));
    }
  }

  lemma PushedSound(g: Graph, l: Ledger, p: Push, have: Option<Oid>, l': Ledger)
    requires g.Valid() && Sound(g, l) && NewBundle(g, l, p, have)
    requires p.id in l.packs ==> l.packs[p.id] == PackContents(g, have, p.want)
    requires l' == Pushed(l, p, have, PackContents(g, have, p.want))
    ensures Sound(g, l') && l.remote.tips.Values <= l'.remote.tips.Values
  {
    TipsGrow(g, l, p, have);
    AddedValue(l.remote.refs, p.dst, p.want);
    PushedBundleSound(g, l, p, have);
    forall b {:trigger BundleSound(g, l', b)} | b in l'.remote.tips ensures BundleSound(g, l', b) {
      if b != p.id {
        KeptBundleSound(g, l, p, have, b);
      }
    }
  }

  lemma KeptBundleSound(g: Graph, l: Ledger, p: Push, have: Option<Oid>, b: BundleId)
    requires g.Valid() && Sound(g, l) && b in l.remote.tips && b != p.id
    requires l.remote.tips.Values <= l.remote.tips[p.id := p.want].Values
    ensures BundleSound(g, Pushed(l, p, have, PackContents(g, have, p.want)), b)
  {
    assert BundleSound(g, l, b);
    OldBundleSound(g, l, Pushed(l, p, have, PackContents(g, have, p.want)), b);
  }

  lemma TipsGrow(g: Graph, l: Ledger, p: Push, have: Option<Oid>)
    requires g.Valid() && Sound(g, l) && p.want in PackContents(g, have, p.want)
    requires p.id in l.packs ==> l.packs[p.id] == PackContents(g, have, p.want)
    ensures l.remote.tips[p.id := p.want].Values == l.remote.tips.Values + {p.want}
  {
    if p.id in l.remote.tips {
      assert BundleSound(g, l, p.id);
      SamePackSameTip(g, l.haves[p.id], l.remote.tips[p.id], have, p.want);
    }
    AddedValue(l.remote.tips, p.id, p.want);
  }

  lemma PushedBundleSound(g: Graph, l: Ledger, p: Push, have: Option<Oid>)
    requires g.Valid() && NewBundle(g, l, p, have)
    requires l.remote.tips.Values <= l.remote.tips[p.id := p.want].Values
    ensures BundleSound(g, Pushed(l, p, have, PackContents(g, have, p.want)), p.id)
  {
  }

  lemma OldBundleSound(g: Graph, l: Ledger, l': Ledger, b: BundleId)
    requires g.Valid() && b in l.remote.tips && BundleSound(g, l, b)
    requires b in l'.remote.tips && b in l'.packs && b in l'.haves
    requires l'.remote.tips[b] == l.remote.tips[b] && l'.packs[b] == l.packs[b] && l'.haves[b] == l.haves[b]
    requires l.remote.tips.Values <= l'.remote.tips.Values
    ensures BundleSound(g, l', b)
  {
  }

  lemma AddedValue<K, V>(m: map<K, V>, k: K, v: V)
    ensures m[k := v].Values <= m.Values + {v}
    ensures (k in m ==> m[k] == v) ==> m[k := v].Values == m.Values + {v}
  {
    assert m[k := v][k] == v;
    if k in m ==> m[k] == v {
      forall y | y in m ensures m[y] in m[k := v].Values {
        assert m[k := v][y] == m[y];
      }
    }
  }

  ghost predicate NewBundle(g: Graph, l: Ledger, p: Push, have: Option<Oid>)
    requires g.Valid()
  {
    var s := PackContents(g, have, p.want);
    && p.want in s && s <= g.objects.Keys && TagClosed(g, s)
    && (have.Some? ==>
          && have.value in Reach(g, p.want) && have.value != p.want
          && have.value in l.remote.tips.Values
          && g.InHistory(have.value))
  }

  lemma NewBundleSound(g: Graph, l: Ledger, p: Push, have: Option<Oid>)
    requires g.Valid() && Sound(g, l) && Covered(g, l, p)
    requires PreviousTarget(l, p) != Some(p.want)
    requires EffectiveHave(g, p.pusher, PreviousTarget(l, p), p.force) == Ok(have)
    ensures NewBundle(g, l, p, have)
  {
    if have.Some? {
      var h := have.value;
      assert h == l.remote.refs[p.dst] && h in l.remote.refs.Values;
      if p.want in Reach(g, h) {
        ReachDescends(g, h, p.want);
        ReachDescends(g, p.want, h);
      }
      if g.IsTag(p.want) {
        PackTagClosedIff(g, h, p.want);
      } else {
        PackWithoutTags(g, have, p.want);
      }
    } else {
      PackWithoutTags(g, have, p.want);
    }
  }

  lemma {:induction false} ReplaySound(g: Graph, pushes: seq<Push>)
    requires g.Valid() && CoveredRun(g, pushes)
    ensures Sound(g, Replay(g, pushes))
  {
    if pushes != [] {
      var init := pushes[..|pushes| - 1];
      forall i | 0 <= i < |init| ensures Covered(g, Replay(g, init[..i]), init[i]) {
        assert init[..i] == pushes[..i];
      }
      ReplaySound(g, init);
      PushKeepsSound(g, Replay(g, init), pushes[|pushes| - 1]);
    }
  }
}
