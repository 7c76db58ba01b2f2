/** Single pushes after which a clone never ends, or ends well without the
    commits it asked for. */
module PushHazards {
  import opened Octets
  import opened CommitGraph
  import opened Fetch
  import opened FetchRounds
  import opened PushHistory
  import opened Delivery

  /** `p` is published, its pack cut against `have`. */
  ghost predicate PublishedOver(g: Graph, l: Ledger, p: Push, have: Option<Oid>)
    requires g.Valid()
  {
    Published(g, l, p) && EffectiveHave(g, p.pusher, PreviousTarget(l, p), p.force) == Ok(have)
  }

  /** All that a clone needs can be downloaded, and lies within the graph. */
  ghost predicate Standing(g: Graph, l: Ledger) {
    AllServed(l.remote, l.packs) && Clone(g, l, {}).Valid()
  }

  lemma StillStanding(g: Graph, l: Ledger, p: Push, have: Option<Oid>)
    requires g.Valid() && Standing(g, l) && PublishedOver(g, l, p, have) && Reach(g, p.want) <= g.objects.Keys
    ensures Standing(g, Apply(g, l, p)) && forall seeds :: Clone(g, Apply(g, l, p), seeds).Valid()
    ensures Apply(g, l, p) == Pushed(l, p, have, PackContents(g, have, p.want))
  {
  }

  // ----- a download loop that cannot end -----

  /** From a contract on which every fetch ends, a push leads to another such
      contract exactly when the pushed commit was not behind what its pack was
      cut against. */
  lemma PushEndsIff(g: Graph, l: Ledger, p: Push, have: Option<Oid>)
    requires g.Valid() && Standing(g, l) && EveryFetchEnds(g, l.remote, l.packs)
    requires PublishedOver(g, l, p, have) && Reach(g, p.want) <= g.objects.Keys
    ensures EveryFetchEnds(g, Apply(g, l, p).remote, Apply(g, l, p).packs) <==>
              have.None? || p.want !in Reach(g, have.value)
  {
    var l' := Apply(g, l, p);
    StillStanding(g, l, p, have);
    EveryFetchEndsIff(g, l.remote, l.packs);
    EveryFetchEndsIff(g, l'.remote, l'.packs);
    if have.Some? {
      TipInPackIff(g, have.value, p.want);
    }
    assert p.want in Reach(g, p.want);
    assert TipsInstalled(l'.remote.tips, l'.packs) <==> p.want in l'.packs[p.id] by {
      assert p.id in l'.remote.tips && p.id in l'.packs;
    }
  }

  /** Forcing a ref back to a commit behind its local old tip publishes an
      empty bundle for that commit. A clone of it that uses this bundle finds
      the commit missing in every round, has nothing left to download for it,
      and never ends. */
  lemma RewindSpins(g: Graph, l: Ledger, p: Push, tipIndex: map<Oid, BundleId>)
    requires g.Valid() && Standing(g, l) && Reach(g, p.want) <= g.objects.Keys
    requires p.force && PreviousTarget(l, p).Some? && PreviousTarget(l, p) != Some(p.want)
    requires Peel(g, p.pusher, PreviousTarget(l, p).value).Some?
    requires p.want in Reach(g, PreviousTarget(l, p).value)
    requires IsTipIndex(Apply(g, l, p).remote.tips, tipIndex) && p.want in tipIndex && tipIndex[p.want] == p.id
    ensures Apply(g, l, p).remote.tips[p.id] == p.want && Apply(g, l, p).packs[p.id] == {}
    ensures var job := Clone(g, Apply(g, l, p), {p.want});
            job.Valid() && Exact(job, tipIndex) && !CanEnd(job, tipIndex) && Spins(job, tipIndex, p.id)
  {
    StillStanding(g, l, p, PreviousTarget(l, p));
    TipInPackIff(g, PreviousTarget(l, p).value, p.want);
    var job := Clone(g, Apply(g, l, p), {p.want});
    assert job.remote.tips[p.id] == p.want && job.packs[p.id] == {};
    NeverEnds(job, tipIndex, p.id);
  }

  // ----- an annotated tag over the commit it names -----

  /** Moving a ref from a commit to an annotated tag of that commit ships the
      tag alone; every clone of the tag then reports success without the
      commit. */
  lemma RetagLosesCommit(g: Graph, l: Ledger, p: Push, commit: Oid, tipIndex: map<Oid, BundleId>)
    requires g.Valid() && Standing(g, l) && Reach(g, p.want) <= g.objects.Keys
    requires g.IsTag(p.want) && g.objects[p.want].target == commit && g.IsCommit(commit)
    requires PreviousTarget(l, p) == Some(commit) && commit in p.pusher
    requires IsTipIndex(Apply(g, l, p).remote.tips, tipIndex) && p.want in tipIndex && tipIndex[p.want] == p.id
    ensures Apply(g, l, p).packs[p.id] == {p.want}
    ensures var job := Clone(g, Apply(g, l, p), {p.want});
            && job.Valid() && CanEnd(job, tipIndex) && commit in ReachAll(g, job.seeds)
            && forall outcome, local, downloaded :: FetchResult(job, tipIndex, outcome, local, downloaded) ==>
                 outcome == Done && local == {p.want} && commit !in local
  {
    StillStanding(g, l, p, Some(commit));
    TagAlone(g, p.want, commit);
    SettledAtTip(Clone(g, Apply(g, l, p), {p.want}), tipIndex, p.id);
  }

  lemma TagAlone(g: Graph, tag: Oid, commit: Oid)
    requires g.Valid() && g.IsTag(tag) && g.objects[tag].target == commit && g.IsCommit(commit)
    ensures commit in ReachAll(g, {tag}) && commit != tag
    ensures PackContents(g, Some(commit), tag) == {tag} && Peel(g, {tag}, tag).None?
  {
    assert g.Edges(tag) == {commit} && commit in Reach(g, commit);
    assert Reach(g, tag) == {tag} + Reach(g, commit);
    assert commit in Reach(g, tag);
    if tag in Reach(g, commit) {
      ReachDescends(g, commit, tag);
    }
  }

  /** A clone of one tip that its bundle carries, but not down to a commit:
      whatever else is advertised, it ends well with that bundle alone. */
  lemma SettledAtTip(job: Job, tipIndex: map<Oid, BundleId>, b: BundleId)
    requires job.Valid() && AllServed(job.remote, job.packs) && job.before == {}
    requires IsTipIndex(job.remote.tips, tipIndex) && b in job.remote.tips && job.seeds == {job.remote.tips[b]}
    requires tipIndex[job.remote.tips[b]] == b && job.remote.tips[b] in job.packs[b]
    requires Peel(job.g, job.packs[b], job.remote.tips[b]).None?
    ensures FetchResult(job, tipIndex, Done, job.packs[b], {b})
    ensures forall outcome, local, downloaded :: FetchResult(job, tipIndex, outcome, local, downloaded) ==>
              outcome == Done && local == job.packs[b]
  {
    TipOnly(job, tipIndex, b);
    StopsAt(job, tipIndex, 0);
    forall outcome, local, downloaded | FetchResult(job, tipIndex, outcome, local, downloaded)
      ensures outcome == Done && local == job.packs[b]
    {
      var n := EndsAt(job, tipIndex, outcome, local, downloaded);
      SettledStays(job, tipIndex, 0, n);
    }
  }

  /** Every commit and tag behind the seeds is local. */
  ghost predicate HistoryHeld(g: Graph, seeds: set<Oid>, local: set<Oid>)
    requires g.Valid()
  {
    forall x :: x in ReachAll(g, seeds) && g.InHistory(x) ==> x in local
  }

  /** Every clone that reports success has the history it asked for. */
  ghost predicate SuccessMeansHistory(g: Graph, l: Ledger)
    requires g.Valid()
  {
    forall seeds, tipIndex, local, downloaded |
      && seeds <= l.remote.tips.Values && Clone(g, l, seeds).Valid()
      && FetchResult(Clone(g, l, seeds), tipIndex, Done, local, downloaded) ::
      HistoryHeld(g, seeds, local)
  }

  /** Bundles carry their tips, and nothing but what those reach. */
  ghost predicate PacksBehindTips(g: Graph, l: Ledger)
    requires g.Valid()
  {
    forall b :: b in l.packs && b in l.remote.tips ==>
      l.remote.tips[b] in l.packs[b] && l.packs[b] <= Reach(g, l.remote.tips[b])
  }

  ghost predicate TagsWhole(g: Graph, l: Ledger) {
    forall b :: b in l.packs ==> TagClosed(g, l.packs[b])
  }

  /** Success can be relied on exactly when no pack carries an annotated tag
      without the commit or tag it names. */
  lemma SuccessMeansHistoryIff(g: Graph, l: Ledger)
    requires g.Valid() && Standing(g, l) && PacksBehindTips(g, l)
    ensures SuccessMeansHistory(g, l) <==> TagsWhole(g, l)
  {
    if SuccessMeansHistory(g, l) {
      forall b | b in l.packs ensures TagClosed(g, l.packs[b]) {
        TagGap(g, l, b);
      }
    }
    if TagsWhole(g, l) {
      forall seeds, tipIndex, local, downloaded |
        && seeds <= l.remote.tips.Values && Clone(g, l, seeds).Valid()
        && FetchResult(Clone(g, l, seeds), tipIndex, Done, local, downloaded)
        ensures HistoryHeld(g, seeds, local)
      {
        forall x | x in ReachAll(g, seeds) && g.InHistory(x) ensures x in local {
          FetchedHistory(Clone(g, l, seeds), tipIndex, local, downloaded, x);
        }
      }
    }
  }

  /** A tag shipped without what it names makes a clone succeed without it. */
  lemma TagGap(g: Graph, l: Ledger, b: BundleId)
    requires g.Valid() && Standing(g, l) && PacksBehindTips(g, l) && SuccessMeansHistory(g, l)
    requires b in l.packs
    ensures TagClosed(g, l.packs[b])
  {
    var t, local := l.remote.tips[b], l.packs[b];
    forall x | x in local && g.IsTag(x) && g.InHistory(g.objects[x].target) ensures g.objects[x].target in local {
      if g.objects[x].target !in local {
        PeelStopsAtGap(g, local, t, x);
        var tipIndex := Preferring(l.remote.tips, {b});
        SettledAtTip(Clone(g, l, {t}), tipIndex, b);
        assert HistoryHeld(g, {t}, local);
        TargetReached(g, t, x);
      }
    }
  }

  lemma TargetReached(g: Graph, t: Oid, x: Oid)
    requires g.Valid() && g.IsTag(x) && x in Reach(g, t)
    ensures g.objects[x].target in ReachAll(g, {t})
  {
    var target := g.objects[x].target;
    assert target in g.Edges(x) && target in Reach(g, target) && target in Reach(g, x);
    ReachTransitive(g, t, x);
  }

  lemma {:induction false} PeelStopsAtGap(g: Graph, local: set<Oid>, o: Oid, x: Oid)
    requires g.Valid() && x in Reach(g, o) && g.IsTag(x) && g.objects[x].target !in local
    ensures Peel(g, local, o).None?
    decreases g.height(o)
  {
    TagsReachedByTags(g, o, x);
    if x != o {
      var e :| e in g.Edges(o) && x in Reach(g, e);
      PeelStopsAtGap(g, local, e, x);
    }
  }

  /** Which pushes keep success reliable: all but those of an annotated tag
      cut against a commit that its chain of tags leads to. */
  lemma PushKeepsHistoryIff(g: Graph, l: Ledger, p: Push, have: Option<Oid>)
    requires g.Valid() && Standing(g, l) && PacksBehindTips(g, l) && SuccessMeansHistory(g, l)
    requires PublishedOver(g, l, p, have) && Reach(g, p.want) <= g.objects.Keys
    requires have.Some? ==> p.want !in Reach(g, have.value)
    ensures PacksBehindTips(g, Apply(g, l, p))
    ensures SuccessMeansHistory(g, Apply(g, l, p)) <==>
              !(g.IsTag(p.want) && have.Some? && Base(g, p.want) in Reach(g, have.value))
  {
    var l' := Apply(g, l, p);
    StillStanding(g, l, p, have);
    assert p.want in Reach(g, p.want);
    SuccessMeansHistoryIff(g, l);
    SuccessMeansHistoryIff(g, l');
    if g.IsTag(p.want) && have.Some? {
      PackTagClosedIff(g, have.value, p.want);
    } else {
      PackWithoutTags(g, have, p.want);
    }
    NewPackTags(g, l, p, have);
  }

  lemma NewPackTags(g: Graph, l: Ledger, p: Push, have: Option<Oid>)
    requires g.Valid() && TagsWhole(g, l)
    ensures var contents := PackContents(g, have, p.want);
            TagsWhole(g, Pushed(l, p, have, contents)) <==> TagClosed(g, contents)
  {
    var contents := PackContents(g, have, p.want);
    var l' := Pushed(l, p, have, contents);
    assert p.id in l'.packs && l'.packs[p.id] == contents;
  }
}
