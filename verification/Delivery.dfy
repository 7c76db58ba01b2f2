/** When a fresh clone of a pushed contract receives everything it asked for. */
module Delivery {
  import opened Octets
  import opened CommitGraph
  import opened Fetch
  import opened FetchRounds
  import opened PushHistory

  /** A fetch into an empty store. */
  ghost function Clone(g: Graph, l: Ledger, seeds: set<Oid>): Job {
    Job(g, l.remote, l.packs, seeds, {})
  }

  /** Whatever advertised commits are asked for, and whichever bundle stands
      for a shared tip, the fetch ends well with every object they reach. */
  ghost predicate EveryCloneDelivers(g: Graph, l: Ledger)
    requires g.Valid() && Sound(g, l)
  {
    CloneJobValid(g, l);
    forall seeds, tipIndex, outcome, local, downloaded |
      && seeds <= l.remote.tips.Values
      && FetchResult(Clone(g, l, seeds), tipIndex, outcome, local, downloaded) ::
      outcome.Done? && ReachAll(g, seeds) <= local
  }

  /** A choice of bundles, one per tip, that is not complete although no
      commit missing from it is advertised. */
  ghost predicate Trap(g: Graph, l: Ledger, d: set<BundleId>)
    requires g.Valid()
  {
    && OnePerTip(l.remote.tips, d)
    && Missing(g, PackUnion(l.packs, d), Roots(l.remote, d)) !! l.remote.tips.Values
    && !(ReachAll(g, Roots(l.remote, d)) <= PackUnion(l.packs, d))
  }

  lemma CloneJobValid(g: Graph, l: Ledger)
    requires g.Valid() && Sound(g, l)
    ensures forall seeds :: Clone(g, l, seeds).Valid() && Clone(g, l, seeds).TagsComplete()
    ensures TipsInstalled(l.remote.tips, l.packs) && AllServed(l.remote, l.packs) && Legacy(l.remote) == {}
  {
    forall b | b in l.packs ensures l.packs[b] <= g.objects.Keys && TagClosed(g, l.packs[b]) {
      assert BundleSound(g, l, b);
    }
    forall b | b in l.remote.tips ensures l.remote.tips[b] in l.packs[b] {
      assert BundleSound(g, l, b);
    }
  }

  lemma CloneLocal(g: Graph, l: Ledger, seeds: set<Oid>, d: set<BundleId>)
    ensures Clone(g, l, seeds).Local(d) == PackUnion(l.packs, d)
  {
  }

  // ----- any fetch, into any store -----

  /** Fetch safety: a fetch that ends well has the whole commit history of
      every commit and tag it was asked for. */
  lemma FetchedHistory(job: Job, tipIndex: map<Oid, BundleId>, local: set<Oid>, downloaded: set<BundleId>, x: Oid)
    requires job.Valid() && job.TagsComplete() && FetchResult(job, tipIndex, Done, local, downloaded)
    requires x in ReachAll(job.g, job.seeds) && job.g.InHistory(x)
    ensures x in local
  {
    LocalKnown(job, downloaded);
    var n: nat :| EndsInRound(job, tipIndex, Done, downloaded, n);
    var s :| s in job.seeds && x in Reach(job.g, s);
    forall v | v in Visible(job.g, local, s) ensures v in local {
      assert v in VisibleAll(job.g, local, job.seeds);
      assert v !in Missing(job.g, local, job.seeds);
    }
    NothingMissing(job.g, local, s, x);
  }

  // ----- no trap: every clone delivers -----

  lemma NoTrapDelivers(g: Graph, l: Ledger, seeds: set<Oid>, tipIndex: map<Oid, BundleId>,
                       outcome: FetchOutcome, local: set<Oid>, downloaded: set<BundleId>)
    requires g.Valid() && Sound(g, l) && Clone(g, l, seeds).Valid()
    requires seeds <= l.remote.tips.Values
    requires FetchResult(Clone(g, l, seeds), tipIndex, outcome, local, downloaded)
    requires !Trap(g, l, downloaded)
    ensures outcome.Done? && ReachAll(g, seeds) <= local
  {
    CloneJobValid(g, l);
    StoppedState(Clone(g, l, seeds), tipIndex, outcome, local, downloaded);
    CloneLocal(g, l, seeds, downloaded);
    ConvergedComplete(g, local, seeds, Roots(l.remote, downloaded), l.remote.tips.Values);
  }

  /** Where a fetch stops when every bundle is tipped and can be downloaded. */
  lemma StoppedState(job: Job, tipIndex: map<Oid, BundleId>,
                     outcome: FetchOutcome, local: set<Oid>, downloaded: set<BundleId>)
    requires job.Valid() && job.TagsComplete() && AllServed(job.remote, job.packs)
    requires job.seeds <= job.remote.tips.Values
    requires FetchResult(job, tipIndex, outcome, local, downloaded)
    ensures OnePerTip(job.remote.tips, downloaded)
    ensures job.seeds <= Roots(job.remote, downloaded) <= VisibleAll(job.g, local, job.seeds)
    ensures Missing(job.g, local, job.seeds) !! job.remote.tips.Values
    ensures outcome.Done? <==> Missing(job.g, local, job.seeds) == {}
  {
    var n := EndsAt(job, tipIndex, outcome, local, downloaded);
    RoundsVisible(job, tipIndex, n);
    DownloadsOnePerTip(job, tipIndex, downloaded);
    SeedsAreRoots(job, tipIndex, downloaded);
  }

  /** A stuck or finished clone outside every trap has everything. */
  lemma ConvergedComplete(g: Graph, local: set<Oid>, seeds: set<Oid>, roots: set<Oid>, tips: set<Oid>)
    requires g.Valid() && seeds <= roots <= VisibleAll(g, local, seeds)
    requires Missing(g, local, seeds) !! tips
    requires Missing(g, local, roots) !! tips ==> ReachAll(g, roots) <= local
    ensures ReachAll(g, seeds) <= local && Missing(g, local, seeds) == {}
  {
    SameMissing(g, local, seeds, roots);
    ReachAllMonotone(g, seeds, roots);
    assert ReachAll(g, seeds) <= local;
    NothingBeyond(g, local, seeds);
  }

  lemma SameMissing(g: Graph, local: set<Oid>, seeds: set<Oid>, roots: set<Oid>)
    requires g.Valid() && seeds <= roots <= VisibleAll(g, local, seeds)
    ensures Missing(g, local, roots) == Missing(g, local, seeds)
  {
    VisibleFromSeeds(g, local, seeds, roots);
  }

  lemma NothingBeyond(g: Graph, local: set<Oid>, seeds: set<Oid>)
    requires g.Valid() && ReachAll(g, seeds) <= local
    ensures Missing(g, local, seeds) == {}
  {
    VisibleAllReach(g, local, seeds);
  }

  lemma DownloadsOnePerTip(job: Job, tipIndex: map<Oid, BundleId>, downloaded: set<BundleId>)
    requires job.Valid() && Legacy(job.remote) == {} && Accounted(job, tipIndex, downloaded)
    ensures OnePerTip(job.remote.tips, downloaded)
  {
    forall b | b in downloaded
      ensures b in job.remote.tips && job.remote.tips[b] in tipIndex && tipIndex[job.remote.tips[b]] == b
    {
      assert b !in Legacy(job.remote) && Needed(job, tipIndex, b);
    }
  }

  lemma SeedsAreRoots(job: Job, tipIndex: map<Oid, BundleId>, downloaded: set<BundleId>)
    requires IsTipIndex(job.remote.tips, tipIndex) && TipBundles(tipIndex, job.seeds) <= downloaded
    requires job.seeds <= job.remote.tips.Values
    ensures job.seeds <= Roots(job.remote, downloaded)
  {
    forall s | s in job.seeds ensures s in Roots(job.remote, downloaded) {
      assert s in tipIndex && tipIndex[s] in TipBundles(tipIndex, job.seeds);
    }
  }

  lemma ReachAllMonotone(g: Graph, a: set<Oid>, b: set<Oid>)
    requires g.Valid() && a <= b
    ensures ReachAll(g, a) <= ReachAll(g, b)
  {
  }

  // ----- a trap: some clone does not deliver -----

  /** Asked for exactly the tips of `d`, with its bundles standing for them,
      a clone downloads `d` first. */
  lemma SeedRound(g: Graph, l: Ledger, d: set<BundleId>, tipIndex: map<Oid, BundleId>)
    requires g.Valid() && Sound(g, l) && Clone(g, l, Roots(l.remote, d)).Valid()
    requires IsTipIndex(l.remote.tips, tipIndex) && d <= l.remote.tips.Keys && Prefers(l.remote.tips, tipIndex, d)
    ensures Rounds(Clone(g, l, Roots(l.remote, d)), tipIndex, 0) == d <= l.packs.Keys
    ensures Roots(l.remote, d) <= l.remote.tips.Values
  {
    var seeds := Roots(l.remote, d);
    forall b | b in d ensures b in TipBundles(tipIndex, seeds) {
      assert l.remote.tips[b] in seeds;
    }
    forall b | b in TipBundles(tipIndex, seeds) ensures b in d {
      var s :| s in seeds && s in tipIndex && tipIndex[s] == b;
      var b' :| b' in d && l.remote.tips[b'] == s;
    }
    assert Legacy(l.remote) + d == d;
  }

  lemma TrapSettles(g: Graph, l: Ledger, d: set<BundleId>, tipIndex: map<Oid, BundleId>)
    requires g.Valid() && Sound(g, l) && Trap(g, l, d) && Clone(g, l, Roots(l.remote, d)).Valid()
    requires IsTipIndex(l.remote.tips, tipIndex) && d <= l.remote.tips.Keys && Prefers(l.remote.tips, tipIndex, d)
    ensures Settled(Clone(g, l, Roots(l.remote, d)), tipIndex, 0)
  {
    SeedRound(g, l, d, tipIndex);
    CloneLocal(g, l, Roots(l.remote, d), d);
  }

  lemma TrapDefeatsClone(g: Graph, l: Ledger, d: set<BundleId>)
    returns (tipIndex: map<Oid, BundleId>, outcome: FetchOutcome)
    requires g.Valid() && Sound(g, l) && Clone(g, l, Roots(l.remote, d)).Valid() && Trap(g, l, d)
    ensures Roots(l.remote, d) <= l.remote.tips.Values
    ensures FetchResult(Clone(g, l, Roots(l.remote, d)), tipIndex, outcome, PackUnion(l.packs, d), d)
  {
    var job := Clone(g, l, Roots(l.remote, d));
    tipIndex := Preferring(l.remote.tips, d);
    SeedRound(g, l, d, tipIndex);
    TrapSettles(g, l, d, tipIndex);
    StopsAt(job, tipIndex, 0);
    outcome := Ending(job, d);
    CloneLocal(g, l, Roots(l.remote, d), d);
  }

  /** Asked for exactly the tips of a trap, with the trap's bundles standing
      for them, every fetch ends with that trap and nothing more: it bails, or
      it reports success with objects missing. */
  lemma TrapAlwaysDefeats(g: Graph, l: Ledger, d: set<BundleId>, tipIndex: map<Oid, BundleId>,
                          outcome: FetchOutcome, local: set<Oid>, downloaded: set<BundleId>)
    requires g.Valid() && Sound(g, l) && Trap(g, l, d) && Clone(g, l, Roots(l.remote, d)).Valid()
    requires d <= l.remote.tips.Keys && Prefers(l.remote.tips, tipIndex, d)
    requires FetchResult(Clone(g, l, Roots(l.remote, d)), tipIndex, outcome, local, downloaded)
    ensures downloaded == d && local == PackUnion(l.packs, d)
    ensures outcome == Ending(Clone(g, l, Roots(l.remote, d)), d)
    ensures !(ReachAll(g, Roots(l.remote, d)) <= local)
  {
    var job := Clone(g, l, Roots(l.remote, d));
    CloneJobValid(g, l);
    SeedRound(g, l, d, tipIndex);
    TrapSettles(g, l, d, tipIndex);
    var n := EndsAt(job, tipIndex, outcome, local, downloaded);
    SettledStays(job, tipIndex, 0, n);
    CloneLocal(g, l, Roots(l.remote, d), d);
  }

  /** The exact condition under which clones of a pushed contract work. */
  lemma CloneDeliversIff(g: Graph, l: Ledger)
    requires g.Valid() && Sound(g, l)
    ensures EveryCloneDelivers(g, l) <==> forall d :: !Trap(g, l, d)
  {
    CloneJobValid(g, l);
    if EveryCloneDelivers(g, l) {
      forall d ensures !Trap(g, l, d) {
        if Trap(g, l, d) {
          var tipIndex, outcome := TrapDefeatsClone(g, l, d);
        }
      }
    }
    if forall d :: !Trap(g, l, d) {
      forall seeds, tipIndex, outcome, local, downloaded |
        && seeds <= l.remote.tips.Values
        && FetchResult(Clone(g, l, seeds), tipIndex, outcome, local, downloaded)
        ensures outcome.Done? && ReachAll(g, seeds) <= local
      {
        NoTrapDelivers(g, l, seeds, tipIndex, outcome, local, downloaded);
      }
    }
  }

  // ----- clones of current refs -----

  /** As `EveryCloneDelivers`, for targets of current refs only. */
  ghost predicate EveryRefCloneDelivers(g: Graph, l: Ledger)
    requires g.Valid() && Sound(g, l)
  {
    CloneJobValid(g, l);
    forall seeds, tipIndex, outcome, local, downloaded |
      && seeds <= l.remote.refs.Values
      && FetchResult(Clone(g, l, seeds), tipIndex, outcome, local, downloaded) ::
      outcome.Done? && ReachAll(g, seeds) <= local
  }

  /** Some fetch of current refs has downloaded just `d` after some rounds. */
  ghost predicate Grown(g: Graph, l: Ledger, d: set<BundleId>)
    requires g.Valid() && Sound(g, l)
  {
    CloneJobValid(g, l);
    exists seeds, tipIndex, n: nat ::
      && seeds <= l.remote.refs.Values && IsTipIndex(l.remote.tips, tipIndex)
      && d == Rounds(Clone(g, l, seeds), tipIndex, n)
  }

  lemma GrownTrapStops(g: Graph, l: Ledger, seeds: set<Oid>, tipIndex: map<Oid, BundleId>, n: nat)
    requires g.Valid() && Sound(g, l) && seeds <= l.remote.refs.Values && IsTipIndex(l.remote.tips, tipIndex)
    requires Clone(g, l, seeds).Valid() && Trap(g, l, Rounds(Clone(g, l, seeds), tipIndex, n))
    ensures Settled(Clone(g, l, seeds), tipIndex, n)
    ensures !(ReachAll(g, seeds) <= PackUnion(l.packs, Rounds(Clone(g, l, seeds), tipIndex, n)))
  {
    var job := Clone(g, l, seeds);
    var d := Rounds(job, tipIndex, n);
    var local, roots := PackUnion(l.packs, d), Roots(l.remote, d);
    CloneLocal(g, l, seeds, d);
    RoundsVisible(job, tipIndex, n);
    RoundsGrow(job, tipIndex, 0, n);
    SeedsAreRoots(job, tipIndex, d);
    SeedsMissToo(g, local, seeds, roots);
  }

  /** What the walk from the seeds comes across reaches no more than they do. */
  lemma SeedsMissToo(g: Graph, local: set<Oid>, seeds: set<Oid>, roots: set<Oid>)
    requires g.Valid() && seeds <= roots <= VisibleAll(g, local, seeds)
    ensures Missing(g, local, roots) == Missing(g, local, seeds)
    ensures ReachAll(g, seeds) <= local ==> ReachAll(g, roots) <= local
  {
    SameMissing(g, local, seeds, roots);
    VisibleAllReach(g, local, seeds);
    Chain(roots, VisibleAll(g, local, seeds), ReachAll(g, seeds));
    ReachAllTwice(g, seeds, roots);
    if ReachAll(g, seeds) <= local {
      Chain(ReachAll(g, roots), ReachAll(g, seeds), local);
    }
  }

  lemma Chain<T>(a: set<T>, b: set<T>, c: set<T>)
    requires a <= b <= c
    ensures a <= c
  {
  }

  lemma ReachAllTwice(g: Graph, a: set<Oid>, b: set<Oid>)
    requires g.Valid() && b <= ReachAll(g, a)
    ensures ReachAll(g, b) <= ReachAll(g, a)
  {
    forall o | o in b ensures Reach(g, o) <= ReachAll(g, a) {
      var s :| s in a && o in Reach(g, s);
      ReachTransitive(g, s, o);
    }
  }

  lemma GrownTrapDefeats(g: Graph, l: Ledger, seeds: set<Oid>, tipIndex: map<Oid, BundleId>, n: nat)
    requires g.Valid() && Sound(g, l) && seeds <= l.remote.refs.Values && IsTipIndex(l.remote.tips, tipIndex)
    requires Clone(g, l, seeds).Valid() && Trap(g, l, Rounds(Clone(g, l, seeds), tipIndex, n))
    ensures !EveryRefCloneDelivers(g, l)
  {
    var job := Clone(g, l, seeds);
    CloneJobValid(g, l);
    GrownTrapStops(g, l, seeds, tipIndex, n);
    var m := FirstSettled(job, tipIndex, n);
    SettledStays(job, tipIndex, m, n);
    RoundsAdvertised(job, tipIndex, m);
    StopsAt(job, tipIndex, m);
    CloneLocal(g, l, seeds, Rounds(job, tipIndex, m));
  }

  lemma RefDownloadsGrown(g: Graph, l: Ledger, seeds: set<Oid>, tipIndex: map<Oid, BundleId>,
                          outcome: FetchOutcome, local: set<Oid>, downloaded: set<BundleId>)
    requires g.Valid() && Sound(g, l) && seeds <= l.remote.refs.Values && Clone(g, l, seeds).Valid()
    requires FetchResult(Clone(g, l, seeds), tipIndex, outcome, local, downloaded)
    ensures Grown(g, l, downloaded)
  {
    CloneJobValid(g, l);
    var n := EndsAt(Clone(g, l, seeds), tipIndex, outcome, local, downloaded);
  }

  /** The exact condition under which clones of current refs work: the traps
      that count are those a fetch of current refs can grow into. */
  lemma CloneOfRefsIff(g: Graph, l: Ledger)
    requires g.Valid() && Sound(g, l)
    ensures EveryRefCloneDelivers(g, l) <==> forall d :: Grown(g, l, d) ==> !Trap(g, l, d)
  {
    CloneJobValid(g, l);
    if EveryRefCloneDelivers(g, l) {
      forall d | Grown(g, l, d) ensures !Trap(g, l, d) {
        var seeds, tipIndex, n: nat :|
          && seeds <= l.remote.refs.Values && IsTipIndex(l.remote.tips, tipIndex)
          && d == Rounds(Clone(g, l, seeds), tipIndex, n);
        if Trap(g, l, d) {
          GrownTrapDefeats(g, l, seeds, tipIndex, n);
        }
      }
    }
    if forall d :: Grown(g, l, d) ==> !Trap(g, l, d) {
      forall seeds, tipIndex, outcome, local, downloaded |
        && seeds <= l.remote.refs.Values
        && FetchResult(Clone(g, l, seeds), tipIndex, outcome, local, downloaded)
        ensures outcome.Done? && ReachAll(g, seeds) <= local
      {
        RefDownloadsGrown(g, l, seeds, tipIndex, outcome, local, downloaded);
        NoTrapDelivers(g, l, seeds, tipIndex, outcome, local, downloaded);
      }
    }
  }

  // ----- a condition a pusher can check -----

  /** `b` was cut against a commit that `b'` carries. */
  ghost predicate CutInside(l: Ledger, b: BundleId, b': BundleId) {
    && b in l.haves && l.haves[b].Some? && b' in l.packs && b' in l.remote.tips
    && l.haves[b].value in l.packs[b']
  }

  /** `b'` carries the commit that `b` was cut against, but not all of what
      lies below it. */
  ghost predicate CutOpen(g: Graph, l: Ledger, b: BundleId, b': BundleId)
    requires g.Valid()
  {
    CutInside(l, b, b') && !(Reach(g, l.haves[b].value) <= l.packs[b'])
  }

  /** Open cuts only lead down: first by `major`, then by `minor`. */
  ghost predicate Ranked(g: Graph, l: Ledger, major: BundleId -> nat, minor: BundleId -> nat)
    requires g.Valid()
  {
    forall b, b' {:trigger CutOpen(g, l, b, b')} ::
      CutOpen(g, l, b, b') ==> major(b') < major(b) || (major(b') == major(b) && minor(b') < minor(b))
  }

  /** No cycle of open cuts. */
  ghost predicate CutsOrdered(g: Graph, l: Ledger)
    requires g.Valid()
  {
    exists major, minor :: Ranked(g, l, major, minor)
  }

  /** The walk from a downloaded bundle always comes across the commit the
      bundle was cut against. */
  lemma {:induction false} HaveVisible(g: Graph, local: set<Oid>, want: Oid, have: Oid, x: Oid)
    requires g.Valid() && g.InHistory(have)
    requires TagClosed(g, PackContents(g, Some(have), want)) && PackContents(g, Some(have), want) <= local
    requires x in PackContents(g, Some(have), want) && have in Reach(g, x)
    ensures have in Visible(g, local, x)
    decreases g.height(x)
  {
    var e :| e in g.Edges(x) && have in Reach(g, e);
    assert e in Reach(g, e) && e in Reach(g, x);
    ReachTransitive(g, want, x);
    if e == have {
      assert !g.IsTag(x);
      assert e in WalkEdges(g, local, x) && e in Visible(g, local, e);
    } else {
      if e in Reach(g, have) {
        ReachDescends(g, e, have);
        ReachDescends(g, have, e);
      }
      HaveVisible(g, local, want, have, e);
      if g.IsCommit(x) {
        if e !in g.objects[x].parents {
          TreeReachesTrees(g, e, have);
        }
        assert e in WalkEdges(g, local, x);
      } else if g.IsTree(x) {
        TreeReachesTrees(g, x, have);
      } else {
        assert WalkEdges(g, local, x) == WalkEdges(g, local, e);
      }
    }
  }

  lemma {:induction false} BundleComplete(g: Graph, l: Ledger, major: BundleId -> nat, minor: BundleId -> nat,
                                          d: set<BundleId>, b: BundleId)
    requires g.Valid() && Sound(g, l) && Ranked(g, l, major, minor)
    requires d <= l.remote.tips.Keys && b in d
    requires Missing(g, PackUnion(l.packs, d), Roots(l.remote, d)) !! l.remote.tips.Values
    ensures Reach(g, l.remote.tips[b]) <= PackUnion(l.packs, d)
    decreases major(b), minor(b)
  {
    assert BundleSound(g, l, b);
    if l.haves[b].Some? {
      var b' := HaveDownloaded(g, l, d, b);
      var have := l.haves[b].value;
      if CutOpen(g, l, b, b') {
        BundleComplete(g, l, major, minor, d, b');
        assert BundleSound(g, l, b');
        ReachTransitive(g, l.remote.tips[b'], have);
      } else {
        Delivered(l.packs, d, b');
      }
    }
    Delivered(l.packs, d, b);
  }

  lemma Delivered(packs: Packs, d: set<BundleId>, b: BundleId)
    requires b in d && b in packs
    ensures packs[b] <= PackUnion(packs, d)
  {
  }

  /** The commit a downloaded bundle was cut against is in another one. */
  lemma HaveDownloaded(g: Graph, l: Ledger, d: set<BundleId>, b: BundleId) returns (b': BundleId)
    requires g.Valid() && Sound(g, l) && d <= l.remote.tips.Keys && b in d
    requires BundleSound(g, l, b) && l.haves[b].Some?
    requires Missing(g, PackUnion(l.packs, d), Roots(l.remote, d)) !! l.remote.tips.Values
    ensures b' in d && CutInside(l, b, b')
  {
    var local, want, have := PackUnion(l.packs, d), l.remote.tips[b], l.haves[b].value;
    assert l.packs[b] <= local;
    HaveVisible(g, local, want, have, want);
    assert want in Roots(l.remote, d) && have in VisibleAll(g, local, Roots(l.remote, d));
    assert have in local;
    b' :| b' in d && b' in l.packs && have in l.packs[b'];
  }

  lemma OrderedHasNoTrap(g: Graph, l: Ledger, d: set<BundleId>)
    requires g.Valid() && Sound(g, l) && CutsOrdered(g, l)
    ensures !Trap(g, l, d)
  {
    var major, minor :| Ranked(g, l, major, minor);
    if Trap(g, l, d) {
      forall t | t in Roots(l.remote, d) ensures Reach(g, t) <= PackUnion(l.packs, d) {
        var b :| b in d && l.remote.tips[b] == t;
        BundleComplete(g, l, major, minor, d, b);
      }
    }
  }

  lemma OrderedDelivers(g: Graph, l: Ledger)
    requires g.Valid() && Sound(g, l) && CutsOrdered(g, l)
    ensures EveryCloneDelivers(g, l)
  {
    forall d ensures !Trap(g, l, d) {
      OrderedHasNoTrap(g, l, d);
    }
    CloneDeliversIff(g, l);
  }

  /** A clone asked for nothing receives all that any current ref reaches,
      and a clone asked for some targets all that those reach. */
  lemma CloneOfAll(g: Graph, pushes: seq<Push>, wants: set<Oid>, tipIndex: map<Oid, BundleId>,
                   outcome: FetchOutcome, local: set<Oid>, downloaded: set<BundleId>)
    requires g.Valid() && CoveredRun(g, pushes) && CutsOrdered(g, Replay(g, pushes))
    requires wants <= Replay(g, pushes).remote.refs.Values
    requires Clone(g, Replay(g, pushes), Seeds(Replay(g, pushes).remote, wants)).Valid()
    requires FetchResult(Clone(g, Replay(g, pushes), Seeds(Replay(g, pushes).remote, wants)),
                         tipIndex, outcome, local, downloaded)
    ensures outcome == Done
    ensures wants == {} ==>
              var refs := Replay(g, pushes).remote.refs; forall dst :: dst in refs ==> Reach(g, refs[dst]) <= local
    ensures forall w :: w in wants ==> Reach(g, w) <= local
  {
    ClonedAfterPushes(g, pushes, wants, tipIndex, outcome, local, downloaded);
    var refs, seeds := Replay(g, pushes).remote.refs, Seeds(Replay(g, pushes).remote, wants);
    forall s | s in seeds ensures Reach(g, s) <= local {
      Chain(Reach(g, s), ReachAll(g, seeds), local);
    }
    assert wants == {} ==> forall dst :: dst in refs ==> refs[dst] in seeds;
  }

  /** A clone asked for some targets downloads nothing else. */
  lemma CloneOfSome(g: Graph, l: Ledger, wants: set<Oid>, tipIndex: map<Oid, BundleId>,
                    outcome: FetchOutcome, local: set<Oid>, downloaded: set<BundleId>)
    requires g.Valid() && Sound(g, l) && wants != {} && Clone(g, l, Seeds(l.remote, wants)).Valid()
    requires FetchResult(Clone(g, l, Seeds(l.remote, wants)), tipIndex, outcome, local, downloaded)
    ensures OnlyFor(g, l, wants, downloaded)
  {
    CloneJobValid(g, l);
    DownloadedReached(Clone(g, l, Seeds(l.remote, wants)), tipIndex, downloaded);
  }

  /** Nothing is downloaded whose tip the wanted objects do not reach. */
  ghost predicate OnlyFor(g: Graph, l: Ledger, wants: set<Oid>, downloaded: set<BundleId>)
    requires g.Valid()
  {
    forall b :: b in downloaded ==> b in l.remote.tips && l.remote.tips[b] in ReachAll(g, wants)
  }

  lemma DownloadedReached(job: Job, tipIndex: map<Oid, BundleId>, downloaded: set<BundleId>)
    requires job.Valid() && Legacy(job.remote) == {} && Accounted(job, tipIndex, downloaded)
    ensures forall b :: b in downloaded ==>
              b in job.remote.tips && job.remote.tips[b] in ReachAll(job.g, job.seeds)
  {
    forall b | b in downloaded ensures b in job.remote.tips && job.remote.tips[b] in ReachAll(job.g, job.seeds) {
      assert b !in Legacy(job.remote) && Needed(job, tipIndex, b);
    }
  }

  /** End to end: pushes, then a clone of any current refs. */
  lemma ClonedAfterPushes(g: Graph, pushes: seq<Push>, wants: set<Oid>, tipIndex: map<Oid, BundleId>,
                          outcome: FetchOutcome, local: set<Oid>, downloaded: set<BundleId>)
    requires g.Valid() && CoveredRun(g, pushes)
    requires CutsOrdered(g, Replay(g, pushes))
    requires wants <= Replay(g, pushes).remote.refs.Values
    requires Clone(g, Replay(g, pushes), Seeds(Replay(g, pushes).remote, wants)).Valid()
    requires FetchResult(Clone(g, Replay(g, pushes), Seeds(Replay(g, pushes).remote, wants)),
                         tipIndex, outcome, local, downloaded)
    ensures outcome.Done? && ReachAll(g, Seeds(Replay(g, pushes).remote, wants)) <= local
  {
    var l := Replay(g, pushes);
    ReplaySound(g, pushes);
    OrderedHasNoTrap(g, l, downloaded);
    NoTrapDelivers(g, l, Seeds(l.remote, wants), tipIndex, outcome, local, downloaded);
  }
}
