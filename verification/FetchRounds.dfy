/** What the rounds of a fetch come to: where it stops, and when it never does. */
module FetchRounds {
  import opened Octets
  import opened CommitGraph
  import opened Fetch

  /** How a fetch ends that settles once `d` is installed. */
  ghost function Ending(job: Job, d: set<BundleId>): FetchOutcome
    requires job.Valid()
  {
    var missing := StillMissing(job, d);
    if missing == {} then Done else CannotConverge(missing)
  }

  /** Every bundle is advertised under a tip and can be downloaded. */
  ghost predicate AllServed(remote: Remote, packs: Packs) {
    remote.index == remote.tips.Keys == packs.Keys
  }

  lemma {:induction false} RoundsGrow(job: Job, tipIndex: map<Oid, BundleId>, m: nat, n: nat)
    requires job.Valid() && m <= n
    ensures Rounds(job, tipIndex, m) <= Rounds(job, tipIndex, n)
  {
    if m < n {
      RoundsGrow(job, tipIndex, m, n - 1);
    }
  }

  /** Once settled, nothing more is downloaded. */
  lemma {:induction false} SettledStays(job: Job, tipIndex: map<Oid, BundleId>, m: nat, n: nat)
    requires job.Valid() && m <= n && Settled(job, tipIndex, m)
    ensures Rounds(job, tipIndex, n) == Rounds(job, tipIndex, m) && Settled(job, tipIndex, n)
  {
    if m < n {
      SettledStays(job, tipIndex, m, n - 1);
      assert TipBundles(tipIndex, StillMissing(job, Rounds(job, tipIndex, n - 1))) == {};
    }
  }

  lemma {:induction false} FirstSettled(job: Job, tipIndex: map<Oid, BundleId>, n: nat) returns (m: nat)
    requires job.Valid() && Settled(job, tipIndex, n)
    ensures m <= n && Settled(job, tipIndex, m) && Open(job, tipIndex, m)
  {
    if j: nat :| j < n && Settled(job, tipIndex, j) {
      m := FirstSettled(job, tipIndex, j);
    } else {
      m := n;
    }
  }

  lemma LocalGrows(job: Job, a: set<BundleId>, b: set<BundleId>)
    requires a <= b
    ensures job.Local(a) <= job.Local(b)
  {
  }

  /** The walk from the seeds comes across the tip of every bundle downloaded. */
  lemma {:induction false} RoundsVisible(job: Job, tipIndex: map<Oid, BundleId>, n: nat)
    requires job.Valid() && IsTipIndex(job.remote.tips, tipIndex)
    ensures Roots(job.remote, Rounds(job, tipIndex, n))
            <= VisibleAll(job.g, job.Local(Rounds(job, tipIndex, n)), job.seeds)
  {
    if n == 0 {
      VisibleAllClosed(job.g, job.Local(Rounds(job, tipIndex, 0)), job.seeds);
      RootsPlus(job.remote, tipIndex, Legacy(job.remote), job.seeds);
    } else {
      RoundsVisible(job, tipIndex, n - 1);
      NextVisible(job, tipIndex, Rounds(job, tipIndex, n - 1), Rounds(job, tipIndex, n));
    }
  }

  lemma NextVisible(job: Job, tipIndex: map<Oid, BundleId>, d: set<BundleId>, d': set<BundleId>)
    requires job.Valid() && IsTipIndex(job.remote.tips, tipIndex)
    requires Roots(job.remote, d) <= VisibleAll(job.g, job.Local(d), job.seeds)
    requires d' == d + TipBundles(tipIndex, StillMissing(job, d))
    ensures Roots(job.remote, d') <= VisibleAll(job.g, job.Local(d'), job.seeds)
  {
    LocalGrows(job, d, d');
    VisibleAllMonotone(job.g, job.Local(d), job.Local(d'), job.seeds);
    RootsPlus(job.remote, tipIndex, d, StillMissing(job, d));
  }

  lemma RootsPlus(remote: Remote, tipIndex: map<Oid, BundleId>, d: set<BundleId>, wanted: set<Oid>)
    requires IsTipIndex(remote.tips, tipIndex)
    ensures Roots(remote, d + TipBundles(tipIndex, wanted)) <= Roots(remote, d) + wanted
  {
  }

  /** A bundle of a later round stands for a commit that was missing when the
      round began. */
  lemma {:induction false} BroughtWhenMissing(job: Job, tipIndex: map<Oid, BundleId>, n: nat, b: BundleId)
    returns (m: nat, c: Oid)
    requires job.Valid() && b in Rounds(job, tipIndex, n) && b !in Rounds(job, tipIndex, 0)
    ensures m < n && b !in Rounds(job, tipIndex, m)
    ensures c in StillMissing(job, Rounds(job, tipIndex, m)) && c in tipIndex && tipIndex[c] == b
  {
    m := n - 1;
    if b in Rounds(job, tipIndex, m) {
      m, c := BroughtWhenMissing(job, tipIndex, m, b);
    } else {
      var missing := StillMissing(job, Rounds(job, tipIndex, m));
      assert b in TipBundles(tipIndex, missing);
      c :| c in missing && c in tipIndex && tipIndex[c] == b;
    }
  }

  lemma RoundsNeeded(job: Job, tipIndex: map<Oid, BundleId>, n: nat, b: BundleId)
    requires job.Valid() && IsTipIndex(job.remote.tips, tipIndex) && b in Rounds(job, tipIndex, n)
    ensures b in Legacy(job.remote) || Needed(job, tipIndex, b)
  {
    if b !in Rounds(job, tipIndex, 0) {
      var m, c := BroughtWhenMissing(job, tipIndex, n, b);
      var local := job.Local(Rounds(job, tipIndex, m));
      RoundsGrow(job, tipIndex, 0, m);
      LocalGrows(job, Rounds(job, tipIndex, 0), Rounds(job, tipIndex, m));
      VisibleAllReach(job.g, local, job.seeds);
      assert SeedOrUndelivered(job, tipIndex, c);
    } else if b !in Legacy(job.remote) {
      var c :| c in job.seeds && c in tipIndex && tipIndex[c] == b;
      assert c in Reach(job.g, c) && SeedOrUndelivered(job, tipIndex, c);
    }
  }

  /** The first round that settles is where a fetch can end. */
  lemma StopsAt(job: Job, tipIndex: map<Oid, BundleId>, n: nat)
    requires job.Valid() && IsTipIndex(job.remote.tips, tipIndex) && Rounds(job, tipIndex, n) <= job.packs.Keys
    requires Open(job, tipIndex, n) && Settled(job, tipIndex, n)
    ensures var d := Rounds(job, tipIndex, n); FetchResult(job, tipIndex, Ending(job, d), job.Local(d), d)
  {
    var d := Rounds(job, tipIndex, n);
    RoundsGrow(job, tipIndex, 0, n);
    forall b {:trigger Needed(job, tipIndex, b)} | b in d ensures b in Legacy(job.remote) || Needed(job, tipIndex, b) {
      RoundsNeeded(job, tipIndex, n, b);
    }
    assert EndsInRound(job, tipIndex, Ending(job, d), d, n);
  }

  /** Where every fetch ends when all can be downloaded. */
  lemma EndsAt(job: Job, tipIndex: map<Oid, BundleId>,
               outcome: FetchOutcome, local: set<Oid>, downloaded: set<BundleId>) returns (n: nat)
    requires job.Valid() && Exact(job, tipIndex) && AllServed(job.remote, job.packs)
    requires FetchResult(job, tipIndex, outcome, local, downloaded)
    ensures Open(job, tipIndex, n) && Settled(job, tipIndex, n)
    ensures downloaded == Rounds(job, tipIndex, n) && outcome == Ending(job, downloaded)
    ensures local == job.Local(downloaded)
  {
    n :| Open(job, tipIndex, n) && EndsInRound(job, tipIndex, outcome, downloaded, n);
  }

  // ----- contracts that are only partly tipped -----

  /** Some untipped bundle, or one that stands for a seed, holds `x`. */
  ghost predicate HeldFirstHand(job: Job, tipIndex: map<Oid, BundleId>, x: Oid) {
    exists b :: b in job.packs && x in job.packs[b] && IsFirstHand(job, tipIndex, b)
  }

  ghost predicate IsFirstHand(job: Job, tipIndex: map<Oid, BundleId>, b: BundleId) {
    Untipped(job.remote, b) || exists s :: s in job.seeds && s in tipIndex && tipIndex[s] == b
  }

  lemma FirstRoundIff(job: Job, tipIndex: map<Oid, BundleId>, b: BundleId)
    requires job.Valid()
    ensures b in Rounds(job, tipIndex, 0) <==> IsFirstHand(job, tipIndex, b)
  {
  }

  /** When the untipped bundles and those that stand for the seeds are served,
      and together with the store hold all that the seeds reach, a fetch
      always succeeds with all of it, whatever else is advertised. */
  lemma FirstHandSuffices(job: Job, tipIndex: map<Oid, BundleId>,
                          outcome: FetchOutcome, local: set<Oid>, downloaded: set<BundleId>)
    requires job.Valid() && FetchResult(job, tipIndex, outcome, local, downloaded)
    requires forall b :: IsFirstHand(job, tipIndex, b) ==> b in job.packs && b in job.remote.index
    requires forall x :: x in ReachAll(job.g, job.seeds) ==> x in job.before || HeldFirstHand(job, tipIndex, x)
    ensures outcome == Done && ReachAll(job.g, job.seeds) <= local
  {
    var first := Rounds(job, tipIndex, 0);
    forall b ensures b in first <==> IsFirstHand(job, tipIndex, b) {
      FirstRoundIff(job, tipIndex, b);
    }
    assert ReachAll(job.g, job.seeds) <= job.Local(first);
    VisibleAllReach(job.g, job.Local(first), job.seeds);
    assert StillMissing(job, first) == {};
    assert TipBundles(tipIndex, StillMissing(job, first)) == {};
    EndsFirst(job, tipIndex, outcome, local, downloaded);
  }

  /** A fetch that settles at once ends with the first round's bundles, if
      they can all be had. */
  lemma EndsFirst(job: Job, tipIndex: map<Oid, BundleId>,
                  outcome: FetchOutcome, local: set<Oid>, downloaded: set<BundleId>)
    requires job.Valid() && FetchResult(job, tipIndex, outcome, local, downloaded)
    requires Rounds(job, tipIndex, 0) <= job.packs.Keys && Rounds(job, tipIndex, 0) <= job.remote.index
    requires StillMissing(job, Rounds(job, tipIndex, 0)) == {}
    requires Rounds(job, tipIndex, 1) == Rounds(job, tipIndex, 0)
    ensures outcome == Done && local == job.Local(Rounds(job, tipIndex, 0))
  {
    var n: nat :| Open(job, tipIndex, n) && EndsInRound(job, tipIndex, outcome, downloaded, n);
    assert Settled(job, tipIndex, 0);
    assert n == 0;
  }

  // ----- fetches that never end -----

  /** The outcomes that `HandleFetch` can have, whatever number of turns it is given. */
  ghost predicate CanEnd(job: Job, tipIndex: map<Oid, BundleId>)
    requires job.Valid()
  {
    exists outcome, local, downloaded :: FetchResult(job, tipIndex, outcome, local, downloaded)
  }

  lemma CanEndIff(job: Job, tipIndex: map<Oid, BundleId>)
    requires job.Valid() && IsTipIndex(job.remote.tips, tipIndex) && AllServed(job.remote, job.packs)
    requires Exact(job, tipIndex)
    ensures CanEnd(job, tipIndex) <==> exists n: nat :: Settled(job, tipIndex, n)
  {
    if CanEnd(job, tipIndex) {
      var outcome, local, downloaded :| FetchResult(job, tipIndex, outcome, local, downloaded);
      var n := EndsAt(job, tipIndex, outcome, local, downloaded);
    }
    if n: nat :| Settled(job, tipIndex, n) {
      SettledEnds(job, tipIndex, n);
    }
  }

  /** A fetch whose round `m` settles is over within `2 * m + 2` turns. */
  lemma OverInTime(job: Job, tipIndex: map<Oid, BundleId>, m: nat, turns: nat)
    requires job.Valid() && Settled(job, tipIndex, m) && StillOpen(job, tipIndex, turns)
    ensures turns <= 2 * m + 1
  {
    var n: nat :| turns <= 2 * n + 1 && Open(job, tipIndex, n);
    assert m >= n;
  }

  lemma SettledEnds(job: Job, tipIndex: map<Oid, BundleId>, n: nat)
    requires job.Valid() && IsTipIndex(job.remote.tips, tipIndex) && AllServed(job.remote, job.packs)
    requires Settled(job, tipIndex, n)
    ensures CanEnd(job, tipIndex)
  {
    var m := FirstSettled(job, tipIndex, n);
    RoundsAdvertised(job, tipIndex, m);
    StopsAt(job, tipIndex, m);
  }

  lemma {:induction false} RoundsAdvertised(job: Job, tipIndex: map<Oid, BundleId>, n: nat)
    requires job.Valid() && IsTipIndex(job.remote.tips, tipIndex) && AllServed(job.remote, job.packs)
    ensures Rounds(job, tipIndex, n) <= job.packs.Keys
  {
    forall b | b in Rounds(job, tipIndex, n) ensures b in job.packs {
      RoundsNeeded(job, tipIndex, n, b);
    }
  }

  /** A round that brings nothing and does not settle is repeated for ever:
      each walk finds an advertised commit missing, each time with nothing
      left to download for it. */
  lemma SpinsForever(job: Job, tipIndex: map<Oid, BundleId>, m: nat, n: nat)
    requires job.Valid() && m <= n && !Settled(job, tipIndex, m)
    requires Rounds(job, tipIndex, m + 1) == Rounds(job, tipIndex, m)
    ensures Rounds(job, tipIndex, n) == Rounds(job, tipIndex, m) && !Settled(job, tipIndex, n)
    ensures var missing := StillMissing(job, Rounds(job, tipIndex, n));
            Verdict(tipIndex, missing).None? && TipBundles(tipIndex, missing) <= Rounds(job, tipIndex, n)
  {
    SameFrom(job, tipIndex, m, n);
    SameFrom(job, tipIndex, m, n + 1);
  }

  lemma {:induction false} SameFrom(job: Job, tipIndex: map<Oid, BundleId>, m: nat, n: nat)
    requires job.Valid() && m <= n && Rounds(job, tipIndex, m + 1) == Rounds(job, tipIndex, m)
    ensures Rounds(job, tipIndex, n) == Rounds(job, tipIndex, m)
  {
    if m < n {
      SameFrom(job, tipIndex, m, n - 1);
    }
  }

  // ----- when every fetch ends -----

  lemma {:induction false} RoundsClimb(job: Job, tipIndex: map<Oid, BundleId>, n: nat)
    requires job.Valid()
    requires forall i: nat :: 0 < i <= n ==> |Rounds(job, tipIndex, i - 1)| < |Rounds(job, tipIndex, i)|
    ensures |Rounds(job, tipIndex, n)| >= n
  {
    if n > 0 {
      RoundsClimb(job, tipIndex, n - 1);
    }
  }

  /** While bundles carry their tips, a round that does not settle brings one
      more bundle. */
  lemma NextBrings(job: Job, tipIndex: map<Oid, BundleId>, n: nat)
    requires job.Valid() && IsTipIndex(job.remote.tips, tipIndex) && AllServed(job.remote, job.packs)
    requires TipsInstalled(job.remote.tips, job.packs) && n > 0 && !Settled(job, tipIndex, n - 1)
    ensures |Rounds(job, tipIndex, n - 1)| < |Rounds(job, tipIndex, n)|
  {
    var d := Rounds(job, tipIndex, n - 1);
    var c :| c in StillMissing(job, d) && c in tipIndex;
    assert c in job.packs[tipIndex[c]];
    SmallerSet(d, Rounds(job, tipIndex, n), tipIndex[c]);
  }

  lemma InstalledEnds(job: Job, tipIndex: map<Oid, BundleId>)
    requires job.Valid() && IsTipIndex(job.remote.tips, tipIndex) && AllServed(job.remote, job.packs)
    requires TipsInstalled(job.remote.tips, job.packs)
    ensures CanEnd(job, tipIndex)
  {
    var n := |job.remote.tips| + 1;
    if Open(job, tipIndex, n) {
      forall i: nat | 0 < i <= n ensures |Rounds(job, tipIndex, i - 1)| < |Rounds(job, tipIndex, i)| {
        NextBrings(job, tipIndex, i);
      }
      RoundsClimb(job, tipIndex, n);
      RoundsAdvertised(job, tipIndex, n);
      SubsetSize(Rounds(job, tipIndex, n), job.remote.tips.Keys);
      assert false;
    }
    var m: nat :| m < n && Settled(job, tipIndex, m);
    SettledEnds(job, tipIndex, m);
  }

  ghost predicate OnePerTip(tips: map<BundleId, Oid>, d: set<BundleId>) {
    d <= tips.Keys && forall b, b' :: b in d && b' in d && tips[b] == tips[b'] ==> b == b'
  }

  /** The bundles of `d` stand for their tips. */
  ghost predicate Prefers(tips: map<BundleId, Oid>, tipIndex: map<Oid, BundleId>, d: set<BundleId>)
    requires d <= tips.Keys
  {
    forall b :: b in d ==> tips[b] in tipIndex && tipIndex[tips[b]] == b
  }

  /** A bundle with tip `t`, from `d` if it has one. */
  ghost function Choice(tips: map<BundleId, Oid>, d: set<BundleId>, t: Oid): (b: BundleId)
    requires OnePerTip(tips, d) && t in tips.Values
    ensures b in tips && tips[b] == t
    ensures forall b' :: b' in d && tips[b'] == t ==> b == b'
  {
    if exists b :: b in d && tips[b] == t then (var b :| b in d && tips[b] == t; b)
    else (var b :| b in tips && tips[b] == t; b)
  }

  ghost function Preferring(tips: map<BundleId, Oid>, d: set<BundleId>): (tipIndex: map<Oid, BundleId>)
    requires OnePerTip(tips, d)
    ensures IsTipIndex(tips, tipIndex)
    ensures Prefers(tips, tipIndex, d)
  {
    map t | t in tips.Values :: Choice(tips, d, t)
  }

  /** A clone of one tip whose bundle does not carry it, or carries it without
      the commit it names: the walk ends at the tip itself. */
  lemma TipOnly(job: Job, tipIndex: map<Oid, BundleId>, b: BundleId)
    requires job.Valid() && Legacy(job.remote) == {} && job.before == {}
    requires b in job.packs && b in job.remote.tips && job.seeds == {job.remote.tips[b]}
    requires tipIndex.Keys == job.remote.tips.Values && tipIndex[job.remote.tips[b]] == b
    requires Peel(job.g, job.packs[b], job.remote.tips[b]).None?
    ensures Rounds(job, tipIndex, 0) == Rounds(job, tipIndex, 1) == {b} && job.Local({b}) == job.packs[b]
    ensures StillMissing(job, {b}) == {job.remote.tips[b]} - job.packs[b]
  {
    var t := job.remote.tips[b];
    assert TipBundles(tipIndex, {t}) == {b};
    assert job.Local({b}) == job.packs[b];
    SeesItself(job.g, job.packs[b], t);
    assert StillMissing(job, {b}) == {t} - job.packs[b];
    assert TipBundles(tipIndex, StillMissing(job, {b})) <= {b};
    assert Rounds(job, tipIndex, 0) == {b};
    assert Rounds(job, tipIndex, 1) == {b} + TipBundles(tipIndex, StillMissing(job, {b}));
  }

  lemma SeesItself(g: Graph, local: set<Oid>, t: Oid)
    requires g.Valid() && Peel(g, local, t).None?
    ensures VisibleAll(g, local, {t}) == {t}
  {
    assert WalkEdges(g, local, t) == {};
    assert Visible(g, local, t) == {t};
  }

  /** Every fetch of advertised commits, into any store, can end. */
  ghost predicate EveryFetchEnds(g: Graph, remote: Remote, packs: Packs) {
    forall seeds, before, tipIndex ::
      && seeds <= remote.tips.Values && IsTipIndex(remote.tips, tipIndex)
      && Job(g, remote, packs, seeds, before).Valid() ==>
        CanEnd(Job(g, remote, packs, seeds, before), tipIndex)
  }

  /** A contract on which no fetch spins is one whose bundles carry their tips. */
  lemma EveryFetchEndsIff(g: Graph, remote: Remote, packs: Packs)
    requires AllServed(remote, packs) && Job(g, remote, packs, {}, {}).Valid()
    ensures EveryFetchEnds(g, remote, packs) <==> TipsInstalled(remote.tips, packs)
  {
    if EveryFetchEnds(g, remote, packs) {
      forall b | b in remote.tips ensures remote.tips[b] in packs[b] {
        if remote.tips[b] !in packs[b] {
          var tipIndex := Preferring(remote.tips, {b});
          NeverEnds(Job(g, remote, packs, {remote.tips[b]}, {}), tipIndex, b);
        }
      }
    }
    if TipsInstalled(remote.tips, packs) {
      forall seeds, before, tipIndex |
        && seeds <= remote.tips.Values && IsTipIndex(remote.tips, tipIndex)
        && Job(g, remote, packs, seeds, before).Valid()
        ensures CanEnd(Job(g, remote, packs, seeds, before), tipIndex)
      {
        InstalledEnds(Job(g, remote, packs, seeds, before), tipIndex);
      }
    }
  }

  /** Every round has just `b`, and the seeds are still missing. */
  ghost predicate Spins(job: Job, tipIndex: map<Oid, BundleId>, b: BundleId)
    requires job.Valid()
  {
    StillMissing(job, {b}) == job.seeds && forall n: nat :: Rounds(job, tipIndex, n) == {b}
  }

  /** Asked for one tip that its own bundle does not carry, a clone finds the
      tip missing in every round and never ends. */
  lemma NeverEnds(job: Job, tipIndex: map<Oid, BundleId>, b: BundleId)
    requires job.Valid() && AllServed(job.remote, job.packs) && job.before == {}
    requires IsTipIndex(job.remote.tips, tipIndex) && b in job.remote.tips && job.seeds == {job.remote.tips[b]}
    requires tipIndex[job.remote.tips[b]] == b && job.remote.tips[b] !in job.packs[b]
    ensures Exact(job, tipIndex) && !CanEnd(job, tipIndex)
    ensures Spins(job, tipIndex, b)
  {
    TipOnly(job, tipIndex, b);
    forall n: nat ensures Rounds(job, tipIndex, n) == {b} && !Settled(job, tipIndex, n) {
      SpinsForever(job, tipIndex, 0, n);
    }
    CanEndIff(job, tipIndex);
  }
}
