/** Push habits under which every clone arrives. */
module PushPatterns {
  import opened Octets
  import opened CommitGraph
  import opened Fetch
  import opened PushHistory
  import opened Delivery

  // ----- branches that are never forced -----

  ghost predicate NeverForced(pushes: seq<Push>) {
    forall p :: p in pushes ==> !p.force
  }

  /** The branch each bundle was last pushed to. */
  ghost function Homes(g: Graph, pushes: seq<Push>): map<BundleId, RefName>
    requires g.Valid()
  {
    if pushes == [] then map[]
    else
      var init, p := pushes[..|pushes| - 1], pushes[|pushes| - 1];
      var home := Homes(g, init);
      if Published(g, Replay(g, init), p) then home[p.id := p.dst] else home
  }

  /** Each branch has only ever grown: its bundles are behind its target, what
      they were cut against lies on one line, and its packs overlap only in
      the commit that is the tip of one and the cut of the next. */
  ghost predicate Branchwise(g: Graph, l: Ledger, home: map<BundleId, RefName>)
    requires g.Valid()
  {
    && Sound(g, l) && home.Keys == l.remote.tips.Keys
    && (forall b :: b in home ==> Behind(g, l, home, b))
    && (forall b, b' :: SameHome(home, b, b') ==> Neighbours(g, l, b, b'))
  }

  predicate SameHome(home: map<BundleId, RefName>, b: BundleId, b': BundleId) {
    b in home && b' in home && home[b] == home[b']
  }

  ghost predicate Behind(g: Graph, l: Ledger, home: map<BundleId, RefName>, b: BundleId)
    requires g.Valid()
  {
    b in home && b in l.remote.tips && BehindRef(g, l, home[b], l.remote.tips[b])
  }

  ghost predicate BehindRef(g: Graph, l: Ledger, dst: RefName, o: Oid)
    requires g.Valid()
  {
    dst in l.remote.refs && o in Reach(g, l.remote.refs[dst])
  }

  ghost predicate Neighbours(g: Graph, l: Ledger, b: BundleId, b': BundleId)
    requires g.Valid()
  {
    (CutInside(l, b, b') ==> l.remote.tips[b'] == l.haves[b].value) && InLine(g, l, b, b')
  }

  /** Of the commits two bundles were cut against, one is behind the other. */
  ghost predicate InLine(g: Graph, l: Ledger, b: BundleId, b': BundleId)
    requires g.Valid()
  {
    b in l.haves && b' in l.haves && l.haves[b].Some? && l.haves[b'].Some? ==>
      l.haves[b].value in Reach(g, l.haves[b'].value) || l.haves[b'].value in Reach(g, l.haves[b].value)
  }

  lemma BranchwiseStep(g: Graph, l: Ledger, p: Push, home: map<BundleId, RefName>)
    requires g.Valid() && Branchwise(g, l, home) && Covered(g, l, p) && !p.force && Published(g, l, p)
    ensures Branchwise(g, Apply(g, l, p), home[p.id := p.dst])
  {
    PushKeepsSound(g, l, p);
    var home' := home[p.id := p.dst];
    forall b | b in home' ensures Behind(g, Apply(g, l, p), home', b) {
      StepBehind(g, l, p, home, b);
    }
    forall b, b' | SameHome(home', b, b') ensures Neighbours(g, Apply(g, l, p), b, b') {
      StepNeighbours(g, l, p, home, b, b');
    }
  }

  lemma StepBehind(g: Graph, l: Ledger, p: Push, home: map<BundleId, RefName>, b: BundleId)
    requires g.Valid() && Branchwise(g, l, home) && Covered(g, l, p) && !p.force && Published(g, l, p)
    requires b in home[p.id := p.dst]
    ensures Behind(g, Apply(g, l, p), home[p.id := p.dst], b)
  {
    if b != p.id {
      assert Behind(g, l, home, b);
      if home[b] == p.dst {
        ReachTransitive(g, p.want, l.remote.refs[p.dst]);
      }
    }
  }

  lemma StepNeighbours(g: Graph, l: Ledger, p: Push, home: map<BundleId, RefName>, b: BundleId, b': BundleId)
    requires g.Valid() && Branchwise(g, l, home) && Covered(g, l, p) && !p.force && Published(g, l, p)
    requires Sound(g, Apply(g, l, p)) && SameHome(home[p.id := p.dst], b, b')
    ensures Neighbours(g, Apply(g, l, p), b, b')
  {
    if b != p.id && b' != p.id {
      assert Neighbours(g, l, b, b');
    } else if b' == p.id {
      NewLast(g, l, p, home, b);
    } else {
      NewFirst(g, l, p, home, b');
    }
  }

  /** No bundle of the branch was cut inside its newest. */
  lemma NewLast(g: Graph, l: Ledger, p: Push, home: map<BundleId, RefName>, b: BundleId)
    requires g.Valid() && Branchwise(g, l, home) && Covered(g, l, p) && !p.force && Published(g, l, p)
    requires Sound(g, Apply(g, l, p)) && SameHome(home[p.id := p.dst], b, p.id)
    ensures Neighbours(g, Apply(g, l, p), b, p.id)
  {
    if PreviousTarget(l, p).Some? {
      assert PreviousTarget(l, p).value in Reach(g, PreviousTarget(l, p).value);
    }
    if b != p.id && l.haves[b].Some? {
      HaveBehind(g, l, home, b);
    }
  }

  /** The newest was cut inside another only where that one ends. */
  lemma NewFirst(g: Graph, l: Ledger, p: Push, home: map<BundleId, RefName>, b: BundleId)
    requires g.Valid() && Branchwise(g, l, home) && Covered(g, l, p) && !p.force && Published(g, l, p)
    requires Sound(g, Apply(g, l, p)) && SameHome(home[p.id := p.dst], p.id, b) && b != p.id
    ensures Neighbours(g, Apply(g, l, p), p.id, b)
  {
    var have := l.remote.refs[p.dst];
    assert Behind(g, l, home, b) && BundleSound(g, Apply(g, l, p), b);
    ReachDescends(g, have, l.remote.tips[b]);
    if have in l.packs[b] {
      ReachDescends(g, l.remote.tips[b], have);
    }
    if l.haves[b].Some? {
      HaveBehind(g, l, home, b);
    }
  }

  /** What a bundle was cut against is behind its branch's target. */
  lemma HaveBehind(g: Graph, l: Ledger, home: map<BundleId, RefName>, b: BundleId)
    requires g.Valid() && Branchwise(g, l, home) && b in home && l.haves[b].Some?
    ensures BehindRef(g, l, home[b], l.haves[b].value)
  {
    assert BundleSound(g, l, b) && Behind(g, l, home, b);
    ReachTransitive(g, l.remote.refs[home[b]], l.remote.tips[b]);
  }

  lemma {:induction false} BranchwiseRun(g: Graph, pushes: seq<Push>)
    requires g.Valid() && CoveredRun(g, pushes) && NeverForced(pushes)
    ensures Branchwise(g, Replay(g, pushes), Homes(g, pushes))
  {
    if pushes != [] {
      var init, p := pushes[..|pushes| - 1], pushes[|pushes| - 1];
      CoveredInit(g, pushes);
      BranchwiseRun(g, init);
      assert p in pushes;
      if Published(g, Replay(g, init), p) {
        BranchwiseStep(g, Replay(g, init), p, Homes(g, init));
      }
    }
  }

  lemma CoveredInit(g: Graph, pushes: seq<Push>)
    requires g.Valid() && pushes != [] && CoveredRun(g, pushes)
    ensures CoveredRun(g, pushes[..|pushes| - 1])
    ensures Covered(g, Replay(g, pushes[..|pushes| - 1]), pushes[|pushes| - 1])
  {
    var init := pushes[..|pushes| - 1];
    forall i | 0 <= i < |init| ensures Covered(g, Replay(g, init[..i]), init[i]) {
      assert init[..i] == pushes[..i];
    }
  }

  // ----- only one branch is merged into others -----

  /** What a branch other than `main` was once at, no pack of another branch
      carries, unless as its own tip or with all that lies below. */
  ghost predicate OnlyMainMerged(g: Graph, l: Ledger, home: map<BundleId, RefName>, main: RefName)
    requires g.Valid()
  {
    forall b, b' {:trigger CutOpen(g, l, b, b')} ::
      CutOpen(g, l, b, b') && b in home && b' in home && home[b] != main && home[b'] != home[b] ==>
        l.remote.tips[b'] == l.haves[b].value
  }

  /** The commits that `main`'s bundles were cut against. */
  ghost function MainCuts(l: Ledger, home: map<BundleId, RefName>, main: RefName): set<Oid> {
    set b | b in home && home[b] == main && b in l.haves && l.haves[b].Some? :: l.haves[b].value
  }

  /** Those of them behind what `b` was cut against. */
  ghost function MainCutsBehind(g: Graph, l: Ledger, home: map<BundleId, RefName>, main: RefName, b: BundleId): set<Oid>
    requires g.Valid()
  {
    if b in l.haves && l.haves[b].Some? then MainCuts(l, home, main) * Reach(g, l.haves[b].value) else {}
  }

  lemma OnlyMainMergedOrdered(g: Graph, l: Ledger, home: map<BundleId, RefName>, main: RefName)
    requires g.Valid() && Branchwise(g, l, home) && OnlyMainMerged(g, l, home, main)
    ensures CutsOrdered(g, l)
  {
    forall b, b' {:trigger CutOpen(g, l, b, b')} | CutOpen(g, l, b, b') ensures Lower(g, l, home, main, b, b') {
      CutDescends(g, l, home, main, b, b');
    }
    LowerOrdered(g, l, home, main);
  }

  ghost predicate Lower(g: Graph, l: Ledger, home: map<BundleId, RefName>, main: RefName, b: BundleId, b': BundleId)
    requires g.Valid()
  {
    var rank, rank' := CutRank(g, l, home, main, b), CutRank(g, l, home, main, b');
    rank' < rank || (rank' == rank && TipHeight(g, l, b') < TipHeight(g, l, b))
  }

  lemma LowerOrdered(g: Graph, l: Ledger, home: map<BundleId, RefName>, main: RefName)
    requires g.Valid()
    requires forall b, b' {:trigger CutOpen(g, l, b, b')} :: CutOpen(g, l, b, b') ==> Lower(g, l, home, main, b, b')
    ensures CutsOrdered(g, l)
  {
    assert Ranked(g, l, b => CutRank(g, l, home, main, b), b => TipHeight(g, l, b));
  }

  function TipHeight(g: Graph, l: Ledger, b: BundleId): nat {
    if b in l.remote.tips then g.height(l.remote.tips[b]) else 0
  }

  ghost function CutRank(g: Graph, l: Ledger, home: map<BundleId, RefName>, main: RefName, b: BundleId): nat
    requires g.Valid()
  {
    |MainCutsBehind(g, l, home, main, b)|
  }

  lemma CutDescends(g: Graph, l: Ledger, home: map<BundleId, RefName>, main: RefName, b: BundleId, b': BundleId)
    requires g.Valid() && Branchwise(g, l, home) && OnlyMainMerged(g, l, home, main) && CutOpen(g, l, b, b')
    ensures Lower(g, l, home, main, b, b')
  {
    if l.remote.tips[b'] == l.haves[b].value {
      TipCutLower(g, l, b, b');
      CutAtTip(g, l, home, main, b, b');
    } else {
      CutIntoMerge(g, l, home, main, b, b');
    }
  }

  lemma CutAtTip(g: Graph, l: Ledger, home: map<BundleId, RefName>, main: RefName, b: BundleId, b': BundleId)
    requires g.Valid() && Sound(g, l) && CutInside(l, b, b') && l.remote.tips[b'] == l.haves[b].value
    ensures CutRank(g, l, home, main, b') <= CutRank(g, l, home, main, b)
  {
    assert BundleSound(g, l, b');
    if l.haves[b'].Some? {
      ReachTransitive(g, l.remote.tips[b'], l.haves[b'].value);
    }
    SubsetSize(MainCutsBehind(g, l, home, main, b'), MainCutsBehind(g, l, home, main, b));
  }

  lemma TipCutLower(g: Graph, l: Ledger, b: BundleId, b': BundleId)
    requires g.Valid() && Sound(g, l) && CutInside(l, b, b') && l.remote.tips[b'] == l.haves[b].value
    ensures TipHeight(g, l, b') < TipHeight(g, l, b)
  {
    assert BundleSound(g, l, b);
    ReachDescends(g, l.remote.tips[b], l.haves[b].value);
  }

  /** `main`'s bundle `b` was cut against a commit that came into `b'` by a merge. */
  lemma CutIntoMerge(g: Graph, l: Ledger, home: map<BundleId, RefName>, main: RefName, b: BundleId, b': BundleId)
    requires g.Valid() && Branchwise(g, l, home) && OnlyMainMerged(g, l, home, main)
    requires CutOpen(g, l, b, b') && l.remote.tips[b'] != l.haves[b].value
    ensures CutRank(g, l, home, main, b') < CutRank(g, l, home, main, b)
  {
    assert BundleSound(g, l, b');
    var h := l.haves[b].value;
    assert SameHome(home, b, b') ==> Neighbours(g, l, b, b');
    assert home[b] == main && h in MainCuts(l, home, main);
    assert h in Reach(g, h);
    assert h !in MainCutsBehind(g, l, home, main, b');
    forall t | t in MainCutsBehind(g, l, home, main, b') ensures t in Reach(g, h) {
      var x :| x in home && home[x] == main && x in l.haves && l.haves[x] == Some(t);
      assert SameHome(home, x, b) && Neighbours(g, l, x, b);
      ReachTransitive(g, l.haves[b'].value, t);
    }
    SmallerSet(MainCutsBehind(g, l, home, main, b'), MainCutsBehind(g, l, home, main, b), h);
  }

  /** Branches that are never forced, and merge `main` as often as they like
      while nothing else is merged: every clone receives everything. */
  lemma OnlyMainMergedDelivers(g: Graph, pushes: seq<Push>, main: RefName)
    requires g.Valid() && CoveredRun(g, pushes) && NeverForced(pushes)
    requires OnlyMainMerged(g, Replay(g, pushes), Homes(g, pushes), main)
    ensures Sound(g, Replay(g, pushes)) && EveryCloneDelivers(g, Replay(g, pushes))
  {
    BranchwiseRun(g, pushes);
    OnlyMainMergedOrdered(g, Replay(g, pushes), Homes(g, pushes), main);
    OrderedDelivers(g, Replay(g, pushes));
  }

  // ----- one branch -----

  ghost predicate OneBranch(pushes: seq<Push>, dst: RefName) {
    forall p :: p in pushes ==> p.dst == dst && !p.force
  }

  lemma {:induction false} OneHome(g: Graph, pushes: seq<Push>, dst: RefName)
    requires g.Valid() && OneBranch(pushes, dst)
    ensures forall b :: b in Homes(g, pushes) ==> Homes(g, pushes)[b] == dst
  {
    if pushes != [] {
      OneHome(g, pushes[..|pushes| - 1], dst);
      assert pushes[|pushes| - 1] in pushes;
    }
  }

  /** History mode on one branch: every clone receives everything. */
  lemma OneBranchDelivers(g: Graph, pushes: seq<Push>, dst: RefName)
    requires g.Valid() && CoveredRun(g, pushes) && OneBranch(pushes, dst)
    ensures Sound(g, Replay(g, pushes)) && EveryCloneDelivers(g, Replay(g, pushes))
  {
    OneHome(g, pushes, dst);
    OnlyMainMergedDelivers(g, pushes, dst);
  }

  // ----- pushes that are not refused -----

  /** Each push is forced, or new, or over an old target that the pusher has. */
  ghost predicate NoneRefused(g: Graph, pushes: seq<Push>)
    requires g.Valid()
  {
    forall i :: 0 <= i < |pushes| ==> NotRefused(g, Replay(g, pushes[..i]), pushes[i])
  }

  ghost predicate NotRefused(g: Graph, l: Ledger, p: Push)
    requires g.Valid()
  {
    p.force || p.dst !in l.remote.refs || HasCommit(g, p.pusher, l.remote.refs[p.dst])
  }

  predicate IsLast(pushes: seq<Push>, i: nat) {
    i < |pushes| && forall j :: i < j < |pushes| ==> pushes[j].dst != pushes[i].dst
  }

  predicate RefAt(l: Ledger, dst: RefName, want: Oid) {
    dst in l.remote.refs && l.remote.refs[dst] == want
  }

  /** Each ref ends where its last push put it. */
  lemma {:induction false} RefsFollow(g: Graph, pushes: seq<Push>, i: nat)
    requires g.Valid() && NoneRefused(g, pushes) && IsLast(pushes, i)
    ensures RefAt(Replay(g, pushes), pushes[i].dst, pushes[i].want)
  {
    var init, last := pushes[..|pushes| - 1], pushes[|pushes| - 1];
    NoneRefusedInit(g, pushes);
    if i < |init| {
      LastBefore(pushes, i);
      RefsFollow(g, init, i);
      RefKept(g, Replay(g, init), last, pushes[i].dst, pushes[i].want);
    } else {
      RefSet(g, Replay(g, init), last);
    }
  }

  lemma LastBefore(pushes: seq<Push>, i: nat)
    requires IsLast(pushes, i) && i < |pushes| - 1
    ensures var init, last := pushes[..|pushes| - 1], pushes[|pushes| - 1];
            IsLast(init, i) && init[i] == pushes[i] && last.dst != pushes[i].dst
  {
  }

  lemma RefSet(g: Graph, l: Ledger, p: Push)
    requires g.Valid() && NotRefused(g, l, p)
    ensures RefAt(Apply(g, l, p), p.dst, p.want)
  {
    PushMeans(g, l, p);
  }

  lemma RefKept(g: Graph, l: Ledger, p: Push, dst: RefName, want: Oid)
    requires g.Valid() && p.dst != dst && RefAt(l, dst, want)
    ensures RefAt(Apply(g, l, p), dst, want)
  {
    PushMeans(g, l, p);
  }

  /** There are no refs but those pushed to. */
  lemma {:induction false} OnlyPushedRefs(g: Graph, pushes: seq<Push>, dst: RefName)
    requires g.Valid() && dst in Replay(g, pushes).remote.refs
    ensures exists p :: p in pushes && p.dst == dst
  {
    if pushes != [] {
      var init, last := pushes[..|pushes| - 1], pushes[|pushes| - 1];
      assert last in pushes;
      if last.dst != dst {
        PushMeans(g, Replay(g, init), last);
        OnlyPushedRefs(g, init, dst);
        var p :| p in init && p.dst == dst;
        assert p in pushes;
      }
    }
  }

  lemma NoneRefusedInit(g: Graph, pushes: seq<Push>)
    requires g.Valid() && NoneRefused(g, pushes) && pushes != []
    ensures NoneRefused(g, pushes[..|pushes| - 1])
    ensures NotRefused(g, Replay(g, pushes[..|pushes| - 1]), pushes[|pushes| - 1])
  {
    var init := pushes[..|pushes| - 1];
    forall i | 0 <= i < |init| ensures NotRefused(g, Replay(g, init[..i]), init[i]) {
      assert init[..i] == pushes[..i];
    }
  }

  // ----- every push a whole snapshot -----

  /** The old tip, if any, is never in the pusher's store. */
  ghost predicate Snapshots(g: Graph, pushes: seq<Push>)
    requires g.Valid()
  {
    forall i :: 0 <= i < |pushes| ==> Unrelated(Replay(g, pushes[..i]), pushes[i])
  }

  predicate Unrelated(l: Ledger, p: Push) {
    var prev := PreviousTarget(l, p);
    prev.None? || prev.value !in p.pusher
  }

  lemma {:induction false} SnapshotHaves(g: Graph, pushes: seq<Push>)
    requires g.Valid() && Snapshots(g, pushes)
    ensures forall b :: b in Replay(g, pushes).haves ==> Replay(g, pushes).haves[b].None?
  {
    if pushes != [] {
      var init := pushes[..|pushes| - 1];
      forall i | 0 <= i < |init| ensures Unrelated(Replay(g, init[..i]), init[i]) {
        assert init[..i] == pushes[..i];
      }
      SnapshotHaves(g, init);
      assert Unrelated(Replay(g, init), pushes[|pushes| - 1]);
    }
  }

  /** Snapshot mode on any number of refs: every clone receives everything. */
  lemma SnapshotsDeliver(g: Graph, pushes: seq<Push>)
    requires g.Valid() && CoveredRun(g, pushes) && Snapshots(g, pushes)
    ensures Sound(g, Replay(g, pushes)) && EveryCloneDelivers(g, Replay(g, pushes))
  {
    ReplaySound(g, pushes);
    SnapshotHaves(g, pushes);
    NoCutsOrdered(g, Replay(g, pushes));
    OrderedDelivers(g, Replay(g, pushes));
  }

  /** Forced snapshots are all published: each ref ends at its last snapshot,
      which some advertised bundle carries whole. */
  lemma SnapshotsPublish(g: Graph, pushes: seq<Push>, i: nat)
    requires g.Valid() && CoveredRun(g, pushes) && Snapshots(g, pushes)
    requires (forall p :: p in pushes ==> p.force) && IsLast(pushes, i)
    ensures var l := Replay(g, pushes);
            && RefAt(l, pushes[i].dst, pushes[i].want)
            && exists b :: b in l.remote.tips && l.remote.tips[b] == pushes[i].want
                   && b in l.packs && l.packs[b] == Reach(g, pushes[i].want)
  {
    var l := Replay(g, pushes);
    ReplaySound(g, pushes);
    SnapshotHaves(g, pushes);
    RefsFollow(g, pushes, i);
    assert pushes[i].want in l.remote.tips.Values;
    var b :| b in l.remote.tips && l.remote.tips[b] == pushes[i].want;
    assert BundleSound(g, l, b);
  }

  lemma NoCutsOrdered(g: Graph, l: Ledger)
    requires g.Valid() && forall b :: b in l.haves ==> l.haves[b].None?
    ensures CutsOrdered(g, l)
  {
    assert Ranked(g, l, _ => 0, _ => 0);
  }

  // ----- old targets shipped whole -----

  /** No pack carries a commit that another pack was cut against, unless it
      carries that commit's whole history too. */
  ghost predicate HavesShippedWhole(g: Graph, l: Ledger)
    requires g.Valid()
  {
    forall b, b' {:trigger CutInside(l, b, b')} ::
      CutInside(l, b, b') && l.remote.tips[b'] != l.haves[b].value ==> Reach(g, l.haves[b].value) <= l.packs[b']
  }

  lemma ShippedWholeOrdered(g: Graph, l: Ledger)
    requires g.Valid() && Sound(g, l) && HavesShippedWhole(g, l)
    ensures CutsOrdered(g, l)
  {
    ghost var major: BundleId -> nat := _ => 0;
    ghost var minor: BundleId -> nat := b => TipHeight(g, l, b);
    forall b, b' {:trigger CutOpen(g, l, b, b')} | CutOpen(g, l, b, b') ensures minor(b') < minor(b) {
      TipCutLower(g, l, b, b');
    }
    assert Ranked(g, l, major, minor);
  }
}
