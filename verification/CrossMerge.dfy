/** Two branches that merge each other, and a clone of both: every push is an
    ordinary first push or fast-forward, yet what the branches share is lost. */
module CrossMerge {
  import opened Octets
  import opened CommitGraph
  import opened Fetch
  import opened FetchRounds
  import opened PushHistory
  import opened Delivery

  /** `left` and `right` are two commits over the same parents and tree;
      `left2` and `right2` both merge the two. */
  datatype Cross = Cross(g: Graph, left: Oid, right: Oid, left2: Oid, right2: Oid, parents: seq<Oid>, tree: Oid,
                         main: RefName, dev: RefName, names: seq<BundleId>)
  {
    ghost predicate Valid() {
      && g.Valid() && left != right && left2 != right2 && main != dev
      && {left, right, left2, right2} <= g.objects.Keys
      && g.objects[left] == Commit(parents, tree) && g.objects[right] == Commit(parents, tree)
      && g.objects[left2] == Commit([left, right], tree) && g.objects[right2] == Commit([right, left], tree)
      && Below() <= g.objects.Keys
      && |names| == 4 && NoDuplicates(names)
    }

    /** What the two branches start from. */
    ghost function Base(): set<Oid> {
      (set p | p in parents) + {tree}
    }

    ghost function Below(): set<Oid>
      requires g.Valid()
    {
      ReachAll(g, Base())
    }

    function PushOf(dst: RefName, want: Oid, i: nat): Push
      requires i < |names|
    {
      Push(dst, want, false, g.objects.Keys, names[i])
    }

    /** Each branch is pushed, then each is fast-forwarded to its merge. */
    function History(): seq<Push>
      requires |names| == 4
    {
      [PushOf(main, left, 0)] + [PushOf(dev, right, 1)] + [PushOf(main, left2, 2)] + [PushOf(dev, right2, 3)]
    }

    ghost function After1(below: set<Oid>): Ledger
      requires |names| == 4
    {
      Pushed(EMPTY, PushOf(main, left, 0), None, {left} + below)
    }

    ghost function After2(below: set<Oid>): Ledger
      requires |names| == 4
    {
      Pushed(After1(below), PushOf(dev, right, 1), None, {right} + below)
    }

    ghost function After3(below: set<Oid>): Ledger
      requires |names| == 4
    {
      Pushed(After2(below), PushOf(main, left2, 2), Some(left), {left2, right})
    }

    ghost function After4(below: set<Oid>): Ledger
      requires |names| == 4
    {
      Pushed(After3(below), PushOf(dev, right2, 3), Some(right), {right2, left})
    }
  }

  lemma LedgerShape(x: Cross, below: set<Oid>)
    requires |x.names| == 4 && NoDuplicates(x.names) && x.main != x.dev
    ensures x.dev !in x.After1(below).remote.refs && x.names[1] !in x.After1(below).packs
    ensures x.After2(below).remote.refs == map[x.main := x.left, x.dev := x.right]
            && x.names[2] !in x.After2(below).packs
    ensures x.After3(below).remote.refs == map[x.main := x.left2, x.dev := x.right]
            && x.names[3] !in x.After3(below).packs
  {
  }

  lemma ReachUnfold(g: Graph, o: Oid)
    requires g.Valid()
    ensures Reach(g, o) == {o} + ReachAll(g, g.Edges(o))
  {
  }

  lemma NotBelow(g: Graph, o: Oid, below: set<Oid>)
    requires g.Valid() && forall e :: e in below ==> g.height(e) < g.height(o)
    ensures o !in ReachAll(g, below)
  {
    forall e | e in below ensures o !in Reach(g, e) {
      if o in Reach(g, e) {
        ReachDescends(g, e, o);
      }
    }
  }

  lemma BelowClosed(x: Cross, e: Oid)
    requires x.Valid() && e in x.Below()
    ensures Reach(x.g, e) <= x.Below()
  {
    var b :| b in x.Base() && e in Reach(x.g, b);
    ReachTransitive(x.g, b, e);
  }

  lemma MergeReach(x: Cross, m: Oid)
    requires x.Valid() && {x.left, x.right} <= x.g.Edges(m) <= {x.left, x.right} + x.Below()
    requires Reach(x.g, x.left) == {x.left} + x.Below() && Reach(x.g, x.right) == {x.right} + x.Below()
    ensures Reach(x.g, m) == {m, x.left, x.right} + x.Below()
  {
    forall e | e in x.g.Edges(m) ensures Reach(x.g, e) <= {x.left, x.right} + x.Below() {
      if e != x.left && e != x.right {
        BelowClosed(x, e);
      }
    }
    assert Reach(x.g, x.left) <= Reach(x.g, m) && Reach(x.g, x.right) <= Reach(x.g, m);
  }

  lemma CrossEdges(x: Cross)
    requires x.Valid()
    ensures x.g.Edges(x.left) == x.g.Edges(x.right) == x.Base()
    ensures x.g.Edges(x.left2) == x.g.Edges(x.right2) == {x.left, x.right, x.tree}
    ensures x.tree in x.Below()
  {
    assert x.tree in Reach(x.g, x.tree);
  }

  lemma CrossReach(x: Cross)
    requires x.Valid()
    ensures Reach(x.g, x.left) == {x.left} + x.Below() && Reach(x.g, x.right) == {x.right} + x.Below()
    ensures Reach(x.g, x.left2) == {x.left2, x.left, x.right} + x.Below()
    ensures Reach(x.g, x.right2) == {x.right2, x.left, x.right} + x.Below()
    ensures {x.left, x.right, x.left2, x.right2} !! x.Below()
    ensures {x.left, x.right} !! {x.left2, x.right2}
  {
    CrossEdges(x);
    ReachUnfold(x.g, x.left);
    ReachUnfold(x.g, x.right);
    MergeReach(x, x.left2);
    MergeReach(x, x.right2);
    NotBelow(x.g, x.left, x.Base());
    NotBelow(x.g, x.right, x.Base());
    NotBelow(x.g, x.left2, x.Base());
    NotBelow(x.g, x.right2, x.Base());
  }

  /** One clean push: `have` is the old target, `contents` the pack. */
  ghost predicate Clean(g: Graph, l: Ledger, p: Push, have: Option<Oid>, contents: set<Oid>)
    requires g.Valid()
  {
    && PreviousTarget(l, p) == have && have != Some(p.want)
    && p.pusher <= g.objects.Keys && Reach(g, p.want) <= p.pusher
    && !g.IsTag(p.want) && p.id !in l.packs
    && PackContents(g, have, p.want) == contents
    && (have.Some? ==> have.value in Reach(g, p.want) && Peel(g, p.pusher, have.value).Some?)
  }

  lemma CleanStep(g: Graph, pushes: seq<Push>, l: Ledger, p: Push, have: Option<Oid>, contents: set<Oid>)
    requires g.Valid() && CoveredRun(g, pushes) && Replay(g, pushes) == l && Clean(g, l, p, have, contents)
    ensures CoveredRun(g, pushes + [p]) && Replay(g, pushes + [p]) == Pushed(l, p, have, contents)
  {
    RunSnoc(g, pushes, p);
  }

  lemma NewBranch(g: Graph, l: Ledger, p: Push, below: set<Oid>)
    requires g.Valid() && g.IsCommit(p.want) && p.dst !in l.remote.refs && p.id !in l.packs
    requires Reach(g, p.want) == {p.want} + below && below <= g.objects.Keys == p.pusher
    ensures Clean(g, l, p, None, {p.want} + below)
  {
  }

  lemma MergedBranch(g: Graph, l: Ledger, p: Push, have: Oid, other: Oid, below: set<Oid>)
    requires g.Valid() && g.IsCommit(p.want) && g.IsCommit(have) && g.IsCommit(other)
    requires p.dst in l.remote.refs && l.remote.refs[p.dst] == have && p.id !in l.packs
    requires Reach(g, have) == {have} + below && below <= g.objects.Keys == p.pusher
    requires Reach(g, p.want) == {p.want, have, other} + below
    requires have != other && p.want != have && p.want !in below && other !in below
    ensures Clean(g, l, p, Some(have), {p.want, other})
  {
    assert {p.want, have, other} + below - ({have} + below) == {p.want, other};
  }

  lemma BothBranches(x: Cross)
    requires x.Valid()
    ensures var pushes := [x.PushOf(x.main, x.left, 0)] + [x.PushOf(x.dev, x.right, 1)];
            CoveredRun(x.g, pushes) && Replay(x.g, pushes) == x.After2(x.Below())
  {
    CrossReach(x);
    var below := x.Below();
    LedgerShape(x, below);
    var p0, p1 := x.PushOf(x.main, x.left, 0), x.PushOf(x.dev, x.right, 1);
    NewBranch(x.g, EMPTY, p0, below);
    CleanStep(x.g, [], EMPTY, p0, None, {x.left} + below);
    assert [] + [p0] == [p0];
    NewBranch(x.g, x.After1(below), p1, below);
    CleanStep(x.g, [p0], x.After1(below), p1, None, {x.right} + below);
  }

  lemma LeftMergeClean(x: Cross, l: Ledger)
    requires x.Valid() && l.remote.refs == map[x.main := x.left, x.dev := x.right] && x.names[2] !in l.packs
    ensures Clean(x.g, l, x.PushOf(x.main, x.left2, 2), Some(x.left), {x.left2, x.right})
  {
    CrossReach(x);
    MergedBranch(x.g, l, x.PushOf(x.main, x.left2, 2), x.left, x.right, x.Below());
  }

  lemma RightMergeClean(x: Cross, l: Ledger)
    requires x.Valid() && l.remote.refs == map[x.main := x.left2, x.dev := x.right] && x.names[3] !in l.packs
    ensures Clean(x.g, l, x.PushOf(x.dev, x.right2, 3), Some(x.right), {x.right2, x.left})
  {
    CrossReach(x);
    MergedBranch(x.g, l, x.PushOf(x.dev, x.right2, 3), x.right, x.left, x.Below());
  }

  lemma CrossReplay(x: Cross)
    requires x.Valid()
    ensures CoveredRun(x.g, x.History()) && Replay(x.g, x.History()) == x.After4(x.Below())
  {
    BothBranches(x);
    LedgerShape(x, x.Below());
    LeftMergeClean(x, x.After2(x.Below()));
    RightMergeClean(x, x.After3(x.Below()));
    var first := [x.PushOf(x.main, x.left, 0)] + [x.PushOf(x.dev, x.right, 1)];
    var p2, p3 := x.PushOf(x.main, x.left2, 2), x.PushOf(x.dev, x.right2, 3);
    CleanStep(x.g, first, x.After2(x.Below()), p2, Some(x.left), {x.left2, x.right});
    CleanStep(x.g, first + [p2], x.After3(x.Below()), p3, Some(x.right), {x.right2, x.left});
  }

  /** The two merge commits' bundles: together they lack everything below. */
  ghost function Merges(x: Cross): set<BundleId>
    requires |x.names| == 4
  {
    {x.names[2], x.names[3]}
  }

  /** The contract after all four pushes. */
  ghost predicate Shaped(x: Cross, l: Ledger)
    requires |x.names| == 4
  {
    && l.remote.tips == map[x.names[0] := x.left, x.names[1] := x.right, x.names[2] := x.left2, x.names[3] := x.right2]
    && l.remote.refs == map[x.main := x.left2, x.dev := x.right2]
    && x.names[2] in l.packs && l.packs[x.names[2]] == {x.left2, x.right}
    && x.names[3] in l.packs && l.packs[x.names[3]] == {x.right2, x.left}
  }

  lemma After4Shaped(x: Cross, below: set<Oid>)
    requires |x.names| == 4 && NoDuplicates(x.names) && x.main != x.dev
    ensures Shaped(x, x.After4(below))
  {
  }

  lemma MergesShape(x: Cross, l: Ledger)
    requires |x.names| == 4 && NoDuplicates(x.names) && x.main != x.dev && Shaped(x, l)
    ensures Merges(x) <= l.remote.tips.Keys
    ensures x.left2 != x.right2 && {x.left, x.right} !! {x.left2, x.right2} ==>
              forall b, b' :: b in Merges(x) && b' in l.remote.tips && l.remote.tips[b] == l.remote.tips[b'] ==> b == b'
    ensures l.remote.tips[x.names[2]] == x.left2 && l.remote.tips[x.names[3]] == x.right2
    ensures l.remote.tips.Values == {x.left, x.right, x.left2, x.right2}
    ensures PackUnion(l.packs, Merges(x)) == {x.left, x.right, x.left2, x.right2}
    ensures Roots(l.remote, Merges(x)) == {x.left2, x.right2}
    ensures l.remote.refs.Values == {x.left2, x.right2}
  {
    FourTips(x.names, x.left, x.right, x.left2, x.right2);
    TwoRefs(x.main, x.dev, x.left2, x.right2);
    PairOf(l, x.names[2], x.names[3]);
  }

  lemma PairOf(l: Ledger, b: BundleId, c: BundleId)
    requires {b, c} <= l.packs.Keys * l.remote.tips.Keys
    ensures PackUnion(l.packs, {b, c}) == l.packs[b] + l.packs[c]
    ensures Roots(l.remote, {b, c}) == {l.remote.tips[b], l.remote.tips[c]}
  {
  }

  lemma FourTips(n: seq<BundleId>, a: Oid, b: Oid, c: Oid, d: Oid)
    requires |n| == 4 && NoDuplicates(n)
    ensures var tips := map[n[0] := a, n[1] := b, n[2] := c, n[3] := d];
            && tips.Values == {a, b, c, d} && tips[n[2]] == c && tips[n[3]] == d
            && (c != d && {a, b} !! {c, d} ==>
                forall i, j :: i in {n[2], n[3]} && j in tips && tips[i] == tips[j] ==> i == j)
  {
    var tips := map[n[0] := a, n[1] := b, n[2] := c, n[3] := d];
    assert tips[n[0]] == a && tips[n[1]] == b && tips[n[2]] == c && tips[n[3]] == d;
  }

  lemma TwoRefs(main: RefName, dev: RefName, c: Oid, d: Oid)
    requires main != dev
    ensures (map[main := c, dev := d]).Values == {c, d}
  {
    var refs := map[main := c, dev := d];
    assert refs[main] == c && refs[dev] == d;
  }

  lemma ReachAllPair(g: Graph, a: Oid, b: Oid)
    requires g.Valid()
    ensures ReachAll(g, {a, b}) == Reach(g, a) + Reach(g, b)
  {
    forall x ensures x in ReachAll(g, {a, b}) <==> x in Reach(g, a) || x in Reach(g, b) {
      if x in ReachAll(g, {a, b}) {
        var o :| o in {a, b} && x in Reach(g, o);
      }
    }
  }

  lemma CrossSeen(x: Cross, local: set<Oid>)
    requires x.Valid() && local == {x.left, x.right, x.left2, x.right2}
    ensures Missing(x.g, local, {x.left2, x.right2}) <= x.Below()
    ensures x.tree in ReachAll(x.g, {x.left2, x.right2}) && x.tree in x.Below() && local !! x.Below()
  {
    CrossReach(x);
    CrossEdges(x);
    VisibleAllReach(x.g, local, {x.left2, x.right2});
    ReachAllPair(x.g, x.left2, x.right2);
  }

  lemma CrossWalk(x: Cross, local: set<Oid>)
    requires x.Valid() && local == {x.left, x.right, x.left2, x.right2}
    ensures WalkEdges(x.g, local, x.left) == WalkEdges(x.g, local, x.right) == (set p | p in x.parents)
    ensures WalkEdges(x.g, local, x.left2) == WalkEdges(x.g, local, x.right2) == {x.left, x.right}
  {
  }

  /** The clone finds commits missing exactly when the branches have a
      common past; a common tree alone goes unnoticed. */
  lemma CrossMissing(x: Cross, local: set<Oid>)
    requires x.Valid() && local == {x.left, x.right, x.left2, x.right2}
    ensures Missing(x.g, local, {x.left2, x.right2}) == {} <==> x.parents == []
  {
    CrossWalk(x, local);
    if x.parents == [] {
      VisibleAllLeast(x.g, local, {x.left2, x.right2}, local);
    } else {
      var p := x.parents[0];
      assert p in Visible(x.g, local, p) && p in Visible(x.g, local, x.left) && p in Visible(x.g, local, x.left2);
      CrossReach(x);
      CrossEdges(x);
      assert p in Reach(x.g, p) && p in x.Below();
    }
  }

  lemma CrossTrapped(x: Cross, l: Ledger)
    requires x.Valid() && Shaped(x, l)
    ensures Trap(x.g, l, Merges(x))
  {
    MergesShape(x, l);
    CrossSeen(x, PackUnion(l.packs, Merges(x)));
    TrapFrom(x.g, l, Merges(x), x.Below(), x.tree);
  }

  lemma TrapFrom(g: Graph, l: Ledger, d: set<BundleId>, below: set<Oid>, o: Oid)
    requires g.Valid() && OnePerTip(l.remote.tips, d)
    requires Missing(g, PackUnion(l.packs, d), Roots(l.remote, d)) <= below && below !! l.remote.tips.Values
    requires o in ReachAll(g, Roots(l.remote, d)) && o !in PackUnion(l.packs, d)
    ensures Trap(g, l, d)
  {
  }

  lemma CrossCloneStops(x: Cross, l: Ledger, wants: set<Oid>, tipIndex: map<Oid, BundleId>,
                        outcome: FetchOutcome, local: set<Oid>, downloaded: set<BundleId>)
    requires x.Valid() && wants == {x.left2, x.right2} && Shaped(x, l)
    requires Clone(x.g, l, wants).Valid() && Sound(x.g, l)
    requires FetchResult(Clone(x.g, l, wants), tipIndex, outcome, local, downloaded)
    ensures local == {x.left, x.right, x.left2, x.right2} && wants == l.remote.refs.Values
    ensures if Missing(x.g, local, wants) == {} then outcome.Done? else outcome.CannotConverge?
  {
    MergesStand(x, l, tipIndex);
    TrapAlwaysDefeats(x.g, l, Merges(x), tipIndex, outcome, local, downloaded);
    EndingOfClone(x.g, l, wants, Merges(x));
  }

  lemma EndingOfClone(g: Graph, l: Ledger, seeds: set<Oid>, d: set<BundleId>)
    requires Clone(g, l, seeds).Valid()
    ensures var ending := Ending(Clone(g, l, seeds), d);
            if Missing(g, PackUnion(l.packs, d), seeds) == {} then ending.Done? else ending.CannotConverge?
  {
    CloneLocal(g, l, seeds, d);
  }

  lemma MergesStand(x: Cross, l: Ledger, tipIndex: map<Oid, BundleId>)
    requires x.Valid() && Shaped(x, l) && IsTipIndex(l.remote.tips, tipIndex)
    ensures Trap(x.g, l, Merges(x)) && Merges(x) <= l.remote.tips.Keys
    ensures Prefers(l.remote.tips, tipIndex, Merges(x))
    ensures PackUnion(l.packs, Merges(x)) == {x.left, x.right, x.left2, x.right2}
    ensures Roots(l.remote, Merges(x)) == {x.left2, x.right2} == l.remote.refs.Values
  {
    MergesShape(x, l);
    CrossTrapped(x, l);
    MergesIndexed(x, l, tipIndex);
  }

  lemma MergesIndexed(x: Cross, l: Ledger, tipIndex: map<Oid, BundleId>)
    requires x.Valid() && Shaped(x, l) && IsTipIndex(l.remote.tips, tipIndex)
    ensures Merges(x) <= l.remote.tips.Keys
    ensures Prefers(l.remote.tips, tipIndex, Merges(x))
  {
    MergesShape(x, l);
    CrossReach(x);
    TipsIndexed(l.remote.tips, tipIndex, Merges(x));
  }

  /** Tips that no other bundle shares are indexed by their own bundle. */
  lemma TipsIndexed(tips: map<BundleId, Oid>, tipIndex: map<Oid, BundleId>, d: set<BundleId>)
    requires IsTipIndex(tips, tipIndex) && d <= tips.Keys
    requires forall b, b' :: b in d && b' in tips && tips[b] == tips[b'] ==> b == b'
    ensures Prefers(tips, tipIndex, d)
  {
  }

  /** Cloning both branches: whatever the fetch does, it stops with the four
      commits and nothing of what lies below them. It reports success when
      the branches have no common past, and cannot converge otherwise. */
  lemma CrossCloneLosesBase(x: Cross, wants: set<Oid>, tipIndex: map<Oid, BundleId>,
                            outcome: FetchOutcome, local: set<Oid>, downloaded: set<BundleId>)
    requires x.Valid() && wants == {x.left2, x.right2}
    requires Clone(x.g, Replay(x.g, x.History()), wants).Valid()
    requires FetchResult(Clone(x.g, Replay(x.g, x.History()), wants), tipIndex, outcome, local, downloaded)
    ensures CoveredRun(x.g, x.History()) && wants == Replay(x.g, x.History()).remote.refs.Values
    ensures x.tree in ReachAll(x.g, wants) && x.tree !in local
    ensures if x.parents == [] then outcome.Done? else outcome.CannotConverge?
  {
    CrossReplay(x);
    ReplaySound(x.g, x.History());
    After4Shaped(x, x.Below());
    CrossCloneStops(x, Replay(x.g, x.History()), wants, tipIndex, outcome, local, downloaded);
    CrossMissing(x, local);
    CrossSeen(x, local);
  }

  /** The cuts of the two merges lead into each other. */
  lemma CrossNotOrdered(x: Cross)
    requires x.Valid()
    ensures CoveredRun(x.g, x.History()) && !CutsOrdered(x.g, Replay(x.g, x.History()))
  {
    var l := Replay(x.g, x.History());
    CrossReplay(x);
    ReplaySound(x.g, x.History());
    After4Shaped(x, x.Below());
    CrossTrapped(x, l);
    if CutsOrdered(x.g, l) {
      OrderedHasNoTrap(x.g, l, Merges(x));
    }
  }

  // ----- such histories exist -----

  function Sha(i: byte): Oid {
    seq(20, _ => i)
  }

  function Example(rooted: bool): Cross {
    var parents := if rooted then [Sha(1)] else [];
    Cross(Graph(map[Sha(0) := Tree({}), Sha(1) := Commit([], Sha(0)),
                    Sha(2) := Commit(parents, Sha(0)), Sha(3) := Commit(parents, Sha(0)),
                    Sha(4) := Commit([Sha(2), Sha(3)], Sha(0)), Sha(5) := Commit([Sha(3), Sha(2)], Sha(0))],
                o => if o == [] then 0 else o[0]),
          Sha(2), Sha(3), Sha(4), Sha(5), parents, Sha(0), [1], [2], [[1], [2], [3], [4]])
  }

  lemma ShaDiffers()
    ensures Sha(0)[0] == 0 && Sha(1)[0] == 1 && Sha(2)[0] == 2 && Sha(3)[0] == 3 && Sha(4)[0] == 4 && Sha(5)[0] == 5
  {
  }

  lemma ExampleEdges(rooted: bool, o: Oid)
    requires o in Example(rooted).g.objects
    ensures var g := Example(rooted).g;
            && (forall e :: e in g.Edges(o) ==> g.height(e) < g.height(o))
            && (g.IsTree(o) <==> o == Sha(0)) && (o == Sha(0) ==> g.Edges(o) == {})
            && (g.IsCommit(o) ==> g.objects[o].tree == Sha(0) && g.objects[o].tree in g.objects)
            && (g.IsCommit(o) ==> forall p :: p in g.objects[o].parents ==> p in g.objects && p != Sha(0))
  {
    ShaDiffers();
  }

  lemma ExampleGraph(rooted: bool)
    ensures Example(rooted).g.Valid()
  {
    var g := Example(rooted).g;
    forall o | o in g.objects
      ensures forall e :: e in g.Edges(o) ==> g.height(e) < g.height(o)
      ensures g.IsTree(o) ==> g.Edges(o) == {}
      ensures g.IsCommit(o) ==> g.IsTree(g.objects[o].tree) && forall p :: p in g.objects[o].parents ==> g.IsCommit(p)
    {
      ExampleEdges(rooted, o);
      assert g.IsTree(Sha(0));
    }
  }

  lemma ExampleValid(rooted: bool)
    ensures Example(rooted).Valid()
  {
    ShaDiffers();
    ExampleGraph(rooted);
    var x := Example(rooted);
    ReachUnfold(x.g, Sha(0));
    ReachUnfold(x.g, Sha(1));
    assert x.g.Edges(Sha(0)) == {} && x.g.Edges(Sha(1)) == {Sha(0)};
    assert Reach(x.g, Sha(1)) == {Sha(1), Sha(0)} && Reach(x.g, Sha(0)) == {Sha(0)};
    assert x.Below() <= {Sha(0), Sha(1)};
  }
}
