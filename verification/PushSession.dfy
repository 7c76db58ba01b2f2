/** One run of the helper's `push` command, from the refs git asks for to the
    update that the contract receives. */
module PushSession {
  import opened Octets
  import opened Repo
  import opened Merge
  import opened CommitGraph
  import opened PushHistory
  import opened PushDelta
  import opened ChunkedPack
  import opened Publish
  import BundleIds
  import Validate
  import opened ContractHistory

  /** What git answers: the object a ref names, and the pack for a previous
      and a new target, if one can be built. */
  datatype Git = Git(resolve: RefName -> Option<Oid>, build: (Option<Oid>, Oid, bool) -> Option<Bytes>)

  datatype Ask = Ask(force: bool, src: RefName, dst: RefName)

  /** Where and in what order chunks are published. */
  datatype Settings = Settings(chunkSize: u32, parallelism: nat, putOrder: nat -> seq<nat>, readOrder: nat -> seq<nat>)

  datatype Report = Report(ok: seq<RefName>, errors: seq<RefName>)

  datatype Plan = Deletion | Unresolvable | UpToDate | Unbuildable | Ready(want: Oid, pack: Bytes)

  function PlanOf(git: Git, st: RepoState, ask: Ask): Plan {
    if ask.src == [] then Deletion
    else
      var want := git.resolve(ask.src);
      if want.None? then Unresolvable
      else if CurrentTarget(st, ask.dst) == want then UpToDate
      else
        var pack := git.build(CurrentTarget(st, ask.dst), want.value, ask.force);
        if pack.None? then Unbuildable else Ready(want.value, pack.value)
  }

  /** BLAKE3 gives 32 bytes, and packs fit in memory. */
  ghost predicate Sized(c: Codec, git: Git) {
    && (forall x :: |c.hash(x)| == 32)
    && forall prev, want, force :: var pack := git.build(prev, want, force);
         pack.Some? ==> |pack.value| < 0x1_0000_0000_0000_0000
  }

  ghost predicate Ordered(s: Settings) {
    forall n :: IsOrder(s.putOrder(n), n) && IsOrder(s.readOrder(n), n)
  }

  /** A pack of at most one chunk is a single bundle. */
  predicate CanPublish(s: Settings, pack: Bytes) {
    |pack| <= s.chunkSize || (s.parallelism > 0 && Publishable(s.chunkSize, pack))
  }

  function BundleFor(c: Codec, s: Settings, pack: Bytes): (b: ObjectBundle)
    requires CanPublish(s, pack)
    ensures (forall x :: |c.hash(x)| == 32) ==> BundleIds.BundleSized(b)
  {
    if |pack| <= s.chunkSize then SinglePack(c.hash(pack), |pack|) else ChunkedBundle(c, s.chunkSize, pack)
  }

  /** The delta for the asks that go through. */
  ghost function DeltaFor(c: Codec, pub: Publisher, git: Git, s: Settings, st: RepoState, asks: seq<Ask>): RepoState
    requires Sized(c, git)
  {
    if asks == [] then EMPTY_STATE
    else
      var before, ask := DeltaFor(c, pub, git, s, st, asks[..|asks| - 1]), asks[|asks| - 1];
      var plan := PlanOf(git, st, ask);
      if plan.Ready? && CanPublish(s, plan.pack)
      then WithPush(pub, st, before, ask.dst, plan.want, BundleFor(c, s, plan.pack))
      else before
  }

  /** The lines for git: one per ask, in order. */
  function ReportFor(git: Git, st: RepoState, asks: seq<Ask>): Report {
    if asks == [] then Report([], [])
    else
      var before, ask := ReportFor(git, st, asks[..|asks| - 1]), asks[|asks| - 1];
      var plan := PlanOf(git, st, ask);
      if plan.Ready? || plan.UpToDate? then before.(ok := before.ok + [ask.dst])
      else before.(errors := before.errors + [ask.dst])
  }

  /** A single bundle is a pack that fits one chunk; a chunked one has at
      least two chunks, enough for the whole pack. */
  lemma BundleShape(c: Codec, s: Settings, pack: Bytes)
    requires CanPublish(s, pack)
    ensures match BundleFor(c, s, pack)
            case SinglePack(hash, size) => hash == c.hash(pack) && size == |pack| <= s.chunkSize
            case ChunkedPack(_, size, count) =>
              && size == |pack| && count >= 2
              && s.chunkSize * (count - 1) < |pack| <= s.chunkSize * count
  {
    if |pack| > s.chunkSize {
      SplitManifest(c.hash, pack, s.chunkSize);
      SplitShape(pack, s.chunkSize);
      Distributes(s.chunkSize, |SplitPack(pack, s.chunkSize)|);
    }
  }

  // ----- what the trace must show -----

  ghost predicate NoUpdates(t: seq<Event>) {
    forall i :: 0 <= i < |t| ==> !t[i].UpdateSent?
  }

  ghost predicate RecordBacked(c: Codec, t: seq<Event>, b: ObjectBundle) {
    exists chunkSize, pack :: Backed(c, t, chunkSize, pack, b)
  }

  /** Every bundle of the delta can be read by whoever sees the delta. */
  ghost predicate AllBacked(c: Codec, t: seq<Event>, delta: RepoState) {
    forall id :: id in delta.objectIndex ==> RecordBacked(c, t, delta.objectIndex[id].bundle)
  }

  /** Every UPDATE comes after the packs of its bundles. */
  ghost predicate Disciplined(c: Codec, t: seq<Event>) {
    forall i :: 0 <= i < |t| && t[i].UpdateSent? ==> AllBacked(c, t[..i], t[i].delta)
  }

  lemma AllBackedLater(c: Codec, t: seq<Event>, t': seq<Event>, delta: RepoState)
    requires AllBacked(c, t, delta) && t <= t'
    ensures AllBacked(c, t', delta)
  {
    forall id | id in delta.objectIndex ensures RecordBacked(c, t', delta.objectIndex[id].bundle) {
      var chunkSize, pack :| Backed(c, t, chunkSize, pack, delta.objectIndex[id].bundle);
      BackedLater(c, t, t', chunkSize, pack, delta.objectIndex[id].bundle);
    }
  }

  lemma BackedAdded(c: Codec, pub: Publisher, t: seq<Event>, st: RepoState, delta: RepoState, dst: RefName, want: Oid,
                    s: Settings, pack: Bytes)
    requires (forall x :: |c.hash(x)| == 32) && CanPublish(s, pack)
    requires AllBacked(c, t, delta) && Backed(c, t, s.chunkSize, pack, BundleFor(c, s, pack))
    ensures AllBacked(c, t, WithPush(pub, st, delta, dst, want, BundleFor(c, s, pack)))
  {
    assert RecordBacked(c, t, BundleFor(c, s, pack));
  }

  lemma QuietExtension(c: Codec, t: seq<Event>, t': seq<Event>)
    requires Disciplined(c, t) && t <= t' && NoUpdates(t'[|t|..])
    ensures Disciplined(c, t')
  {
    assert forall i :: |t| <= i < |t'| ==> t'[i] == t'[|t|..][i - |t|];
    forall i | 0 <= i < |t'| && t'[i].UpdateSent? ensures AllBacked(c, t'[..i], t'[i].delta) {
      assert t'[..i] == t[..i] && t'[i] == t[i];
    }
  }

  lemma UpdateExtension(c: Codec, t: seq<Event>, delta: RepoState)
    requires Disciplined(c, t) && AllBacked(c, t, delta)
    ensures Disciplined(c, t + [UpdateSent(delta)])
  {
    var t' := t + [UpdateSent(delta)];
    forall i | 0 <= i < |t'| && t'[i].UpdateSent? ensures AllBacked(c, t'[..i], t'[i].delta) {
      assert t'[..i] == t[..i];
      assert t[..|t|] == t;
    }
  }

  // ----- the helper's push -----

  lemma QuietRun(before: seq<Event>, after: seq<Event>, full: seq<Event>, ok: bool)
    requires Ran(before, after, full, ok) && NoUpdates(full)
    ensures before <= after && NoUpdates(after[|before|..])
  {
  }

  /** Publish one pack as the size demands. */
  method PublishPack(node: Node, s: Settings, pack: Bytes) returns (r: Result<ObjectBundle, Failure>)
    requires node.Valid() && Ordered(s) && |pack| < 0x1_0000_0000_0000_0000
    modifies node`ops, node`trace, node.Disk()
    ensures old(node.trace) <= node.trace && NoUpdates(node.trace[|old(node.trace)|..])
    ensures r.Ok? ==> CanPublish(s, pack) && r.value == BundleFor(node.codec, s, pack)
    ensures r.Ok? ==> Backed(node.codec, node.trace, s.chunkSize, pack, r.value)
    ensures Serving(node.codec, node.world) && CanPublish(s, pack) ==> r.Ok?
  {
    if |pack| <= s.chunkSize {
      var ok := node.Put(pack);
      if !ok { return Err(PutFailed); }
      assert node.trace[|old(node.trace)|] == PutConfirmed(pack);
      r := Ok(SinglePack(node.codec.hash(pack), |pack|));
    } else {
      assert forall n :: Indices(s.putOrder(n), n) && Indices(s.readOrder(n), n) by {
        assert Ordered(s);
      }
      r := PublishChunkedPack(node, pack, s.chunkSize, s.parallelism, s.putOrder, s.readOrder);
      ChunkedBacked(node.codec, old(node.trace), node.trace, s, pack, r.Ok?);
    }
  }

  lemma ChunkedBacked(c: Codec, before: seq<Event>, after: seq<Event>, s: Settings, pack: Bytes, ok: bool)
    requires Ordered(s)
    requires if s.parallelism > 0 && Publishable(s.chunkSize, pack) then
               var n := |SplitPack(pack, s.chunkSize)|;
               && Indices(s.putOrder(n), n) && Indices(s.readOrder(n), n)
               && Ran(before, after, ChunkedTrace(c, s.chunkSize, pack, s.putOrder(n), s.readOrder(n)), ok)
             else !ok && after == before
    ensures before <= after && NoUpdates(after[|before|..])
    ensures ok ==>
              && Publishable(s.chunkSize, pack)
              && Backed(c, after, s.chunkSize, pack, ChunkedBundle(c, s.chunkSize, pack))
  {
    if s.parallelism > 0 && Publishable(s.chunkSize, pack) {
      var n := |SplitPack(pack, s.chunkSize)|;
      assert IsOrder(s.putOrder(n), n) && IsOrder(s.readOrder(n), n);
      var full := ChunkedTrace(c, s.chunkSize, pack, s.putOrder(n), s.readOrder(n));
      FullTraceBacks(c, s.chunkSize, pack, s.putOrder(n), s.readOrder(n));
      QuietRun(before, after, full, ok);
      if ok {
        assert forall e :: e in full ==> e in after;
        StoredElsewhere(c, full, after, s.chunkSize, pack);
      }
    }
  }

  lemma StoredElsewhere(c: Codec, t: seq<Event>, t': seq<Event>, chunkSize: u32, pack: Bytes)
    requires Publishable(chunkSize, pack) && Backed(c, t, chunkSize, pack, ChunkedBundle(c, chunkSize, pack))
    requires forall e :: e in t ==> e in t'
    ensures Backed(c, t', chunkSize, pack, ChunkedBundle(c, chunkSize, pack))
  {
  }

  /** How the loop over the asks ended: the delta so far, and the lines for
      git, or the failure that aborts the whole push. */
  datatype Progress = Progress(delta: RepoState, report: Report, failure: Option<Failure>)

  ghost predicate Quiet(node: Node, before: seq<Event>)
    reads node
  {
    before <= node.trace && NoUpdates(node.trace[|before|..])
  }

  lemma QuietStep(a: seq<Event>, b: seq<Event>, c: seq<Event>)
    requires a <= b && NoUpdates(b[|a|..]) && b <= c && NoUpdates(c[|b|..])
    ensures a <= c && NoUpdates(c[|a|..])
  {
    forall i | 0 <= i < |c| - |a| ensures !c[|a|..][i].UpdateSent? {
      if |a| + i < |b| {
        assert c[|a| + i] == b[|a|..][i];
      } else {
        assert c[|a| + i] == c[|b|..][|a| + i - |b|];
      }
    }
  }

  /** Every pack that has to go out can. */
  ghost predicate NothingAborts(git: Git, s: Settings, st: RepoState, asks: seq<Ask>) {
    forall i :: 0 <= i < |asks| ==> GoesThrough(git, s, st, asks[i])
  }

  predicate GoesThrough(git: Git, s: Settings, st: RepoState, ask: Ask) {
    var plan := PlanOf(git, st, ask);
    !plan.Unresolvable? && (plan.Ready? ==> CanPublish(s, plan.pack))
  }

  /** What one ask adds when nothing aborts. */
  ghost predicate Stepped(c: Codec, pub: Publisher, git: Git, s: Settings, st: RepoState, ask: Ask, done: Progress,
                          next: Progress)
    requires Sized(c, git)
  {
    var plan := PlanOf(git, st, ask);
    && GoesThrough(git, s, st, ask)
    && next.delta == (if plan.Ready? then WithPush(pub, st, done.delta, ask.dst, plan.want, BundleFor(c, s, plan.pack))
                      else done.delta)
    && next.report == (if plan.Ready? || plan.UpToDate? then done.report.(ok := done.report.ok + [ask.dst])
                       else done.report.(errors := done.report.errors + [ask.dst]))
  }

  /** The asks so far went through, and this is what they add up to. */
  ghost predicate SoFar(c: Codec, pub: Publisher, git: Git, s: Settings, st: RepoState, asks: seq<Ask>, done: Progress)
    requires Sized(c, git)
  {
    && NothingAborts(git, s, st, asks)
    && done.delta == DeltaFor(c, pub, git, s, st, asks) && done.report == ReportFor(git, st, asks)
  }

  lemma OneMore(c: Codec, pub: Publisher, git: Git, s: Settings, st: RepoState, asks: seq<Ask>, ask: Ask,
                done: Progress, next: Progress)
    requires Sized(c, git) && SoFar(c, pub, git, s, st, asks, done) && Stepped(c, pub, git, s, st, ask, done, next)
    ensures SoFar(c, pub, git, s, st, asks + [ask], next)
  {
    assert (asks + [ask])[..|asks|] == asks;
  }

  /** One ref: nothing to do, an error line for git, or a published pack and
      its part of the delta. */
  method PushOne(node: Node, pub: Publisher, git: Git, s: Settings, st: RepoState, done: Progress, ask: Ask)
    returns (next: Progress)
    requires node.Valid() && Ordered(s) && Sized(node.codec, git) && done.failure.None?
    requires AllBacked(node.codec, node.trace, done.delta)
    modifies node`ops, node`trace, node.Disk()
    ensures old(node.trace) <= node.trace && NoUpdates(node.trace[|old(node.trace)|..])
    ensures next.failure.None? ==>
              AllBacked(node.codec, node.trace, next.delta) && Stepped(node.codec, pub, git, s, st, ask, done, next)
    ensures Serving(node.codec, node.world) && GoesThrough(git, s, st, ask) ==> next.failure.None?
  {
    if ask.src == [] {
      return done.(report := done.report.(errors := done.report.errors + [ask.dst]));
    }
    var want := git.resolve(ask.src);
    if want.None? {
      return done.(failure := Some(Unresolved(ask.dst)));
    }
    var prev := CurrentTarget(st, ask.dst);
    if prev == want {
      return done.(report := done.report.(ok := done.report.ok + [ask.dst]));
    }
    var pack := git.build(prev, want.value, ask.force);
    if pack.None? {
      return done.(report := done.report.(errors := done.report.errors + [ask.dst]));
    }
    var published := PublishPack(node, s, pack.value);
    if published.Err? {
      return done.(failure := Some(published.error));
    }
    AllBackedLater(node.codec, old(node.trace), node.trace, done.delta);
    BackedAdded(node.codec, pub, node.trace, st, done.delta, ask.dst, want.value, s, pack.value);
    next := Progress(WithPush(pub, st, done.delta, ask.dst, want.value, published.value),
                     done.report.(ok := done.report.ok + [ask.dst]), None);
  }

  method PushAll(node: Node, pub: Publisher, git: Git, s: Settings, st: RepoState, asks: seq<Ask>)
    returns (done: Progress)
    requires node.Valid() && Ordered(s) && Sized(node.codec, git)
    modifies node`ops, node`trace, node.Disk()
    ensures old(node.trace) <= node.trace && NoUpdates(node.trace[|old(node.trace)|..])
    ensures done.failure.None? ==>
              SoFar(node.codec, pub, git, s, st, asks, done) && AllBacked(node.codec, node.trace, done.delta)
    ensures Serving(node.codec, node.world) && NothingAborts(git, s, st, asks) ==> done.failure.None?
  {
    done := Progress(EMPTY_STATE, Report([], []), None);
    for i := 0 to |asks|
      invariant done.failure.None? && Quiet(node, old(node.trace))
      invariant SoFar(node.codec, pub, git, s, st, asks[..i], done) && AllBacked(node.codec, node.trace, done.delta)
    {
      ghost var middle := node.trace;
      var next := PushOne(node, pub, git, s, st, done, asks[i]);
      QuietStep(old(node.trace), middle, node.trace);
      if next.failure.Some? { return next; }
      OneMore(node.codec, pub, git, s, st, asks[..i], asks[i], done, next);
      done := next;
      assert asks[..i + 1] == asks[..i] + [asks[i]];
    }
    assert asks[..|asks|] == asks;
  }

  /** `handle_push`: at most one UPDATE, sent last, for exactly the delta of
      the asks, and only after everything it refers to was PUT; any failure
      before that leaves the contract alone. */
  method HandlePush(node: Node, pub: Publisher, git: Git, s: Settings, st: RepoState, asks: seq<Ask>)
    returns (r: Result<Report, Failure>, sent: bool)
    requires node.Valid() && Ordered(s) && Sized(node.codec, git) && Disciplined(node.codec, node.trace)
    modifies node`ops, node`trace, node.Disk()
    ensures Disciplined(node.codec, node.trace)
    ensures old(node.trace) <= node.trace
    ensures !sent ==> NoUpdates(node.trace[|old(node.trace)|..])
    ensures sent ==>
              var n := |node.trace| - 1;
              && n >= |old(node.trace)| && NoUpdates(node.trace[|old(node.trace)|..n])
              && NothingAborts(git, s, st, asks)
              && var delta := DeltaFor(node.codec, pub, git, s, st, asks);
              && !Nothing(delta) && node.trace[n] == UpdateSent(delta) && AllBacked(node.codec, node.trace[..n], delta)
              && Validate.ValidState(pub.crypto, pub.params, Merged(st, delta))
    ensures r.Ok? ==> r.value == ReportFor(git, st, asks) && NothingAborts(git, s, st, asks)
    ensures r.Ok? && !sent ==> Nothing(DeltaFor(node.codec, pub, git, s, st, asks))
    ensures Serving(node.codec, node.world) && NothingAborts(git, s, st, asks) && r.Err? ==>
              || (sent && r.error == UpdateFailed)
              || !Validate.ValidState(pub.crypto, pub.params, Merged(st, DeltaFor(node.codec, pub, git, s, st, asks)))
  {
    var done := PushAll(node, pub, git, s, st, asks);
    QuietExtension(node.codec, old(node.trace), node.trace);
    if done.failure.Some? { return Err(done.failure.value), false; }
    var delta := done.delta;
    if Nothing(delta) { return Ok(done.report), false; }
    var checked := Validate.UpdateState(pub.crypto, pub.params, st, delta);
    if checked.Err? { return Err(RejectedLocally), false; }
    ghost var t := node.trace;
    UpdateExtension(node.codec, t, delta);
    var ok := node.Update(delta);
    assert node.trace[..|t|] == t;
    assert node.trace[|old(node.trace)|..|t|] == t[|old(node.trace)|..];
    r, sent := (if ok then Ok(done.report) else Err(UpdateFailed)), true;
  }

  predicate Nothing(delta: RepoState) {
    delta.objectIndex == map[] && delta.refs == map[] && delta.extensions == map[]
  }

  // ----- a crash at any point -----

  /** Applying any of the updates sent so far, in any order and number. */
  ghost predicate FromUpdates(t: seq<Event>, deltas: seq<RepoState>) {
    forall i :: 0 <= i < |deltas| ==> UpdateSent(deltas[i]) in t
  }

  ghost function Applied(start: RepoState, deltas: seq<RepoState>): RepoState {
    if deltas == [] then start else Merged(Applied(start, deltas[..|deltas| - 1]), deltas[|deltas| - 1])
  }

  lemma {:induction false} AppliedIndex(start: RepoState, deltas: seq<RepoState>, id: BundleId)
    requires id in Applied(start, deltas).objectIndex
    ensures var r := Applied(start, deltas).objectIndex[id];
            || (id in start.objectIndex && start.objectIndex[id] == r)
            || exists i :: 0 <= i < |deltas| && id in deltas[i].objectIndex && deltas[i].objectIndex[id] == r
  {
    if deltas != [] {
      var front, last := deltas[..|deltas| - 1], deltas[|deltas| - 1];
      if id in Applied(start, front).objectIndex {
        AppliedIndex(start, front, id);
      } else {
        assert last.objectIndex[id] == Applied(start, deltas).objectIndex[id];
      }
    }
  }

  /** Wherever the helper stops, whichever of its updates the network applies:
      every bundle that the contract gained was stored before. */
  lemma CrashLeavesNothingDangling(c: Codec, t: seq<Event>, n: nat, start: RepoState, deltas: seq<RepoState>,
                                   id: BundleId)
    requires Disciplined(c, t) && n <= |t| && FromUpdates(t[..n], deltas)
    requires id in Applied(start, deltas).objectIndex
    ensures || (id in start.objectIndex && start.objectIndex[id] == Applied(start, deltas).objectIndex[id])
            || RecordBacked(c, t[..n], Applied(start, deltas).objectIndex[id].bundle)
  {
    AppliedIndex(start, deltas, id);
    var r := Applied(start, deltas).objectIndex[id];
    if !(id in start.objectIndex && start.objectIndex[id] == r) {
      var i :| 0 <= i < |deltas| && id in deltas[i].objectIndex && deltas[i].objectIndex[id] == r;
      SentAreBacked(c, t, n, deltas[i]);
    }
  }

  lemma SentAreBacked(c: Codec, t: seq<Event>, n: nat, delta: RepoState)
    requires Disciplined(c, t) && n <= |t| && UpdateSent(delta) in t[..n]
    ensures AllBacked(c, t[..n], delta)
  {
    var k :| 0 <= k < n && t[..n][k] == UpdateSent(delta);
    assert AllBacked(c, t[..k], t[k].delta);
    AllBackedLater(c, t[..k], t[..n], delta);
  }

  // ----- the history that the session adds -----

  /** The asks, seen as refs of the history: git builds a pack exactly when
      the previous target allows one, and the bundle is that pack's. */
  ghost predicate Describes(g: Graph, c: Codec, git: Git, s: Settings, st: RepoState, ask: Ask, spec: Spec)
    requires g.Valid()
  {
    var plan, p := PlanOf(git, st, ask), spec.push;
    && p.dst == ask.dst && p.force == ask.force && git.resolve(ask.src) == Some(p.want) && ask.src != []
    && (plan.Ready? <==> Goes(g, st, p))
    && (plan.Ready? ==> CanPublish(s, plan.pack) && spec.bundle == BundleFor(c, s, plan.pack))
  }

  /** The delta that `handle_push` sends is the one that the contract's
      history is made of. */
  lemma {:induction false} DeltaIsSessionDelta(g: Graph, c: Codec, pub: Publisher, git: Git, s: Settings, st: RepoState,
                                               asks: seq<Ask>, specs: Session)
    requires g.Valid() && Sized(c, git) && AllFormed(pub, specs) && |asks| == |specs|
    requires forall i :: 0 <= i < |asks| ==> Describes(g, c, git, s, st, asks[i], specs[i])
    ensures DeltaFor(c, pub, git, s, st, asks) == SessionDelta(g, pub, st, specs)
  {
    if asks != [] {
      var ask, spec := asks[|asks| - 1], specs[|specs| - 1];
      DeltaIsSessionDelta(g, c, pub, git, s, st, asks[..|asks| - 1], specs[..|specs| - 1]);
      assert Describes(g, c, git, s, st, ask, spec) && WellFormed(pub, spec);
      SamePlan(g, c, git, s, st, ask, spec);
    }
  }

  lemma SamePlan(g: Graph, c: Codec, git: Git, s: Settings, st: RepoState, ask: Ask, spec: Spec)
    requires g.Valid() && Describes(g, c, git, s, st, ask, spec)
    ensures var plan := PlanOf(git, st, ask);
            && (plan.Ready? && CanPublish(s, plan.pack) <==> Goes(g, st, spec.push))
            && ask.dst == spec.push.dst
            && (plan.Ready? ==>
                plan.want == spec.push.want && CanPublish(s, plan.pack) && BundleFor(c, s, plan.pack) == spec.bundle)
  {
  }

  // ----- what becomes of one ask -----

  /** Git builds a pack for a new ref, over an old target that it has, or when
      forced. */
  ghost predicate BuildsFrom(g: Graph, pusher: set<Oid>, git: Git)
    requires g.Valid()
  {
    forall prev, want, force ::
      git.build(prev, want, force).Some? <==> prev.None? || HasCommit(g, pusher, prev.value) || force
  }

  /** The ask moves its ref: it names an object, the ref is not there yet, and
      the old target does not stop it. */
  ghost predicate Moves(g: Graph, pusher: set<Oid>, git: Git, st: RepoState, ask: Ask)
    requires g.Valid()
  {
    && ask.src != [] && git.resolve(ask.src).Some?
    && (ask.dst in st.refs ==>
          && st.refs[ask.dst].value.target != git.resolve(ask.src).value
          && (HasCommit(g, pusher, st.refs[ask.dst].value.target) || ask.force))
  }

  ghost predicate OnlyFor(asks: seq<Ask>, i: nat) {
    i < |asks| && forall j :: 0 <= j < |asks| && j != i ==> asks[j].dst != asks[i].dst
  }

  lemma {:induction false} NoOther(c: Codec, pub: Publisher, git: Git, s: Settings, st: RepoState, asks: seq<Ask>,
                                   dst: RefName)
    requires Sized(c, git) && forall j :: 0 <= j < |asks| ==> asks[j].dst != dst
    ensures dst !in DeltaFor(c, pub, git, s, st, asks).refs
    ensures dst !in ReportFor(git, st, asks).ok && dst !in ReportFor(git, st, asks).errors
  {
    if asks != [] {
      NoOther(c, pub, git, s, st, asks[..|asks| - 1], dst);
    }
  }

  /** A ref that is asked for once ends up in the delta exactly when its ask
      moves it, at the object asked for; its line for git is an error for a
      deletion, and for an unforced ask over an old target that is not local. */
  lemma {:induction false} AskMeans(g: Graph, pusher: set<Oid>, c: Codec, pub: Publisher, git: Git, s: Settings,
                                    st: RepoState, asks: seq<Ask>, i: nat)
    requires g.Valid() && Sized(c, git) && BuildsFrom(g, pusher, git) && NothingAborts(git, s, st, asks)
    requires OnlyFor(asks, i)
    ensures var delta, ask := DeltaFor(c, pub, git, s, st, asks), asks[i];
            && (ask.dst in delta.refs <==> Moves(g, pusher, git, st, ask))
            && (ask.dst in delta.refs ==>
                  delta.refs[ask.dst].value.target == git.resolve(ask.src).value && !Nothing(delta))
    ensures var report, ask := ReportFor(git, st, asks), asks[i];
            && (ask.dst in report.errors <==> ask.src == [] || Stopped(g, pusher, git, st, ask))
            && (ask.dst in report.ok <==> ask.dst !in report.errors)
  {
    var init, last := asks[..|asks| - 1], asks[|asks| - 1];
    PlanMeans(g, pusher, git, st, asks[i]);
    if i == |init| {
      NoOther(c, pub, git, s, st, init, last.dst);
    } else {
      AskMeans(g, pusher, c, pub, git, s, st, init, i);
    }
  }

  /** There is something to send exactly when some ask moves its ref. */
  lemma {:induction false} NothingIff(g: Graph, pusher: set<Oid>, c: Codec, pub: Publisher, git: Git, s: Settings,
                                      st: RepoState, asks: seq<Ask>)
    requires g.Valid() && Sized(c, git) && BuildsFrom(g, pusher, git) && NothingAborts(git, s, st, asks)
    ensures Nothing(DeltaFor(c, pub, git, s, st, asks)) <==> NoneMoves(g, pusher, git, st, asks)
  {
    if asks != [] {
      var init, last := asks[..|asks| - 1], asks[|asks| - 1];
      NothingIff(g, pusher, c, pub, git, s, st, init);
      PlanMeans(g, pusher, git, st, last);
      OneMoreIs(c, pub, git, s, st, asks);
      NoneMovesLast(g, pusher, git, st, asks);
    }
  }

  lemma NoneMovesLast(g: Graph, pusher: set<Oid>, git: Git, st: RepoState, asks: seq<Ask>)
    requires g.Valid() && asks != []
    ensures NoneMoves(g, pusher, git, st, asks) <==>
              NoneMoves(g, pusher, git, st, asks[..|asks| - 1]) && !Moves(g, pusher, git, st, asks[|asks| - 1])
  {
    var init := asks[..|asks| - 1];
    assert forall i :: 0 <= i < |init| ==> asks[i] == init[i];
  }

  ghost predicate NoneMoves(g: Graph, pusher: set<Oid>, git: Git, st: RepoState, asks: seq<Ask>)
    requires g.Valid()
  {
    forall i :: 0 <= i < |asks| ==> !Moves(g, pusher, git, st, asks[i])
  }

  /** What the last ask adds to what there is to send. */
  lemma OneMoreIs(c: Codec, pub: Publisher, git: Git, s: Settings, st: RepoState, asks: seq<Ask>)
    requires Sized(c, git) && NothingAborts(git, s, st, asks) && asks != []
    ensures var before, after := DeltaFor(c, pub, git, s, st, asks[..|asks| - 1]), DeltaFor(c, pub, git, s, st, asks);
            Nothing(after) <==> Nothing(before) && !PlanOf(git, st, asks[|asks| - 1]).Ready?
  {
    var before, ask := DeltaFor(c, pub, git, s, st, asks[..|asks| - 1]), asks[|asks| - 1];
    var plan := PlanOf(git, st, ask);
    if plan.Ready? {
      var after := WithPush(pub, st, before, ask.dst, plan.want, BundleFor(c, s, plan.pack));
      assert ask.dst in after.refs;
    }
  }

  ghost predicate Stopped(g: Graph, pusher: set<Oid>, git: Git, st: RepoState, ask: Ask)
    requires g.Valid()
  {
    && git.resolve(ask.src).Some? && ask.dst in st.refs && !ask.force
    && st.refs[ask.dst].value.target != git.resolve(ask.src).value
    && !HasCommit(g, pusher, st.refs[ask.dst].value.target)
  }

  lemma PlanMeans(g: Graph, pusher: set<Oid>, git: Git, st: RepoState, ask: Ask)
    requires g.Valid() && BuildsFrom(g, pusher, git)
    ensures var plan := PlanOf(git, st, ask);
            && (plan.Ready? <==> Moves(g, pusher, git, st, ask))
            && (plan.Ready? ==> plan.want == git.resolve(ask.src).value)
            && (plan.Deletion? <==> ask.src == [])
            && (plan.Unresolvable? <==> ask.src != [] && git.resolve(ask.src).None?)
            && (plan.Unbuildable? <==> ask.src != [] && Stopped(g, pusher, git, st, ask))
  {
  }

  /** With such a git, the asks of a session are refs of the history. */
  lemma DescribesFrom(g: Graph, pusher: set<Oid>, c: Codec, git: Git, s: Settings, st: RepoState, ask: Ask, spec: Spec)
    requires g.Valid() && BuildsFrom(g, pusher, git) && ask.src != []
    requires git.resolve(ask.src) == Some(spec.push.want)
    requires spec.push == Push(ask.dst, spec.push.want, ask.force, pusher, spec.push.id)
    requires var plan := PlanOf(git, st, ask);
             plan.Ready? ==> CanPublish(s, plan.pack) && spec.bundle == BundleFor(c, s, plan.pack)
    ensures Describes(g, c, git, s, st, ask, spec)
  {
    if ask.dst in st.refs {
      HasCommitIff(g, pusher, st.refs[ask.dst].value.target);
    }
  }
}
