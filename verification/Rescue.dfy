/** Re-publishing a contract's bundles: which ones, a bounded number at a
    time, and what a clone can still get from them. */
module Rescue {
  import opened Octets
  import opened CommitGraph
  import opened Fetch
  import opened FetchRounds
  import opened PushHistory
  import opened Delivery
  import opened PushPatterns

  // ----- which bundles -----

  /** The `mirror-mode` extension, as far as it is readable. */
  datatype MirrorMode = Snapshot | History | Unstated

  datatype RescueError = AllSkipped | SomeFailed(failed: seq<BundleId>)

  function FiltersTips(rescueAll: bool, onlyCurrentTips: bool, mode: MirrorMode): bool {
    !rescueAll && (onlyCurrentTips || mode == Snapshot)
  }

  /** Bundles whose advertised tip is what some ref now points at. */
  function Kept(r: Remote): set<BundleId> {
    set b | b in r.index && b in r.tips && r.tips[b] in r.refs.Values
  }

  method PartitionBundles(r: Remote, onlyCurrentTips: bool) returns (kept: seq<BundleId>, skipped: nat)
    ensures NoDuplicates(kept) && Elems(kept) == if onlyCurrentTips then Kept(r) else r.index
    ensures |kept| + skipped == |r.index|
  {
    var order := Listed(r.index);
    ListedOnce(order);
    if !onlyCurrentTips { return order, 0; }
    kept, skipped := [], 0;
    for i := 0 to |order|
      invariant |kept| + skipped == i
      invariant NoDuplicates(kept) && Elems(kept) == Kept(r) * Elems(order[..i])
    {
      assert order[..i + 1] == order[..i] + [order[i]] && order[i] in Elems(order);
      if order[i] in r.tips && r.tips[order[i]] in r.refs.Values {
        assert order[i] in Kept(r);
        AddOnce(kept, order, i);
        kept := kept + [order[i]];
      } else {
        assert order[i] !in Kept(r);
        skipped := skipped + 1;
      }
    }
    assert order[..|order|] == order && Kept(r) * Elems(order) == Kept(r);
  }

  lemma {:induction false} ListedOnce<T>(s: seq<T>)
    requires NoDuplicates(s)
    ensures |Elems(s)| == |s|
  {
    if s != [] {
      var front, last := s[..|s| - 1], s[|s| - 1];
      ListedOnce(front);
      assert Elems(s) == Elems(front) + {last} && last !in Elems(front);
    }
  }

  lemma AddOnce(kept: seq<BundleId>, order: seq<BundleId>, i: nat)
    requires NoDuplicates(kept) && NoDuplicates(order) && i < |order| && Elems(kept) <= Elems(order[..i])
    ensures NoDuplicates(kept + [order[i]]) && Elems(kept + [order[i]]) == Elems(kept) + {order[i]}
  {
    assert forall k :: 0 <= k < |kept| ==> kept[k] in Elems(kept);
    assert order[i] !in Elems(order[..i]);
  }

  // ----- a bounded number at a time -----

  datatype Step = Started(id: BundleId) | Finished(id: BundleId)

  function Starts(t: seq<Step>): seq<BundleId> {
    if t == [] then []
    else Starts(t[..|t| - 1]) + if t[|t| - 1].Started? then [t[|t| - 1].id] else []
  }

  function Finishes(t: seq<Step>): seq<BundleId> {
    if t == [] then []
    else Finishes(t[..|t| - 1]) + if t[|t| - 1].Finished? then [t[|t| - 1].id] else []
  }

  ghost predicate BoundedAt(t: seq<Step>, n: nat, limit: nat)
    requires n <= |t|
  {
    && multiset(Finishes(t[..n])) <= multiset(Starts(t[..n]))
    && |Starts(t[..n])| - |Finishes(t[..n])| <= limit
  }

  /** At every moment at most `limit` tasks are running, and only tasks that
      were started have finished. */
  ghost predicate Bounded(t: seq<Step>, limit: nat) {
    forall n {:trigger BoundedAt(t, n, limit)} :: 0 <= n <= |t| ==> BoundedAt(t, n, limit)
  }

  lemma StepTaken(t: seq<Step>, s: Step)
    ensures Starts(t + [s]) == if s.Started? then Starts(t) + [s.id] else Starts(t)
    ensures Finishes(t + [s]) == if s.Finished? then Finishes(t) + [s.id] else Finishes(t)
  {
    assert (t + [s])[..|t|] == t;
  }

  lemma BoundedMore(t: seq<Step>, s: Step, limit: nat)
    requires Bounded(t, limit) && BoundedAt(t + [s], |t| + 1, limit)
    ensures Bounded(t + [s], limit)
  {
    forall n {:trigger BoundedAt(t + [s], n, limit)} | 0 <= n <= |t| + 1 ensures BoundedAt(t + [s], n, limit) {
      if n <= |t| {
        assert (t + [s])[..n] == t[..n];
        assert BoundedAt(t, n, limit);
      }
    }
    assert |t + [s]| == |t| + 1;
  }

  /** What is started and not finished. */
  ghost predicate Running(t: seq<Step>, inFlight: seq<BundleId>, limit: nat) {
    Bounded(t, limit) && multiset(Starts(t)) == multiset(Finishes(t)) + multiset(inFlight)
  }

  lemma StartOne(t: seq<Step>, inFlight: seq<BundleId>, id: BundleId, limit: nat)
    requires Running(t, inFlight, limit) && |inFlight| < limit
    ensures Running(t + [Started(id)], inFlight + [id], limit)
    ensures Starts(t + [Started(id)]) == Starts(t) + [id] && Finishes(t + [Started(id)]) == Finishes(t)
  {
    Counted(t, inFlight);
    StepTaken(t, Started(id));
    assert (t + [Started(id)])[..|t| + 1] == t + [Started(id)];
    BoundedMore(t, Started(id), limit);
  }

  lemma StartNext(kept: seq<BundleId>, next: nat, t: seq<Step>, inFlight: seq<BundleId>, limit: nat)
    requires Running(t, inFlight, limit) && |inFlight| < limit && next < |kept| && Starts(t) == kept[..next]
    ensures Running(t + [Started(kept[next])], inFlight + [kept[next]], limit)
    ensures Starts(t + [Started(kept[next])]) == kept[..next + 1]
    ensures Finishes(t + [Started(kept[next])]) == Finishes(t)
  {
    NextTaken(kept, next);
    StartOne(t, inFlight, kept[next], limit);
  }

  lemma NextTaken<T>(s: seq<T>, n: nat)
    requires n < |s|
    ensures s[..n + 1] == s[..n] + [s[n]]
  {
  }

  lemma FinishOne(t: seq<Step>, inFlight: seq<BundleId>, i: nat, limit: nat)
    requires Running(t, inFlight, limit) && i < |inFlight|
    ensures Running(t + [Finished(inFlight[i])], inFlight[..i] + inFlight[i + 1..], limit)
    ensures Starts(t + [Finished(inFlight[i])]) == Starts(t)
    ensures Finishes(t + [Finished(inFlight[i])]) == Finishes(t) + [inFlight[i]]
    ensures |Finishes(t)| < |Starts(t)|
  {
    Counted(t, inFlight);
    Removed(inFlight, i);
    RunningBounded(t, inFlight, limit);
    var s := Finished(inFlight[i]);
    StepTaken(t, s);
    assert (t + [s])[..|t| + 1] == t + [s];
    BoundedMore(t, s, limit);
  }

  lemma RunningBounded(t: seq<Step>, inFlight: seq<BundleId>, limit: nat)
    requires Running(t, inFlight, limit)
    ensures |Starts(t)| - |Finishes(t)| <= limit
  {
    assert BoundedAt(t, |t|, limit) && t[..|t|] == t;
  }

  lemma Counted(t: seq<Step>, inFlight: seq<BundleId>)
    requires multiset(Starts(t)) == multiset(Finishes(t)) + multiset(inFlight)
    ensures |Starts(t)| == |Finishes(t)| + |inFlight|
  {
    assert |multiset(Starts(t))| == |multiset(Finishes(t))| + |multiset(inFlight)|;
  }

  lemma Removed<T>(s: seq<T>, i: nat)
    requires i < |s|
    ensures multiset(s) == multiset(s[..i] + s[i + 1..]) + multiset{s[i]}
  {
    assert s == s[..i] + [s[i]] + s[i + 1..];
  }

  /** Start tasks while there is room and something left to start. */
  method Refill(kept: seq<BundleId>, limit: nat, next0: nat, inFlight0: seq<BundleId>, t0: seq<Step>)
    returns (next: nat, inFlight: seq<BundleId>, t: seq<Step>)
    requires next0 <= |kept| && Starts(t0) == kept[..next0] && Running(t0, inFlight0, limit)
    ensures next <= |kept| && Starts(t) == kept[..next] && Finishes(t) == Finishes(t0)
    ensures Running(t, inFlight, limit) && (inFlight == [] && limit > 0 ==> next == |kept|)
  {
    next, inFlight, t := next0, inFlight0, t0;
    while |inFlight| < limit && next < |kept|
      invariant next <= |kept| && Starts(t) == kept[..next] && Finishes(t) == Finishes(t0)
      invariant Running(t, inFlight, limit)
    {
      StartNext(kept, next, t, inFlight, limit);
      t := t + [Started(kept[next])];
      inFlight := inFlight + [kept[next]];
      next := next + 1;
    }
  }

  function FailedOf(ids: seq<BundleId>, works: BundleId -> bool): (failed: seq<BundleId>)
    ensures |failed| <= |ids|
    ensures forall id :: id in failed <==> id in ids && !works(id)
  {
    if ids == [] then []
    else
      var last := ids[|ids| - 1];
      assert ids == ids[..|ids| - 1] + [last];
      FailedOf(ids[..|ids| - 1], works) + if works(last) then [] else [last]
  }

  /** Every finished task is counted once, as done or as failed. */
  predicate Tally(finished: seq<BundleId>, works: BundleId -> bool, done: nat, failed: seq<BundleId>) {
    failed == FailedOf(finished, works) && done + |failed| == |finished|
  }

  lemma TallyOne(finished: seq<BundleId>, id: BundleId, works: BundleId -> bool, done: nat, failed: seq<BundleId>)
    requires Tally(finished, works, done, failed)
    ensures if works(id) then Tally(finished + [id], works, done + 1, failed)
            else Tally(finished + [id], works, done, failed + [id])
  {
    assert (finished + [id])[..|finished|] == finished;
  }

  /** Every kept bundle is started once, in order, at most `limit` run at a
      time, every one finishes, and each is counted once. `works` says whose
      task succeeds, `first` which running task finishes next. */
  method RunTasks(kept: seq<BundleId>, limit: nat, works: BundleId -> bool, first: seq<BundleId> -> nat)
    returns (done: nat, failed: seq<BundleId>, t: seq<Step>)
    requires limit > 0 && forall s :: s != [] ==> first(s) < |s|
    ensures Starts(t) == kept && multiset(Finishes(t)) == multiset(kept) && Bounded(t, limit)
    ensures failed == FailedOf(Finishes(t), works) && done + |failed| == |kept|
  {
    var next: nat, inFlight := 0, [];
    done, failed, t := 0, [], [];
    while true
      invariant next <= |kept| && Starts(t) == kept[..next] && Running(t, inFlight, limit)
      invariant Tally(Finishes(t), works, done, failed)
      decreases |kept| - |Finishes(t)|
    {
      next, inFlight, t := Refill(kept, limit, next, inFlight, t);
      if inFlight == [] {
        AllDone(kept, t, limit);
        return;
      }
      var i := first(inFlight);
      FinishOne(t, inFlight, i, limit);
      TallyOne(Finishes(t), inFlight[i], works, done, failed);
      t := t + [Finished(inFlight[i])];
      if works(inFlight[i]) { done := done + 1; } else { failed := failed + [inFlight[i]]; }
      inFlight := inFlight[..i] + inFlight[i + 1..];
    }
  }

  lemma AllDone(kept: seq<BundleId>, t: seq<Step>, limit: nat)
    requires Running(t, [], limit) && Starts(t) == kept[..|kept|]
    ensures Starts(t) == kept && multiset(Finishes(t)) == multiset(kept) && Bounded(t, limit)
    ensures |Finishes(t)| == |kept|
  {
    assert kept[..|kept|] == kept;
    Counted(t, []);
  }

  /** `rescue`, up to its printing: success means that every bundle that had
      to be kept was published again. */
  method RescueAll(r: Remote, rescueAll: bool, onlyCurrentTips: bool, mode: MirrorMode, parallel: nat,
                   works: BundleId -> bool, first: seq<BundleId> -> nat)
    returns (outcome: Result<set<BundleId>, RescueError>)
    requires forall s :: s != [] ==> first(s) < |s|
    ensures var filtered := FiltersTips(rescueAll, onlyCurrentTips, mode);
            var chosen := if filtered then Kept(r) else r.index;
            && (outcome == Err(AllSkipped) <==> filtered && r.index != {} && chosen == {})
            && (outcome.Ok? ==> outcome.value == chosen && forall b :: b in chosen ==> works(b))
            && (outcome.Err? && outcome.error.SomeFailed? ==>
                  outcome.error.failed != [] && forall b :: b in outcome.error.failed <==> b in chosen && !works(b))
    ensures rescueAll || (!onlyCurrentTips && (mode.History? || mode.Unstated?)) ==>
              outcome != Err(AllSkipped) && (outcome.Ok? ==> outcome.value == r.index)
    ensures !rescueAll && (onlyCurrentTips || mode.Snapshot?) && outcome.Ok? ==>
              forall b :: b in outcome.value <==>
                b in r.index && b in r.tips && exists dst :: dst in r.refs && r.refs[dst] == r.tips[b]
  {
    var filtered := FiltersTips(rescueAll, onlyCurrentTips, mode);
    var kept, skipped := PartitionBundles(r, filtered);
    EmptyElems(kept);
    if filtered && r.index != {} && kept == [] { return Err(AllSkipped); }
    var done, failed, t := RunTasks(kept, if parallel == 0 then 1 else parallel, works, first);
    SameElems(Finishes(t), kept);
    outcome := if failed == [] then Ok(Elems(kept)) else Err(SomeFailed(failed));
  }

  lemma EmptyElems<T>(s: seq<T>)
    ensures Elems(s) == {} <==> s == []
  {
    if s != [] { assert s[0] in Elems(s); }
  }

  lemma SameElems(a: seq<BundleId>, b: seq<BundleId>)
    requires multiset(a) == multiset(b)
    ensures Elems(a) == Elems(b) && forall x :: x in a <==> x in b
  {
    forall x ensures x in a <==> x in b {
      assert x in a <==> x in multiset(a);
      assert x in b <==> x in multiset(b);
    }
  }

  // ----- what a clone can still get -----

  /** A clone when the network still serves only the bundles in `served`. */
  ghost function ServedJob(g: Graph, l: Ledger, served: set<BundleId>, seeds: set<Oid>): Job {
    Job(g, l.remote, map b | b in l.packs && b in served :: l.packs[b], seeds, {})
  }

  /** The bundles that stand for `seeds` were cut against nothing. */
  ghost predicate StandWhole(l: Ledger, tipIndex: map<Oid, BundleId>, seeds: set<Oid>) {
    forall s :: s in seeds && s in tipIndex && tipIndex[s] in l.haves ==> l.haves[tipIndex[s]].None?
  }

  lemma ServedJobValid(g: Graph, l: Ledger, served: set<BundleId>, seeds: set<Oid>)
    requires g.Valid() && Sound(g, l)
    ensures ServedJob(g, l, served, seeds).Valid() && ServedJob(g, l, served, seeds).TagsComplete()
    ensures ServedJob(g, l, served, seeds).packs.Keys <= l.remote.index && Legacy(l.remote) == {}
  {
    forall b | b in l.packs ensures l.packs[b] <= g.objects.Keys && TagClosed(g, l.packs[b]) {
      assert BundleSound(g, l, b);
    }
  }

  /** A bundle that stands for a current ref's target is kept. */
  lemma SeedBundleKept(g: Graph, l: Ledger, tipIndex: map<Oid, BundleId>, s: Oid)
    requires g.Valid() && Sound(g, l) && IsTipIndex(l.remote.tips, tipIndex) && s in l.remote.refs.Values
    ensures s in tipIndex && tipIndex[s] in Kept(l.remote) && BundleSound(g, l, tipIndex[s])
  {
    assert s in l.remote.tips.Values;
  }

  /** What a fetch that stops of itself has to say. */
  lemma StoppedWith(job: Job, tipIndex: map<Oid, BundleId>,
                    outcome: FetchOutcome, local: set<Oid>, downloaded: set<BundleId>) returns (n: nat)
    requires job.Valid() && Exact(job, tipIndex) && FetchResult(job, tipIndex, outcome, local, downloaded)
    ensures Open(job, tipIndex, n)
    ensures outcome.Done? || outcome.CannotConverge? ==>
              outcome == Ending(job, downloaded) && downloaded == Rounds(job, tipIndex, n)
    ensures outcome.DownloadFailed? || outcome.MissingRecord? ==> outcome.id in Rounds(job, tipIndex, n)
  {
    n :| Open(job, tipIndex, n) && EndsInRound(job, tipIndex, outcome, downloaded, n);
  }

  /** The bundles of round `n` can all be had, and hold everything. */
  ghost predicate WholeRound(job: Job, tipIndex: map<Oid, BundleId>, n: nat)
    requires job.Valid()
  {
    Rounds(job, tipIndex, n) <= job.packs.Keys && ReachAll(job.g, job.seeds) <= job.Local(Rounds(job, tipIndex, n))
  }

  lemma WholeRoundSettles(job: Job, tipIndex: map<Oid, BundleId>, n: nat)
    requires job.Valid() && WholeRound(job, tipIndex, n)
    ensures StillMissing(job, Rounds(job, tipIndex, n)) == {} && Settled(job, tipIndex, n)
  {
    NothingBeyond(job.g, job.Local(Rounds(job, tipIndex, n)), job.seeds);
  }

  /** A fetch succeeds with everything exactly when some round of it is whole,
      whichever packs can no longer be had. */
  lemma SucceedsIff(job: Job, tipIndex: map<Oid, BundleId>,
                    outcome: FetchOutcome, local: set<Oid>, downloaded: set<BundleId>)
    requires job.Valid() && Exact(job, tipIndex) && job.packs.Keys <= job.remote.index
    requires FetchResult(job, tipIndex, outcome, local, downloaded)
    ensures outcome.Done? && ReachAll(job.g, job.seeds) <= local <==> exists n: nat :: WholeRound(job, tipIndex, n)
  {
    var m := StoppedWith(job, tipIndex, outcome, local, downloaded);
    if outcome.Done? && ReachAll(job.g, job.seeds) <= local {
      assert WholeRound(job, tipIndex, m);
    }
    if n: nat :| WholeRound(job, tipIndex, n) {
      WholeRoundSettles(job, tipIndex, n);
      assert m <= n;
      RoundsGrow(job, tipIndex, m, n);
      if outcome.Done? || outcome.CannotConverge? {
        StoppedSettled(job, tipIndex, outcome, downloaded, m);
        SettledStays(job, tipIndex, m, n);
      }
    }
  }

  lemma StoppedSettled(job: Job, tipIndex: map<Oid, BundleId>, outcome: FetchOutcome, downloaded: set<BundleId>, n: nat)
    requires job.Valid() && downloaded == Rounds(job, tipIndex, n) && outcome == Ending(job, downloaded)
    requires outcome.CannotConverge? ==> outcome.missing !! tipIndex.Keys
    ensures Settled(job, tipIndex, n)
  {
  }

  lemma ServedUnion(g: Graph, l: Ledger, served: set<BundleId>, seeds: set<Oid>, d: set<BundleId>)
    requires d <= served
    ensures ServedJob(g, l, served, seeds).Local(d) == Clone(g, l, seeds).Local(d) == PackUnion(l.packs, d)
  {
    var packs := ServedJob(g, l, served, seeds).packs;
    assert forall b :: b in d ==> (b in packs <==> b in l.packs) && (b in packs ==> packs[b] == l.packs[b]);
  }

  /** As long as its bundles are served, a round is the same as it was when
      everything was. */
  lemma {:induction false} ServedRounds(g: Graph, l: Ledger, served: set<BundleId>, seeds: set<Oid>,
                                        tipIndex: map<Oid, BundleId>, n: nat)
    requires g.Valid() && Clone(g, l, seeds).Valid() && ServedJob(g, l, served, seeds).Valid()
    requires Rounds(Clone(g, l, seeds), tipIndex, n) <= served
             || Rounds(ServedJob(g, l, served, seeds), tipIndex, n) <= served
    ensures Rounds(ServedJob(g, l, served, seeds), tipIndex, n) == Rounds(Clone(g, l, seeds), tipIndex, n)
  {
    if n > 0 {
      ServedRounds(g, l, served, seeds, tipIndex, n - 1);
      ServedUnion(g, l, served, seeds, Rounds(Clone(g, l, seeds), tipIndex, n - 1));
    }
  }

  /** Round `n` of an ordinary clone is still served, and holds everything. */
  ghost predicate ServedWhole(g: Graph, l: Ledger, served: set<BundleId>, seeds: set<Oid>,
                              tipIndex: map<Oid, BundleId>, n: nat)
    requires Clone(g, l, seeds).Valid()
  {
    var d := Rounds(Clone(g, l, seeds), tipIndex, n);
    d <= served && ReachAll(g, seeds) <= PackUnion(l.packs, d)
  }

  /** The exact condition for any refs, or any advertised commits, to stay
      clonable when only `served` is left: some round of an ordinary clone of
      them is served in full and holds everything. */
  lemma ServedCloneIff(g: Graph, l: Ledger, served: set<BundleId>, seeds: set<Oid>, tipIndex: map<Oid, BundleId>,
                       outcome: FetchOutcome, local: set<Oid>, downloaded: set<BundleId>)
    requires g.Valid() && Sound(g, l) && seeds <= l.remote.tips.Values
    requires ServedJob(g, l, served, seeds).Valid() && Clone(g, l, seeds).Valid()
    requires FetchResult(ServedJob(g, l, served, seeds), tipIndex, outcome, local, downloaded)
    ensures outcome.Done? && ReachAll(g, seeds) <= local <==>
              exists n: nat :: ServedWhole(g, l, served, seeds, tipIndex, n)
  {
    var job := ServedJob(g, l, served, seeds);
    ServedJobValid(g, l, served, seeds);
    SucceedsIff(job, tipIndex, outcome, local, downloaded);
    forall n: nat ensures WholeRound(job, tipIndex, n) <==> ServedWhole(g, l, served, seeds, tipIndex, n) {
      SameWhole(g, l, served, seeds, tipIndex, n);
    }
  }

  lemma SameWhole(g: Graph, l: Ledger, served: set<BundleId>, seeds: set<Oid>, tipIndex: map<Oid, BundleId>, n: nat)
    requires g.Valid() && Sound(g, l) && IsTipIndex(l.remote.tips, tipIndex)
    requires ServedJob(g, l, served, seeds).Valid() && Clone(g, l, seeds).Valid()
    ensures WholeRound(ServedJob(g, l, served, seeds), tipIndex, n) <==> ServedWhole(g, l, served, seeds, tipIndex, n)
  {
    var job := ServedJob(g, l, served, seeds);
    var d := Rounds(Clone(g, l, seeds), tipIndex, n);
    CloneJobValid(g, l);
    RoundsAdvertised(Clone(g, l, seeds), tipIndex, n);
    assert job.packs.Keys == l.packs.Keys * served;
    if d <= served || Rounds(job, tipIndex, n) <= served {
      ServedRounds(g, l, served, seeds, tipIndex, n);
      ServedUnion(g, l, served, seeds, d);
    }
  }

  /** Rescuing the bundles of the current tips keeps a clone of all refs
      working exactly when the bundles that stand for the refs' targets hold,
      together, all that the refs reach. */
  lemma AllRefsRescueIff(g: Graph, l: Ledger, tipIndex: map<Oid, BundleId>,
                         outcome: FetchOutcome, local: set<Oid>, downloaded: set<BundleId>)
    requires g.Valid() && Sound(g, l)
    requires ServedJob(g, l, Kept(l.remote), l.remote.refs.Values).Valid()
    requires FetchResult(ServedJob(g, l, Kept(l.remote), l.remote.refs.Values), tipIndex, outcome, local, downloaded)
    ensures outcome.Done? && ReachAll(g, l.remote.refs.Values) <= local <==>
              ReachAll(g, l.remote.refs.Values) <= PackUnion(l.packs, TipBundles(tipIndex, l.remote.refs.Values))
  {
    var refs := l.remote.refs.Values;
    var job := ServedJob(g, l, Kept(l.remote), refs);
    ServedJobValid(g, l, Kept(l.remote), refs);
    KeptAreTheSeeds(g, l, tipIndex, downloaded);
    ServedUnion(g, l, Kept(l.remote), refs, downloaded);
    if ReachAll(g, refs) <= PackUnion(l.packs, TipBundles(tipIndex, refs)) {
      ServedUnion(g, l, Kept(l.remote), refs, TipBundles(tipIndex, refs));
      HeldAllDone(job, tipIndex, outcome, local, downloaded);
    }
  }

  lemma KeptAreTheSeeds(g: Graph, l: Ledger, tipIndex: map<Oid, BundleId>, downloaded: set<BundleId>)
    requires g.Valid() && Sound(g, l) && IsTipIndex(l.remote.tips, tipIndex)
    requires ServedJob(g, l, Kept(l.remote), l.remote.refs.Values).Valid()
    requires Accounted(ServedJob(g, l, Kept(l.remote), l.remote.refs.Values), tipIndex, downloaded)
    ensures downloaded <= TipBundles(tipIndex, l.remote.refs.Values) <= Kept(l.remote) * l.packs.Keys
  {
    var job := ServedJob(g, l, Kept(l.remote), l.remote.refs.Values);
    forall b | b in downloaded ensures b in TipBundles(tipIndex, l.remote.refs.Values) {
      assert b in job.packs && b !in Legacy(job.remote) && Needed(job, tipIndex, b);
    }
    forall s | s in l.remote.refs.Values ensures s in tipIndex && tipIndex[s] in Kept(l.remote) * l.packs.Keys {
      SeedBundleKept(g, l, tipIndex, s);
    }
  }

  /** When the kept bundles were cut against nothing, the seeds' own bundles
      hold all that the seeds reach. */
  lemma SeedsHoldAll(g: Graph, l: Ledger, served: set<BundleId>, seeds: set<Oid>, tipIndex: map<Oid, BundleId>)
    requires g.Valid() && Sound(g, l) && Kept(l.remote) <= served && StandWhole(l, tipIndex, seeds)
    requires seeds <= l.remote.refs.Values && IsTipIndex(l.remote.tips, tipIndex)
    ensures ReachAll(g, seeds) <= SeedLocal(ServedJob(g, l, served, seeds), tipIndex)
    ensures TipBundles(tipIndex, seeds) <= ServedJob(g, l, served, seeds).packs.Keys * l.remote.index
  {
    var job := ServedJob(g, l, served, seeds);
    forall s | s in seeds ensures tipIndex[s] in job.packs && Reach(g, s) <= job.packs[tipIndex[s]] {
      SeedBundleKept(g, l, tipIndex, s);
    }
    forall x | x in ReachAll(g, seeds) ensures x in SeedLocal(job, tipIndex) {
      var s :| s in seeds && x in Reach(g, s);
      assert tipIndex[s] in TipBundles(tipIndex, seeds) && x in job.packs[tipIndex[s]];
    }
  }

  /** When the bundles that stand for the wanted refs were cut against
      nothing, rescuing the kept ones is enough: whatever else the network has
      dropped, a clone succeeds with everything those refs reach. */
  lemma RescuedClones(g: Graph, l: Ledger, served: set<BundleId>, wants: set<Oid>, tipIndex: map<Oid, BundleId>,
                      outcome: FetchOutcome, local: set<Oid>, downloaded: set<BundleId>)
    requires g.Valid() && Sound(g, l) && Kept(l.remote) <= served && wants <= l.remote.refs.Values
    requires StandWhole(l, tipIndex, Seeds(l.remote, wants))
    requires ServedJob(g, l, served, Seeds(l.remote, wants)).Valid()
    requires FetchResult(ServedJob(g, l, served, Seeds(l.remote, wants)), tipIndex, outcome, local, downloaded)
    ensures outcome.Done? && ReachAll(g, Seeds(l.remote, wants)) <= local
  {
    var seeds := Seeds(l.remote, wants);
    ServedJobValid(g, l, served, seeds);
    SeedsHoldAll(g, l, served, seeds, tipIndex);
    HeldAllDone(ServedJob(g, l, served, seeds), tipIndex, outcome, local, downloaded);
  }

  /** A fetch whose seeds' bundles can be had and hold all: it ends well. */
  lemma HeldAllDone(job: Job, tipIndex: map<Oid, BundleId>,
                    outcome: FetchOutcome, local: set<Oid>, downloaded: set<BundleId>)
    requires job.Valid() && job.TagsComplete() && Legacy(job.remote) == {}
    requires ReachAll(job.g, job.seeds) <= SeedLocal(job, tipIndex)
    requires TipBundles(tipIndex, job.seeds) <= job.packs.Keys <= job.remote.index
    requires FetchResult(job, tipIndex, outcome, local, downloaded)
    ensures outcome.Done? && ReachAll(job.g, job.seeds) <= local
  {
    assert Rounds(job, tipIndex, 0) == TipBundles(tipIndex, job.seeds);
    assert WholeRound(job, tipIndex, 0);
    SucceedsIff(job, tipIndex, outcome, local, downloaded);
  }

  /** Snapshot mirrors: after any run of snapshot pushes, the bundles of the
      current tips are all that has to be rescued. */
  lemma SnapshotRescueKeeps(g: Graph, pushes: seq<Push>, served: set<BundleId>, wants: set<Oid>,
                            tipIndex: map<Oid, BundleId>, outcome: FetchOutcome, local: set<Oid>,
                            downloaded: set<BundleId>)
    requires g.Valid() && CoveredRun(g, pushes) && Snapshots(g, pushes)
    requires Kept(Replay(g, pushes).remote) <= served && wants <= Replay(g, pushes).remote.refs.Values
    requires ServedJob(g, Replay(g, pushes), served, Seeds(Replay(g, pushes).remote, wants)).Valid()
    requires FetchResult(ServedJob(g, Replay(g, pushes), served, Seeds(Replay(g, pushes).remote, wants)),
                         tipIndex, outcome, local, downloaded)
    ensures outcome.Done? && ReachAll(g, Seeds(Replay(g, pushes).remote, wants)) <= local
  {
    ReplaySound(g, pushes);
    SnapshotHaves(g, pushes);
    RescuedClones(g, Replay(g, pushes), served, wants, tipIndex, outcome, local, downloaded);
  }

  /** With one current target, rescuing only its bundles keeps it clonable
      exactly when the bundle that stands for it was cut against nothing; a
      history mirror's newest bundle never is, except the first. */
  lemma OneTargetRescueIff(g: Graph, l: Ledger, t: Oid, tipIndex: map<Oid, BundleId>,
                           outcome: FetchOutcome, local: set<Oid>, downloaded: set<BundleId>)
    requires g.Valid() && Sound(g, l) && l.remote.refs.Values == {t}
    requires ServedJob(g, l, Kept(l.remote), {t}).Valid()
    requires FetchResult(ServedJob(g, l, Kept(l.remote), {t}), tipIndex, outcome, local, downloaded)
    ensures t in tipIndex && tipIndex[t] in l.haves
    ensures l.haves[tipIndex[t]].None? ==> outcome.Done? && Reach(g, t) <= local
    ensures l.haves[tipIndex[t]].Some? ==> outcome.DownloadFailed? && !(Reach(g, t) <= local)
  {
    SeedBundleKept(g, l, tipIndex, t);
    if l.haves[tipIndex[t]].Some? {
      CutNotServed(g, l, t, tipIndex, outcome, local, downloaded);
    } else {
      OneTargetKept(g, l, t, tipIndex, outcome, local, downloaded);
    }
  }

  lemma OneTargetKept(g: Graph, l: Ledger, t: Oid, tipIndex: map<Oid, BundleId>,
                      outcome: FetchOutcome, local: set<Oid>, downloaded: set<BundleId>)
    requires g.Valid() && Sound(g, l) && l.remote.refs.Values == {t}
    requires ServedJob(g, l, Kept(l.remote), {t}).Valid() && t in tipIndex && tipIndex[t] in l.haves
    requires l.haves[tipIndex[t]].None?
    requires FetchResult(ServedJob(g, l, Kept(l.remote), {t}), tipIndex, outcome, local, downloaded)
    ensures outcome.Done? && Reach(g, t) <= local
  {
    assert Seeds(l.remote, {t}) == {t};
    RescuedClones(g, l, Kept(l.remote), {t}, tipIndex, outcome, local, downloaded);
  }

  /** Of the served bundles, only the one that stands for the target is ever
      downloaded. */
  lemma OnlyOneServed(g: Graph, l: Ledger, t: Oid, tipIndex: map<Oid, BundleId>,
                      outcome: FetchOutcome, local: set<Oid>, downloaded: set<BundleId>)
    requires g.Valid() && Sound(g, l) && l.remote.refs.Values == {t}
    requires ServedJob(g, l, Kept(l.remote), {t}).Valid()
    requires FetchResult(ServedJob(g, l, Kept(l.remote), {t}), tipIndex, outcome, local, downloaded)
    ensures t in tipIndex && downloaded <= {tipIndex[t]} && tipIndex[t] in l.packs
    ensures outcome.Done? || outcome.CannotConverge? ==> downloaded == {tipIndex[t]}
  {
    ServedJobValid(g, l, Kept(l.remote), {t});
    SeedBundleKept(g, l, tipIndex, t);
    OnlyTheTarget(ServedJob(g, l, Kept(l.remote), {t}), t, tipIndex, outcome, local, downloaded);
  }

  lemma OnlyTheTarget(job: Job, t: Oid, tipIndex: map<Oid, BundleId>,
                      outcome: FetchOutcome, local: set<Oid>, downloaded: set<BundleId>)
    requires job.Valid() && job.seeds == {t} && t in tipIndex && Legacy(job.remote) == {}
    requires forall b :: b in job.packs && b in job.remote.tips ==> job.remote.tips[b] == t
    requires FetchResult(job, tipIndex, outcome, local, downloaded)
    ensures downloaded <= {tipIndex[t]}
    ensures outcome.Done? || outcome.CannotConverge? ==> downloaded == {tipIndex[t]}
  {
    forall b | b in downloaded ensures b == tipIndex[t] {
      assert b !in Legacy(job.remote) && Needed(job, tipIndex, b);
    }
    assert tipIndex[t] in TipBundles(tipIndex, {t});
  }

  lemma OneBundleLocal(g: Graph, l: Ledger, b: BundleId, seeds: set<Oid>, downloaded: set<BundleId>)
    requires b in Kept(l.remote) && b in l.packs && downloaded <= {b}
    ensures ServedJob(g, l, Kept(l.remote), seeds).Local(downloaded) <= l.packs[b]
    ensures downloaded == {b} ==> ServedJob(g, l, Kept(l.remote), seeds).Local(downloaded) == l.packs[b]
  {
    var packs := ServedJob(g, l, Kept(l.remote), seeds).packs;
    assert b in packs && packs[b] == l.packs[b];
    if downloaded == {b} {
      assert b in downloaded;
      assert PackUnion(packs, downloaded) == l.packs[b];
    }
  }

  /** The commit that the bundle was cut against is advertised and missing,
      and its own bundle is not served. */
  lemma CutNotServed(g: Graph, l: Ledger, t: Oid, tipIndex: map<Oid, BundleId>,
                     outcome: FetchOutcome, local: set<Oid>, downloaded: set<BundleId>)
    requires g.Valid() && Sound(g, l) && l.remote.refs.Values == {t}
    requires ServedJob(g, l, Kept(l.remote), {t}).Valid()
    requires FetchResult(ServedJob(g, l, Kept(l.remote), {t}), tipIndex, outcome, local, downloaded)
    requires t in tipIndex && BundleSound(g, l, tipIndex[t]) && l.haves[tipIndex[t]].Some?
    ensures outcome.DownloadFailed? && !(Reach(g, t) <= local)
  {
    var b := tipIndex[t];
    var have := l.haves[b].value;
    ServedJobValid(g, l, Kept(l.remote), {t});
    OnlyOneServed(g, l, t, tipIndex, outcome, local, downloaded);
    SeedBundleKept(g, l, tipIndex, t);
    OneBundleLocal(g, l, b, {t}, downloaded);
    assert have in Reach(g, have) && have !in l.packs[b];
    if outcome.Done? || outcome.CannotConverge? {
      HaveVisible(g, local, t, have, t);
      NotStopped(ServedJob(g, l, Kept(l.remote), {t}), tipIndex, outcome, local, downloaded, have);
    }
  }

  /** A fetch does not stop of itself while an advertised commit is missing. */
  lemma NotStopped(job: Job, tipIndex: map<Oid, BundleId>,
                   outcome: FetchOutcome, local: set<Oid>, downloaded: set<BundleId>, c: Oid)
    requires job.Valid() && Exact(job, tipIndex) && FetchResult(job, tipIndex, outcome, local, downloaded)
    requires c in tipIndex && c in Missing(job.g, local, job.seeds)
    ensures outcome.DownloadFailed? || outcome.MissingRecord?
  {
    var n := StoppedWith(job, tipIndex, outcome, local, downloaded);
  }
}
