/** `git fetch`: which bundles of a contract are downloaded, and when the
    download loop stops. */
module Fetch {
  import opened Octets
  import opened CommitGraph

  /** The part of a repo state that fetch reads: ref targets, the keys of
      `object_index`, and the parsed `bundle-tip:` extensions. */
  datatype Remote = Remote(refs: map<RefName, Oid>, index: set<BundleId>, tips: map<BundleId, Oid>)

  /** What each downloadable bundle installs. */
  type Packs = map<BundleId, set<Oid>>

  datatype FetchOutcome =
    | Done
    | CannotConverge(missing: set<Oid>)
    | DownloadFailed(id: BundleId)
    | MissingRecord(id: BundleId)     // the `expect` on `object_index.get`

  // ----- what the loops compute -----

  ghost function PackUnion(packs: Packs, ids: set<BundleId>): set<Oid> {
    set b, o | b in ids && b in packs && o in packs[b] :: o
  }

  ghost predicate IsTipIndex(tips: map<BundleId, Oid>, tipIndex: map<Oid, BundleId>) {
    && tipIndex.Keys == tips.Values
    && forall t :: t in tipIndex ==> tipIndex[t] in tips && tips[tipIndex[t]] == t
  }

  /** Installing an advertised bundle makes its tip present. */
  ghost predicate TipsInstalled(tips: map<BundleId, Oid>, packs: Packs) {
    forall b :: b in tips && b in packs ==> tips[b] in packs[b]
  }

  /** One fetch: the graph, what the contract advertises and serves, the
      commits wanted first, and the store before. */
  datatype Job = Job(g: Graph, remote: Remote, packs: Packs, seeds: set<Oid>, before: set<Oid>) {
    ghost predicate Valid() {
      && g.Valid()
      && before <= g.objects.Keys
      && forall b :: b in packs ==> packs[b] <= g.objects.Keys
    }

    /** Annotated tags never arrive without what they name. */
    ghost predicate TagsComplete() {
      TagClosed(g, before) && forall b :: b in packs ==> TagClosed(g, packs[b])
    }

    /** The store once `downloaded` is installed. */
    ghost function Local(downloaded: set<BundleId>): set<Oid> {
      before + PackUnion(packs, downloaded)
    }
  }

  function Legacy(remote: Remote): set<BundleId> {
    remote.index - remote.tips.Keys
  }

  function TipBundles(tipIndex: map<Oid, BundleId>, wanted: set<Oid>): set<BundleId> {
    set c | c in wanted && c in tipIndex :: tipIndex[c]
  }

  /** What is local once the legacy bundles and the seeds' own bundles are in. */
  ghost function SeedLocal(job: Job, tipIndex: map<Oid, BundleId>): set<Oid> {
    job.Local(Legacy(job.remote) + TipBundles(tipIndex, job.seeds))
  }

  /** A tipped bundle is worth downloading when its tip is a seed, or an
      ancestor of one that the seeds' own bundles did not deliver. */
  ghost predicate Needed(job: Job, tipIndex: map<Oid, BundleId>, b: BundleId)
    requires job.Valid()
  {
    && b in job.remote.tips
    && job.remote.tips[b] in tipIndex && tipIndex[job.remote.tips[b]] == b
    && job.remote.tips[b] in ReachAll(job.g, job.seeds)
    && SeedOrUndelivered(job, tipIndex, job.remote.tips[b])
  }

  ghost predicate SeedOrUndelivered(job: Job, tipIndex: map<Oid, BundleId>, c: Oid) {
    c in job.seeds || c !in SeedLocal(job, tipIndex)
  }

  /** The tips of the downloaded bundles. */
  ghost function Roots(remote: Remote, downloaded: set<BundleId>): set<Oid> {
    set b | b in downloaded && b in remote.tips :: remote.tips[b]
  }

  /** Commits a full walk from `wanted` would report as missing. */
  ghost function Missing(g: Graph, local: set<Oid>, wanted: set<Oid>): set<Oid>
    requires g.Valid()
  {
    VisibleAll(g, local, wanted) - local
  }

  /** Listed without an advertised tip. */
  predicate Untipped(remote: Remote, b: BundleId) {
    b in remote.index && b !in remote.tips
  }

  ghost predicate Accounted(job: Job, tipIndex: map<Oid, BundleId>, downloaded: set<BundleId>)
    requires job.Valid()
  {
    && downloaded <= job.packs.Keys
    && forall b {:trigger Needed(job, tipIndex, b)} ::
         b in downloaded ==> Untipped(job.remote, b) || Needed(job, tipIndex, b)
  }

  // ----- rounds -----

  /** What a full walk from the seeds reports once `d` is installed. */
  ghost function StillMissing(job: Job, d: set<BundleId>): set<Oid>
    requires job.Valid()
  {
    Missing(job.g, job.Local(d), job.seeds)
  }

  /** The bundles downloaded after `n` rounds: first the legacy bundles and
      the seeds' own, then in each round the bundles of the commits that are
      missing when the round begins. */
  ghost function Rounds(job: Job, tipIndex: map<Oid, BundleId>, n: nat): set<BundleId>
    requires job.Valid()
  {
    if n == 0 then Legacy(job.remote) + TipBundles(tipIndex, job.seeds)
    else
      var d := Rounds(job, tipIndex, n - 1);
      d + TipBundles(tipIndex, StillMissing(job, d))
  }

  /** After `n` rounds no missing commit is advertised. */
  ghost predicate Settled(job: Job, tipIndex: map<Oid, BundleId>, n: nat)
    requires job.Valid()
  {
    StillMissing(job, Rounds(job, tipIndex, n)) !! tipIndex.Keys
  }

  /** None of the first `n` rounds settles. */
  ghost predicate Open(job: Job, tipIndex: map<Oid, BundleId>, n: nat)
    requires job.Valid()
  {
    forall j :: 0 <= j < n ==> !Settled(job, tipIndex, j)
  }

  /** The rounds say exactly what the loop does if tags arrive complete, and
      in any case if the first round brings nothing. */
  ghost predicate Exact(job: Job, tipIndex: map<Oid, BundleId>)
    requires job.Valid()
  {
    job.TagsComplete() || Rounds(job, tipIndex, 1) == Rounds(job, tipIndex, 0)
  }

  /** The loop stops at the first round that settles, or in a download. */
  ghost predicate RoundResult(job: Job, tipIndex: map<Oid, BundleId>, outcome: FetchOutcome, downloaded: set<BundleId>)
    requires job.Valid()
  {
    exists n: nat :: Open(job, tipIndex, n) && EndsInRound(job, tipIndex, outcome, downloaded, n)
  }

  ghost predicate EndsInRound(job: Job, tipIndex: map<Oid, BundleId>, outcome: FetchOutcome,
                              downloaded: set<BundleId>, n: nat)
    requires job.Valid()
  {
    match outcome
    case Done => downloaded == Rounds(job, tipIndex, n) && StillMissing(job, downloaded) == {}
    case CannotConverge(missing) => downloaded == Rounds(job, tipIndex, n) && StillMissing(job, downloaded) == missing
    case DownloadFailed(id) => downloaded + {id} <= Rounds(job, tipIndex, n)
    case MissingRecord(id) => downloaded + {id} <= Rounds(job, tipIndex, n)
  }

  /** Everything a caller of `HandleFetch` may rely on. */
  ghost predicate FetchResult(job: Job, tipIndex: map<Oid, BundleId>,
                              outcome: FetchOutcome, local: set<Oid>, downloaded: set<BundleId>)
    requires job.Valid()
  {
    && IsTipIndex(job.remote.tips, tipIndex)
    && Accounted(job, tipIndex, downloaded)
    && local == job.Local(downloaded)
    && (Exact(job, tipIndex) ==> RoundResult(job, tipIndex, outcome, downloaded))
    && Reported(job, tipIndex, outcome, local, downloaded)
  }

  /** Every untipped bundle, and every bundle that stands for a seed. */
  ghost predicate FirstHand(job: Job, tipIndex: map<Oid, BundleId>, downloaded: set<BundleId>) {
    && (forall b :: Untipped(job.remote, b) ==> b in downloaded)
    && forall s :: s in job.seeds && s in tipIndex ==> tipIndex[s] in downloaded
  }

  /** What the outcome alone says, whatever was fetched. */
  ghost predicate Reported(job: Job, tipIndex: map<Oid, BundleId>,
                           outcome: FetchOutcome, local: set<Oid>, downloaded: set<BundleId>)
    requires job.Valid()
  {
    match outcome
    case DownloadFailed(id) =>
      id in job.remote.index && id !in job.packs && (Untipped(job.remote, id) || Needed(job, tipIndex, id))
    case MissingRecord(id) => id !in job.remote.index && Needed(job, tipIndex, id)
    case Done => FirstHand(job, tipIndex, downloaded)
    case CannotConverge(missing) =>
      && FirstHand(job, tipIndex, downloaded)
      && missing != {} && missing !! tipIndex.Keys && missing !! local
  }

  // ----- the walk -----

  /** Every parent of a walked commit is itself walked or still wanted. */
  ghost predicate FrontierVisible(g: Graph, local: set<Oid>, walked: set<Oid>, wanted: set<Oid>)
    requires g.Valid()
  {
    walked <= local && Closed(g, local, walked, walked + wanted)
  }

  function Elems<T>(order: seq<T>): set<T> {
    set x | x in order
  }

  ghost predicate NoDuplicates<T>(s: seq<T>) {
    forall i, j :: 0 <= i < j < |s| ==> s[i] != s[j]
  }

  /** The elements of `s`, each once, in some order. */
  method Listed<T(==)>(s: set<T>) returns (order: seq<T>)
    ensures Elems(order) == s && NoDuplicates(order)
  {
    order := [];
    var rest := s;
    while rest != {}
      invariant rest <= s
      invariant Elems(order) == s - rest
      invariant NoDuplicates(order)
      decreases rest
    {
      var x :| x in rest;
      assert forall i :: 0 <= i < |order| ==> order[i] in Elems(order);
      assert Elems(order + [x]) == Elems(order) + {x};
      order := order + [x];
      rest := rest - {x};
    }
  }

  method Pop<T>(stack: seq<T>) returns (top: T, rest: seq<T>)
    requires stack != []
    ensures Elems(stack) == Elems(rest) + {top} && |rest| < |stack|
  {
    top, rest := stack[|stack| - 1], stack[..|stack| - 1];
    assert stack == rest + [top];
  }

  /** Every commit to visit after any commit in `walked` is in `known`. */
  ghost predicate Closed(g: Graph, local: set<Oid>, walked: set<Oid>, known: set<Oid>)
    requires g.Valid()
  {
    forall x {:trigger WalkEdges(g, local, x)} :: x in walked ==> WalkEdges(g, local, x) <= known
  }

  method PushUnwalked(stack: seq<Oid>, parents: seq<Oid>, walked: set<Oid>) returns (toVisit: seq<Oid>)
    ensures Elems(stack) <= Elems(toVisit) <= Elems(stack) + Elems(parents)
    ensures Elems(parents) <= walked + Elems(toVisit)
  {
    toVisit := stack;
    for i := 0 to |parents|
      invariant Elems(stack) <= Elems(toVisit) <= Elems(stack) + Elems(parents)
      invariant forall j :: 0 <= j < i ==> parents[j] in walked + Elems(toVisit)
    {
      if parents[i] !in walked {
        toVisit := toVisit + [parents[i]];
      }
    }
  }

  /** One turn of the worklist loop, after `c` was popped. */
  method VisitOne(g: Graph, local: set<Oid>, c: Oid, stack: seq<Oid>, walked0: set<Oid>, unresolved0: set<Oid>,
                  ghost all: set<Oid>)
    returns (toVisit: seq<Oid>, walked: set<Oid>, unresolved: set<Oid>)
    requires g.Valid() && walked0 <= local && unresolved0 !! local
    requires unresolved0 + Elems(stack) + {c} + WalkEdges(g, local, c) <= all
    ensures walked0 <= walked <= local && unresolved !! local
    ensures (walked == walked0 && |toVisit| == |stack|) || local - walked < local - walked0
    ensures unresolved + Elems(toVisit) <= all
    ensures walked0 + unresolved0 + Elems(stack) + {c} <= walked + unresolved + Elems(toVisit)
    ensures Closed(g, local, walked0, walked0 + unresolved0 + Elems(stack) + {c}) ==>
              Closed(g, local, walked, walked + unresolved + Elems(toVisit))
  {
    toVisit, walked, unresolved := stack, walked0, unresolved0;
    if c in walked {
      return;
    }
    ghost var known := walked0 + unresolved0 + Elems(stack) + {c};
    if Peel(g, local, c).None? {
      if c in local {
        walked := walked + {c};
        ClosedGrows(g, local, walked0, known, c, known);
      } else {
        unresolved := unresolved + {c};
      }
      assert known == walked + unresolved + Elems(toVisit);
      return;
    }
    walked := walked + {c};
    var parents := g.objects[Peel(g, local, c).value].parents;
    assert Elems(parents) == WalkEdges(g, local, c);
    toVisit := PushUnwalked(stack, parents, walked);
    ClosedGrows(g, local, walked0, known, c, walked + unresolved + Elems(toVisit));
  }

  /** The worklist loop. `all` is any set that holds `wanted` and is closed
      under the walk. */
  method DrainWorklist(g: Graph, local: set<Oid>, wanted: set<Oid>, walked0: set<Oid>, ghost all: set<Oid>)
    returns (unresolved: set<Oid>, walked: set<Oid>)
    requires g.Valid() && local <= g.objects.Keys && walked0 <= local
    requires wanted <= all && Closed(g, local, all, all)
    ensures walked0 <= walked <= local && unresolved !! local
    ensures unresolved <= all && wanted <= walked + unresolved
    ensures Closed(g, local, walked0, walked0 + wanted) ==> Closed(g, local, walked, walked + unresolved)
  {
    unresolved := {};
    walked := walked0;
    var toVisit := Listed(wanted);
    while toVisit != []
      invariant walked0 <= walked <= local && unresolved !! local
      invariant unresolved + Elems(toVisit) <= all
      invariant wanted <= walked + unresolved + Elems(toVisit)
      invariant Closed(g, local, walked0, walked0 + wanted) ==>
                  Closed(g, local, walked, walked + unresolved + Elems(toVisit))
      decreases local - walked, |toVisit|
    {
      var c, rest := Pop(toVisit);
      toVisit, walked, unresolved := VisitOne(g, local, c, rest, walked, unresolved, all);
    }
    assert walked + unresolved + Elems(toVisit) == walked + unresolved;
  }

  method WalkUnresolvedParents(g: Graph, local: set<Oid>, wanted: set<Oid>, walked0: set<Oid>)
    returns (unresolved: set<Oid>, walked: set<Oid>)
    requires g.Valid() && local <= g.objects.Keys && walked0 <= local
    ensures walked0 <= walked <= local && unresolved !! local
    ensures unresolved <= ReachAll(g, wanted)
    ensures FrontierVisible(g, local, walked0, wanted) ==>
              && unresolved == Missing(g, local, wanted)
              && FrontierVisible(g, local, walked, unresolved)
  {
    VisibleAllClosed(g, local, wanted);
    VisibleAllReach(g, local, wanted);
    unresolved, walked := DrainWorklist(g, local, wanted, walked0, VisibleAll(g, local, wanted));
    if FrontierVisible(g, local, walked0, wanted) {
      WalkIsExact(g, local, wanted, walked, unresolved);
    }
  }

  lemma WalkIsExact(g: Graph, local: set<Oid>, wanted: set<Oid>, walked: set<Oid>, unresolved: set<Oid>)
    requires g.Valid() && walked <= local && unresolved !! local
    requires unresolved <= VisibleAll(g, local, wanted) && wanted <= walked + unresolved
    requires Closed(g, local, walked, walked + unresolved)
    ensures unresolved == Missing(g, local, wanted)
  {
    ClosedMissing(g, local, walked, unresolved);
    VisibleAllLeast(g, local, wanted, walked + unresolved);
  }

  lemma ClosedGrows(g: Graph, local: set<Oid>, walked: set<Oid>, known: set<Oid>, c: Oid, more: set<Oid>)
    requires g.Valid() && known <= more && WalkEdges(g, local, c) <= more
    ensures Closed(g, local, walked, known) ==> Closed(g, local, walked + {c}, more)
  {
  }

  lemma ClosedMissing(g: Graph, local: set<Oid>, walked: set<Oid>, unresolved: set<Oid>)
    requires g.Valid() && unresolved !! local && Closed(g, local, walked, walked + unresolved)
    ensures Closed(g, local, walked + unresolved, walked + unresolved)
  {
    forall x | x in unresolved ensures WalkEdges(g, local, x) == {} {
      assert Peel(g, local, x).None?;
    }
  }

  lemma VisibleAllClosed(g: Graph, local: set<Oid>, wanted: set<Oid>)
    requires g.Valid()
    ensures wanted <= VisibleAll(g, local, wanted)
    ensures Closed(g, local, VisibleAll(g, local, wanted), VisibleAll(g, local, wanted))
  {
    forall w | w in wanted ensures w in VisibleAll(g, local, wanted) {
      assert w in Visible(g, local, w);
    }
    forall c, e | c in VisibleAll(g, local, wanted) && e in WalkEdges(g, local, c)
      ensures e in VisibleAll(g, local, wanted)
    {
      var w :| w in wanted && c in Visible(g, local, w);
      VisibleTransitive(g, local, w, c);
      assert e in Visible(g, local, e);
      assert e in Visible(g, local, c);
    }
  }

  lemma VisibleAllLeast(g: Graph, local: set<Oid>, wanted: set<Oid>, s: set<Oid>)
    requires g.Valid() && wanted <= s && Closed(g, local, s, s)
    ensures VisibleAll(g, local, wanted) <= s
  {
    forall w | w in wanted ensures Visible(g, local, w) <= s {
      VisibleLeast(g, local, w, s);
    }
  }

  lemma VisibleAllReach(g: Graph, local: set<Oid>, wanted: set<Oid>)
    requires g.Valid()
    ensures VisibleAll(g, local, wanted) <= ReachAll(g, wanted)
  {
    forall w | w in wanted ensures Visible(g, local, w) <= Reach(g, w) {
      VisibleReach(g, local, w);
    }
  }

  // ----- the download loop -----

  /** `tip_to_bundle`: when several bundles share a tip, any of them may win. */
  method InvertTips(tips: map<BundleId, Oid>) returns (tipIndex: map<Oid, BundleId>)
    ensures IsTipIndex(tips, tipIndex)
  {
    tipIndex := map[];
    var todo := tips.Keys;
    while todo != {}
      invariant todo <= tips.Keys
      invariant forall t :: t in tipIndex ==> tipIndex[t] in tips && tips[tipIndex[t]] == t
      invariant forall b :: b in tips && b !in todo ==> tips[b] in tipIndex
      decreases todo
    {
      var b :| b in todo;
      tipIndex := tipIndex[tips[b] := b];
      todo := todo - {b};
    }
    assert tipIndex.Keys == tips.Values by {
      forall t | t in tips.Values ensures t in tipIndex {
        var b :| b in tips && tips[b] == t;
      }
    }
  }

  /** Of `ids`, the bundles `got` were downloaded before the first failure. */
  ghost predicate Got(remote: Remote, packs: Packs, ids: set<BundleId>, got: set<BundleId>,
                      failure: Option<FetchOutcome>)
  {
    && got <= ids && got <= packs.Keys
    && match failure
       case None => got == ids
       case Some(DownloadFailed(id)) => id in ids && id in remote.index && id !in packs
       case Some(MissingRecord(id)) => id in ids && id !in remote.index
       case Some(_) => false
  }

  /** Downloads and installs `ids` in order; stops at the first failure. */
  method DownloadAll(remote: Remote, packs: Packs, ids: seq<BundleId>, local0: set<Oid>, log0: seq<BundleId>)
    returns (failure: Option<FetchOutcome>, local: set<Oid>, log: seq<BundleId>, ghost got: set<BundleId>)
    requires NoDuplicates(ids) && Elems(ids) !! Elems(log0)
    requires NoDuplicates(log0)
    ensures NoDuplicates(log) && Elems(log) == Elems(log0) + got && local == local0 + PackUnion(packs, got)
    ensures Got(remote, packs, Elems(ids), got, failure)
  {
    failure, local, log, got := None, local0, log0, {};
    for i := 0 to |ids|
      invariant NoDuplicates(log)
      invariant got <= packs.Keys && got == Elems(ids[..i]) && Elems(log) == Elems(log0) + got
      invariant local == local0 + PackUnion(packs, got)
    {
      if ids[i] !in remote.index {
        return Some(MissingRecord(ids[i])), local, log, got;
      }
      if ids[i] !in packs {
        return Some(DownloadFailed(ids[i])), local, log, got;
      }
      AppendFresh(ids, i, log0, log);
      PackUnionAdd(packs, got, ids[i]);
      local := local + packs[ids[i]];
      log := log + [ids[i]];
      got := got + {ids[i]};
    }
    assert ids[..|ids|] == ids;
  }

  lemma AppendFresh(ids: seq<BundleId>, i: nat, log0: seq<BundleId>, log: seq<BundleId>)
    requires i < |ids| && NoDuplicates(ids) && NoDuplicates(log) && Elems(ids) !! Elems(log0)
    requires Elems(log) == Elems(log0) + Elems(ids[..i])
    ensures NoDuplicates(log + [ids[i]])
    ensures Elems(log + [ids[i]]) == Elems(log) + {ids[i]}
    ensures Elems(ids[..i + 1]) == Elems(ids[..i]) + {ids[i]}
  {
    assert ids[..i + 1] == ids[..i] + [ids[i]];
    assert ids[i] in Elems(ids) && ids[i] !in Elems(ids[..i]);
    assert forall j :: 0 <= j < |log| ==> log[j] in Elems(log);
  }

  lemma PackUnionAdd(packs: Packs, ids: set<BundleId>, b: BundleId)
    requires b in packs
    ensures PackUnion(packs, ids + {b}) == PackUnion(packs, ids) + packs[b]
  {
  }

  function Seeds(remote: Remote, wants: set<Oid>): set<Oid> {
    if wants == {} then remote.refs.Values else wants
  }

  /** What every turn of the download loop keeps about the wanted commits. */
  ghost predicate Wanting(job: Job, tipIndex: map<Oid, BundleId>, wanted: set<Oid>)
    requires job.Valid()
  {
    && job.seeds <= wanted <= ReachAll(job.g, job.seeds)
    && forall c {:trigger SeedOrUndelivered(job, tipIndex, c)} ::
         c in wanted ==> SeedOrUndelivered(job, tipIndex, c)
  }

  /** The invariant that makes re-walking from `wanted` enough: no commit
      below a walked one is forgotten while its bundle is still to come. */
  ghost predicate Exploring(job: Job, tipIndex: map<Oid, BundleId>, downloaded: set<BundleId>,
                            wanted: set<Oid>, walked: set<Oid>)
    requires job.Valid()
  {
    var local := job.Local(downloaded);
    && walked <= local
    && (Exact(job, tipIndex) ==>
          && wanted <= VisibleAll(job.g, local, job.seeds)
          && FrontierVisible(job.g, local, walked, wanted)
          && (job.TagsComplete() || (walked == {} && wanted == job.seeds) || downloaded == Rounds(job, tipIndex, 0)))
  }

  /** Round `n` is under way: what is downloaded and what is wanted next. */
  ghost predicate InRound(job: Job, tipIndex: map<Oid, BundleId>, downloaded: set<BundleId>, wanted: set<Oid>, n: nat)
    requires job.Valid()
  {
    Open(job, tipIndex, n) && downloaded + TipBundles(tipIndex, wanted) == Rounds(job, tipIndex, n)
  }

  ghost predicate FetchInvariant(job: Job, tipIndex: map<Oid, BundleId>, downloaded: set<BundleId>,
                                 wanted: set<Oid>, walked: set<Oid>, n: nat)
    requires job.Valid()
  {
    && IsTipIndex(job.remote.tips, tipIndex)
    && Accounted(job, tipIndex, downloaded) && Legacy(job.remote) <= downloaded
    && Wanting(job, tipIndex, wanted) && Exploring(job, tipIndex, downloaded, wanted, walked)
    && (Exact(job, tipIndex) ==> InRound(job, tipIndex, downloaded, wanted, n))
  }

  /** The loop after `i` turns: each round takes at most two. */
  ghost predicate UnderWay(job: Job, tipIndex: map<Oid, BundleId>, downloaded: set<BundleId>,
                           wanted: set<Oid>, walked: set<Oid>, i: nat)
    requires job.Valid()
  {
    exists n: nat ::
      OnTime(tipIndex, downloaded, wanted, i, n) && FetchInvariant(job, tipIndex, downloaded, wanted, walked, n)
  }

  predicate OnTime(tipIndex: map<Oid, BundleId>, downloaded: set<BundleId>, wanted: set<Oid>, i: nat, n: nat) {
    i <= 2 * n + if TipBundles(tipIndex, wanted) <= downloaded then 1 else 0
  }

  function Verdict(tipIndex: map<Oid, BundleId>, newWants: set<Oid>): Option<FetchOutcome> {
    if newWants == {} then Some(Done)
    else if newWants !! tipIndex.Keys then Some(CannotConverge(newWants))
    else None
  }

  /** What one walk establishes. */
  ghost predicate Walked(job: Job, local: set<Oid>, wanted: set<Oid>, walked: set<Oid>,
                         newWants: set<Oid>, walked': set<Oid>)
    requires job.Valid()
  {
    && walked' <= local && newWants !! local && newWants <= ReachAll(job.g, wanted)
    && (FrontierVisible(job.g, local, walked, wanted) ==>
          newWants == Missing(job.g, local, wanted) && FrontierVisible(job.g, local, walked', newWants))
  }

  /** A turn with nothing left to download: walk, then stop or want more. */
  method WalkTurn(job: Job, tipIndex: map<Oid, BundleId>, local: set<Oid>, ghost downloaded: set<BundleId>,
                  wanted0: set<Oid>, walked0: set<Oid>, ghost i: nat)
    returns (verdict: Option<FetchOutcome>, wanted: set<Oid>, walked: set<Oid>)
    requires job.Valid() && local == job.Local(downloaded)
    requires UnderWay(job, tipIndex, downloaded, wanted0, walked0, i) && TipBundles(tipIndex, wanted0) <= downloaded
    ensures verdict.Some? ==> FetchResult(job, tipIndex, verdict.value, local, downloaded)
    ensures verdict.None? ==> UnderWay(job, tipIndex, downloaded, wanted, walked, i + 1)
    ensures verdict.None? && TipsInstalled(job.remote.tips, job.packs) ==> !(TipBundles(tipIndex, wanted) <= downloaded)
  {
    var newWants;
    UnderWayLocal(job, tipIndex, downloaded, wanted0, walked0, i);
    newWants, walked := WalkUnresolvedParents(job.g, local, wanted0, walked0);
    wanted := wanted0 + newWants;
    verdict := Verdict(tipIndex, newWants);
    AfterWalk(job, tipIndex, downloaded, wanted0, walked0, newWants, walked, i);
  }

  lemma UnderWayLocal(job: Job, tipIndex: map<Oid, BundleId>, downloaded: set<BundleId>,
                      wanted: set<Oid>, walked: set<Oid>, i: nat)
    requires job.Valid() && UnderWay(job, tipIndex, downloaded, wanted, walked, i)
    ensures walked <= job.Local(downloaded) <= job.g.objects.Keys
  {
    LocalKnown(job, downloaded);
  }

  lemma AfterWalk(job: Job, tipIndex: map<Oid, BundleId>, downloaded: set<BundleId>,
                  wanted: set<Oid>, walked: set<Oid>, newWants: set<Oid>, walked': set<Oid>, i: nat)
    requires job.Valid() && UnderWay(job, tipIndex, downloaded, wanted, walked, i)
    requires TipBundles(tipIndex, wanted) <= downloaded
    requires Walked(job, job.Local(downloaded), wanted, walked, newWants, walked')
    ensures var verdict := Verdict(tipIndex, newWants);
            if verdict.Some? then FetchResult(job, tipIndex, verdict.value, job.Local(downloaded), downloaded)
            else
              && UnderWay(job, tipIndex, downloaded, wanted + newWants, walked', i + 1)
              && (TipsInstalled(job.remote.tips, job.packs) ==>
                    !(TipBundles(tipIndex, wanted + newWants) <= downloaded))
  {
    var n: nat :|
      OnTime(tipIndex, downloaded, wanted, i, n) && FetchInvariant(job, tipIndex, downloaded, wanted, walked, n);
    if Verdict(tipIndex, newWants).Some? {
      StopAfterWalk(job, tipIndex, downloaded, wanted, walked, newWants, walked', n);
    } else {
      ContinueAfterWalk(job, tipIndex, downloaded, wanted, walked, newWants, walked', n);
      assert OnTime(tipIndex, downloaded, wanted + newWants, i + 1, n + 1);
    }
  }

  lemma StopAfterWalk(job: Job, tipIndex: map<Oid, BundleId>, downloaded: set<BundleId>,
                      wanted: set<Oid>, walked: set<Oid>, newWants: set<Oid>, walked': set<Oid>, n: nat)
    requires job.Valid() && FetchInvariant(job, tipIndex, downloaded, wanted, walked, n)
    requires TipBundles(tipIndex, wanted) <= downloaded
    requires Walked(job, job.Local(downloaded), wanted, walked, newWants, walked') && Verdict(tipIndex, newWants).Some?
    ensures FetchResult(job, tipIndex, Verdict(tipIndex, newWants).value, job.Local(downloaded), downloaded)
  {
    if Exact(job, tipIndex) {
      WalkFindsMissing(job, tipIndex, downloaded, wanted, walked, newWants, walked', n);
      StopsInRound(job, tipIndex, downloaded, newWants, n);
    }
    VerdictReported(job, tipIndex, downloaded, wanted, newWants);
  }

  lemma VerdictReported(job: Job, tipIndex: map<Oid, BundleId>, downloaded: set<BundleId>,
                        wanted: set<Oid>, newWants: set<Oid>)
    requires job.Valid() && job.seeds <= wanted && newWants !! job.Local(downloaded)
    requires Legacy(job.remote) <= downloaded && TipBundles(tipIndex, wanted) <= downloaded
    requires Verdict(tipIndex, newWants).Some?
    ensures Reported(job, tipIndex, Verdict(tipIndex, newWants).value, job.Local(downloaded), downloaded)
  {
    SeedsDelivered(job, tipIndex, downloaded, wanted);
  }

  lemma StopsInRound(job: Job, tipIndex: map<Oid, BundleId>, downloaded: set<BundleId>, newWants: set<Oid>, n: nat)
    requires job.Valid() && Open(job, tipIndex, n) && downloaded == Rounds(job, tipIndex, n)
    requires newWants == StillMissing(job, downloaded) && Verdict(tipIndex, newWants).Some?
    ensures RoundResult(job, tipIndex, Verdict(tipIndex, newWants).value, downloaded)
  {
    assert EndsInRound(job, tipIndex, Verdict(tipIndex, newWants).value, downloaded, n);
  }

  lemma ContinueAfterWalk(job: Job, tipIndex: map<Oid, BundleId>, downloaded: set<BundleId>,
                          wanted: set<Oid>, walked: set<Oid>, newWants: set<Oid>, walked': set<Oid>, n: nat)
    requires job.Valid() && FetchInvariant(job, tipIndex, downloaded, wanted, walked, n)
    requires TipBundles(tipIndex, wanted) <= downloaded
    requires Walked(job, job.Local(downloaded), wanted, walked, newWants, walked') && Verdict(tipIndex, newWants).None?
    ensures FetchInvariant(job, tipIndex, downloaded, wanted + newWants, walked', n + 1)
    ensures TipsInstalled(job.remote.tips, job.packs) ==> !(TipBundles(tipIndex, wanted + newWants) <= downloaded)
  {
    SeedsDelivered(job, tipIndex, downloaded, wanted);
    ExtendWanting(job, tipIndex, job.Local(downloaded), wanted, newWants);
    if Exact(job, tipIndex) {
      WalkFindsMissing(job, tipIndex, downloaded, wanted, walked, newWants, walked', n);
      NextRound(job, tipIndex, downloaded, wanted, newWants, n);
    }
    if TipsInstalled(job.remote.tips, job.packs) {
      SomeBundleAhead(job, tipIndex, downloaded, wanted, newWants);
    }
  }

  /** In a round whose bundles are all there, the walk reports exactly what
      is missing, and what it leaves behind can be walked on from. */
  lemma WalkFindsMissing(job: Job, tipIndex: map<Oid, BundleId>, downloaded: set<BundleId>,
                         wanted: set<Oid>, walked: set<Oid>, newWants: set<Oid>, walked': set<Oid>, n: nat)
    requires job.Valid() && Exact(job, tipIndex) && job.seeds <= wanted
    requires Exploring(job, tipIndex, downloaded, wanted, walked) && InRound(job, tipIndex, downloaded, wanted, n)
    requires TipBundles(tipIndex, wanted) <= downloaded
    requires Walked(job, job.Local(downloaded), wanted, walked, newWants, walked')
    ensures downloaded == Rounds(job, tipIndex, n) && newWants == StillMissing(job, downloaded)
    ensures Exploring(job, tipIndex, downloaded, wanted + newWants, walked')
  {
    assert downloaded + TipBundles(tipIndex, wanted) == downloaded;
    if !job.TagsComplete() {
      SameRounds(job, tipIndex, n);
    }
    WalkSeesAll(job.g, job.Local(downloaded), job.seeds, wanted, walked, newWants, walked');
  }

  lemma WalkSeesAll(g: Graph, local: set<Oid>, seeds: set<Oid>, wanted: set<Oid>, walked: set<Oid>,
                    newWants: set<Oid>, walked': set<Oid>)
    requires g.Valid() && seeds <= wanted <= VisibleAll(g, local, seeds)
    requires newWants == Missing(g, local, wanted) && FrontierVisible(g, local, walked', newWants)
    ensures newWants == Missing(g, local, seeds)
    ensures wanted + newWants <= VisibleAll(g, local, seeds) && FrontierVisible(g, local, walked', wanted + newWants)
  {
    VisibleFromSeeds(g, local, seeds, wanted);
    assert Closed(g, local, walked', walked' + (wanted + newWants));
  }

  lemma NextRound(job: Job, tipIndex: map<Oid, BundleId>, downloaded: set<BundleId>,
                  wanted: set<Oid>, newWants: set<Oid>, n: nat)
    requires job.Valid() && Open(job, tipIndex, n) && downloaded == Rounds(job, tipIndex, n)
    requires TipBundles(tipIndex, wanted) <= downloaded
    requires newWants == StillMissing(job, downloaded) && !(newWants !! tipIndex.Keys)
    ensures InRound(job, tipIndex, downloaded, wanted + newWants, n + 1)
  {
    assert TipBundles(tipIndex, wanted + newWants) == TipBundles(tipIndex, wanted) + TipBundles(tipIndex, newWants);
    assert !Settled(job, tipIndex, n);
  }

  /** When the first round brings nothing, no later one does. */
  lemma {:induction false} SameRounds(job: Job, tipIndex: map<Oid, BundleId>, n: nat)
    requires job.Valid() && Rounds(job, tipIndex, 1) == Rounds(job, tipIndex, 0)
    ensures Rounds(job, tipIndex, n) == Rounds(job, tipIndex, 0)
  {
    if n > 0 {
      SameRounds(job, tipIndex, n - 1);
    }
  }

  /** How many advertised bundles are still not downloaded. */
  ghost function Remaining(remote: Remote, downloads: seq<BundleId>): nat {
    |remote.tips.Keys - Elems(downloads)|
  }

  lemma SmallerSet<T>(a: set<T>, b: set<T>, x: T)
    requires a <= b && x in b && x !in a
    ensures |a| < |b|
  {
    SubsetSize(a, b - {x});
  }

  lemma SubsetSize<T>(a: set<T>, b: set<T>)
    requires a <= b
    ensures |a| <= |b|
  {
    if a != {} {
      var x :| x in a;
      SubsetSize(a - {x}, b - {x});
    }
  }

  /** A turn that downloads every bundle whose tip is wanted. */
  method DownloadTurn(job: Job, tipIndex: map<Oid, BundleId>, toDownload: set<BundleId>, local0: set<Oid>,
                      downloads0: seq<BundleId>, ghost wanted: set<Oid>, ghost walked: set<Oid>, ghost i: nat)
    returns (failure: Option<FetchOutcome>, local: set<Oid>, downloads: seq<BundleId>)
    requires job.Valid() && NoDuplicates(downloads0) && local0 == job.Local(Elems(downloads0))
    requires UnderWay(job, tipIndex, Elems(downloads0), wanted, walked, i)
    requires toDownload == TipBundles(tipIndex, wanted) - Elems(downloads0) && toDownload != {}
    ensures NoDuplicates(downloads) && local == job.Local(Elems(downloads))
    ensures failure.Some? ==> FetchResult(job, tipIndex, failure.value, local, Elems(downloads))
    ensures failure.None? ==> UnderWay(job, tipIndex, Elems(downloads), wanted, walked, i + 1)
    ensures failure.None? ==> Remaining(job.remote, downloads) < Remaining(job.remote, downloads0)
  {
    var ids := Listed(toDownload);
    ghost var got;
    failure, local, downloads, got := DownloadAll(job.remote, job.packs, ids, local0, downloads0);
    Installed(job, downloads0, downloads, got);
    AfterDownload(job, tipIndex, downloads0, downloads, wanted, walked, got, failure, i);
  }

  lemma Installed(job: Job, downloads0: seq<BundleId>, downloads: seq<BundleId>, got: set<BundleId>)
    requires Elems(downloads) == Elems(downloads0) + got
    ensures job.Local(Elems(downloads0)) + PackUnion(job.packs, got) == job.Local(Elems(downloads))
  {
    PackUnionPlus(job.packs, Elems(downloads0), got);
  }

  lemma AfterDownload(job: Job, tipIndex: map<Oid, BundleId>, downloads0: seq<BundleId>, downloads: seq<BundleId>,
                      wanted: set<Oid>, walked: set<Oid>, got: set<BundleId>, failure: Option<FetchOutcome>, i: nat)
    requires job.Valid() && UnderWay(job, tipIndex, Elems(downloads0), wanted, walked, i)
    requires TipBundles(tipIndex, wanted) - Elems(downloads0) != {}
    requires Elems(downloads) == Elems(downloads0) + got
    requires Got(job.remote, job.packs, TipBundles(tipIndex, wanted) - Elems(downloads0), got, failure)
    ensures failure.Some? ==>
              FetchResult(job, tipIndex, failure.value, job.Local(Elems(downloads)), Elems(downloads))
    ensures failure.None? ==>
              && UnderWay(job, tipIndex, Elems(downloads), wanted, walked, i + 1)
              && Remaining(job.remote, downloads) < Remaining(job.remote, downloads0)
  {
    if failure.Some? {
      FailedTurn(job, tipIndex, Elems(downloads0), wanted, walked, got, failure.value, i);
    } else {
      DownloadedTurn(job, tipIndex, Elems(downloads0), wanted, walked, got, i);
      FewerRemain(job.remote, downloads0, downloads, got);
    }
  }

  lemma FewerRemain(remote: Remote, before: seq<BundleId>, after: seq<BundleId>, got: set<BundleId>)
    requires Elems(after) == Elems(before) + got && got != {} && got !! Elems(before) && got <= remote.tips.Keys
    ensures Remaining(remote, after) < Remaining(remote, before)
  {
    var b :| b in got;
    SmallerSet(remote.tips.Keys - Elems(after), remote.tips.Keys - Elems(before), b);
  }

  lemma FailedTurn(job: Job, tipIndex: map<Oid, BundleId>, downloaded: set<BundleId>, wanted: set<Oid>,
                   walked: set<Oid>, got: set<BundleId>, failure: FetchOutcome, i: nat)
    requires job.Valid() && UnderWay(job, tipIndex, downloaded, wanted, walked, i)
    requires got <= TipBundles(tipIndex, wanted) && got <= job.packs.Keys
    requires Unavailable(job, failure) && failure.id in TipBundles(tipIndex, wanted)
    ensures FetchResult(job, tipIndex, failure, job.Local(downloaded + got), downloaded + got)
  {
    var n: nat :|
      OnTime(tipIndex, downloaded, wanted, i, n) && FetchInvariant(job, tipIndex, downloaded, wanted, walked, n);
    DownloadAccounted(job, tipIndex, downloaded, wanted, got);
    FailedInRound(job, tipIndex, downloaded, wanted, got, failure, n);
  }

  lemma DownloadedTurn(job: Job, tipIndex: map<Oid, BundleId>, downloaded: set<BundleId>,
                       wanted: set<Oid>, walked: set<Oid>, got: set<BundleId>, i: nat)
    requires job.Valid() && UnderWay(job, tipIndex, downloaded, wanted, walked, i)
    requires got == TipBundles(tipIndex, wanted) - downloaded && got != {} && got <= job.packs.Keys
    ensures UnderWay(job, tipIndex, downloaded + got, wanted, walked, i + 1)
    ensures got <= job.remote.tips.Keys
  {
    var n: nat :|
      OnTime(tipIndex, downloaded, wanted, i, n) && FetchInvariant(job, tipIndex, downloaded, wanted, walked, n);
    DownloadedRound(job, tipIndex, downloaded, wanted, walked, got, n);
    assert OnTime(tipIndex, downloaded + got, wanted, i + 1, n);
  }

  ghost predicate Unavailable(job: Job, failure: FetchOutcome) {
    || (failure.DownloadFailed? && failure.id in job.remote.index && failure.id !in job.packs)
    || (failure.MissingRecord? && failure.id !in job.remote.index)
  }

  lemma FailedInRound(job: Job, tipIndex: map<Oid, BundleId>, downloaded: set<BundleId>, wanted: set<Oid>,
                      got: set<BundleId>, failure: FetchOutcome, n: nat)
    requires job.Valid() && IsTipIndex(job.remote.tips, tipIndex) && Wanting(job, tipIndex, wanted)
    requires Accounted(job, tipIndex, downloaded + got) && got <= TipBundles(tipIndex, wanted)
    requires Exact(job, tipIndex) ==> InRound(job, tipIndex, downloaded, wanted, n)
    requires Unavailable(job, failure) && failure.id in TipBundles(tipIndex, wanted)
    ensures FetchResult(job, tipIndex, failure, job.Local(downloaded + got), downloaded + got)
  {
    WantedNeeded(job, tipIndex, wanted, failure.id);
    if Exact(job, tipIndex) {
      assert EndsInRound(job, tipIndex, failure, downloaded + got, n);
    }
  }

  /** Downloading the wanted bundles completes the round. */
  lemma DownloadedRound(job: Job, tipIndex: map<Oid, BundleId>, downloaded: set<BundleId>,
                        wanted: set<Oid>, walked: set<Oid>, got: set<BundleId>, n: nat)
    requires job.Valid() && FetchInvariant(job, tipIndex, downloaded, wanted, walked, n)
    requires got == TipBundles(tipIndex, wanted) - downloaded && got != {} && got <= job.packs.Keys
    ensures FetchInvariant(job, tipIndex, downloaded + got, wanted, walked, n)
    ensures TipBundles(tipIndex, wanted) <= downloaded + got && got <= job.remote.tips.Keys
  {
    DownloadAccounted(job, tipIndex, downloaded, wanted, got);
    assert downloaded + got == downloaded + TipBundles(tipIndex, wanted);
    assert downloaded + got + TipBundles(tipIndex, wanted) == downloaded + TipBundles(tipIndex, wanted);
    DownloadExploring(job, tipIndex, downloaded, wanted, walked, got, n);
  }

  lemma DownloadExploring(job: Job, tipIndex: map<Oid, BundleId>, downloaded: set<BundleId>,
                          wanted: set<Oid>, walked: set<Oid>, got: set<BundleId>, n: nat)
    requires job.Valid() && Exploring(job, tipIndex, downloaded, wanted, walked)
    requires Exact(job, tipIndex) ==> InRound(job, tipIndex, downloaded, wanted, n)
    requires got == TipBundles(tipIndex, wanted) - downloaded && got != {}
    ensures Exploring(job, tipIndex, downloaded + got, wanted, walked)
  {
    PackUnionPlus(job.packs, downloaded, got);
    var local, more := job.Local(downloaded), job.Local(downloaded + got);
    assert local <= more;
    if job.TagsComplete() {
      LocalKnown(job, downloaded);
      forall x | x in walked ensures WalkEdges(job.g, more, x) <= walked + wanted {
        PeelStable(job.g, local, more, x);
        assert WalkEdges(job.g, more, x) == WalkEdges(job.g, local, x);
      }
      VisibleAllMonotone(job.g, local, more, job.seeds);
    } else if Exact(job, tipIndex) {
      SameRounds(job, tipIndex, n);
      assert downloaded != Rounds(job, tipIndex, 0);
      VisibleAllClosed(job.g, more, job.seeds);
    }
  }

  lemma NoneLeft(a: set<BundleId>, b: set<BundleId>)
    requires a - b == {}
    ensures a <= b
  {
    forall x | x in a ensures x in b {
      assert x !in a - b;
    }
  }

  ghost function Measure(job: Job, tipIndex: map<Oid, BundleId>, downloads: seq<BundleId>, wanted: set<Oid>): nat {
    2 * Remaining(job.remote, downloads) + if TipBundles(tipIndex, wanted) <= Elems(downloads) then 1 else 0
  }

  method Turn(job: Job, tipIndex: map<Oid, BundleId>, local0: set<Oid>, downloads0: seq<BundleId>,
              wanted0: set<Oid>, walked0: set<Oid>, ghost i: nat)
    returns (verdict: Option<FetchOutcome>, local: set<Oid>, downloads: seq<BundleId>,
             wanted: set<Oid>, walked: set<Oid>)
    requires job.Valid() && NoDuplicates(downloads0) && local0 == job.Local(Elems(downloads0))
    requires UnderWay(job, tipIndex, Elems(downloads0), wanted0, walked0, i)
    ensures NoDuplicates(downloads) && local == job.Local(Elems(downloads))
    ensures verdict.Some? ==> FetchResult(job, tipIndex, verdict.value, local, Elems(downloads))
    ensures verdict.None? ==> UnderWay(job, tipIndex, Elems(downloads), wanted, walked, i + 1)
    ensures verdict.None? && TipsInstalled(job.remote.tips, job.packs) ==>
              Measure(job, tipIndex, downloads, wanted) < Measure(job, tipIndex, downloads0, wanted0)
  {
    local, downloads, wanted, walked := local0, downloads0, wanted0, walked0;
    var toDownload := TipBundles(tipIndex, wanted) - Elems(downloads);
    if toDownload == {} {
      NoneLeft(TipBundles(tipIndex, wanted), Elems(downloads));
      verdict, wanted, walked := WalkTurn(job, tipIndex, local, Elems(downloads), wanted, walked, i);
    } else {
      verdict, local, downloads := DownloadTurn(job, tipIndex, toDownload, local, downloads, wanted, walked, i);
    }
  }

  /** After `turns` turns, the loop is still looking for round `n` or beyond. */
  ghost predicate StillOpen(job: Job, tipIndex: map<Oid, BundleId>, turns: nat)
    requires job.Valid()
  {
    exists n: nat :: turns <= 2 * n + 1 && Open(job, tipIndex, n)
  }

  /** Phase 2, for at most `turns` turns: download tipped bundles until the
      walk finds nothing more. */
  method DownloadReachable(job: Job, tipIndex: map<Oid, BundleId>, local0: set<Oid>, downloads0: seq<BundleId>,
                           turns: nat)
    returns (outcome: Option<FetchOutcome>, local: set<Oid>, downloads: seq<BundleId>)
    requires job.Valid() && IsTipIndex(job.remote.tips, tipIndex)
    requires NoDuplicates(downloads0) && Elems(downloads0) == Legacy(job.remote)
    requires Accounted(job, tipIndex, Elems(downloads0)) && local0 == job.Local(Elems(downloads0))
    ensures NoDuplicates(downloads)
    ensures outcome.Some? ==> FetchResult(job, tipIndex, outcome.value, local, Elems(downloads))
    ensures TipsInstalled(job.remote.tips, job.packs) && turns > 2 * |job.remote.tips| + 1 ==> outcome.Some?
    ensures outcome.None? && Exact(job, tipIndex) ==> StillOpen(job, tipIndex, turns)
  {
    local, downloads := local0, downloads0;
    var wanted, walked: set<Oid> := job.seeds, {};
    StartUnderWay(job, tipIndex, Elems(downloads));
    RemainingAtFirst(job.remote, downloads);
    for i := 0 to turns
      invariant NoDuplicates(downloads) && local == job.Local(Elems(downloads))
      invariant UnderWay(job, tipIndex, Elems(downloads), wanted, walked, i)
      invariant TipsInstalled(job.remote.tips, job.packs) ==>
                  Measure(job, tipIndex, downloads, wanted) + i <= 2 * |job.remote.tips| + 1
    {
      var verdict;
      verdict, local, downloads, wanted, walked := Turn(job, tipIndex, local, downloads, wanted, walked, i);
      if verdict.Some? {
        return verdict, local, downloads;
      }
    }
    outcome := None;
    StillUnderWay(job, tipIndex, Elems(downloads), wanted, walked, turns);
  }

  lemma StillUnderWay(job: Job, tipIndex: map<Oid, BundleId>, downloaded: set<BundleId>,
                      wanted: set<Oid>, walked: set<Oid>, turns: nat)
    requires job.Valid() && UnderWay(job, tipIndex, downloaded, wanted, walked, turns)
    ensures Exact(job, tipIndex) ==> StillOpen(job, tipIndex, turns)
  {
    var n: nat :|
      OnTime(tipIndex, downloaded, wanted, turns, n) && FetchInvariant(job, tipIndex, downloaded, wanted, walked, n);
    assert Exact(job, tipIndex) ==> Open(job, tipIndex, n);
  }

  lemma StartUnderWay(job: Job, tipIndex: map<Oid, BundleId>, downloaded: set<BundleId>)
    requires job.Valid() && IsTipIndex(job.remote.tips, tipIndex)
    requires downloaded == Legacy(job.remote) && Accounted(job, tipIndex, downloaded)
    ensures UnderWay(job, tipIndex, downloaded, job.seeds, {}, 0)
  {
    StartExploring(job, tipIndex, downloaded);
    StartWanting(job, tipIndex);
    assert OnTime(tipIndex, downloaded, job.seeds, 0, 0);
    assert FetchInvariant(job, tipIndex, downloaded, job.seeds, {}, 0);
  }

  lemma RemainingAtFirst(remote: Remote, downloads: seq<BundleId>)
    ensures Remaining(remote, downloads) <= |remote.tips|
  {
    SubsetSize(remote.tips.Keys - Elems(downloads), remote.tips.Keys);
  }

  lemma StartExploring(job: Job, tipIndex: map<Oid, BundleId>, downloaded: set<BundleId>)
    requires job.Valid() && downloaded == Legacy(job.remote)
    ensures Exploring(job, tipIndex, downloaded, job.seeds, {})
    ensures InRound(job, tipIndex, downloaded, job.seeds, 0)
  {
    VisibleAllClosed(job.g, job.Local(downloaded), job.seeds);
  }

  lemma StartWanting(job: Job, tipIndex: map<Oid, BundleId>)
    requires job.Valid()
    ensures Wanting(job, tipIndex, job.seeds)
  {
    VisibleAllClosed(job.g, {}, job.seeds);
    VisibleAllReach(job.g, {}, job.seeds);
  }

  /** `handle_fetch`, with its download loop run for at most `turns` turns;
      without an outcome, the loop is still going on after that many. */
  method HandleFetch(g: Graph, remote: Remote, packs: Packs, wants: set<Oid>, before: set<Oid>, turns: nat)
    returns (outcome: Option<FetchOutcome>, local: set<Oid>, downloads: seq<BundleId>, tipIndex: map<Oid, BundleId>)
    requires g.Valid() && before <= g.objects.Keys
    requires forall b :: b in packs ==> packs[b] <= g.objects.Keys
    ensures NoDuplicates(downloads)
    ensures var job := Job(g, remote, packs, Seeds(remote, wants), before);
            && (outcome.Some? ==> FetchResult(job, tipIndex, outcome.value, local, Elems(downloads)))
            && (TipsInstalled(remote.tips, packs) && turns > 2 * |remote.tips| + 1 ==> outcome.Some?)
            && (outcome.None? && Exact(job, tipIndex) ==> StillOpen(job, tipIndex, turns))
  {
    var job := Job(g, remote, packs, Seeds(remote, wants), before);
    tipIndex := InvertTips(remote.tips);
    var legacy := Listed(Legacy(remote));
    var failure;
    ghost var got;
    failure, local, downloads, got := DownloadAll(remote, packs, legacy, before, []);
    assert Elems(downloads) == got;
    if failure.Some? {
      LegacyFailed(job, tipIndex, got, failure.value);
      outcome := failure;
    } else {
      outcome, local, downloads := DownloadReachable(job, tipIndex, local, downloads, turns);
    }
  }

  lemma LegacyFailed(job: Job, tipIndex: map<Oid, BundleId>, got: set<BundleId>, failure: FetchOutcome)
    requires job.Valid() && IsTipIndex(job.remote.tips, tipIndex) && got <= Legacy(job.remote) && got <= job.packs.Keys
    requires failure.DownloadFailed? && failure.id in Legacy(job.remote) && failure.id !in job.packs
    ensures FetchResult(job, tipIndex, failure, job.Local(got), got)
  {
    assert Open(job, tipIndex, 0) && EndsInRound(job, tipIndex, failure, got, 0);
  }

  lemma LocalKnown(job: Job, downloaded: set<BundleId>)
    requires job.Valid()
    ensures job.Local(downloaded) <= job.g.objects.Keys
    ensures job.TagsComplete() ==> TagClosed(job.g, job.Local(downloaded))
  {
  }

  lemma PackUnionPlus(packs: Packs, a: set<BundleId>, b: set<BundleId>)
    ensures PackUnion(packs, a + b) == PackUnion(packs, a) + PackUnion(packs, b)
  {
  }

  lemma DownloadAccounted(job: Job, tipIndex: map<Oid, BundleId>, downloaded: set<BundleId>,
                          wanted: set<Oid>, got: set<BundleId>)
    requires job.Valid() && IsTipIndex(job.remote.tips, tipIndex)
    requires Accounted(job, tipIndex, downloaded) && Wanting(job, tipIndex, wanted)
    requires got <= TipBundles(tipIndex, wanted) && got <= job.packs.Keys
    ensures Accounted(job, tipIndex, downloaded + got) && got <= job.remote.tips.Keys
    ensures job.Local(downloaded) + PackUnion(job.packs, got) == job.Local(downloaded + got)
  {
    PackUnionPlus(job.packs, downloaded, got);
    forall b | b in got ensures Needed(job, tipIndex, b) {
      WantedNeeded(job, tipIndex, wanted, b);
    }
  }

  lemma WantedNeeded(job: Job, tipIndex: map<Oid, BundleId>, wanted: set<Oid>, b: BundleId)
    requires job.Valid() && IsTipIndex(job.remote.tips, tipIndex)
    requires Wanting(job, tipIndex, wanted) && b in TipBundles(tipIndex, wanted)
    ensures Needed(job, tipIndex, b)
  {
    var c :| c in wanted && c in tipIndex && tipIndex[c] == b;
    assert SeedOrUndelivered(job, tipIndex, c);
  }

  lemma VisibleAllMonotone(g: Graph, local: set<Oid>, more: set<Oid>, os: set<Oid>)
    requires g.Valid() && local <= more
    ensures VisibleAll(g, local, os) <= VisibleAll(g, more, os)
  {
    forall w | w in os ensures Visible(g, local, w) <= Visible(g, more, w) {
      VisibleMonotone(g, local, more, w);
    }
  }

  /** With nothing left to download, the seeds' own bundles are installed. */
  lemma SeedsDelivered(job: Job, tipIndex: map<Oid, BundleId>, downloaded: set<BundleId>, wanted: set<Oid>)
    requires job.seeds <= wanted
    requires Legacy(job.remote) <= downloaded && TipBundles(tipIndex, wanted) <= downloaded
    ensures TipBundles(tipIndex, job.seeds) <= downloaded
    ensures SeedLocal(job, tipIndex) <= job.Local(downloaded)
  {
    assert TipBundles(tipIndex, job.seeds) <= TipBundles(tipIndex, wanted);
    var first := Legacy(job.remote) + TipBundles(tipIndex, job.seeds);
    assert downloaded == first + downloaded;
    PackUnionPlus(job.packs, first, downloaded);
  }

  lemma ExtendWanting(job: Job, tipIndex: map<Oid, BundleId>, local: set<Oid>, wanted: set<Oid>, newWants: set<Oid>)
    requires job.Valid() && Wanting(job, tipIndex, wanted)
    requires newWants !! local && newWants <= ReachAll(job.g, wanted)
    requires SeedLocal(job, tipIndex) <= local
    ensures Wanting(job, tipIndex, wanted + newWants)
  {
    forall c | c in newWants ensures c in ReachAll(job.g, job.seeds) {
      var w :| w in wanted && c in Reach(job.g, w);
      var s :| s in job.seeds && w in Reach(job.g, s);
      ReachTransitive(job.g, s, w);
    }
  }

  lemma VisibleFromSeeds(g: Graph, local: set<Oid>, seeds: set<Oid>, wanted: set<Oid>)
    requires g.Valid() && seeds <= wanted <= VisibleAll(g, local, seeds)
    ensures VisibleAll(g, local, wanted) == VisibleAll(g, local, seeds)
  {
    VisibleAllClosed(g, local, seeds);
    VisibleAllLeast(g, local, wanted, VisibleAll(g, local, seeds));
    forall s | s in seeds ensures Visible(g, local, s) <= VisibleAll(g, local, wanted) {
    }
  }

  /** If any missing commit is advertised, its bundle is still to be downloaded. */
  lemma SomeBundleAhead(job: Job, tipIndex: map<Oid, BundleId>, downloaded: set<BundleId>,
                        wanted: set<Oid>, newWants: set<Oid>)
    requires IsTipIndex(job.remote.tips, tipIndex) && TipsInstalled(job.remote.tips, job.packs)
    requires downloaded <= job.packs.Keys
    requires newWants !! job.Local(downloaded) && !(newWants !! tipIndex.Keys)
    ensures !(TipBundles(tipIndex, wanted + newWants) <= downloaded)
  {
    var c :| c in newWants && c in tipIndex;
    var b := tipIndex[c];
    assert b in TipBundles(tipIndex, wanted + newWants);
    assert b in job.packs ==> c in job.packs[b];
  }
}
