/** The contract state that a history of pushes leads to, and cloning it. */
module ContractHistory {
  import opened Octets
  import opened Repo
  import opened Merge
  import opened CommitGraph
  import opened Fetch
  import opened PushHistory
  import opened PushDelta
  import BundleIds
  import Delivery
  import Delta
  import Validate

  /** One ref of a push, and the bundle its pack is published as. */
  datatype Spec = Spec(push: Push, bundle: ObjectBundle)

  ghost predicate WellFormed(pub: Publisher, s: Spec) {
    && BundleIds.BundleSized(s.bundle) && s.push.id == pub.Id(s.bundle)
    && Fits(pub, s.push.dst, s.push.want, s.push.id)
  }

  /** One run of the helper's `push`: the refs it was asked for, in order. */
  type Session = seq<Spec>

  ghost predicate AllFormed(pub: Publisher, specs: Session) {
    forall i :: 0 <= i < |specs| ==> WellFormed(pub, specs[i])
  }

  /** A session names each ref once. */
  ghost predicate SessionOk(pub: Publisher, specs: Session) {
    && AllFormed(pub, specs)
    && forall i, j :: 0 <= i < j < |specs| ==> specs[i].push.dst != specs[j].push.dst
  }

  function CurrentTarget(st: RepoState, dst: RefName): Option<Oid> {
    if dst in st.refs then Some(st.refs[dst].value.target) else None
  }

  /** The ref is not there already, and its pack can be built. */
  predicate Goes(g: Graph, st: RepoState, p: Push)
    requires g.Valid()
  {
    CurrentTarget(st, p.dst) != Some(p.want) && EffectiveHave(g, p.pusher, CurrentTarget(st, p.dst), p.force).Ok?
  }

  /** The delta a session signs against the state `st` it read. */
  ghost function SessionDelta(g: Graph, pub: Publisher, st: RepoState, specs: Session): RepoState
    requires g.Valid() && AllFormed(pub, specs)
  {
    if specs == [] then EMPTY_STATE
    else
      var before, s := SessionDelta(g, pub, st, specs[..|specs| - 1]), specs[|specs| - 1];
      assert WellFormed(pub, s);
      if Goes(g, st, s.push) then WithPush(pub, st, before, s.push.dst, s.push.want, s.bundle) else before
  }

  function Pushes(specs: Session): seq<Push> {
    seq(|specs|, i requires 0 <= i < |specs| => specs[i].push)
  }

  // ----- one session against the ledger -----

  lemma {:induction false} DeltaRefs(g: Graph, pub: Publisher, st: RepoState, specs: Session, dst: RefName)
    requires g.Valid() && AllFormed(pub, specs)
    requires forall i :: 0 <= i < |specs| ==> specs[i].push.dst != dst
    ensures dst !in SessionDelta(g, pub, st, specs).refs
  {
    if specs != [] {
      DeltaRefs(g, pub, st, specs[..|specs| - 1], dst);
    }
  }

  lemma {:induction false} OtherRefs(g: Graph, before: seq<Push>, more: seq<Push>, dst: RefName)
    requires g.Valid() && forall i :: 0 <= i < |more| ==> more[i].dst != dst
    ensures Lookup(Replay(g, before + more).remote.refs, dst) == Lookup(Replay(g, before).remote.refs, dst)
  {
    if more == [] {
      assert before + more == before;
    } else {
      OtherRefs(g, before, more[..|more| - 1], dst);
      assert (before + more)[..|before + more| - 1] == before + more[..|more| - 1];
    }
  }

  /** The ledger before the last spec of a session. */
  ghost predicate Step(g: Graph, pub: Publisher, st: RepoState, before: seq<Push>, specs: Session) {
    && g.Valid() && SessionOk(pub, specs)
    && IsView(pub, st, Replay(g, before).remote)
    && CoveredRun(g, before + Pushes(specs))
    && forall n :: n in st.refs ==> st.refs[n].updateSeq < 0xFFFF_FFFF_FFFF_FFFF
  }

  lemma StepFront(g: Graph, pub: Publisher, st: RepoState, before: seq<Push>, specs: Session)
    requires Step(g, pub, st, before, specs) && specs != []
    ensures Step(g, pub, st, before, specs[..|specs| - 1])
    ensures var front, s := specs[..|specs| - 1], specs[|specs| - 1];
            && before + Pushes(specs) == before + Pushes(front) + [s.push]
            && Covered(g, Replay(g, before + Pushes(front)), s.push)
            && Replay(g, before + Pushes(specs)) == Apply(g, Replay(g, before + Pushes(front)), s.push)
  {
    var front, s := specs[..|specs| - 1], specs[|specs| - 1];
    FrontOk(pub, specs);
    FrontPushes(before, specs);
    RunFront(g, before + Pushes(front), s.push);
  }

  lemma FrontOk(pub: Publisher, specs: Session)
    requires SessionOk(pub, specs) && specs != []
    ensures SessionOk(pub, specs[..|specs| - 1]) && WellFormed(pub, specs[|specs| - 1])
  {
  }

  lemma FrontPushes(before: seq<Push>, specs: Session)
    requires specs != []
    ensures before + Pushes(specs) == before + Pushes(specs[..|specs| - 1]) + [specs[|specs| - 1].push]
  {
    assert Pushes(specs) == Pushes(specs[..|specs| - 1]) + [specs[|specs| - 1].push];
  }

  lemma RunFront(g: Graph, pushes: seq<Push>, p: Push)
    requires g.Valid() && CoveredRun(g, pushes + [p])
    ensures CoveredRun(g, pushes) && Covered(g, Replay(g, pushes), p)
    ensures Replay(g, pushes + [p]) == Apply(g, Replay(g, pushes), p)
  {
    var all := pushes + [p];
    CoveredPrefix(g, pushes, [p]);
    assert all[..|pushes|] == pushes;
    assert Covered(g, Replay(g, all[..|pushes|]), all[|pushes|]);
  }

  /** What the last ref of a session sees as the old target is what the
      ledger holds, since no other ref of the session moves it. */
  lemma SamePrevious(g: Graph, pub: Publisher, st: RepoState, before: seq<Push>, specs: Session)
    requires Step(g, pub, st, before, specs) && specs != []
    ensures var front, s := specs[..|specs| - 1], specs[|specs| - 1];
            && PreviousTarget(Replay(g, before + Pushes(front)), s.push) == CurrentTarget(st, s.push.dst)
            && s.push.dst !in SessionDelta(g, pub, st, front).refs
  {
    var front, s := specs[..|specs| - 1], specs[|specs| - 1];
    OtherRefs(g, before, Pushes(front), s.push.dst);
    DeltaRefs(g, pub, st, front, s.push.dst);
    assert SameRefs(st.refs, Replay(g, before).remote.refs);
    var l := Replay(g, before + Pushes(front));
    assert PreviousTarget(l, s.push) == Lookup(l.remote.refs, s.push.dst);
  }

  /** Pushing a bundle the ledger already has advertises the tip it has. */
  lemma SameTipAgain(g: Graph, l: Ledger, p: Push, have: Option<Oid>)
    requires g.Valid() && Sound(g, l) && Covered(g, l, p) && PreviousTarget(l, p) != Some(p.want)
    requires EffectiveHave(g, p.pusher, PreviousTarget(l, p), p.force) == Ok(have)
    ensures p.id in l.remote.tips ==> l.remote.tips[p.id] == p.want
  {
    if p.id in l.remote.tips {
      NewBundleSound(g, l, p, have);
      assert BundleSound(g, l, p.id);
      SamePackSameTip(g, have, p.want, l.haves[p.id], l.remote.tips[p.id]);
    }
  }

  /** Merging a session's delta does to the contract, as fetch sees it, what
      its pushes do to the ledger one by one. */
  lemma {:induction false} SessionRefines(g: Graph, pub: Publisher, st: RepoState, before: seq<Push>, specs: Session)
    requires Step(g, pub, st, before, specs)
    ensures IsView(pub, Merged(st, SessionDelta(g, pub, st, specs)), Replay(g, before + Pushes(specs)).remote)
    ensures TipsKept(pub, st.extensions, Replay(g, before + Pushes(specs)).remote.tips)
    decreases |specs|
  {
    if specs == [] {
      EmptyMerge(st);
      assert before + Pushes(specs) == before;
      KeptAtFirst(pub, st, Replay(g, before).remote);
    } else {
      var front, s := specs[..|specs| - 1], specs[|specs| - 1];
      StepFront(g, pub, st, before, specs);
      SessionRefines(g, pub, st, before, front);
      SamePrevious(g, pub, st, before, specs);
      ReplaySound(g, before + Pushes(front));
      SpecRefines(g, pub, st, SessionDelta(g, pub, st, front), Replay(g, before + Pushes(front)), s);
    }
  }

  lemma EmptyMerge(st: RepoState)
    ensures Merged(st, EMPTY_STATE) == st
  {
    forall k ensures Slot(Merged(st, EMPTY_STATE), k) == Slot(st, k) {
      MergedSlot(st, EMPTY_STATE, k);
    }
    assert EMPTY_STATE.objectIndex + st.objectIndex == st.objectIndex;
    SameSlots(Merged(st, EMPTY_STATE), st);
  }

  lemma KeptAtFirst(pub: Publisher, st: RepoState, r: Remote)
    requires IsView(pub, st, r)
    ensures TipsKept(pub, st.extensions, r.tips)
  {
    assert SameTips(pub, st.extensions, r.tips);
  }

  lemma SpecRefines(g: Graph, pub: Publisher, st: RepoState, delta: RepoState, l: Ledger, s: Spec)
    requires g.Valid() && WellFormed(pub, s) && Sound(g, l) && Covered(g, l, s.push)
    requires IsView(pub, Merged(st, delta), l.remote) && TipsKept(pub, st.extensions, l.remote.tips)
    requires PreviousTarget(l, s.push) == CurrentTarget(st, s.push.dst) && s.push.dst !in delta.refs
    requires s.push.dst in st.refs ==> st.refs[s.push.dst].updateSeq < 0xFFFF_FFFF_FFFF_FFFF
    ensures var after :=
            if Goes(g, st, s.push) then WithPush(pub, st, delta, s.push.dst, s.push.want, s.bundle) else delta;
            IsView(pub, Merged(st, after), Apply(g, l, s.push).remote)
    ensures TipsKept(pub, st.extensions, Apply(g, l, s.push).remote.tips)
  {
    var p := s.push;
    if Goes(g, st, p) {
      var have := EffectiveHave(g, p.pusher, PreviousTarget(l, p), p.force);
      SameTipAgain(g, l, p, have.value);
      PushSeen(pub, st, delta, l.remote, p.dst, p.want, s.bundle);
      assert Apply(g, l, p).remote == Advance(l.remote, p.dst, p.want, p.id);
    } else {
      assert Apply(g, l, p) == l;
    }
  }

  // ----- all sessions -----

  function AllPushes(sessions: seq<Session>): seq<Push> {
    if sessions == [] then [] else AllPushes(sessions[..|sessions| - 1]) + Pushes(sessions[|sessions| - 1])
  }

  ghost predicate SessionsOk(pub: Publisher, sessions: seq<Session>) {
    forall i :: 0 <= i < |sessions| ==> SessionOk(pub, sessions[i])
  }

  /** The contract after the sessions' deltas were merged in. */
  ghost function ContractAfter(g: Graph, pub: Publisher, start: RepoState, sessions: seq<Session>): RepoState
    requires g.Valid() && SessionsOk(pub, sessions)
  {
    if sessions == [] then start
    else
      var st := ContractAfter(g, pub, start, sessions[..|sessions| - 1]);
      Merged(st, SessionDelta(g, pub, st, sessions[|sessions| - 1]))
  }

  ghost predicate SeqsAtMost(refs: map<RefName, Signed<RefTarget>>, n: nat) {
    forall r :: r in refs ==> refs[r].updateSeq <= n
  }

  /** No ref and no extension carries counter 0. */
  ghost predicate CountersPositive(st: RepoState) {
    && (forall r :: r in st.refs ==> st.refs[r].updateSeq >= 1)
    && forall x :: x in st.extensions ==> st.extensions[x].updateSeq >= 1
  }

  lemma {:induction false} DeltaCounters(g: Graph, pub: Publisher, st: RepoState, specs: Session, n: nat)
    requires g.Valid() && SessionOk(pub, specs) && SeqsAtMost(st.refs, n) && n < 0xFFFF_FFFF_FFFF_FFFF
    ensures SeqsAtMost(SessionDelta(g, pub, st, specs).refs, n + 1)
    ensures CountersPositive(SessionDelta(g, pub, st, specs))
  {
    if specs != [] {
      var front, s := specs[..|specs| - 1], specs[|specs| - 1];
      DeltaCounters(g, pub, st, front, n);
      if Goes(g, st, s.push) {
        NextCounter(pub, st, s.push.dst, s.push.want, n);
        AddedCounters(SessionDelta(g, pub, st, front), s.push.dst,
          RefEntry(pub, s.push.dst, s.push.want, NextSeq(Lookup(st.refs, s.push.dst))), pub.Id(s.bundle),
          Record(pub, s.bundle), pub.tipKey(pub.Id(s.bundle)), TipEntry(pub, pub.Id(s.bundle), s.push.want), n + 1);
      }
    }
  }

  lemma NextCounter(pub: Publisher, st: RepoState, dst: RefName, want: Oid, n: nat)
    requires SeqsAtMost(st.refs, n) && n < 0xFFFF_FFFF_FFFF_FFFF
    ensures 1 <= RefEntry(pub, dst, want, NextSeq(Lookup(st.refs, dst))).updateSeq <= n + 1
  {
    assert dst in st.refs ==> st.refs[dst].updateSeq <= n;
  }

  lemma AddedCounters(delta: RepoState, dst: RefName, entry: Signed<RefTarget>, id: BundleId, record: BundleRecord,
                      key: Bytes, tip: Signed<Bytes>, n: nat)
    requires SeqsAtMost(delta.refs, n) && CountersPositive(delta) && 1 <= entry.updateSeq <= n && tip.updateSeq >= 1
    ensures var more := Added(delta, dst, entry, id, record, key, tip);
            SeqsAtMost(more.refs, n) && CountersPositive(more)
  {
  }

  lemma MergedCounters(st: RepoState, delta: RepoState, n: nat)
    requires SeqsAtMost(st.refs, n) && SeqsAtMost(delta.refs, n)
    ensures SeqsAtMost(Merged(st, delta).refs, n)
    ensures CountersPositive(st) && CountersPositive(delta) ==> CountersPositive(Merged(st, delta))
  {
  }

  /** A ref's counter grows by at most one per session, and pushes never
      write counter 0. */
  lemma {:induction false} ContractCounters(g: Graph, pub: Publisher, start: RepoState, sessions: seq<Session>)
    requires g.Valid() && SessionsOk(pub, sessions) && |sessions| < 0xFFFF_FFFF_FFFF_FFFF
    requires SeqsAtMost(start.refs, 0)
    ensures SeqsAtMost(ContractAfter(g, pub, start, sessions).refs, |sessions|)
    ensures CountersPositive(start) ==> CountersPositive(ContractAfter(g, pub, start, sessions))
    decreases |sessions|
  {
    if sessions != [] {
      var front, last := sessions[..|sessions| - 1], sessions[|sessions| - 1];
      var st := ContractAfter(g, pub, start, front);
      ContractCounters(g, pub, start, front);
      DeltaCounters(g, pub, st, last, |front|);
      MergedCounters(st, SessionDelta(g, pub, st, last), |sessions|);
    }
  }

  /** The deployed contract's rule loses nothing that pushes write: for every
      summary a peer may send, it selects the refs and extensions that the
      corrected rule selects. */
  lemma DeployedRuleSuffices(g: Graph, pub: Publisher, start: RepoState, sessions: seq<Session>, s: Delta.RepoSummary)
    requires g.Valid() && SessionsOk(pub, sessions) && |sessions| < 0xFFFF_FFFF_FFFF_FFFF
    requires SeqsAtMost(start.refs, 0) && CountersPositive(start)
    ensures var st := ContractAfter(g, pub, start, sessions);
            && Delta.DeployedEntries(s.refSeqs, st.refs) == Delta.NeededEntries(s.refSeqs, st.refs)
            && Delta.DeployedEntries(s.extensionSeqs, st.extensions) ==
                Delta.NeededEntries(s.extensionSeqs, st.extensions)
  {
    var st := ContractAfter(g, pub, start, sessions);
    ContractCounters(g, pub, start, sessions);
    Delta.DeployedRuleAgreesIff(s.refSeqs, st.refs);
    Delta.DeployedRuleAgreesIff(s.extensionSeqs, st.extensions);
  }

  lemma CoveredPrefix(g: Graph, a: seq<Push>, b: seq<Push>)
    requires g.Valid() && CoveredRun(g, a + b)
    ensures CoveredRun(g, a)
  {
    forall i | 0 <= i < |a| ensures Covered(g, Replay(g, a[..i]), a[i]) {
      assert (a + b)[..i] == a[..i];
    }
  }

  /** Fetch sees in the contract exactly what the ledger of the same pushes
      holds. */
  lemma {:induction false} ContractRefines(g: Graph, pub: Publisher, start: RepoState, sessions: seq<Session>)
    requires g.Valid() && SessionsOk(pub, sessions) && |sessions| < 0xFFFF_FFFF_FFFF_FFFF
    requires IsView(pub, start, EMPTY.remote) && CoveredRun(g, AllPushes(sessions))
    ensures IsView(pub, ContractAfter(g, pub, start, sessions), Replay(g, AllPushes(sessions)).remote)
    decreases |sessions|
  {
    assert SameRefs(start.refs, map[]);
    if sessions != [] {
      var front, last := sessions[..|sessions| - 1], sessions[|sessions| - 1];
      var st := ContractAfter(g, pub, start, front);
      CoveredPrefix(g, AllPushes(front), Pushes(last));
      ContractRefines(g, pub, start, front);
      ContractCounters(g, pub, start, front);
      SessionRefines(g, pub, st, AllPushes(front), last);
    }
  }

  /** Every session's update is accepted, from the first to the last. */
  lemma {:induction false} SessionAccepted(g: Graph, pub: Publisher, st: RepoState, specs: Session)
    requires g.Valid() && SessionOk(pub, specs) && pub.SignaturesVerify() && st.owner == pub.owner
    requires Validate.ValidState(pub.crypto, pub.params, st)
    ensures Validate.ValidState(pub.crypto, pub.params, Merged(st, SessionDelta(g, pub, st, specs)))
  {
    if specs == [] {
      EmptyMerge(st);
    } else {
      var front, s := specs[..|specs| - 1], specs[|specs| - 1];
      SessionAccepted(g, pub, st, front);
      if Goes(g, st, s.push) {
        PushAccepted(pub, st, SessionDelta(g, pub, st, front), s.push.dst, s.push.want, s.bundle);
      }
    }
  }

  lemma {:induction false} ContractStaysValid(g: Graph, pub: Publisher, start: RepoState, sessions: seq<Session>)
    requires g.Valid() && SessionsOk(pub, sessions) && pub.SignaturesVerify() && start.owner == pub.owner
    requires Validate.ValidState(pub.crypto, pub.params, start)
    ensures Validate.ValidState(pub.crypto, pub.params, ContractAfter(g, pub, start, sessions))
    ensures ContractAfter(g, pub, start, sessions).owner == pub.owner
  {
    if sessions != [] {
      ContractStaysValid(g, pub, start, sessions[..|sessions| - 1]);
      var st := ContractAfter(g, pub, start, sessions[..|sessions| - 1]);
      SessionAccepted(g, pub, st, sessions[|sessions| - 1]);
    }
  }

  lemma SameView(pub: Publisher, st: RepoState, r: Remote, r': Remote)
    requires IsView(pub, st, r) && IsView(pub, st, r')
    ensures r == r'
  {
    assert r.refs == r'.refs;
    forall id ensures Lookup(r.tips, id) == Lookup(r'.tips, id) {
      assert Lookup(r.tips, id) == TipAt(pub, st.extensions, id);
      assert Lookup(r'.tips, id) == TipAt(pub, st.extensions, id);
    }
    SameMap(r.tips, r'.tips);
  }

  /** End to end, from signed deltas to the store of a fresh clone: unless the
      commits that packs were cut against lead round in a circle, a clone of
      any current refs ends well with everything they reach. */
  lemma ContractClones(g: Graph, pub: Publisher, start: RepoState, sessions: seq<Session>, r: Remote, wants: set<Oid>,
                       tipIndex: map<Oid, BundleId>, outcome: FetchOutcome, local: set<Oid>, downloaded: set<BundleId>)
    requires g.Valid() && SessionsOk(pub, sessions) && |sessions| < 0xFFFF_FFFF_FFFF_FFFF
    requires IsView(pub, start, EMPTY.remote) && CoveredRun(g, AllPushes(sessions))
    requires Delivery.CutsOrdered(g, Replay(g, AllPushes(sessions)))
    requires IsView(pub, ContractAfter(g, pub, start, sessions), r) && wants <= r.refs.Values
    requires var job := Job(g, r, Replay(g, AllPushes(sessions)).packs, Seeds(r, wants), {});
             job.Valid() && FetchResult(job, tipIndex, outcome, local, downloaded)
    ensures outcome.Done? && ReachAll(g, Seeds(r, wants)) <= local
  {
    var pushes := AllPushes(sessions);
    ContractRefines(g, pub, start, sessions);
    SameView(pub, ContractAfter(g, pub, start, sessions), r, Replay(g, pushes).remote);
    Delivery.ClonedAfterPushes(g, pushes, wants, tipIndex, outcome, local, downloaded);
  }

  /** The same without a condition on the history: clones of current refs work
      exactly when no fetch of them can grow into a trap. */
  lemma ContractClonesIff(g: Graph, pub: Publisher, start: RepoState, sessions: seq<Session>, r: Remote)
    requires g.Valid() && SessionsOk(pub, sessions) && |sessions| < 0xFFFF_FFFF_FFFF_FFFF
    requires IsView(pub, start, EMPTY.remote) && CoveredRun(g, AllPushes(sessions))
    requires IsView(pub, ContractAfter(g, pub, start, sessions), r)
    ensures var l := Replay(g, AllPushes(sessions));
            && r == l.remote && Sound(g, l)
            && (Delivery.EveryRefCloneDelivers(g, l) <==>
                  forall d :: Delivery.Grown(g, l, d) ==> !Delivery.Trap(g, l, d))
  {
    var pushes := AllPushes(sessions);
    ContractRefines(g, pub, start, sessions);
    SameView(pub, ContractAfter(g, pub, start, sessions), r, Replay(g, pushes).remote);
    ReplaySound(g, pushes);
    Delivery.CloneOfRefsIff(g, Replay(g, pushes));
  }
}
