/** Replicas that exchange full states and deltas, in any order. */
module Gossip {
  import opened Octets
  import opened Repo
  import opened Merge
  import opened Delta
  import opened Validate
  import opened RepoContract

  /** A state a writer published; replicas hold joins of these. */
  type Origins = seq<RepoState>

  ghost predicate RecordsAgree(a: RepoState, b: RepoState) {
    forall id :: id in a.objectIndex && id in b.objectIndex ==> a.objectIndex[id] == b.objectIndex[id]
  }

  ghost predicate Compatible(a: RepoState, b: RepoState) {
    a.owner == b.owner && TieFree(a, b) && RecordsAgree(a, b)
  }

  /** One owner, one entry per counter, one record per bundle id. */
  ghost predicate Coherent(origins: Origins) {
    forall o, o' :: 0 <= o < |origins| && 0 <= o' < |origins| ==> Compatible(origins[o], origins[o'])
  }

  // ----- joins of origins -----

  ghost predicate SlotFrom(origins: Origins, from: set<nat>, k: SlotKey, e: Option<Entry>) {
    e.Some? ==> exists o :: o in from && o < |origins| && Slot(origins[o], k) == e
  }

  ghost predicate RecordFrom(origins: Origins, from: set<nat>, id: BundleId, r: Option<BundleRecord>) {
    r.Some? ==> exists o :: o in from && o < |origins| && Lookup(origins[o].objectIndex, id) == r
  }

  ghost predicate Above(origins: Origins, from: set<nat>, st: RepoState) {
    forall o :: o in from && o < |origins| ==> Covers(st, origins[o]) && st.owner == origins[o].owner
  }

  ghost predicate Sourced(origins: Origins, from: set<nat>, st: RepoState) {
    && (forall k :: SlotFrom(origins, from, k, Slot(st, k)))
    && (forall id :: RecordFrom(origins, from, id, Lookup(st.objectIndex, id)))
  }

  /** `st` is the least state above the origins in `from`. */
  ghost predicate JoinOf(origins: Origins, from: set<nat>, st: RepoState) {
    && from != {} && (forall o :: o in from ==> o < |origins|)
    && Above(origins, from, st) && Sourced(origins, from, st)
  }

  lemma OwnJoin(origins: Origins, o: nat)
    requires o < |origins|
    ensures JoinOf(origins, {o}, origins[o])
  {
    MergeIdempotent(origins[o]);
    MergeCovers(origins[o], origins[o]);
    assert o in {o};
  }

  lemma JoinsTieFree(origins: Origins, a: set<nat>, x: RepoState, b: set<nat>, y: RepoState)
    requires Coherent(origins) && JoinOf(origins, a, x) && JoinOf(origins, b, y)
    ensures TieFree(x, y)
  {
    forall k | Slot(x, k).Some? && Slot(y, k).Some? && Slot(x, k).value.updateSeq == Slot(y, k).value.updateSeq
      ensures Slot(x, k) == Slot(y, k)
    {
      assert SlotFrom(origins, a, k, Slot(x, k)) && SlotFrom(origins, b, k, Slot(y, k));
      var o :| o in a && o < |origins| && Slot(origins[o], k) == Slot(x, k);
      var o' :| o' in b && o' < |origins| && Slot(origins[o'], k) == Slot(y, k);
      assert Compatible(origins[o], origins[o']);
    }
  }

  lemma JoinsSameOwner(origins: Origins, a: set<nat>, x: RepoState, b: set<nat>, y: RepoState)
    requires Coherent(origins) && JoinOf(origins, a, x) && JoinOf(origins, b, y)
    ensures x.owner == y.owner
  {
    var o :| o in a;
    var o' :| o' in b;
    assert Compatible(origins[o], origins[o']);
  }

  /** Merging two joins joins everything behind both. */
  lemma JoinsMerge(origins: Origins, a: set<nat>, x: RepoState, b: set<nat>, y: RepoState)
    requires Coherent(origins) && JoinOf(origins, a, x) && JoinOf(origins, b, y)
    ensures JoinOf(origins, a + b, Merged(x, y))
  {
    var m := Merged(x, y);
    MergeCovers(x, y);
    JoinsSameOwner(origins, a, x, b, y);
    forall o | o in a + b && o < |origins| ensures Covers(m, origins[o]) && m.owner == origins[o].owner {
      CoversTransitive(origins[o], if o in a then x else y, m);
    }
    forall k ensures SlotFrom(origins, a + b, k, Slot(m, k)) {
      MergeSourced(x, y, k);
      assert SlotFrom(origins, a, k, Slot(x, k)) && SlotFrom(origins, b, k, Slot(y, k));
    }
    forall id ensures RecordFrom(origins, a + b, id, Lookup(m.objectIndex, id)) {
      assert RecordFrom(origins, a, id, Lookup(x.objectIndex, id))
          && RecordFrom(origins, b, id, Lookup(y.objectIndex, id));
    }
  }

  /** There is only one join of a given set of origins. */
  lemma JoinUnique(origins: Origins, from: set<nat>, x: RepoState, y: RepoState)
    requires Coherent(origins) && JoinOf(origins, from, x) && JoinOf(origins, from, y)
    ensures x == y
  {
    JoinsSameOwner(origins, from, x, from, y);
    forall k ensures Slot(x, k) == Slot(y, k) {
      SlotAtMost(origins, from, x, y, k);
      SlotAtMost(origins, from, y, x, k);
      JoinsTieFree(origins, from, x, from, y);
    }
    RecordsIn(origins, from, x, y);
    RecordsIn(origins, from, y, x);
    SameMap(x.objectIndex, y.objectIndex);
    SameSlots(x, y);
  }

  lemma SlotAtMost(origins: Origins, from: set<nat>, x: RepoState, y: RepoState, k: SlotKey)
    requires Sourced(origins, from, x) && Above(origins, from, y)
    ensures EntryAtMost(Slot(x, k), Slot(y, k))
  {
    assert SlotFrom(origins, from, k, Slot(x, k));
    if Slot(x, k).Some? {
      var o :| o in from && o < |origins| && Slot(origins[o], k) == Slot(x, k);
      assert Covers(y, origins[o]);
    }
  }

  lemma RecordsIn(origins: Origins, from: set<nat>, x: RepoState, y: RepoState)
    requires Coherent(origins) && JoinOf(origins, from, x) && JoinOf(origins, from, y)
    ensures forall id :: id in x.objectIndex ==> Lookup(y.objectIndex, id) == Lookup(x.objectIndex, id)
  {
    forall id | id in x.objectIndex ensures Lookup(y.objectIndex, id) == Lookup(x.objectIndex, id) {
      assert RecordFrom(origins, from, id, Lookup(x.objectIndex, id))
          && RecordFrom(origins, from, id, Lookup(y.objectIndex, id));
      var o :| o in from && o < |origins| && Lookup(origins[o].objectIndex, id) == Lookup(x.objectIndex, id);
      assert Covers(y, origins[o]) && id in y.objectIndex;
      var o' :| o' in from && o' < |origins| && Lookup(origins[o'].objectIndex, id) == Lookup(y.objectIndex, id);
      assert Compatible(origins[o], origins[o']) && RecordsAgree(origins[o], origins[o']);
    }
  }

  // ----- the network -----

  /** `absorbed`, `state` and the answer's `summary` only keep track of where
      a message comes from; no replica reads them. */
  datatype Message =
    | Full(state: RepoState, absorbed: set<nat>)
    | Summary(author: nat, summary: RepoSummary)
    | Answer(recipient: nat, delta: RepoState, state: RepoState, summary: RepoSummary, absorbed: set<nat>)

  /** Sent messages stay in the pool: they may arrive late, twice, out of
      order or never. */
  datatype Network = Network(states: seq<RepoState>, absorbed: seq<set<nat>>, pool: set<Message>)

  datatype Event =
    | Publish(replica: nat, origin: nat)
    | SendFull(replica: nat)
    | SendSummary(replica: nat, summary: RepoSummary)
    | Reply(replica: nat, request: Message)
    | Deliver(replica: nat, message: Message)

  /** A replica merges what it received, unless validation refuses. */
  ghost function Receive(valid: RepoState -> bool, n: Network, i: nat, incoming: RepoState, from: set<nat>): Network
    requires i < |n.states| == |n.absorbed|
  {
    var merged := Merged(n.states[i], incoming);
    if valid(merged) then Network(n.states[i := merged], n.absorbed[i := n.absorbed[i] + from], n.pool) else n
  }

  ghost predicate Possible(origins: Origins, n: Network, e: Event) {
    && e.replica < |n.states| == |n.absorbed|
    && match e
       case Publish(_, o) => o < |origins|
       case SendFull(_) => true
       case SendSummary(i, s) => Summarizes(s, n.states[i])
       case Reply(_, m) => m in n.pool && m.Summary?
       case Deliver(i, m) => m in n.pool && (m.Full? || (m.Answer? && m.recipient == i))
  }

  ghost function Next(valid: RepoState -> bool, origins: Origins, n: Network, e: Event): Network
    requires Possible(origins, n, e)
  {
    match e
    case Publish(i, o) => Receive(valid, n, i, origins[o], {o})
    case SendFull(i) => n.(pool := n.pool + {Full(n.states[i], n.absorbed[i])})
    case SendSummary(i, s) => n.(pool := n.pool + {Summary(i, s)})
    case Reply(j, m) =>
      var delta := DeltaOf(n.states[j], m.summary);
      n.(pool := n.pool + {Answer(m.author, delta, n.states[j], m.summary, n.absorbed[j])})
    case Deliver(i, m) =>
      Receive(valid, n, i, if m.Full? then m.state else m.delta, m.absorbed)
  }

  /** Any run: an event that is not possible changes nothing. */
  ghost function Run(valid: RepoState -> bool, origins: Origins, start: Network, events: seq<Event>): Network {
    if events == [] then start
    else
      var n, e := Run(valid, origins, start, events[..|events| - 1]), events[|events| - 1];
      if Possible(origins, n, e) then Next(valid, origins, n, e) else n
  }

  /** Every replica starts from some published state; nothing is in flight. */
  ghost predicate Initial(origins: Origins, n: Network) {
    && |n.states| == |n.absorbed| && n.pool == {}
    && forall i :: 0 <= i < |n.states| ==>
         exists o :: 0 <= o < |origins| && n.absorbed[i] == {o} && n.states[i] == origins[o]
  }

  // ----- the invariant -----

  ghost predicate Sound(origins: Origins, n: Network, m: Message) {
    match m
    case Full(st, from) => JoinOf(origins, from, st)
    case Summary(i, s) => i < |n.states| && CoversSummary(n.states[i], s)
    case Answer(i, d, st, s, from) =>
      i < |n.states| && CoversSummary(n.states[i], s) && JoinOf(origins, from, st) && d == DeltaOf(st, s)
  }

  ghost predicate ReplicaSound(origins: Origins, n: Network, i: nat)
    requires i < |n.states| == |n.absorbed|
  {
    JoinOf(origins, n.absorbed[i], n.states[i])
  }

  ghost predicate Invariant(origins: Origins, n: Network) {
    && |n.states| == |n.absorbed|
    && (forall i :: 0 <= i < |n.states| ==> ReplicaSound(origins, n, i))
    && (forall m :: m in n.pool ==> Sound(origins, n, m))
  }

  lemma StartsSound(origins: Origins, n: Network)
    requires Initial(origins, n)
    ensures Invariant(origins, n)
  {
    forall i | 0 <= i < |n.states| ensures ReplicaSound(origins, n, i) {
      var o :| 0 <= o < |origins| && n.absorbed[i] == {o} && n.states[i] == origins[o];
      OwnJoin(origins, o);
    }
  }

  /** A replica that only grows keeps every summary it sent good. */
  lemma ReceiveSound(valid: RepoState -> bool, origins: Origins, n: Network, i: nat, incoming: RepoState,
                     from: set<nat>)
    requires Invariant(origins, n) && i < |n.states|
    requires JoinOf(origins, n.absorbed[i] + from, Merged(n.states[i], incoming))
    ensures Invariant(origins, Receive(valid, n, i, incoming, from))
  {
    var n' := Receive(valid, n, i, incoming, from);
    MergeCovers(n.states[i], incoming);
    forall m | m in n'.pool ensures Sound(origins, n', m) {
      assert Sound(origins, n, m);
      if valid(Merged(n.states[i], incoming)) && ((m.Summary? && m.author == i) || (m.Answer? && m.recipient == i)) {
        CoversSummaryGrows(n.states[i], n'.states[i], m.summary);
      }
    }
    forall j | 0 <= j < |n'.states| ensures ReplicaSound(origins, n', j) {
      assert ReplicaSound(origins, n, j);
    }
  }

  lemma SendSound(origins: Origins, n: Network, m: Message)
    requires Invariant(origins, n) && Sound(origins, n, m)
    ensures Invariant(origins, n.(pool := n.pool + {m}))
  {
    var n' := n.(pool := n.pool + {m});
    forall i | 0 <= i < |n'.states| ensures ReplicaSound(origins, n', i) {
      assert ReplicaSound(origins, n, i);
    }
    forall x | x in n'.pool ensures Sound(origins, n', x) {
      assert Sound(origins, n, x);
    }
  }

  lemma DeliverJoins(origins: Origins, n: Network, i: nat, m: Message)
    requires Coherent(origins) && Invariant(origins, n) && i < |n.states| && Sound(origins, n, m)
    requires m.Full? || (m.Answer? && m.recipient == i)
    ensures JoinOf(origins, n.absorbed[i] + m.absorbed, Merged(n.states[i], if m.Full? then m.state else m.delta))
  {
    assert ReplicaSound(origins, n, i);
    JoinsMerge(origins, n.absorbed[i], n.states[i], m.absorbed, m.state);
    if m.Answer? {
      JoinsTieFree(origins, n.absorbed[i], n.states[i], m.absorbed, m.state);
      DeltaExact(n.states[i], m.state, m.summary);
    }
  }

  lemma StepSound(valid: RepoState -> bool, origins: Origins, n: Network, e: Event)
    requires Coherent(origins) && Invariant(origins, n) && Possible(origins, n, e)
    ensures Invariant(origins, Next(valid, origins, n, e))
  {
    var i := e.replica;
    assert ReplicaSound(origins, n, i);
    match e
    case Publish(_, o) =>
      OwnJoin(origins, o);
      JoinsMerge(origins, n.absorbed[i], n.states[i], {o}, origins[o]);
      ReceiveSound(valid, origins, n, i, origins[o], {o});
    case SendFull(_) =>
      SendSound(origins, n, Full(n.states[i], n.absorbed[i]));
    case SendSummary(_, s) =>
      MergeIdempotent(n.states[i]);
      MergeCovers(n.states[i], n.states[i]);
      StaleSummaryCovered(s, n.states[i], n.states[i]);
      SendSound(origins, n, Summary(i, s));
    case Reply(_, m) =>
      assert Sound(origins, n, m);
      SendSound(origins, n, Answer(m.author, DeltaOf(n.states[i], m.summary), n.states[i], m.summary, n.absorbed[i]));
    case Deliver(_, m) =>
      DeliverJoins(origins, n, i, m);
      ReceiveSound(valid, origins, n, i, if m.Full? then m.state else m.delta, m.absorbed);
  }

  lemma {:induction false} RunSound(valid: RepoState -> bool, origins: Origins, start: Network, events: seq<Event>)
    requires Coherent(origins) && Initial(origins, start)
    ensures Invariant(origins, Run(valid, origins, start, events))
    decreases |events|
  {
    if events == [] {
      StartsSound(origins, start);
    } else {
      var n, e := Run(valid, origins, start, events[..|events| - 1]), events[|events| - 1];
      RunSound(valid, origins, start, events[..|events| - 1]);
      if Possible(origins, n, e) {
        StepSound(valid, origins, n, e);
      }
    }
  }

  // ----- what gossip guarantees -----

  /** After any run, every replica is the join of what it has absorbed, and
      replicas that absorbed the same states are equal. */
  lemma Converges(valid: RepoState -> bool, origins: Origins, start: Network, events: seq<Event>, i: nat, j: nat)
    requires Coherent(origins) && Initial(origins, start)
    requires var n := Run(valid, origins, start, events); i < |n.states| && j < |n.states| && |n.states| == |n.absorbed|
    ensures var n := Run(valid, origins, start, events);
            && JoinOf(origins, n.absorbed[i], n.states[i])
            && (n.absorbed[i] == n.absorbed[j] ==> n.states[i] == n.states[j])
  {
    var n := Run(valid, origins, start, events);
    RunSound(valid, origins, start, events);
    assert ReplicaSound(origins, n, i) && ReplicaSound(origins, n, j);
    if n.absorbed[i] == n.absorbed[j] {
      JoinUnique(origins, n.absorbed[i], n.states[i], n.states[j]);
    }
  }

  /** A join of valid states is valid. */
  lemma JoinValid(c: Crypto, params: RepoParams, origins: Origins, from: set<nat>, st: RepoState)
    requires JoinOf(origins, from, st)
    requires forall o :: 0 <= o < |origins| ==> ValidState(c, params, origins[o])
    ensures ValidState(c, params, st)
  {
    var any :| any in from;
    assert Covers(st, origins[any]) && st.owner == origins[any].owner;
    forall k ensures EntryValid(c, params, st.owner, k, Slot(st, k)) {
      assert SlotFrom(origins, from, k, Slot(st, k));
      if Slot(st, k).Some? {
        var o :| o in from && o < |origins| && Slot(origins[o], k) == Slot(st, k);
        assert EntryValid(c, params, origins[o].owner, k, Slot(origins[o], k)) && st.owner == origins[o].owner;
      }
    }
    forall id ensures RecordValid(c, params, st.owner, id, Lookup(st.objectIndex, id)) {
      assert RecordFrom(origins, from, id, Lookup(st.objectIndex, id));
      if id in st.objectIndex {
        var o :| o in from && o < |origins| && Lookup(origins[o].objectIndex, id) == Lookup(st.objectIndex, id);
        assert RecordValid(c, params, origins[o].owner, id, Lookup(origins[o].objectIndex, id))
            && st.owner == origins[o].owner;
      }
    }
  }

  /** When the published states are valid, no delivery is ever refused: the
      replica absorbs everything behind the message. */
  lemma NeverRefused(c: Crypto, params: RepoParams, origins: Origins, start: Network, events: seq<Event>, i: nat,
                     m: Message)
    requires Coherent(origins) && Initial(origins, start)
    requires forall o :: 0 <= o < |origins| ==> ValidState(c, params, origins[o])
    requires Possible(origins, Run(Accepted(c, params), origins, start, events), Deliver(i, m))
    ensures var n := Run(Accepted(c, params), origins, start, events);
            Next(Accepted(c, params), origins, n, Deliver(i, m)).absorbed[i] == n.absorbed[i] + m.absorbed
  {
    var n := Run(Accepted(c, params), origins, start, events);
    RunSound(Accepted(c, params), origins, start, events);
    assert Sound(origins, n, m);
    DeliverJoins(origins, n, i, m);
    JoinValid(c, params, origins, n.absorbed[i] + m.absorbed,
      Merged(n.states[i], if m.Full? then m.state else m.delta));
  }

  /** No replica ever holds a state that validation refuses, whatever else is
      sent to it. */
  lemma {:induction false} NeverInvalid(valid: RepoState -> bool, origins: Origins, start: Network, events: seq<Event>,
                                        i: nat)
    requires i < |start.states| == |start.absorbed| && forall j :: 0 <= j < |start.states| ==> valid(start.states[j])
    ensures var n := Run(valid, origins, start, events);
            i < |n.states| == |n.absorbed| == |start.states| && valid(n.states[i])
  {
    if events != [] {
      NeverInvalid(valid, origins, start, events[..|events| - 1], i);
    }
  }

  // ----- the contract's fold, in any order -----

  lemma {:induction false} FoldIsJoin(origins: Origins, start: nat, order: seq<nat>)
    requires Coherent(origins) && start < |origins| && forall o :: o in order ==> o < |origins|
    ensures JoinOf(origins, {start} + Behind(order), JoinAll(origins[start], Picked(origins, order)))
    decreases |order|
  {
    if order == [] {
      OwnJoin(origins, start);
      assert {start} + Behind(order) == {start};
    } else {
      var init, last := order[..|order| - 1], order[|order| - 1];
      assert last in order && forall o :: o in init ==> o in order;
      FoldIsJoin(origins, start, init);
      OwnJoin(origins, last);
      JoinsMerge(origins, {start} + Behind(init), JoinAll(origins[start], Picked(origins, init)), {last},
        origins[last]);
      assert Picked(origins, order)[..|init|] == Picked(origins, init);
      assert {start} + Behind(order) == ({start} + Behind(init)) + {last};
    }
  }

  function Behind(order: seq<nat>): set<nat> {
    set o | o in order
  }

  function Picked(origins: Origins, order: seq<nat>): seq<RepoState>
    requires forall o :: o in order ==> o < |origins|
  {
    seq(|order|, i requires 0 <= i < |order| => assert order[i] in order; origins[order[i]])
  }

  /** Folding the same states in, in another order or with repeats, gives the
      same state. */
  lemma FoldOrderIrrelevant(origins: Origins, start: nat, order: seq<nat>, order': seq<nat>)
    requires Coherent(origins) && start < |origins|
    requires forall o :: o in order ==> o < |origins|
    requires forall o :: o in order <==> o in order'
    ensures JoinAll(origins[start], Picked(origins, order)) == JoinAll(origins[start], Picked(origins, order'))
  {
    FoldIsJoin(origins, start, order);
    FoldIsJoin(origins, start, order');
    assert Behind(order) == Behind(order');
    JoinUnique(origins, {start} + Behind(order),
      JoinAll(origins[start], Picked(origins, order)), JoinAll(origins[start], Picked(origins, order')));
  }
}
