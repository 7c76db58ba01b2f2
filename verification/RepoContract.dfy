/** The contract's entry points: folding updates into the stored state, and
    answering a peer's summary. */
module RepoContract {
  import opened Octets
  import opened Repo
  import opened Merge
  import opened Delta
  import opened Validate

  /** Bytes handed in by the host, seen through the decoder. */
  datatype Blob<T> = Empty | Garbled | Encoded(value: T)

  datatype UpdateData =
    | FullState(state: Blob<RepoState>)
    | DeltaOnly(delta: Blob<RepoState>)
    | StateAndDelta(state: Blob<RepoState>, delta: Blob<RepoState>)
    | Related

  datatype ContractError =
    | Undecodable
    | Rejected(reason: ValidateError)
    | InvalidUpdate

  const EMPTY_SUMMARY := RepoSummary(map[], map[], [], map[])

  /** Empty bytes decode to the default value. */
  function Decoded<T>(b: Blob<T>, default: T): Option<T> {
    match b
    case Empty => Some(default)
    case Garbled => None
    case Encoded(v) => Some(v)
  }

  function DecodedState(b: Blob<RepoState>): Option<RepoState> {
    Decoded(b, EMPTY_STATE)
  }

  // ----- what an update amounts to -----

  /** The payloads an update asks to merge, in order; an empty delta asks for
      nothing, while an empty full state is the default state. */
  function Payloads(u: UpdateData): seq<Blob<RepoState>> {
    match u
    case FullState(s) => [s]
    case DeltaOnly(d) => if d.Empty? then [] else [d]
    case StateAndDelta(s, d) => if d.Empty? then [s] else [s, d]
    case Related => []
  }

  predicate Readable(u: UpdateData) {
    !u.Related? && forall b :: b in Payloads(u) ==> !b.Garbled?
  }

  function StatesIn(u: UpdateData): seq<RepoState>
    requires Readable(u)
  {
    var p := Payloads(u);
    seq(|p|, i requires 0 <= i < |p| => assert p[i] in p; DecodedState(p[i]).value)
  }

  /** Every state the updates carry, in order. */
  function AllStates(data: seq<UpdateData>): seq<RepoState>
    requires forall u :: u in data ==> Readable(u)
  {
    if data == [] then [] else AllStates(data[..|data| - 1]) + StatesIn(data[|data| - 1])
  }

  function JoinAll(st: RepoState, incoming: seq<RepoState>): RepoState {
    if incoming == [] then st
    else Merged(JoinAll(st, incoming[..|incoming| - 1]), incoming[|incoming| - 1])
  }

  /** What validation accepts, as a function of the state alone. */
  ghost function Accepted(c: Crypto, params: RepoParams): RepoState -> bool {
    st => ValidState(c, params, st)
  }

  /** The state passes validation after each merge. */
  ghost predicate StaysValid(valid: RepoState -> bool, st: RepoState, incoming: seq<RepoState>) {
    incoming != [] ==> StaysValid(valid, st, incoming[..|incoming| - 1]) && valid(JoinAll(st, incoming))
  }

  lemma JoinSnoc(valid: RepoState -> bool, st: RepoState, incoming: seq<RepoState>, x: RepoState)
    ensures JoinAll(st, incoming + [x]) == Merged(JoinAll(st, incoming), x)
    ensures StaysValid(valid, st, incoming + [x]) <==>
            StaysValid(valid, st, incoming) && valid(Merged(JoinAll(st, incoming), x))
  {
    assert (incoming + [x])[..|incoming|] == incoming;
  }

  lemma {:induction false} Prefixes(valid: RepoState -> bool, st: RepoState, incoming: seq<RepoState>, n: nat)
    requires n <= |incoming| && StaysValid(valid, st, incoming)
    ensures StaysValid(valid, st, incoming[..n])
    decreases |incoming|
  {
    if n == |incoming| {
      assert incoming[..n] == incoming;
    } else {
      Prefixes(valid, st, incoming[..|incoming| - 1], n);
      assert incoming[..|incoming| - 1][..n] == incoming[..n];
    }
  }

  // ----- the entry points -----

  /** Decode one payload, merge it in and validate. */
  method Absorb(c: Crypto, params: RepoParams, current: RepoState, b: Blob<RepoState>)
    returns (r: Result<RepoState, ContractError>)
    ensures r.Ok? <==> !b.Garbled? && ValidState(c, params, Merged(current, DecodedState(b).value))
    ensures r.Ok? ==> r.value == Merged(current, DecodedState(b).value)
    ensures r == Err(Undecodable) <==> b.Garbled?
    ensures r.Err? ==> !r.error.InvalidUpdate?
  {
    var incoming := DecodedState(b);
    if incoming.None? { return Err(Undecodable); }
    var updated := Validate.UpdateState(c, params, current, incoming.value);
    r := if updated.Ok? then Ok(updated.value) else Err(Rejected(updated.error));
  }

  /** One update: its payloads in order, stopping at the first failure. */
  method ApplyUpdate(c: Crypto, params: RepoParams, current: RepoState, u: UpdateData)
    returns (r: Result<RepoState, ContractError>)
    ensures r.Ok? <==> Readable(u) && StaysValid(Accepted(c, params), current, StatesIn(u))
    ensures r.Ok? ==> r.value == JoinAll(current, StatesIn(u))
    ensures r == Err(InvalidUpdate) <==> u.Related?
  {
    if Readable(u) {
      PayloadsJoin(Accepted(c, params), current, u);
    }
    match u {
      case FullState(s) =>
        r := Absorb(c, params, current, s);
      case DeltaOnly(d) =>
        if d.Empty? { return Ok(current); }
        r := Absorb(c, params, current, d);
      case StateAndDelta(s, d) =>
        r := Absorb(c, params, current, s);
        if r.Ok? && !d.Empty? {
          r := Absorb(c, params, r.value, d);
        }
      case Related =>
        r := Err(InvalidUpdate);
    }
  }

  lemma PayloadsJoin(valid: RepoState -> bool, current: RepoState, u: UpdateData)
    requires Readable(u)
    ensures var p, states := Payloads(u), StatesIn(u);
            && |states| == |p| <= 2
            && (|p| == 0 ==> StaysValid(valid, current, states) && JoinAll(current, states) == current)
            && (|p| == 1 ==>
                var one := Merged(current, DecodedState(p[0]).value);
                JoinAll(current, states) == one && (StaysValid(valid, current, states) <==> valid(one)))
            && (|p| == 2 ==>
                var one := Merged(current, DecodedState(p[0]).value);
                var two := Merged(one, DecodedState(p[1]).value);
                && JoinAll(current, states) == two
                && (StaysValid(valid, current, states) <==> valid(one) && valid(two)))
  {
    var p, states := Payloads(u), StatesIn(u);
    if |p| >= 1 {
      JoinSnoc(valid, current, [], states[0]);
      assert [] + [states[0]] == [states[0]];
    }
    if |p| == 1 {
      assert states == [states[0]];
    }
    if |p| == 2 {
      JoinSnoc(valid, current, [states[0]], states[1]);
      assert states == [states[0]] + [states[1]];
    }
  }

  /** The updates are all readable and never lead through an invalid state. */
  ghost predicate Accepts(valid: RepoState -> bool, st: RepoState, data: seq<UpdateData>) {
    (forall u :: u in data ==> Readable(u)) && StaysValid(valid, st, AllStates(data))
  }

  /** Which prefix of a run fails decides the whole run. */
  lemma AcceptsStep(valid: RepoState -> bool, st: RepoState, data: seq<UpdateData>, u: UpdateData)
    requires Accepts(valid, st, data)
    ensures Accepts(valid, st, data + [u]) <==>
            Readable(u) && StaysValid(valid, JoinAll(st, AllStates(data)), StatesIn(u))
    ensures Readable(u) ==>
              JoinAll(st, AllStates(data + [u])) == JoinAll(JoinAll(st, AllStates(data)), StatesIn(u))
  {
    var more := data + [u];
    assert more[..|data|] == data && more[|data|] == u;
    if Readable(u) {
      assert AllStates(more) == AllStates(data) + StatesIn(u);
      JoinAppend(valid, st, AllStates(data), StatesIn(u));
    } else {
      assert u in more;
    }
  }

  lemma {:induction false} JoinAppend(valid: RepoState -> bool, st: RepoState, a: seq<RepoState>, b: seq<RepoState>)
    ensures JoinAll(st, a + b) == JoinAll(JoinAll(st, a), b)
    ensures StaysValid(valid, st, a) ==>
              (StaysValid(valid, st, a + b) <==> StaysValid(valid, JoinAll(st, a), b))
    decreases |b|
  {
    if b == [] {
      assert a + b == a;
    } else {
      JoinAppend(valid, st, a, b[..|b| - 1]);
      JoinAppendLast(valid, st, a, b[..|b| - 1], b[|b| - 1]);
      assert b == b[..|b| - 1] + [b[|b| - 1]];
    }
  }

  lemma JoinAppendLast(valid: RepoState -> bool, st: RepoState, a: seq<RepoState>, b: seq<RepoState>, x: RepoState)
    requires JoinAll(st, a + b) == JoinAll(JoinAll(st, a), b)
    requires StaysValid(valid, st, a) ==>
               (StaysValid(valid, st, a + b) <==> StaysValid(valid, JoinAll(st, a), b))
    ensures JoinAll(st, a + (b + [x])) == JoinAll(JoinAll(st, a), b + [x])
    ensures StaysValid(valid, st, a) ==>
              (StaysValid(valid, st, a + (b + [x])) <==> StaysValid(valid, JoinAll(st, a), b + [x]))
  {
    JoinSnoc(valid, st, a + b, x);
    JoinSnoc(valid, JoinAll(st, a), b, x);
    assert a + (b + [x]) == (a + b) + [x];
  }

  lemma {:induction false} AcceptsPrefix(valid: RepoState -> bool, st: RepoState, data: seq<UpdateData>, n: nat)
    requires n <= |data| && Accepts(valid, st, data)
    ensures Accepts(valid, st, data[..n])
    decreases |data|
  {
    if n == |data| {
      assert data[..n] == data;
    } else {
      var init := data[..|data| - 1];
      Prefixes(valid, st, AllStates(data), |AllStates(init)|);
      assert AllStates(data)[..|AllStates(init)|] == AllStates(init);
      AcceptsPrefix(valid, st, init, n);
      assert init[..n] == data[..n];
    }
  }

  /** One more update of a run that is accepted so far: when it is refused,
      so is the run. */
  lemma NextUpdate(valid: RepoState -> bool, st: RepoState, data: seq<UpdateData>, i: nat)
    requires i < |data| && Accepts(valid, st, data[..i])
    ensures var current := JoinAll(st, AllStates(data[..i]));
            if Readable(data[i]) && StaysValid(valid, current, StatesIn(data[i])) then
              Accepts(valid, st, data[..i + 1])
                  && JoinAll(st, AllStates(data[..i + 1])) == JoinAll(current, StatesIn(data[i]))
            else !Accepts(valid, st, data)
  {
    assert data[..i + 1] == data[..i] + [data[i]];
    AcceptsStep(valid, st, data[..i], data[i]);
    if Accepts(valid, st, data) {
      AcceptsPrefix(valid, st, data, i + 1);
    }
  }

  /** `b` is one of the parts of `u`. */
  predicate IsPart(u: UpdateData, b: Blob<RepoState>) {
    || u == FullState(b) || u == DeltaOnly(b)
    || (u.StateAndDelta? && (u.state == b || u.delta == b))
  }

  /** No part is garbled, and everything the parts carry is in `m`. */
  ghost predicate TakesIn(m: RepoState, data: seq<UpdateData>) {
    && (forall u :: u in data ==> !u.Related?)
    && forall u, b :: u in data && IsPart(u, b) ==> !b.Garbled? && (b.Encoded? ==> Covers(m, b.value))
  }

  lemma PartRead(u: UpdateData, b: Blob<RepoState>)
    requires Readable(u) && IsPart(u, b)
    ensures !b.Garbled? && (b.Encoded? ==> b.value in StatesIn(u))
  {
    if b.Encoded? {
      var p := Payloads(u);
      assert b in p;
      var i :| 0 <= i < |p| && p[i] == b;
      assert StatesIn(u)[i] == b.value;
    }
  }

  lemma {:induction false} CarriedByAll(data: seq<UpdateData>, u: UpdateData, x: RepoState)
    requires (forall v :: v in data ==> Readable(v)) && u in data && x in StatesIn(u)
    ensures x in AllStates(data)
  {
    if u != data[|data| - 1] {
      CarriedByAll(data[..|data| - 1], u, x);
    }
  }

  /** An accepted run takes in every part of every update. */
  lemma AcceptedTakesIn(valid: RepoState -> bool, st: RepoState, data: seq<UpdateData>)
    requires Accepts(valid, st, data)
    ensures TakesIn(JoinAll(st, AllStates(data)), data)
  {
    JoinKeeps(st, AllStates(data));
    forall u, b | u in data && IsPart(u, b)
      ensures !b.Garbled? && (b.Encoded? ==> Covers(JoinAll(st, AllStates(data)), b.value))
    {
      PartRead(u, b);
      if b.Encoded? {
        CarriedByAll(data, u, b.value);
      }
    }
  }

  /** What merging in the part `b` merges in: an empty part is the default state. */
  predicate Stands(b: Blob<RepoState>, x: RepoState) {
    b == Encoded(x) || (b.Empty? && x == EMPTY_STATE)
  }

  /** A run of one full state is accepted when the merge with it is valid. */
  lemma FullStateMeans(valid: RepoState -> bool, st: RepoState, s: Blob<RepoState>, x: RepoState)
    requires Stands(s, x)
    ensures Accepts(valid, st, [FullState(s)]) <==> valid(Merged(st, x))
    ensures Accepts(valid, st, [FullState(s)]) ==> JoinAll(st, AllStates([FullState(s)])) == Merged(st, x)
  {
    OneUpdate(valid, st, FullState(s));
  }

  /** A run of one delta likewise, except that an empty one changes nothing. */
  lemma DeltaOnlyMeans(valid: RepoState -> bool, st: RepoState, x: RepoState)
    ensures Accepts(valid, st, [DeltaOnly(Encoded(x))]) <==> valid(Merged(st, x))
    ensures Accepts(valid, st, [DeltaOnly(Encoded(x))]) ==>
              JoinAll(st, AllStates([DeltaOnly(Encoded(x))])) == Merged(st, x)
    ensures Accepts(valid, st, [DeltaOnly(Empty)]) && JoinAll(st, AllStates([DeltaOnly(Empty)])) == st
  {
    OneUpdate(valid, st, DeltaOnly(Encoded(x)));
    OneUpdate(valid, st, DeltaOnly(Empty));
  }

  /** A full state and a delta are merged in this order, and both merges have
      to be valid. */
  lemma StateAndDeltaMeans(valid: RepoState -> bool, st: RepoState, s: Blob<RepoState>, x: RepoState, d: RepoState)
    requires Stands(s, x)
    ensures var u := StateAndDelta(s, Encoded(d));
            && (Accepts(valid, st, [u]) <==> valid(Merged(st, x)) && valid(Merged(Merged(st, x), d)))
            && (Accepts(valid, st, [u]) ==> JoinAll(st, AllStates([u])) == Merged(Merged(st, x), d))
    ensures var u := StateAndDelta(s, Empty);
            && (Accepts(valid, st, [u]) <==> valid(Merged(st, x)))
            && (Accepts(valid, st, [u]) ==> JoinAll(st, AllStates([u])) == Merged(st, x))
  {
    OneUpdate(valid, st, StateAndDelta(s, Encoded(d)));
    OneUpdate(valid, st, StateAndDelta(s, Empty));
  }

  /** A garbled part, or related data, stops any run. */
  lemma GarbledStops(valid: RepoState -> bool, st: RepoState, data: seq<UpdateData>, u: UpdateData)
    requires u in data && (u.Related? || IsPart(u, Garbled))
    ensures !Accepts(valid, st, data)
  {
    if Accepts(valid, st, data) {
      AcceptedTakesIn(valid, st, data);
    }
  }

  lemma OneUpdate(valid: RepoState -> bool, st: RepoState, u: UpdateData)
    requires Readable(u)
    ensures Accepts(valid, st, [u]) <==> StaysValid(valid, st, StatesIn(u))
    ensures JoinAll(st, AllStates([u])) == JoinAll(st, StatesIn(u))
    ensures var p := Payloads(u);
            && |p| <= 2
            && (|p| == 0 ==> StaysValid(valid, st, StatesIn(u)) && JoinAll(st, StatesIn(u)) == st)
            && (|p| == 1 ==> OneStep(valid, st, StatesIn(u), DecodedState(p[0]).value))
            && (|p| == 2 ==> TwoSteps(valid, st, StatesIn(u), DecodedState(p[0]).value, DecodedState(p[1]).value))
  {
    AcceptsStep(valid, st, [], u);
    assert [] + [u] == [u];
    PayloadsJoin(valid, st, u);
  }

  ghost predicate OneStep(valid: RepoState -> bool, st: RepoState, states: seq<RepoState>, x: RepoState) {
    JoinAll(st, states) == Merged(st, x) && (StaysValid(valid, st, states) <==> valid(Merged(st, x)))
  }

  ghost predicate TwoSteps(valid: RepoState -> bool, st: RepoState, states: seq<RepoState>, x: RepoState,
                           y: RepoState) {
    && JoinAll(st, states) == Merged(Merged(st, x), y)
    && (StaysValid(valid, st, states) <==> valid(Merged(st, x)) && valid(Merged(Merged(st, x), y)))
  }

  /** The contract's `update_state`. */
  method UpdateState(c: Crypto, params: Option<RepoParams>, state: Blob<RepoState>, data: seq<UpdateData>)
    returns (r: Result<RepoState, ContractError>)
    ensures r.Ok? <==>
            && params.Some? && !state.Garbled?
            && Accepts(Accepted(c, params.value), DecodedState(state).value, data)
    ensures r.Ok? ==> r.value == JoinAll(DecodedState(state).value, AllStates(data)) && TakesIn(r.value, data)
  {
    if params.None? { return Err(Undecodable); }
    var start := DecodedState(state);
    if start.None? { return Err(Undecodable); }
    r := FoldUpdates(c, params.value, start.value, data);
  }

  method FoldUpdates(c: Crypto, params: RepoParams, start: RepoState, data: seq<UpdateData>)
    returns (r: Result<RepoState, ContractError>)
    ensures r.Ok? <==> Accepts(Accepted(c, params), start, data)
    ensures r.Ok? ==> r.value == JoinAll(start, AllStates(data)) && TakesIn(r.value, data)
  {
    var current := start;
    for i := 0 to |data|
      invariant Accepts(Accepted(c, params), start, data[..i])
      invariant current == JoinAll(start, AllStates(data[..i]))
    {
      NextUpdate(Accepted(c, params), start, data, i);
      var step := ApplyUpdate(c, params, current, data[i]);
      if step.Err? {
        return Err(step.error);
      }
      current := step.value;
    }
    assert data[..|data|] == data;
    AcceptedTakesIn(Accepted(c, params), start, data);
    r := Ok(current);
  }

  /** Nothing signed and no bundle; the owner does not count. */
  predicate IsEmptyDelta(d: RepoState) {
    && d.name.None? && d.description.None? && d.defaultBranch.None? && d.forcePushAllowed.None?
    && d.acl.None? && d.upgrade.None? && d.refs == map[] && d.objectIndex == map[] && d.extensions == map[]
  }

  /** The contract's `get_state_delta`. */
  method GetDelta(state: Blob<RepoState>, summary: Blob<RepoSummary>)
    returns (r: Result<Blob<RepoState>, ContractError>)
    ensures r.Ok? <==> !state.Garbled? && !summary.Garbled?
    ensures r.Ok? ==>
              var d := DeltaOf(DecodedState(state).value, Decoded(summary, EMPTY_SUMMARY).value);
              r.value == if IsEmptyDelta(d) then Empty else Encoded(d)
  {
    var st, s := DecodedState(state), Decoded(summary, EMPTY_SUMMARY);
    if st.None? || s.None? { return Err(Undecodable); }
    var d := GetStateDelta(st.value, s.value);
    r := Ok(if IsEmptyDelta(d) then Empty else Encoded(d));
  }

  // ----- what an update keeps -----

  /** Whatever arrives and in whatever order, nothing held or received is
      lost, the owner and the bundle records held stay, and everything in the
      result came from somewhere. */
  lemma {:induction false} JoinKeeps(st: RepoState, incoming: seq<RepoState>)
    ensures var m := JoinAll(st, incoming);
            && m.owner == st.owner
            && Covers(m, st) && (forall x :: x in incoming ==> Covers(m, x))
            && (forall id :: id in st.objectIndex ==> id in m.objectIndex && m.objectIndex[id] == st.objectIndex[id])
            && (forall k :: Slot(m, k) == Slot(st, k) || exists x :: x in incoming && Slot(m, k) == Slot(x, k))
    decreases |incoming|
  {
    if incoming == [] {
      MergeIdempotent(st);
      MergeCovers(st, st);
    } else {
      var init, last := incoming[..|incoming| - 1], incoming[|incoming| - 1];
      var before := JoinAll(st, init);
      JoinKeeps(st, init);
      MergeCovers(before, last);
      CoversTransitive(st, before, Merged(before, last));
      forall x | x in incoming ensures Covers(Merged(before, last), x) {
        if x in init {
          CoversTransitive(x, before, Merged(before, last));
        }
      }
      forall k
        ensures || Slot(Merged(before, last), k) == Slot(st, k)
                || exists x :: x in incoming && Slot(Merged(before, last), k) == Slot(x, k)
      {
        MergeSourced(before, last, k);
        assert last in incoming;
        if Slot(before, k) != Slot(st, k) {
          var x :| x in init && Slot(before, k) == Slot(x, k);
          assert x in incoming;
        }
      }
    }
  }

  /** An accepted run ends in a valid state, unless it merged nothing: then
      the stored state comes back as it was, valid or not. */
  lemma ValidAfterIff(c: Crypto, params: RepoParams, st: RepoState, data: seq<UpdateData>)
    requires Accepts(Accepted(c, params), st, data)
    ensures ValidState(c, params, JoinAll(st, AllStates(data))) <==> AllStates(data) != [] || ValidState(c, params, st)
  {
    assert StaysValid(Accepted(c, params), st, AllStates(data));
  }

  /** Valid states of the repo are always accepted. */
  lemma {:induction false} ValidUpdatesAccepted(c: Crypto, params: RepoParams, st: RepoState, incoming: seq<RepoState>)
    requires ValidState(c, params, st)
    requires forall x :: x in incoming ==> ValidState(c, params, x) && x.owner == st.owner
    ensures StaysValid(Accepted(c, params), st, incoming) && ValidState(c, params, JoinAll(st, incoming))
    decreases |incoming|
  {
    if incoming != [] {
      var init, last := incoming[..|incoming| - 1], incoming[|incoming| - 1];
      ValidUpdatesAccepted(c, params, st, init);
      JoinOwner(st, init);
      MergeValid(c, params, JoinAll(st, init), last);
    }
  }

  lemma JoinOwner(st: RepoState, incoming: seq<RepoState>)
    ensures JoinAll(st, incoming).owner == st.owner
  {
    JoinKeeps(st, incoming);
  }

  // ----- the empty-delta shortcut -----

  /** The deltas reported as empty bytes are exactly those that change no
      state at all. */
  lemma EmptyDeltaIff(d: RepoState)
    ensures IsEmptyDelta(d) <==> forall p :: Merged(p, d) == p
  {
    if IsEmptyDelta(d) {
      forall p ensures Merged(p, d) == p {
        forall k ensures Slot(Merged(p, d), k) == Slot(p, k) {
          MergedSlot(p, d, k);
        }
        assert d.objectIndex + p.objectIndex == p.objectIndex;
        SameSlots(Merged(p, d), p);
      }
    }
    if forall p :: Merged(p, d) == p {
      assert Merged(EMPTY_STATE, d) == EMPTY_STATE;
    }
  }

  /** Empty bytes come back exactly when the summary is up to date: it knows
      every bundle, and every entry at a counter at least as high. */
  lemma CaughtUpIff(st: RepoState, s: RepoSummary)
    ensures IsEmptyDelta(DeltaOf(st, s)) <==>
            && (forall k :: Slot(st, k).Some? ==>
                  SeqUnder(s, k).Some? && Slot(st, k).value.updateSeq <= SeqUnder(s, k).value)
            && (forall id :: id in st.objectIndex ==> id in s.bundleIds)
  {
    var d := DeltaOf(st, s);
    assert EMPTY_STATE.objectIndex == map[];
    if IsEmptyDelta(d) {
      forall k | Slot(st, k).Some?
        ensures SeqUnder(s, k).Some? && Slot(st, k).value.updateSeq <= SeqUnder(s, k).value
      {
        DeltaSlot(st, s, k);
      }
      forall id | id in st.objectIndex ensures id in s.bundleIds {
        assert id !in d.objectIndex;
      }
    }
    if (forall k :: Slot(st, k).Some? ==>
          SeqUnder(s, k).Some? && Slot(st, k).value.updateSeq <= SeqUnder(s, k).value)
       && (forall id :: id in st.objectIndex ==> id in s.bundleIds) {
      var none := d.(owner := EMPTY_STATE.owner);
      forall k ensures Slot(none, k) == Slot(EMPTY_STATE, k) {
        DeltaSlot(st, s, k);
      }
      assert none.objectIndex == EMPTY_STATE.objectIndex;
      SameSlots(none, EMPTY_STATE);
    }
  }

  // ----- synchronising two peers end to end -----

  /** A peer of the same repo that sent its summary, has only grown since, and
      applies the answer, ends with the merge of both states: the update is
      accepted, and the shortcut for an empty answer changes nothing. */
  lemma SyncDelivers(c: Crypto, params: RepoParams, st: RepoState, earlier: RepoState, p: RepoState, s: RepoSummary,
                     answer: Blob<RepoState>)
    requires ValidState(c, params, st) && ValidState(c, params, p) && st.owner == p.owner
    requires Summarizes(s, earlier) && Covers(p, earlier) && TieFree(p, st)
    requires answer == if IsEmptyDelta(DeltaOf(st, s)) then Empty else Encoded(DeltaOf(st, s))
    ensures Accepts(Accepted(c, params), p, [DeltaOnly(answer)])
    ensures JoinAll(p, AllStates([DeltaOnly(answer)])) == Merged(p, st)
  {
    StaleSummaryCovered(s, earlier, p);
    DeltaExact(p, st, s);
    MergeValid(c, params, p, st);
    EmptyDeltaIff(DeltaOf(st, s));
    DeltaApplied(Accepted(c, params), p, DeltaOf(st, s), answer);
  }

  lemma DeltaApplied(valid: RepoState -> bool, p: RepoState, d: RepoState, answer: Blob<RepoState>)
    requires answer == if IsEmptyDelta(d) then Empty else Encoded(d)
    requires IsEmptyDelta(d) ==> Merged(p, d) == p
    requires valid(Merged(p, d))
    ensures Accepts(valid, p, [DeltaOnly(answer)])
    ensures JoinAll(p, AllStates([DeltaOnly(answer)])) == Merged(p, d)
  {
    var u := DeltaOnly(answer);
    PayloadsJoin(valid, p, u);
    AcceptsStep(valid, p, [], u);
    assert [] + [u] == [u];
  }
}
