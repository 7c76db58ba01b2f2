/** Reading a repo's state: the current key first, then the keys of retired
    contract generations, newest first, against an arbitrary gateway. */
module LegacyProbe {
  import opened Octets

  type InstanceId = Bytes

  datatype LineageEntry = LineageEntry(codeHash: Bytes, generation: u32)

  /** How the gateway answers one GET. `transient` is what the client makes
      of the error text. */
  datatype Reply = Got(state: Bytes) | SaidNotFound | NoAnswer | Failed(transient: bool)

  /** Answers may depend on the key and on how many GETs came before. */
  type Gateway = (nat, InstanceId) -> Reply

  datatype ProbeOutcome = EmptyState | NotFound | Timeout | OtherError(transient: bool)

  datatype RetryDisposition = Transient | HardError | Authoritative

  datatype Source = Current | Legacy(index: nat, instance: InstanceId)

  datatype Found = Found(state: Bytes, source: Source)

  datatype FallbackFailure = AllTimedOut(total: nat) | NoState(total: nat) | AllFailed(total: nat) | Mixed(total: nat)

  datatype Probe = Probe(key: InstanceId, reply: Reply)

  const PROBE_MAX_ATTEMPTS := 4

  predicate Hit(r: Reply) {
    r.Got? && r.state != []
  }

  function OutcomeOf(r: Reply): ProbeOutcome
    requires !Hit(r)
  {
    match r
    case Got(_) => EmptyState
    case SaidNotFound => NotFound
    case NoAnswer => Timeout
    case Failed(transient) => OtherError(transient)
  }

  function Disposition(o: ProbeOutcome): RetryDisposition {
    match o
    case Timeout => Transient
    case OtherError(transient) => if transient then Transient else HardError
    case NotFound => Authoritative
    case EmptyState => Authoritative
  }

  /** The key is known to hold nothing. */
  predicate Miss(r: Reply) {
    !Hit(r) && Disposition(OutcomeOf(r)) == Authoritative
  }

  // ----- probing order -----

  /** `i` is probed before `j`: a higher generation, or the same generation
      and an earlier place in the registry. */
  predicate Before(lineage: seq<LineageEntry>, i: nat, j: nat)
    requires i < |lineage| && j < |lineage|
  {
    || lineage[i].generation > lineage[j].generation
    || (lineage[i].generation == lineage[j].generation && i < j)
  }

  predicate Within(order: seq<nat>, n: nat) {
    forall a :: 0 <= a < |order| ==> order[a] < n
  }

  ghost predicate Ordered(lineage: seq<LineageEntry>, order: seq<nat>) {
    && Within(order, |lineage|)
    && forall a, b :: 0 <= a < b < |order| ==> Before(lineage, order[a], order[b])
  }

  /** `n` goes after every index of a generation at least as high. */
  function Placed(lineage: seq<LineageEntry>, order: seq<nat>, n: nat): (r: seq<nat>)
    requires n < |lineage| && Ordered(lineage, order) && Within(order, n)
    ensures Ordered(lineage, r) && |r| == |order| + 1
    ensures forall i :: i in r <==> i in order || i == n
  {
    if order == [] then [n]
    else
      var last := order[|order| - 1];
      if lineage[last].generation >= lineage[n].generation then
        assert forall a :: 0 <= a < |order| - 1 ==> Before(lineage, order[a], last);
        order + [n]
      else
        var front := Placed(lineage, order[..|order| - 1], n);
        assert forall a :: 0 <= a < |front| ==> front[a] in front;
        assert order == order[..|order| - 1] + [last];
        front + [last]
  }

  function FirstOrdered(lineage: seq<LineageEntry>, n: nat): (order: seq<nat>)
    requires n <= |lineage|
    ensures Ordered(lineage, order) && |order| == n
    ensures forall i :: i in order <==> 0 <= i < n
  {
    if n == 0 then []
    else
      var before := FirstOrdered(lineage, n - 1);
      assert forall a :: 0 <= a < |before| ==> before[a] in before;
      Placed(lineage, before, n - 1)
  }

  /** The registry's indices by descending generation. */
  function NewestFirst(lineage: seq<LineageEntry>): (order: seq<nat>)
    ensures Ordered(lineage, order) && |order| == |lineage|
    ensures forall i :: i in order <==> 0 <= i < |lineage|
  {
    FirstOrdered(lineage, |lineage|)
  }

  datatype Target = Target(key: InstanceId, source: Source)

  function LegacyTarget(idOf: LineageEntry -> InstanceId, lineage: seq<LineageEntry>, i: nat): Target
    requires i < |lineage|
  {
    Target(idOf(lineage[i]), Legacy(i, idOf(lineage[i])))
  }

  /** Every key a pass may ask for, in order. */
  function Targets(current: InstanceId, idOf: LineageEntry -> InstanceId, lineage: seq<LineageEntry>): (ts: seq<Target>)
    ensures |ts| == 1 + |lineage|
  {
    var order := NewestFirst(lineage);
    [Target(current, Current)] +
    seq(|order|, k requires 0 <= k < |order| => assert order[k] in order; LegacyTarget(idOf, lineage, order[k]))
  }

  lemma TargetAt(current: InstanceId, idOf: LineageEntry -> InstanceId, lineage: seq<LineageEntry>, n: nat)
    requires n < |lineage|
    ensures NewestFirst(lineage)[n] < |lineage|
    ensures Targets(current, idOf, lineage)[n + 1] == LegacyTarget(idOf, lineage, NewestFirst(lineage)[n])
  {
    assert NewestFirst(lineage)[n] in NewestFirst(lineage);
  }

  // ----- one pass -----

  ghost predicate Asked(gateway: Gateway, at: nat, ts: seq<Target>, probes: seq<Probe>) {
    && |probes| <= |ts|
    && forall i :: 0 <= i < |probes| ==> probes[i] == Probe(ts[i].key, gateway(at + i, ts[i].key))
  }

  ghost predicate AllMissed(probes: seq<Probe>) {
    forall i :: 0 <= i < |probes| ==> Miss(probes[i].reply)
  }

  /** Keys are asked in order, and only a miss moves on to the next one. */
  ghost predicate IsPass(gateway: Gateway, at: nat, ts: seq<Target>, probes: seq<Probe>) {
    && Asked(gateway, at, ts, probes) && |probes| > 0
    && AllMissed(probes[..|probes| - 1])
    && (Miss(probes[|probes| - 1].reply) ==> |probes| == |ts|)
  }

  function Outcomes(probes: seq<Probe>): (os: seq<ProbeOutcome>)
    requires forall i :: 0 <= i < |probes| ==> !Hit(probes[i].reply)
    ensures |os| == |probes|
  {
    seq(|probes|, i requires 0 <= i < |probes| => OutcomeOf(probes[i].reply))
  }

  /** What a pass concludes: the last answer decides. */
  ghost predicate Concludes(ts: seq<Target>, probes: seq<Probe>, r: Result<Found, seq<ProbeOutcome>>) {
    && 0 < |probes| <= |ts|
    && var last := |probes| - 1;
    if Hit(probes[last].reply) then r == Ok(Found(probes[last].reply.state, ts[last].source))
    else (forall i :: 0 <= i < |probes| ==> !Hit(probes[i].reply)) && r == Err(Outcomes(probes))
  }

  method ProbeAllKeys(gateway: Gateway, at: nat, current: InstanceId, idOf: LineageEntry -> InstanceId,
                      lineage: seq<LineageEntry>)
    returns (r: Result<Found, seq<ProbeOutcome>>, probes: seq<Probe>)
    ensures IsPass(gateway, at, Targets(current, idOf, lineage), probes)
    ensures Concludes(Targets(current, idOf, lineage), probes, r)
  {
    ghost var ts := Targets(current, idOf, lineage);
    var reply := gateway(at, current);
    probes := [Probe(current, reply)];
    if Hit(reply) {
      return Ok(Found(reply.state, Current)), probes;
    }
    var outcomes := [OutcomeOf(reply)];
    assert outcomes == Outcomes(probes);
    if Disposition(OutcomeOf(reply)) != Authoritative {
      return Err(outcomes), probes;
    }
    r, probes := ProbeLegacyKeys(gateway, at, current, idOf, lineage, probes);
  }

  /** The walk over the retired generations, after the current key missed. */
  method ProbeLegacyKeys(gateway: Gateway, at: nat, current: InstanceId, idOf: LineageEntry -> InstanceId,
                         lineage: seq<LineageEntry>, first: seq<Probe>)
    returns (r: Result<Found, seq<ProbeOutcome>>, probes: seq<Probe>)
    requires |first| == 1 && Asked(gateway, at, Targets(current, idOf, lineage), first) && AllMissed(first)
    ensures IsPass(gateway, at, Targets(current, idOf, lineage), probes)
    ensures Concludes(Targets(current, idOf, lineage), probes, r)
  {
    ghost var ts := Targets(current, idOf, lineage);
    probes := first;
    var outcomes := Outcomes(first);
    var candidates := NewestFirst(lineage);
    for n := 0 to |candidates|
      invariant |probes| == n + 1 && Asked(gateway, at, ts, probes)
      invariant AllMissed(probes) && outcomes == Outcomes(probes)
    {
      var idx := candidates[n];
      TargetAt(current, idOf, lineage, n);
      var id := idOf(lineage[idx]);
      var reply := gateway(at + n + 1, id);
      assert ts[|probes|] == LegacyTarget(idOf, lineage, idx) && Probe(id, reply).key == ts[|probes|].key;
      NextProbe(gateway, at, ts, probes, Probe(id, reply));
      probes := probes + [Probe(id, reply)];
      if Hit(reply) {
        return Ok(Found(reply.state, Legacy(idx, id))), probes;
      }
      outcomes := outcomes + [OutcomeOf(reply)];
      if Disposition(OutcomeOf(reply)) != Authoritative {
        return Err(outcomes), probes;
      }
    }
    r := Err(outcomes);
  }

  lemma NextProbe(gateway: Gateway, at: nat, ts: seq<Target>, probes: seq<Probe>, p: Probe)
    requires Asked(gateway, at, ts, probes) && AllMissed(probes) && 0 < |probes| < |ts|
    requires p == Probe(ts[|probes|].key, gateway(at + |probes|, ts[|probes|].key))
    ensures var more := probes + [p];
            && Asked(gateway, at, ts, more)
            && (if Miss(p.reply) then AllMissed(more) else IsPass(gateway, at, ts, more))
            && (!Hit(p.reply) ==> Outcomes(more) == Outcomes(probes) + [OutcomeOf(p.reply)])
  {
    assert (probes + [p])[..|probes|] == probes;
  }

  // ----- retrying -----

  method OutcomesWorthRetrying(outcomes: seq<ProbeOutcome>) returns (worth: bool)
    ensures worth <==>
            (exists o :: o in outcomes && (o == Timeout || o == OtherError(true))) && OtherError(false) !in outcomes
  {
    var anyTransient := false;
    for i := 0 to |outcomes|
      invariant anyTransient <==> exists o :: o in outcomes[..i] && Disposition(o) == Transient
      invariant forall o :: o in outcomes[..i] ==> Disposition(o) != HardError
    {
      assert outcomes[..i + 1] == outcomes[..i] + [outcomes[i]];
      assert outcomes[i] in outcomes;
      match Disposition(outcomes[i]) {
        case HardError => return false;
        case Transient => anyTransient := true;
        case Authoritative =>
      }
    }
    assert outcomes[..|outcomes|] == outcomes;
    worth := anyTransient;
  }

  /** The pass ended on an answer that a retry might change. */
  predicate Retryable(probes: seq<Probe>) {
    && probes != [] && !Hit(probes[|probes| - 1].reply)
    && Disposition(OutcomeOf(probes[|probes| - 1].reply)) == Transient
  }

  /** Only the last outcome of a failed pass can be anything but a miss, so
      it alone decides whether to retry. */
  lemma LastDecides(gateway: Gateway, at: nat, ts: seq<Target>, probes: seq<Probe>)
    requires IsPass(gateway, at, ts, probes) && !Hit(probes[|probes| - 1].reply)
    ensures forall i :: 0 <= i < |probes| ==> !Hit(probes[i].reply)
    ensures var os := Outcomes(probes);
            Retryable(probes) <==>
            (exists o :: o in os && (o == Timeout || o == OtherError(true))) && OtherError(false) !in os
  {
    FrontMissed(gateway, at, ts, probes);
    var os := Outcomes(probes);
    assert os[|os| - 1] in os;
  }

  function Total(passes: seq<seq<Probe>>): nat {
    if passes == [] then 0 else Total(passes[..|passes| - 1]) + |passes[|passes| - 1]|
  }

  ghost predicate PassAt(gateway: Gateway, ts: seq<Target>, passes: seq<seq<Probe>>, n: nat)
    requires n < |passes|
  {
    IsPass(gateway, Total(passes[..n]), ts, passes[n])
  }

  /** Up to four passes, one more exactly when the last one is worth it. */
  ghost predicate IsRun(gateway: Gateway, ts: seq<Target>, passes: seq<seq<Probe>>) {
    && 0 < |passes| <= PROBE_MAX_ATTEMPTS
    && (forall n {:trigger PassAt(gateway, ts, passes, n)} :: 0 <= n < |passes| ==> PassAt(gateway, ts, passes, n))
    && (forall n :: 0 <= n < |passes| - 1 ==> Retryable(passes[n]))
    && (Retryable(passes[|passes| - 1]) ==> |passes| == PROBE_MAX_ATTEMPTS)
  }

  function CountOf(outcomes: seq<ProbeOutcome>, kind: ProbeOutcome): (n: nat)
    ensures n <= |outcomes|
  {
    if outcomes == [] then 0
    else CountOf(outcomes[..|outcomes| - 1], kind) + if outcomes[|outcomes| - 1] == kind then 1 else 0
  }

  /** `format_fallback_failure`, up to wording. */
  function FormatFallbackFailure(outcomes: seq<ProbeOutcome>): FallbackFailure {
    var total := |outcomes|;
    var timeouts := CountOf(outcomes, Timeout);
    var notFounds := CountOf(outcomes, NotFound);
    var empties := CountOf(outcomes, EmptyState);
    var otherErrors := total - timeouts - notFounds - empties;
    if timeouts == total then AllTimedOut(total)
    else if notFounds + empties == total then NoState(total)
    else if otherErrors == total then AllFailed(total)
    else Mixed(total)
  }

  ghost predicate Reports(ts: seq<Target>, probes: seq<Probe>, r: Result<Found, FallbackFailure>) {
    && 0 < |probes| <= |ts|
    && var last := |probes| - 1;
    if Hit(probes[last].reply) then r == Ok(Found(probes[last].reply.state, ts[last].source))
    else (forall i :: 0 <= i < |probes| ==> !Hit(probes[i].reply)) && r == Err(FormatFallbackFailure(Outcomes(probes)))
  }

  /** Passes so far, each of which called for another. */
  ghost predicate Tried(gateway: Gateway, ts: seq<Target>, passes: seq<seq<Probe>>) {
    && (forall n {:trigger PassAt(gateway, ts, passes, n)} :: 0 <= n < |passes| ==> PassAt(gateway, ts, passes, n))
    && (forall n :: 0 <= n < |passes| ==> Retryable(passes[n]))
  }

  lemma TriedAgain(gateway: Gateway, ts: seq<Target>, passes: seq<seq<Probe>>, probes: seq<Probe>)
    requires Tried(gateway, ts, passes) && IsPass(gateway, Total(passes), ts, probes)
    ensures Retryable(probes) ==> Tried(gateway, ts, passes + [probes])
    ensures |passes| < PROBE_MAX_ATTEMPTS && (Retryable(probes) ==> |passes| + 1 == PROBE_MAX_ATTEMPTS) ==>
              IsRun(gateway, ts, passes + [probes])
  {
    var more := passes + [probes];
    forall n | 0 <= n < |more| ensures PassAt(gateway, ts, more, n) {
      if n < |passes| {
        assert PassAt(gateway, ts, passes, n) && more[..n] == passes[..n];
      } else {
        assert more[..n] == passes;
      }
    }
  }

  method GetStateWithLegacyFallback(gateway: Gateway, current: InstanceId, idOf: LineageEntry -> InstanceId,
                                    lineage: seq<LineageEntry>)
    returns (r: Result<Found, FallbackFailure>, passes: seq<seq<Probe>>)
    ensures IsRun(gateway, Targets(current, idOf, lineage), passes)
    ensures Reports(Targets(current, idOf, lineage), passes[|passes| - 1], r)
  {
    ghost var ts := Targets(current, idOf, lineage);
    var attempt := 1;
    passes := [];
    while true
      invariant 1 <= attempt <= PROBE_MAX_ATTEMPTS && |passes| == attempt - 1
      invariant Tried(gateway, ts, passes)
      decreases PROBE_MAX_ATTEMPTS - attempt
    {
      var found, probes := ProbeAllKeys(gateway, Total(passes), current, idOf, lineage);
      TriedAgain(gateway, ts, passes, probes);
      if found.Ok? {
        return Ok(found.value), passes + [probes];
      }
      LastDecides(gateway, Total(passes), ts, probes);
      var worth := OutcomesWorthRetrying(found.error);
      passes := passes + [probes];
      if attempt >= PROBE_MAX_ATTEMPTS || !worth {
        return Err(FormatFallbackFailure(found.error)), passes;
      }
      attempt := attempt + 1;
    }
  }

  // ----- what the caller can rely on -----

  /** The gateway answered that the key holds nothing. */
  predicate SaysNothing(r: Reply) {
    r == SaidNotFound || r == Got([])
  }

  /** No answer, or an error that may pass. */
  predicate MayPass(r: Reply) {
    r == NoAnswer || r == Failed(true)
  }

  /** In a pass every answer but the last says that the key holds nothing,
      and if the last says so too, every key was asked. */
  lemma PassGoesOn(gateway: Gateway, at: nat, ts: seq<Target>, probes: seq<Probe>)
    requires IsPass(gateway, at, ts, probes)
    ensures forall i :: 0 <= i < |probes| - 1 ==> SaysNothing(probes[i].reply)
    ensures SaysNothing(probes[|probes| - 1].reply) ==> |probes| == |ts|
  {
    FrontMissed(gateway, at, ts, probes);
  }

  /** A pass that ends without an answer, or on an error that may pass, is
      followed by another unless it is the fourth; any other is the last. */
  lemma RetriedIff(gateway: Gateway, ts: seq<Target>, passes: seq<seq<Probe>>, n: nat)
    requires IsRun(gateway, ts, passes) && n < |passes|
    ensures 1 <= |passes| <= 4 && passes[n] != []
    ensures MayPass(passes[n][|passes[n]| - 1].reply) ==> n + 1 < |passes| || n + 1 == 4
    ensures !MayPass(passes[n][|passes[n]| - 1].reply) ==> n + 1 == |passes|
  {
    assert PassAt(gateway, ts, passes, n);
    assert Retryable(passes[n]) <==> MayPass(passes[n][|passes[n]| - 1].reply);
  }

  ghost predicate ProbedMiss(probes: seq<Probe>, key: InstanceId) {
    exists i :: 0 <= i < |probes| && probes[i].key == key && SaysNothing(probes[i].reply)
  }

  /** A state from a retired generation is returned only after the current
      key and every newer generation, in that same pass, were known to hold
      nothing; the index is the caller's own. */
  lemma NeverRollsBack(gateway: Gateway, current: InstanceId, idOf: LineageEntry -> InstanceId,
                       lineage: seq<LineageEntry>,
                       passes: seq<seq<Probe>>, found: Found)
    requires var ts := Targets(current, idOf, lineage);
             IsRun(gateway, ts, passes) && Reports(ts, passes[|passes| - 1], Ok(found)) && found.source.Legacy?
    ensures var probes := passes[|passes| - 1];
            var i := found.source.index;
            && i < |lineage| && found.source.instance == idOf(lineage[i])
            && found.state != [] && probes[|probes| - 1] == Probe(idOf(lineage[i]), Got(found.state))
            && ProbedMiss(probes, current)
            && forall j :: 0 <= j < |lineage| && lineage[j].generation > lineage[i].generation ==>
                 ProbedMiss(probes, idOf(lineage[j]))
  {
    var ts, probes, at := Targets(current, idOf, lineage), passes[|passes| - 1], Total(passes[..|passes| - 1]);
    var order, last := NewestFirst(lineage), |probes| - 1;
    assert PassAt(gateway, ts, passes, |passes| - 1);
    assert last > 0 && order[last - 1] in order && ts[last] == LegacyTarget(idOf, lineage, order[last - 1]);
    MissedAt(gateway, at, ts, probes, 0);
    forall j | 0 <= j < |lineage| && lineage[j].generation > lineage[found.source.index].generation
      ensures ProbedMiss(probes, idOf(lineage[j]))
    {
      NewerMissed(gateway, at, current, idOf, lineage, probes, j);
    }
  }

  lemma NewerMissed(gateway: Gateway, at: nat, current: InstanceId, idOf: LineageEntry -> InstanceId,
                    lineage: seq<LineageEntry>, probes: seq<Probe>, j: nat)
    requires IsPass(gateway, at, Targets(current, idOf, lineage), probes) && |probes| > 1
    requires j < |lineage| && lineage[j].generation > lineage[NewestFirst(lineage)[|probes| - 2]].generation
    ensures ProbedMiss(probes, idOf(lineage[j]))
  {
    var ts, order, last := Targets(current, idOf, lineage), NewestFirst(lineage), |probes| - 1;
    assert j in order;
    var k :| 0 <= k < |order| && order[k] == j;
    assert !Before(lineage, order[last - 1], j);
    assert k < last - 1;
    assert ts[k + 1] == LegacyTarget(idOf, lineage, j);
    MissedAt(gateway, at, ts, probes, k + 1);
  }

  lemma MissedAt(gateway: Gateway, at: nat, ts: seq<Target>, probes: seq<Probe>, k: nat)
    requires IsPass(gateway, at, ts, probes) && k < |probes| - 1
    ensures ProbedMiss(probes, ts[k].key)
  {
    assert Miss(probes[..|probes| - 1][k].reply);
    assert probes[k].key == ts[k].key;
  }

  lemma {:induction false} TotalBounded(passes: seq<seq<Probe>>, bound: nat)
    requires forall n :: 0 <= n < |passes| ==> |passes[n]| <= bound
    ensures Total(passes) <= |passes| * bound
  {
    if passes != [] {
      TotalBounded(passes[..|passes| - 1], bound);
    }
  }

  /** At most four GETs per key. */
  lemma GetsBounded(gateway: Gateway, ts: seq<Target>, passes: seq<seq<Probe>>)
    requires IsRun(gateway, ts, passes)
    ensures Total(passes) <= 4 * |ts|
  {
    forall n | 0 <= n < |passes| ensures |passes[n]| <= |ts| {
      assert PassAt(gateway, ts, passes, n);
    }
    TotalBounded(passes, |ts|);
    var n := |passes|;
    assert n == 1 || n == 2 || n == 3 || n == 4;
  }

  lemma {:induction false} CountMisses(outcomes: seq<ProbeOutcome>)
    requires forall i :: 0 <= i < |outcomes| ==> Disposition(outcomes[i]) == Authoritative
    ensures CountOf(outcomes, NotFound) + CountOf(outcomes, EmptyState) == |outcomes| && CountOf(outcomes, Timeout) == 0
  {
    if outcomes != [] {
      CountMisses(outcomes[..|outcomes| - 1]);
    }
  }

  /** What the failure report says about the last pass. "No state" means that
      every key answered and none holds anything. Both "all timed out" and
      "all failed" can only ever be about the current key, since a pass stops
      at the first key that does not answer. */
  lemma ReportMeans(gateway: Gateway, at: nat, ts: seq<Target>, probes: seq<Probe>)
    requires IsPass(gateway, at, ts, probes) && !Hit(probes[|probes| - 1].reply)
    requires forall i :: 0 <= i < |probes| ==> !Hit(probes[i].reply)
    ensures var report, last := FormatFallbackFailure(Outcomes(probes)), probes[|probes| - 1].reply;
            && (report.NoState? <==> forall i :: 0 <= i < |probes| ==> SaysNothing(probes[i].reply))
            && (report.NoState? ==> |probes| == |ts|)
            && (report.AllTimedOut? <==> |probes| == 1 && last == NoAnswer)
            && (report.AllFailed? <==> |probes| == 1 && last.Failed?)
            && (report.Mixed? <==> |probes| > 1 && (last == NoAnswer || last.Failed?))
            && report.total == |probes|
  {
    var os, n := Outcomes(probes), |probes| - 1;
    FrontMissed(gateway, at, ts, probes);
    assert os == os[..n] + [os[n]];
    FormatOf(os[..n], os[n]);
    PassGoesOn(gateway, at, ts, probes);
  }

  /** The report on a pass that missed up to its last outcome. */
  lemma FormatOf(front: seq<ProbeOutcome>, last: ProbeOutcome)
    requires forall i :: 0 <= i < |front| ==> Disposition(front[i]) == Authoritative
    ensures FormatFallbackFailure(front + [last]) ==
            var total := |front| + 1;
            match last
            case Timeout => if front == [] then AllTimedOut(total) else Mixed(total)
            case OtherError(_) => if front == [] then AllFailed(total) else Mixed(total)
            case _ => NoState(total)
  {
    assert (front + [last])[..|front|] == front;
    CountMisses(front);
  }

  lemma FrontMissed(gateway: Gateway, at: nat, ts: seq<Target>, probes: seq<Probe>)
    requires IsPass(gateway, at, ts, probes)
    ensures forall i :: 0 <= i < |probes| - 1 ==> Miss(probes[i].reply)
    ensures AllMissed(probes) <==> Miss(probes[|probes| - 1].reply)
  {
    var front := probes[..|probes| - 1];
    forall i | 0 <= i < |probes| - 1 ensures Miss(probes[i].reply) {
      assert Miss(front[i].reply);
    }
  }

  // ----- an honest gateway -----

  /** The gateway never lies about what the network holds, though it may
      fail to answer. */
  ghost predicate Honest(gateway: Gateway, held: map<InstanceId, Bytes>) {
    forall n: nat, key :: var r := gateway(n, key);
      && (r.Got? && r.state != [] ==> key in held && held[key] == r.state)
      && (SaysNothing(r) ==> key !in held)
  }

  /** Through an honest gateway, the state found is that of the newest
      generation the network holds, and "no state" is the truth. */
  lemma HonestNewest(gateway: Gateway, held: map<InstanceId, Bytes>, current: InstanceId,
                     idOf: LineageEntry -> InstanceId,
                     lineage: seq<LineageEntry>, passes: seq<seq<Probe>>, r: Result<Found, FallbackFailure>)
    requires Honest(gateway, held)
    requires IsRun(gateway, Targets(current, idOf, lineage), passes)
    requires Reports(Targets(current, idOf, lineage), passes[|passes| - 1], r)
    ensures r.Ok? && r.value.source.Current? ==> current in held && held[current] == r.value.state
    ensures r.Ok? && r.value.source.Legacy? ==>
              var i := r.value.source.index;
              && i < |lineage| && idOf(lineage[i]) in held && held[idOf(lineage[i])] == r.value.state
              && current !in held
              && forall j :: 0 <= j < |lineage| && lineage[j].generation > lineage[i].generation ==>
                  idOf(lineage[j]) !in held
    ensures r.Err? && r.error.NoState? ==>
              current !in held && forall j :: 0 <= j < |lineage| ==> idOf(lineage[j]) !in held
  {
    var ts, probes, at := Targets(current, idOf, lineage), passes[|passes| - 1], Total(passes[..|passes| - 1]);
    var last := |probes| - 1;
    assert PassAt(gateway, ts, passes, |passes| - 1);
    assert probes[last].reply == gateway(at + last, ts[last].key);
    if r.Err? {
      ReportMeans(gateway, at, ts, probes);
      if r.error.NoState? {
        EveryKeyMissed(gateway, held, at, ts, probes);
        LegacyTargets(current, idOf, lineage);
      }
    } else if r.value.source.Legacy? {
      NeverRollsBack(gateway, current, idOf, lineage, passes, r.value);
      var i := r.value.source.index;
      MissIsTrue(gateway, held, at, ts, probes, current);
      forall j | 0 <= j < |lineage| && lineage[j].generation > lineage[i].generation ensures idOf(lineage[j]) !in held {
        MissIsTrue(gateway, held, at, ts, probes, idOf(lineage[j]));
      }
    }
  }

  ghost predicate Held(held: map<InstanceId, Bytes>, current: InstanceId, idOf: LineageEntry -> InstanceId,
                       lineage: seq<LineageEntry>)
  {
    current in held || exists j :: 0 <= j < |lineage| && idOf(lineage[j]) in held
  }

  /** Retrying pays: when the gateway leaves the last GET of the first `k`
      passes open, `k` less than four, and answers every GET from then on, one
      more pass suffices and finds a state exactly when some generation holds
      one. */
  lemma AnsweredLaterIff(gateway: Gateway, held: map<InstanceId, Bytes>, current: InstanceId,
                         idOf: LineageEntry -> InstanceId,
                         lineage: seq<LineageEntry>, passes: seq<seq<Probe>>, r: Result<Found, FallbackFailure>, k: nat)
    requires Honest(gateway, held) && k < 4
    requires IsRun(gateway, Targets(current, idOf, lineage), passes)
    requires Reports(Targets(current, idOf, lineage), passes[|passes| - 1], r)
    requires forall n :: 0 <= n < k && n < |passes| ==>
               passes[n] != [] && MayPass(passes[n][|passes[n]| - 1].reply)
    requires k <= |passes| ==>
               forall n: nat, key :: Total(passes[..k]) <= n ==> gateway(n, key).Got? || gateway(n, key).SaidNotFound?
    ensures |passes| == k + 1
    ensures r.Ok? <==> Held(held, current, idOf, lineage)
  {
    var ts := Targets(current, idOf, lineage);
    RetriedIff(gateway, ts, passes, |passes| - 1);
    if k < |passes| {
      var last := passes[k];
      assert IsPass(gateway, Total(passes[..k]), ts, last) by {
        assert PassAt(gateway, ts, passes, k);
      }
      assert last[|last| - 1].reply == gateway(Total(passes[..k]) + |last| - 1, ts[|last| - 1].key);
      RetriedIff(gateway, ts, passes, k);
      AnsweredPass(gateway, held, current, idOf, lineage, passes, r);
    }
  }

  /** A run whose last GET was answered finds a state exactly when some
      generation holds one. */
  lemma AnsweredPass(gateway: Gateway, held: map<InstanceId, Bytes>, current: InstanceId,
                     idOf: LineageEntry -> InstanceId,
                     lineage: seq<LineageEntry>, passes: seq<seq<Probe>>, r: Result<Found, FallbackFailure>)
    requires Honest(gateway, held) && IsRun(gateway, Targets(current, idOf, lineage), passes)
    requires Reports(Targets(current, idOf, lineage), passes[|passes| - 1], r)
    requires var last := passes[|passes| - 1];
             var reply := last[|last| - 1].reply; reply.Got? || reply.SaidNotFound?
    ensures r.Ok? <==> Held(held, current, idOf, lineage)
  {
    var ts, last, at := Targets(current, idOf, lineage), passes[|passes| - 1], Total(passes[..|passes| - 1]);
    assert PassAt(gateway, ts, passes, |passes| - 1);
    HonestNewest(gateway, held, current, idOf, lineage, passes, r);
    if r.Err? {
      ReportMeans(gateway, at, ts, last);
      PassGoesOn(gateway, at, ts, last);
    }
  }

  /** A gateway that always answers: one pass, and a state is found exactly
      when some generation holds one. */
  lemma AnsweredIff(gateway: Gateway, held: map<InstanceId, Bytes>, current: InstanceId,
                    idOf: LineageEntry -> InstanceId,
                    lineage: seq<LineageEntry>, passes: seq<seq<Probe>>, r: Result<Found, FallbackFailure>)
    requires Honest(gateway, held)
    requires forall n: nat, key :: gateway(n, key).Got? || gateway(n, key).SaidNotFound?
    requires IsRun(gateway, Targets(current, idOf, lineage), passes)
    requires Reports(Targets(current, idOf, lineage), passes[|passes| - 1], r)
    ensures |passes| == 1
    ensures r.Ok? <==> Held(held, current, idOf, lineage)
  {
    AnsweredLaterIff(gateway, held, current, idOf, lineage, passes, r, 0);
  }

  lemma MissIsTrue(gateway: Gateway, held: map<InstanceId, Bytes>, at: nat, ts: seq<Target>, probes: seq<Probe>,
                   key: InstanceId)
    requires Honest(gateway, held) && Asked(gateway, at, ts, probes) && ProbedMiss(probes, key)
    ensures key !in held
  {
    var i :| 0 <= i < |probes| && probes[i].key == key && SaysNothing(probes[i].reply);
    assert probes[i].reply == gateway(at + i, key);
  }

  lemma EveryKeyMissed(gateway: Gateway, held: map<InstanceId, Bytes>, at: nat, ts: seq<Target>, probes: seq<Probe>)
    requires Honest(gateway, held) && Asked(gateway, at, ts, probes) && AllMissed(probes) && |probes| == |ts|
    ensures forall k :: 0 <= k < |ts| ==> ts[k].key !in held
  {
    forall k | 0 <= k < |ts| ensures ts[k].key !in held {
      assert probes[k].key == ts[k].key && Miss(probes[k].reply);
      MissIsTrue(gateway, held, at, ts, probes, ts[k].key);
    }
  }

  /** Every key of the lineage is among the targets. */
  lemma LegacyTargets(current: InstanceId, idOf: LineageEntry -> InstanceId, lineage: seq<LineageEntry>)
    ensures var ts := Targets(current, idOf, lineage);
            && ts[0].key == current
            && forall j :: 0 <= j < |lineage| ==> exists k :: 0 <= k < |ts| && ts[k].key == idOf(lineage[j])
  {
    var ts, order := Targets(current, idOf, lineage), NewestFirst(lineage);
    forall j | 0 <= j < |lineage| ensures exists k :: 0 <= k < |ts| && ts[k].key == idOf(lineage[j]) {
      assert j in order;
      var k :| 0 <= k < |order| && order[k] == j;
      assert ts[k + 1].key == idOf(lineage[j]);
    }
  }
}
