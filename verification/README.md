# A model of freenet-git

freenet-git keeps git repositories in Freenet contracts. A push publishes the
new objects as a content-addressed bundle and merges a signed delta into the
repo's state; a fetch works out from that state which bundles to download. The
state is replicated: peers merge full states and summary-derived deltas. This
project models those parts and proves what they guarantee, and where they do
not guarantee what they promise.

| files | what they model |
|---|---|
| `Octets`, `CommitGraph` | bytes and machine integers; git objects and what a partial store sees of them |
| `Fetch`, `FetchRounds` | the download loop and the walk for missing parents, as methods; the rounds they go through, and when they end |
| `PushHistory`, `Delivery`, `PushPatterns`, `PushHazards`, `CrossMerge` | what a push ships, and when the contract that pushes build can be cloned |
| `Repo`, `Merge`, `Delta`, `Validate`, `RepoContract`, `Gossip` | the replicated state, its merge, summaries, validation, the contract's entry points, and replicas over an unreliable network |
| `SignedPayload`, `CanonicalCbor`, `BundleIds` | the bytes that are signed and hashed |
| `PushDelta`, `ContractHistory` | the signed delta of a push, and the states a history of pushes leads to |
| `Rescue` | publishing a contract's bundles again, and what a clone can get from the ones kept |
| `LegacyProbe` | reading a state across retired contract generations |
| `ChunkedPack`, `PackCache`, `Publish`, `PushSession` | chunks and manifests, the local cache, and the order of a publication |

The pieces meet. `PushSession.HandlePush` sends the delta `DeltaFor`;
`DeltaIsSessionDelta` and `ContractRefines` carry it to the ledger of
`PushHistory`; `ContractClones` and `Fetch.HandleFetch` carry that to the
store of a fresh clone. `RepoContract.SyncDelivers` goes through summary, delta
and update of two peers, and `Gossip` through any number of peers.

Loops over mutable state are methods, proved against functions and predicates
that the lemmas are about. Builders, buffers, the cache and the publishing node
are classes. Collections that the program drains in hash order are drained in
any order here.

## Findings

Where the code and its documentation differ, the model follows the code.

- **Cross-merged branches do not clone.** Push `main` and `dev`, merge each
  into the other, push both again: ordinary fast-forwards. Each new pack leaves
  out its own branch's old tip and carries the other's old tip without what
  lies below it, so the walk takes that tip as resolved and never asks for the
  bundle with the rest. Cloning both branches bails, or, when the branches
  share no past commits but a tree, reports success without the tree
  (`CrossMerge.CrossCloneLosesBase`, with a concrete instance in
  `ExampleValid`). `Delivery.CloneDeliversIff` and `CloneOfRefsIff` give the
  exact conditions on a contract. A pusher can check a simpler one that
  suffices: no circle of packs each of which was cut against a commit that the
  next carries without its past (`CutsOrdered`). Branches that merge `main`
  while nothing else is merged meet it, and so do one-branch and snapshot
  histories; the cross-merge is such a circle
  (`CrossMerge.CrossNotOrdered`).
- **A ref moved from a commit to an annotated tag of it loses the commit**:
  every clone of the tag from that bundle reports success without it
  (`PushHazards.RetagLosesCommit`). `SuccessMeansHistoryIff` gives the exact
  condition on a contract, `PushKeepsHistoryIff` the one on a push.
- **A forced rewind over a local old tip publishes an empty bundle**, and a
  clone that uses it repeats one turn for ever: the stuck check asks whether a
  missing commit is advertised, not whether its bundle was already downloaded
  (`FetchRounds.SpinsForever`, `PushHazards.RewindSpins`).
  `FetchRounds.EveryFetchEndsIff` gives the exact condition on a contract,
  `PushHazards.PushEndsIff` the one on a push.
- **Rescuing only the current tips' bundles is unsafe for history mirrors**, as
  the source warns. With one current target, the filter keeps it clonable if
  and only if the bundle that stands for that target was cut against nothing
  (`Rescue.OneTargetRescueIff`), and in general if and only if the bundles that
  stand for the current targets hold everything between them
  (`Rescue.AllRefsRescueIff`; `ServedCloneIff` for any refs and any loss). For
  snapshot histories it always does (`Rescue.SnapshotRescueKeeps`).
- **A summary has no signatures.** Two entries with equal counters and
  different signatures never meet by delta, while full-state sync would settle
  on one (`Delta.DeltaExactIff`).
- **An update list that merges nothing returns the stored state unvalidated**
  (`RepoContract.ValidAfterIff`).
- **"All N probes timed out" can only be reported with N = 1**, since a pass
  stops at the first key that does not answer (`LegacyProbe.ReportMeans`).
- **Reading a pack back after its PUT may be answered by the local cache**
  (`PackCache.PutReadsBack`), so verification after publishing shows a
  confirmed PUT and matching bytes, not that the network still serves them.
- **The largest counter wraps.** In a release build the push after counter
  2^64 - 1 gets counter 0 and does not move its ref (`PushDelta.PushMovesIff`).

## Hypotheses

The code does not check these; the theorems that need them say so.

- Installing an advertised bundle makes its tip present (`TipsInstalled`):
  asked only where a fetch is to end. An advertised bundle id that is not in
  the index makes the model end in `MissingRecord` where the code panics.
- A store that has an annotated tag of a commit or tag has that too
  (`TagClosed`), or the first round brings nothing: asked where a fetch is said
  to follow its rounds (`Exact`). Covered pushes keep the first.
- Object links have no cycles (`Graph.Valid`): names are hashes of contents.
- Covered pushes (`Covered`) come from a clone that has everything behind what
  it pushes, and are first pushes of a ref, fast-forwards, or forced pushes
  whose old tip is not local; an annotated tag is not put over a ref that
  already holds the tagged commit; equal bundle ids mean equal pack contents.
- Replicas agree after gossip if published states have one owner, one entry
  per counter, and one record per bundle id (`Gossip.Coherent`).
- `CollisionFree` is asked of BLAKE3 where ids or packs are to be told apart.
  Signature verification is any predicate; `SignaturesVerify` is asked only
  where the owner's own pushes are to be accepted.
- A network that serves everything (`Publish.Serving`) is asked only where a
  push is to succeed; a git that builds packs from the pusher's store
  (`PushSession.BuildsFrom`) only where an ask's fate is told.

## Model

| member | source | states |
|---|---|---|
| CommitGraph.PeelStable | crates/freenet-git/src/bin/git-remote-freenet.rs:1309-1352 | once the store has every commit that its annotated tags name, installing more never changes what a tag it has peels to |
| CommitGraph.VisibleLeast | crates/freenet-git/src/bin/git-remote-freenet.rs:742-772 | any set that holds an object and is closed under the parents of what is local holds all that a walk sees from the object |
| CommitGraph.NothingMissing | crates/freenet-git/src/bin/git-remote-freenet.rs:734-774 | if every commit a walk sees is local, the whole commit and tag history behind the start is local |
| CommitGraph.ReachComplete | crates/freenet-git/src/bin/git-remote-freenet.rs:1413-1430 | what an object reaches has the object, every commit's parents and tree, every tag's target and every tree's entries |
| CommitGraph.ReachLeast | crates/freenet-git/src/bin/git-remote-freenet.rs:1413-1430 | it is the least set with these properties |
| Fetch.InvertTips | crates/freenet-git/src/bin/git-remote-freenet.rs:485-486 | the tip index is a right inverse of the bundle-to-tip map, whichever bundle stands for a shared tip |
| Fetch.VisitOne | crates/freenet-git/src/bin/git-remote-freenet.rs:742-772 | one pop of the walk: walked, missing, tag of a non-commit, or a local commit whose unwalked parents are pushed |
| Fetch.DrainWorklist | crates/freenet-git/src/bin/git-remote-freenet.rs:739-774 | the walk ends although missing commits are never marked walked, and everything it leaves behind a walked commit is walked or reported |
| Fetch.WalkUnresolvedParents | crates/freenet-git/src/bin/git-remote-freenet.rs:734-774 | when every parent of an already walked commit is walked or wanted, the result is exactly the missing part of what can be seen from all wanted commits, and the same holds again for the new sets |
| Fetch.WalkIsExact | crates/freenet-git/src/bin/git-remote-freenet.rs:719-733 | why not re-walking the walked part loses nothing |
| Fetch.VisibleAllClosed | crates/freenet-git/src/bin/git-remote-freenet.rs:742-772 | what walks see from a set of objects holds that set and is itself closed under the parents of what is local |
| Fetch.DownloadAll | crates/freenet-git/src/bin/git-remote-freenet.rs:586-597 | downloads the listed bundles, each once, until the first failure, which names one of them; exactly what was downloaded is installed |
| Fetch.WalkTurn | crates/freenet-git/src/bin/git-remote-freenet.rs:547-583 | a turn with nothing to download: stop, bail, or want more, keeping the loop's invariant, for any bundles the contract advertises |
| Fetch.DownloadTurn | crates/freenet-git/src/bin/git-remote-freenet.rs:586-597 | a turn that downloads: only needed bundles, none of them twice |
| Fetch.Turn | crates/freenet-git/src/bin/git-remote-freenet.rs:538-598 | every turn keeps the invariant; if installing a bundle makes its tip present, it also gets nearer the end: a bundle more, or a wanted bundle ahead |
| Fetch.DownloadReachable | crates/freenet-git/src/bin/git-remote-freenet.rs:538-598 | the loop for any number of turns and any advertised bundles: an outcome in the round the loop's definition gives, and always one after twice the advertised bundles plus two turns if installing a bundle makes its tip present; without an outcome, no round the turns covered has settled |
| Fetch.HandleFetch | crates/freenet-git/src/bin/git-remote-freenet.rs:432-605 | the whole fetch: no bundle twice; whenever it stops of itself, every bundle listed without a tip and every seed's bundle was downloaded, and every other one downloaded is an undelivered ancestor's; a failure names a needed bundle; where tags arrive complete or the first round brings nothing, the fetch stops in the first round that settles, with exactly the bundles of the rounds so far: success if and only if nothing that can be seen from the seeds is missing, and otherwise bailing with exactly the missing commits |
| Fetch.WalkFindsMissing | crates/freenet-git/src/bin/git-remote-freenet.rs:581-582 | once a round's bundles are there, the walk reports exactly what is missing, and wanting that too keeps every parent of a walked commit walked or wanted |
| Fetch.DownloadExploring | crates/freenet-git/src/bin/git-remote-freenet.rs:586-597 | installing bundles between two walks keeps the walked part exact |
| PushHistory.TipInPackIff | crates/freenet-git/src/bin/git-remote-freenet.rs:1371-1430 | a pack carries its advertised tip exactly when the pushed object was not already behind the old target |
| PushHistory.PackTagClosedIff | crates/freenet-git/src/bin/git-remote-freenet.rs:1413-1430 | a pack with annotated tags holds what they name exactly when the pushed tag's base was not behind the old target |
| PushHistory.SamePackSameTip | crates/freenet-git/src/bin/git-remote-freenet.rs:1371-1430 | two pushes with the same pack contents advertise the same tip |
| PushHistory.PushMeans | crates/freenet-git/src/bin/git-remote-freenet.rs:1371-1430 | a push case by case: a new ref is published whole; over an old target that the pusher has, what that reaches is left out; over one it does not have, a forced push is published whole and any other changes nothing; an unchanged target changes nothing |
| PushHistory.HasCommitIff | crates/freenet-git/src/bin/git-remote-freenet.rs:1386-1411 | the pusher has an old target when some chain of tags, all of it local, leads to a local commit |
| PushHistory.PushKeepsSound | crates/freenet-git/src/bin/git-remote-freenet.rs:985-1130 | each push keeps: index, tips and packs have the same ids; every pack is its tip's objects minus its old target's; every ref is an advertised tip; every old target is an advertised tip |
| PushHistory.ReplaySound | crates/freenet-git/src/bin/git-remote-freenet.rs:985-1130 | the same after any history of covered pushes to any refs |
| Delivery.FetchedHistory | crates/freenet-git/src/bin/git-remote-freenet.rs:538-598 | fetch safety into any store: after success the whole commit and tag history of every seed is local |
| Delivery.StoppedState | crates/freenet-git/src/bin/git-remote-freenet.rs:538-598 | where any clone stops: one bundle per tip, every seed's tip among them, no advertised commit missing |
| Delivery.TrapAlwaysDefeats | crates/freenet-git/src/bin/git-remote-freenet.rs:538-598 | asked for the tips of a trap, every run ends with exactly the trap's objects, reporting success or bailing |
| Delivery.CloneDeliversIff | crates/freenet-git/src/bin/git-remote-freenet.rs:483-598 | every clone of a pushed contract delivers everything, whichever bundle stands for a shared tip, if and only if no choice of bundles is a trap |
| Delivery.CloneOfRefsIff | crates/freenet-git/src/bin/git-remote-freenet.rs:483-598 | the same for clones of current refs: they all deliver if and only if no fetch of them can grow into a trap |
| Delivery.HaveVisible | crates/freenet-git/src/bin/git-remote-freenet.rs:766-771 | the walk from a complete pack comes across the commit it was cut against |
| Delivery.BundleComplete | crates/freenet-git/src/bin/git-remote-freenet.rs:1371-1453 | when the packs that carry a cut commit without its past can be ranked below the packs cut against it, every downloaded bundle's tip arrives with all it reaches |
| Delivery.OrderedHasNoTrap | crates/freenet-git/src/bin/git-remote-freenet.rs:1371-1453 | a contract whose cuts do not lead round in a circle has no trap |
| Delivery.ClonedAfterPushes | crates/freenet-git/src/bin/git-remote-freenet.rs:483-598 | end to end on the ledger: covered pushes whose cuts do not lead round in a circle, then a clone of any current refs succeeds with every object they reach |
| Delivery.CloneOfAll | crates/freenet-git/src/bin/git-remote-freenet.rs:515-534 | a clone asked for nothing receives all that any current ref reaches; a clone asked for some targets, all that those reach |
| Delivery.CloneOfSome | crates/freenet-git/src/bin/git-remote-freenet.rs:515-534 | a clone asked for some targets downloads no bundle whose tip those do not reach |
| PushPatterns.BranchwiseRun | crates/freenet-git/src/bin/git-remote-freenet.rs:985-1130 | after unforced pushes to any branches: each bundle is behind its branch's target, what a branch was cut against lies on one line, and its packs overlap only where one ends and the next begins |
| PushPatterns.OnlyMainMergedDelivers | crates/freenet-git/src/bin/git-remote-freenet.rs:447-481 | any number of branches that merge `main` while nothing else is merged into another branch: every clone delivers |
| PushPatterns.OneBranchDelivers | crates/freenet-git/src/bin/git-remote-freenet.rs:447-481 | history mode on one branch: every clone delivers |
| PushPatterns.SnapshotsDeliver | crates/freenet-git/src/bin/git-remote-freenet.rs:476-477 | snapshot mode on any number of refs: every clone delivers |
| PushPatterns.SnapshotsPublish | crates/freenet-git/src/bin/git-remote-freenet.rs:1386-1411 | forced snapshots are all published: each ref ends at its last snapshot, which an advertised bundle carries whole |
| PushPatterns.RefsFollow | crates/freenet-git/src/bin/git-remote-freenet.rs:985-1130 | after any history of which no push is refused, each ref is where its last push put it |
| PushPatterns.OnlyPushedRefs | crates/freenet-git/src/bin/git-remote-freenet.rs:985-1130 | there are no refs but those pushed to |
| PushPatterns.ShippedWholeOrdered | crates/freenet-git/src/bin/git-remote-freenet.rs:1371-1453 | packs that carry cut commits only with their whole past have cuts in order |
| PushHazards.RetagLosesCommit | crates/freenet-git/src/bin/git-remote-freenet.rs:750-758 | false promise: moving a ref from a commit to an annotated tag of it ships the tag alone, and every clone of the tag that uses that bundle reports success without the commit |
| PushHazards.SuccessMeansHistoryIff | crates/freenet-git/src/bin/git-remote-freenet.rs:750-758 | every clone that reports success has the whole commit and tag history behind what it asked for if and only if no pack carries a tag without what it names |
| PushHazards.PushKeepsHistoryIff | crates/freenet-git/src/bin/git-remote-freenet.rs:1413-1430 | a push keeps that unless it is of an annotated tag whose base was behind the old target |
| FetchRounds.RoundsVisible | crates/freenet-git/src/bin/git-remote-freenet.rs:538-598 | the tip of every tipped bundle downloaded is seen by the walk from the seeds |
| FetchRounds.BroughtWhenMissing | crates/freenet-git/src/bin/git-remote-freenet.rs:581-598 | a bundle after the first round stands for a commit that was missing when its round began |
| FetchRounds.FirstHandSuffices | crates/freenet-git/src/bin/git-remote-freenet.rs:488-541 | a partly tipped contract: when the untipped bundles and the seeds' own are served and together with the store hold all that the seeds reach, every outcome is success with all of it |
| FetchRounds.EndsAt | crates/freenet-git/src/bin/git-remote-freenet.rs:538-598 | when all can be downloaded, every outcome is that of the first round that settles |
| FetchRounds.CanEndIff | crates/freenet-git/src/bin/git-remote-freenet.rs:538-598 | such a fetch has an outcome at all if and only if some round settles |
| FetchRounds.OverInTime | crates/freenet-git/src/bin/git-remote-freenet.rs:538-598 | a fetch whose round settles is over by twice that round plus two turns |
| FetchRounds.SpinsForever | crates/freenet-git/src/bin/git-remote-freenet.rs:567-583 | a round that brings nothing and does not settle is repeated for ever: every later walk finds an advertised commit missing and nothing left to download for it |
| FetchRounds.EveryFetchEndsIff | crates/freenet-git/src/bin/git-remote-freenet.rs:538-598 | every fetch of advertised commits into any store can end if and only if every bundle carries its advertised tip |
| PushHazards.PushEndsIff | crates/freenet-git/src/bin/git-remote-freenet.rs:1371-1430 | from a contract on which every fetch ends, a push leads to another such contract if and only if the pushed object was not already behind what its pack was cut against |
| PushHazards.RewindSpins | crates/freenet-git/src/bin/git-remote-freenet.rs:567-583 | false promise: a forced rewind over a local old tip publishes an empty bundle, and a clone that uses it finds the same commit missing in every round and has no outcome |
| CrossMerge.CrossReplay | crates/freenet-git/src/bin/git-remote-freenet.rs:985-1130 | the history: two branches pushed, then each fast-forwarded to its merge with the other; every push is covered |
| CrossMerge.CrossMissing | crates/freenet-git/src/bin/git-remote-freenet.rs:734-774 | the clone of both branches sees a commit missing exactly when the branches have a common past |
| CrossMerge.CrossCloneLosesBase | crates/freenet-git/src/bin/git-remote-freenet.rs:483-598 | false promise: every clone of the two merged branches stops without the shared tree; it bails if the branches share a past and otherwise reports success |
| CrossMerge.CrossNotOrdered | crates/freenet-git/src/bin/git-remote-freenet.rs:985-1130 | the cuts of that history lead round in a circle |
| CrossMerge.ExampleValid | crates/freenet-git/src/bin/git-remote-freenet.rs:985-1130 | such histories exist, with and without a common past |
| Merge.MergeEntries | crates/types/src/lib.rs:556-574 | the loop over refs or extensions keeps per key the entry with the higher counter, ties by signature |
| Merge.MergeIndex | crates/types/src/lib.rs:563-565 | the loop over the index adds ids and never replaces a record |
| Merge.MergeState | crates/types/src/lib.rs:547-575 | the method merges every field and map into the state that the laws below are about |
| Merge.PickAssociative | crates/types/src/lib.rs:989-1030 | the pick rule is associative on all entries, by lexicographic order of counter and signature |
| Merge.PickCommutesIff | crates/types/src/lib.rs:989-1030 | the pick rule commutes exactly when equal counter and signature mean equal entries |
| Merge.MergeAssociative | crates/types/src/lib.rs:547-575 | merge is associative on all states |
| Merge.MergeIdempotent | crates/types/src/lib.rs:547-575 | merge is idempotent on all states |
| Merge.MergeCommutesIff | crates/types/src/lib.rs:547-575 | merge commutes if and only if owners agree, tied entries agree and records under one id agree |
| Merge.MergeCovers | crates/types/src/lib.rs:547-575 | no key or bundle is lost, no counter goes down, and the receiver's owner and records stay |
| Merge.MergeSourced | crates/types/src/lib.rs:547-575 | every entry comes from one of the two sides, and the ids are the union |
| Merge.MergeKeeps | crates/types/src/lib.rs:1020-1030 | of two entries a merge keeps, whichever side holds it, that of the higher counter, and of equal counters the one whose signature has the smaller byte where the two first differ |
| Merge.MergeKeepsOnly | crates/types/src/lib.rs:989-1005 | an entry that only one side has is kept as it is |
| Delta.SummarizeState | crates/types/src/lib.rs:624-655 | the summary has exactly the counter of every entry and every bundle id |
| Delta.GetStateDelta | crates/types/src/lib.rs:658-728 | the loops compute the delta that the theorems below are about |
| Delta.StaleSummaryCovered | crates/types/src/lib.rs:624-728 | a summary stays good however much its author has grown since |
| Delta.DeltaExactIff | crates/types/src/lib.rs:658-728 | merging the delta equals merging the full state if and only if no entry of equal counter and smaller signature was held back |
| Delta.DeltaExact | crates/types/src/lib.rs:658-728 | delta sync equals full sync when equal counters mean equal entries |
| Delta.DeployedRuleAgreesIff | crates/freenet-git/src/bin/git-remote-freenet.rs:618-646 | the deployed rule selects the same entries if and only if every entry the peer has never seen has a counter of at least 1 |
| Validate.ValidateState | crates/types/src/lib.rs:421-528 | accepts exactly the valid states, and otherwise blames something that is wrong |
| Validate.ValidIff | crates/types/src/lib.rs:421-528 | a state is valid if and only if its prefix is the owner's, every name, value and key is within its limit, every ref and bundle is the owner's, every id is its bundle's, and the owner's signature covers each part under its own name, counter and epoch |
| Validate.UpdateState | crates/types/src/lib.rs:581-607 | succeeds exactly when the merged state is valid, and returns it |
| Validate.MergeValid | crates/types/src/lib.rs:421-575 | merging two valid states of one owner gives a valid state |
| Validate.UpdateSucceedsIff | crates/types/src/lib.rs:581-607 | from a valid state an update succeeds if and only if every entry the delta wins and every bundle it adds is valid for the owner |
| Validate.SignedOnce | crates/types/src/lib.rs:736-987 | one signed payload vouches for one slot, counter and value only |
| Validate.KeysApart | crates/types/src/lib.rs:857-871 | a repo's key hashes `v1`, prefix and owner; without collisions two repos with 32-byte owners share it only if they are one |
| Validate.SignedForOneRepo | crates/types/src/lib.rs:736-871 | no signature carries over to another repo |
| Validate.PrefixErrors | crates/types/src/lib.rs:421-440 | which error a bad prefix gives: length before alphabet before owner |
| Validate.EntryErrors | crates/types/src/lib.rs:441-528 | which error a bad entry gives: size before signer before signature |
| RepoContract.Absorb | crates/repo-contract/src/lib.rs:54-94 | decode, merge, validate one payload; the error says which failed |
| RepoContract.ApplyUpdate | crates/repo-contract/src/lib.rs:53-102 | one update: its payloads in order, an empty delta skipped, an empty full state merged as the default, related data refused |
| RepoContract.UpdateState | crates/repo-contract/src/lib.rs:44-109 | accepts exactly the update lists that decode, carry nothing related and stay valid after every merge; the result is the join of everything carried, and covers every part of every update |
| RepoContract.AcceptedTakesIn | crates/repo-contract/src/lib.rs:53-102 | an accepted list has no garbled part and nothing related, and its result covers every full state and every delta in it |
| RepoContract.GarbledStops | crates/repo-contract/src/lib.rs:53-102 | a garbled part or related data anywhere stops the whole list |
| RepoContract.FullStateMeans | crates/repo-contract/src/lib.rs:55-62 | one full state: accepted if and only if the merge with it is valid, and merged; empty bytes are the default state |
| RepoContract.DeltaOnlyMeans | crates/repo-contract/src/lib.rs:63-73 | one delta likewise; empty bytes change nothing |
| RepoContract.StateAndDeltaMeans | crates/repo-contract/src/lib.rs:74-92 | a full state and a delta are merged in this order, and both merges have to be valid |
| RepoContract.GetDelta | crates/repo-contract/src/lib.rs:125-145 | the delta of the decoded state and summary, as empty bytes when it is empty |
| RepoContract.JoinKeeps | crates/repo-contract/src/lib.rs:53-102 | after any update list: owner and records kept, everything held and received covered, nothing from nowhere |
| RepoContract.ValidAfterIff | crates/repo-contract/src/lib.rs:44-109 | an accepted list ends valid if and only if it merged something or the stored state was valid |
| RepoContract.ValidUpdatesAccepted | crates/repo-contract/src/lib.rs:44-109 | valid states of the owner are accepted in any order |
| RepoContract.EmptyDeltaIff | crates/repo-contract/src/lib.rs:137-139 | the deltas sent as empty bytes are exactly those that change no state |
| RepoContract.CaughtUpIff | crates/repo-contract/src/lib.rs:134-139 | empty bytes are answered exactly when the summary is up to date |
| RepoContract.SyncDelivers | crates/repo-contract/src/lib.rs:44-145 | summary, delta and update of two valid peers end to end: accepted, and the result is the merge of both states, even if the summary is stale |
| Gossip.JoinsMerge | crates/types/src/lib.rs:547-575 | merging two joins of published states joins both sets |
| Gossip.JoinUnique | crates/types/src/lib.rs:547-575 | a set of coherent published states has one join |
| Gossip.StepSound | crates/types/src/lib.rs:547-728 | publishing, sending, summarising, answering and delivering each keep: every replica and message is a join, every summary in flight is still covered |
| Gossip.RunSound | crates/types/src/lib.rs:547-728 | the same after any run, with messages late, repeated, reordered or lost |
| Gossip.Converges | crates/types/src/lib.rs:547-728 | after any run every replica is the join of what it absorbed, and replicas that absorbed the same are equal |
| Gossip.NeverRefused | crates/types/src/lib.rs:581-607 | when the published states are valid, no delivery is ever refused |
| Gossip.NeverInvalid | crates/types/src/lib.rs:581-607 | no replica that starts valid ever holds a state that validation refuses |
| Gossip.FoldOrderIrrelevant | crates/repo-contract/src/lib.rs:53-102 | the contract's fold over coherent states does not depend on order or repeats |
| SignedPayload.FieldsRecovered | crates/encoding/src/signed.rs:62-71 | a payload can be read back into its fields in one way only |
| SignedPayload.Builder.constructor | crates/encoding/src/signed.rs:52-60 | a payload starts with its domain field |
| SignedPayload.Builder.AddBytes | crates/encoding/src/signed.rs:62-71 | appends one length-prefixed field |
| SignedPayload.Builder.AddOption | crates/encoding/src/signed.rs:97-108 | a one-byte tag tells an absent value from a present one |
| SignedPayload.SignedPayloadStringField | crates/types/src/lib.rs:736-748 | the bytes signed for a text field |
| SignedPayload.SignedPayloadRefListField | crates/types/src/lib.rs:750-765 | the bytes signed for a ref list, with its saturated count |
| SignedPayload.SignedPayloadAclField | crates/types/src/lib.rs:767-791 | the bytes signed for the grants, with their saturated count |
| SignedPayload.SignedPayloadOptionalRepoKeyField | crates/types/src/lib.rs:793-805 | the bytes signed for a successor |
| SignedPayload.SignedPayloadRefEntry | crates/types/src/lib.rs:807-822 | the bytes signed for a ref |
| SignedPayload.SignedPayloadBundleRecord | crates/types/src/lib.rs:824-836 | the bytes signed for a bundle |
| SignedPayload.SignedPayloadExtension | crates/types/src/lib.rs:838-850 | the bytes signed for an extension |
| SignedPayload.GrantsInjective | crates/types/src/lib.rs:767-791 | the grant fields determine the grants, whatever the count says |
| SignedPayload.PayloadInjective | crates/types/src/lib.rs:736-850 | equal payloads are the same kind of message with the same contents |
| SignedPayload.EntriesRead | crates/types/src/lib.rs:807-850 | a reader of a signed ref, bundle or extension finds each part in its place, and every number as its eight bytes |
| SignedPayload.TextsRead | crates/types/src/lib.rs:736-805 | the same for text fields and the successor |
| SignedPayload.RefListReads | crates/types/src/lib.rs:750-765 | the same for a ref list |
| SignedPayload.AclReads | crates/types/src/lib.rs:767-791 | the same for the grants |
| SignedPayload.GrantReads | crates/types/src/lib.rs:767-791 | each grant is three fields: writer, epoch granted, epoch revoked if any |
| SignedPayload.CountsRead | crates/types/src/lib.rs:750-791 | the count in a list message reads back as the length below 2^32, and stays at the largest count from there on |
| SignedPayload.DomainBytes | crates/encoding/src/signed.rs:52-60 | the domain of a suffix, byte by byte |
| SignedPayload.FieldsOnTheWire | crates/encoding/src/signed.rs:62-108 | single fields and options, byte by byte |
| CanonicalCbor.WriteUint | crates/encoding/src/canonical.rs:37-55 | writes the head of section 3 of RFC 8949 in its shortest form |
| CanonicalCbor.HeadShortest | crates/encoding/src/canonical.rs:37-55 | no well-formed head for the same argument is shorter, as section 4.2.1 of RFC 8949 asks |
| CanonicalCbor.EncodeInto | crates/encoding/src/canonical.rs:105-132 | appends exactly the encoding of the value |
| CanonicalCbor.EncodeInverse | crates/encoding/src/canonical.rs:105-132 | the decoder reads back every well-formed value and leaves the rest untouched |
| CanonicalCbor.PrefixFree | crates/encoding/src/canonical.rs:105-132 | no encoding is a proper prefix of another |
| CanonicalCbor.EncodeInjective | crates/encoding/src/canonical.rs:105-132 | equal encodings are equal values |
| CanonicalCbor.UintHead | crates/encoding/src/canonical.rs:37-55 | integers take one byte below 24, and otherwise a byte that tells the length before 1, 2, 4 or 8 bytes |
| Octets.BigEndianDigit | crates/encoding/src/canonical.rs:37-55 | the most significant byte comes first |
| Octets.LittleEndianDigit | crates/encoding/src/signed.rs:62-96 | the least significant byte comes first |
| CanonicalCbor.ItemStart | crates/encoding/src/canonical.rs:105-132 | the major type in the initial byte of each kind of item |
| CanonicalCbor.KeysAscend | crates/encoding/src/canonical.rs:118-127 | of two neighbouring keys of a built map the first is a proper prefix, or has the smaller byte where they first differ |
| CanonicalCbor.InsertedGet | crates/encoding/src/canonical.rs:149-153 | inserting sets one key and leaves all others |
| CanonicalCbor.InsertedWellFormed | crates/encoding/src/canonical.rs:149-153 | inserting keeps keys strictly increasing in their encoded order, as section 4.2.1 of RFC 8949 asks |
| CanonicalCbor.MapBuilder.Add | crates/encoding/src/canonical.rs:149-158 | the builder's map after an insertion |
| CanonicalCbor.MapBuilder.Build | crates/encoding/src/canonical.rs:160-163 | what the builder gives is well formed |
| BundleIds.Preimage | crates/types/src/lib.rs:258-280 | the hashed bytes are the encoding of a well-formed map of the bundle's fields |
| BundleIds.SinglePackBytes | crates/types/src/lib.rs:258-268 | the bytes hashed for a single pack, in full: labels, order and values |
| BundleIds.ChunkedPackBytes | crates/types/src/lib.rs:269-280 | the bytes hashed for a chunked pack, in full |
| BundleIds.PreimageInjective | crates/types/src/lib.rs:258-280 | distinct bundles, across both variants, hash distinct bytes |
| BundleIds.IdInjective | crates/types/src/lib.rs:258-280 | distinct bundles have distinct ids if the hash has no collisions |
| PushDelta.CollectBundleTipExtensions | crates/freenet-git/src/bin/git-remote-freenet.rs:652-667 | the tips are those of the parsable keys with 20-byte values, and only those |
| PushDelta.ViewUnique | crates/freenet-git/src/bin/git-remote-freenet.rs:652-667 | a state with canonical tip keys is read in one way only |
| PushDelta.PushMovesIff | crates/freenet-git/src/bin/git-remote-freenet.rs:1090-1110 | a push moves its ref unless the largest counter is taken, when the new one wraps to 0 and loses |
| PushDelta.PushCounts | crates/freenet-git/src/bin/git-remote-freenet.rs:1090-1110 | a push counts its ref up by one, from 1 for a new one |
| PushDelta.PushAdvertises | crates/freenet-git/src/bin/git-remote-freenet.rs:1110-1127 | a push adds its bundle and advertises its tip at counter 1 |
| PushDelta.PushSeen | crates/freenet-git/src/bin/git-remote-freenet.rs:1074-1127 | merging one ref's part of a delta moves that ref, adds the bundle and advertises its tip, and changes nothing else that fetch reads |
| PushDelta.PushAccepted | crates/freenet-git/src/bin/git-remote-freenet.rs:1199-1204 | from a valid state the owner's push passes validation |
| ContractHistory.SessionRefines | crates/freenet-git/src/bin/git-remote-freenet.rs:985-1130 | merging one session's delta does to the contract, as fetch reads it, what its pushes do to the ledger one by one |
| ContractHistory.ContractRefines | crates/freenet-git/src/bin/git-remote-freenet.rs:985-1221 | after any number of sessions, fetch reads in the contract exactly the ledger of the same pushes |
| ContractHistory.ContractStaysValid | crates/freenet-git/src/bin/git-remote-freenet.rs:1199-1204 | every session's update is accepted |
| ContractHistory.ContractCounters | crates/freenet-git/src/bin/git-remote-freenet.rs:1090-1127 | a ref's counter grows by at most one per session, and pushes never write counter 0 |
| ContractHistory.DeployedRuleSuffices | crates/freenet-git/src/bin/git-remote-freenet.rs:618-646 | for every summary a peer may send, the deployed rule selects the refs and extensions that the corrected rule selects from a contract built by pushes |
| ContractHistory.ContractClones | crates/freenet-git/src/bin/git-remote-freenet.rs:483-598 | end to end from signed deltas: unless the packs' cuts lead round in a circle, a clone of any current refs of the contract succeeds with everything they reach |
| ContractHistory.ContractClonesIff | crates/freenet-git/src/bin/git-remote-freenet.rs:483-598 | the same with the exact condition, for any history of covered pushes |
| LegacyProbe.NewestFirst | crates/freenet-git/src/wsclient.rs:581-586 | the probing order is the registry's indices by descending generation, ties in registry order |
| LegacyProbe.ProbeAllKeys | crates/freenet-git/src/wsclient.rs:534-622 | keys are asked in order, only a miss moves on, and the last answer is the verdict |
| LegacyProbe.ProbeLegacyKeys | crates/freenet-git/src/wsclient.rs:588-621 | the walk over the retired generations |
| LegacyProbe.OutcomesWorthRetrying | crates/freenet-git/src/wsclient.rs:387-397 | worth a retry: some timeout or transient error, and no other error |
| LegacyProbe.LastDecides | crates/freenet-git/src/wsclient.rs:387-397 | in a failed pass only the last outcome can be anything but a miss, so it alone decides whether to retry |
| LegacyProbe.GetStateWithLegacyFallback | crates/freenet-git/src/wsclient.rs:469-497 | up to four passes, another one exactly when the last outcome is transient, and the report is about the last pass |
| LegacyProbe.NeverRollsBack | crates/freenet-git/src/wsclient.rs:534-622 | a legacy state is returned only after the current key and every newer generation answered in that pass that they hold nothing; its index is the caller's |
| LegacyProbe.GetsBounded | crates/freenet-git/src/wsclient.rs:469-515 | at most four GETs per key |
| LegacyProbe.PassGoesOn | crates/freenet-git/src/wsclient.rs:534-622 | within a pass every answer but the last says that the key holds nothing; if the last one says so too, every key was asked |
| LegacyProbe.RetriedIff | crates/freenet-git/src/wsclient.rs:469-515 | a pass that ends without an answer or on a transient error is followed by another unless it is the fourth; any other is the last |
| LegacyProbe.ReportMeans | crates/freenet-git/src/wsclient.rs:629-705 | "no state" is reported exactly when every key of the last pass answered; "all timed out" and "all failed" only ever about one probe |
| LegacyProbe.HonestNewest | crates/freenet-git/src/wsclient.rs:534-705 | through a gateway that does not lie, the state found is the newest generation's, and "no state" is true |
| LegacyProbe.AnsweredLaterIff | crates/freenet-git/src/wsclient.rs:469-515 | retrying pays: if an honest gateway leaves the last GET of the first k < 4 passes open and answers from then on, one more pass suffices and finds a state exactly when some generation holds one |
| LegacyProbe.AnsweredIff | crates/freenet-git/src/wsclient.rs:469-497 | if the gateway always answers, one pass suffices and finds a state exactly when some generation holds one |
| ChunkedPack.ValidateIff | crates/types/src/chunked.rs:135-180 | a manifest is accepted if and only if its version is 1, its hashes match its count, and the count is the number of chunks the total needs; no product overflows |
| ChunkedPack.ChunkLen | crates/types/src/chunked.rs:186-194 | every chunk length is in (0, chunk_size], without overflow or underflow |
| ChunkedPack.LensSum | crates/types/src/chunked.rs:186-194 | the chunk lengths add up to the total |
| ChunkedPack.SplitShape | crates/types/src/chunked.rs:199-206 | splitting loses nothing, and every chunk but the last is full |
| ChunkedPack.SplitManifest | crates/types/src/chunked.rs:104-117 | the manifest of a split pack is accepted and describes its chunks |
| ChunkedPack.CollectChunksIntoSlots | crates/freenet-git/src/chunked.rs:440-460 | the first failed arrival ends the draining; otherwise each slot holds what arrived for it |
| ChunkedPack.AssembleChunks | crates/freenet-git/src/chunked.rs:466-482 | concatenates in slot order exactly when no slot is empty and the length is as expected |
| ChunkedPack.RoundTrip | crates/freenet-git/src/chunked.rs:440-482 | split, arrive in any order, assemble: the pack comes back |
| ChunkedPack.FetchChunkedPack | crates/freenet-git/src/chunked.rs:343-433 | succeeds exactly when the manifest and every chunk are answered with the right bytes and lengths; the last two checks never fail |
| ChunkedPack.FetchesPublished | crates/freenet-git/src/chunked.rs:343-433 | of a published pack, a fetch returns that pack or fails, and fails only if some GET is not served |
| PackCache.Cache.Read | crates/freenet-git/src/pack_cache.rs:141-158 | returns only bytes that hash to the key, and removes a file that does not |
| PackCache.Cache.Write | crates/freenet-git/src/pack_cache.rs:168-180 | best effort: no other file changes, a pack that could be written is found again by any readable lookup, one found before is still found, and bytes that hash to the key leave no damaged file that was not there before |
| PackCache.GetPackWithFetcher | crates/freenet-git/src/wsclient.rs:1147-1188 | result and files after one GET, for every state of files and disk; whatever is returned hashes to the key |
| PackCache.PutPack | crates/freenet-git/src/wsclient.rs:1057-1098 | succeeds if and only if one of the first three tries is confirmed, and stops there; only a confirmed PUT is cached |
| PackCache.CacheTransparent | crates/freenet-git/src/wsclient.rs:1147-1188 | after any operations and damage: a GET that would succeed without the cache returns the same with it, and any success is the one byte string with that hash |
| PackCache.OnlyDamagePoisons | crates/freenet-git/src/pack_cache.rs:141-180 | a file that does not hash to its name was damaged; no GET or PUT writes one |
| PackCache.PoisonEvicted | crates/freenet-git/src/pack_cache.rs:141-158 | reading a damaged file leaves nothing damaged under that name, and touches no other |
| PackCache.GetFillsCache | crates/freenet-git/src/wsclient.rs:1160-1188 | a pack fetched once is returned again whatever the network answers, as long as the cache could write and can be read |
| PackCache.PutReadsBack | crates/freenet-git/src/wsclient.rs:1074-1082 | after a confirmed PUT the pack reads back whatever the network answers, so reading back does not show that the network has it |
| Publish.Node.Put | crates/freenet-git/src/wsclient.rs:1057-1098 | the trace records a PUT only if it was confirmed; a network that confirms everything lets it succeed |
| Publish.Node.Get | crates/freenet-git/src/wsclient.rs:1111-1127 | the trace records a read only if the bytes hash to the key; a network that serves everything lets it succeed |
| Publish.PutChunks | crates/freenet-git/src/chunked.rs:204-223 | the chunks PUT so far, in completion order, stopping at a failure |
| Publish.ReadChunks | crates/freenet-git/src/chunked.rs:225-259 | the chunks read back so far, in completion order, stopping at a failure |
| Publish.PutManifest | crates/freenet-git/src/chunked.rs:261-287 | the manifest is PUT and compared with what is read back |
| Publish.PublishChunkedPack | crates/freenet-git/src/chunked.rs:149-297 | success means: every chunk PUT, every chunk read back, manifest PUT, manifest read back, in that order; failure leaves a prefix of that |
| Publish.ChunksBeforeManifest | crates/freenet-git/src/chunked.rs:161-297 | wherever it stops, a manifest that was PUT has all its chunks stored and read back |
| Publish.FullTraceBacks | crates/freenet-git/src/chunked.rs:161-297 | a completed publication stores everything a reader of the bundle needs |
| Publish.PublishableIff | crates/freenet-git/src/chunked.rs:161-203 | a pack can be chunked if and only if it is not empty and a `u32` counts its chunks |
| PushSession.PublishPack | crates/freenet-git/src/bin/git-remote-freenet.rs:1018-1072 | a pack of at most one chunk is a single bundle, a larger one is chunked; success means its bundle is backed |
| PushSession.PushOne | crates/freenet-git/src/bin/git-remote-freenet.rs:985-1130 | one ref: deletion and unbuildable packs are error lines, an unchanged target is an ok line, an unresolvable source aborts, and otherwise pack and delta |
| PushSession.HandlePush | crates/freenet-git/src/bin/git-remote-freenet.rs:896-1229 | at most one UPDATE, last, with exactly the delta of the refs that go through, valid, and only after everything it names is stored; any earlier failure sends none; on a network that serves everything a push whose refs all go through fails only if its UPDATE does or the merged state is not valid |
| PushSession.BundleShape | crates/freenet-git/src/bin/git-remote-freenet.rs:1018-1072 | a single bundle is a pack that fits one chunk; a chunked one has at least two chunks, just enough for the pack |
| PushSession.AskMeans | crates/freenet-git/src/bin/git-remote-freenet.rs:985-1130 | a ref asked for once is in the delta exactly when its ask names an object the ref is not at, and its old target is absent, local or forced over; its line is an error for a deletion and for an unforced ask over an old target that is not local |
| PushSession.NothingIff | crates/freenet-git/src/bin/git-remote-freenet.rs:1192-1198 | nothing is sent exactly when no ask moves its ref |
| PushSession.DescribesFrom | crates/freenet-git/src/bin/git-remote-freenet.rs:985-1130 | with a git that builds packs that way, the asks of a session are the refs of the history |
| PushSession.CrashLeavesNothingDangling | crates/freenet-git/src/bin/git-remote-freenet.rs:1018-1221 | stop anywhere and apply any of the updates sent: every bundle the contract gained was stored before |
| PushSession.DeltaIsSessionDelta | crates/freenet-git/src/bin/git-remote-freenet.rs:985-1130 | the delta sent is the one that the contract's history is made of |
| Rescue.PartitionBundles | crates/freenet-git/src/main.rs:924-996 | kept and skipped bundles add up to the index; the filter keeps exactly the bundles whose advertised tip some ref now points at |
| Rescue.Refill | crates/freenet-git/src/main.rs:775-791 | tasks are started in order while there is room |
| Rescue.RunTasks | crates/freenet-git/src/main.rs:752-829 | every kept bundle is started once, in order, at most the limit at a time, each finishes and is counted as done or failed |
| Rescue.RescueAll | crates/freenet-git/src/main.rs:603-855 | success means every bundle chosen was published again; the failures are exactly those that were not; a filter that skips everything is an error; with `--rescue-all`, and for a history or unstated mirror without the flag, every bundle is chosen, and otherwise exactly those whose tip some ref is at |
| Rescue.RescuedClones | crates/freenet-git/src/main.rs:857-996 | when the bundles that stand for the wanted refs were cut against nothing, a clone succeeds with only the kept bundles served |
| Rescue.SnapshotRescueKeeps | crates/freenet-git/src/main.rs:857-996 | after any snapshot history, rescuing only the current tips' bundles keeps every clone of current refs complete |
| Rescue.ServedCloneIff | crates/freenet-git/src/main.rs:857-996 | whatever the network still serves: a clone of any advertised commits succeeds with everything if and only if some round of an ordinary clone of them is served in full and holds everything |
| Rescue.AllRefsRescueIff | crates/freenet-git/src/main.rs:857-996 | with only the current tips' bundles rescued, a clone of all refs succeeds with everything if and only if the bundles that stand for the refs' targets together hold all that the refs reach |
| Rescue.OneTargetRescueIff | crates/freenet-git/src/main.rs:857-996 | with one current target, such a rescue keeps it clonable if and only if the bundle that stands for it was cut against nothing; otherwise every clone fails on a bundle no longer served |

## Left out

- WebSocket transport, tokio scheduling and wall-clock timeouts: the gateway is any function from the number of the operation and the key to an answer; backoff sleeps have no effect here.
- Git subprocesses: `rev-list` and `pack-objects` are the exact difference of two reachable sets (git may list a few objects more); delta compression, pack bytes and `index-pack` are not modelled.
- ed25519, BLAKE3, base58 and bincode: uninterpreted functions. Identity bundles, scrypt and key files are left out.
- Decoding of params, states, summaries and manifests: bytes are empty, garbled or an encoded value.
- Which entry a failing validation names when several are bad depends on map order; the model only says that something it names is bad.
- Which error string means "transient", "timeout" or "not found": the probe starts from the outcome.
- `force_push_allowed` and the grants: stored, signed and merged, but not enforced, as in the source.
- Phase 1.1 multi-writer rules and the `upgrade` pointer's use by clients.
- Concurrent pushers: a session's delta is merged into the state it read; two sessions that read the same state are covered by the merge laws only.
- Several pushes of the same ref in one session: the helper would read the same old target for each; sessions here name each ref once.
- Chunk transfers still in flight when another fails: operations are taken in the order in which they complete, and the program drops the rest. Nothing is claimed about connections being free of contention.
- Writing the mirror-mode extension on push, environment parsing, URL parsing, progress output and the CLI.
- The spelling of `bundle-tip:` keys: any injective spelling; other spellings of one id (upper-case hex) are excluded by `TipsWellFormed`.
- `local_pack.rs`, the pack contract's one-branch check, build scripts and WASM hash gates. In `rescue`, how one bundle is read and PUT again: a task either succeeds or fails.
- Missing disk or permission errors of the cache are the flags of `PackCache.Disk`; the temporary-file dance of an atomic write is one step.
- ContractHistory.ContractClones: asks that the packs' cuts do not lead round in a circle, because the promise is false without a condition (see Findings); `ContractClonesIff` has the exact one.
- Fetch.DownloadReachable: runs the loop for a given number of turns, because the loop need not end; `FetchRounds.EveryFetchEndsIff` says when it does.
- Fetch.HandleFetch: follows its rounds where tags arrive complete or the first round brings nothing. Where a tag arrived without what it names and a later bundle brings that, the walk may skip the tag as walked; then only what every outcome says by itself is claimed.
