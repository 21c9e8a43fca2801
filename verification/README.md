# mee-pdn, verified

A Dafny model of the hard parts of the Mee personal data network: the range reconciliation two replicas run, the membership view
a pod's event chains fold into, the access decisions taken from it and how long they stand, and the concurrent protocols around
them: payload collection, co-located passes, a facade's bring-ups and stops, device linking, one-time invites.

Concurrency is modelled as a state machine over the steps between awaits and lock releases; `Run` folds any sequence of enabled
steps, and the results hold of every such run. Clocks, randomness, the network and the storage are parameters or free choices of
the steps. Objects the source updates in place are classes whose methods are tied to functions of the old state; the state
machines take their steps by the same functions.

| file | models |
|---|---|
| `Reconcile.dfy` | set reconciliation by range fingerprints, from one message to a whole session |
| `Membership.dfy` | the membership view: settling every chain's sequences, breaking loops, the last-owner guard |
| `LastOwner.dfy` | how many passes the last-owner guard takes |
| `Rests.dfy`, `Past.dfy` | what a departed replica still takes, by a worklist over event keys; what a departure depends on |
| `Access.dfy`, `Freshness.dfy` | session access decisions; kept views and the recheck at a frozen snapshot |
| `Registry.dfy`, `Imports.dfy` | pods and the two stores of each; a record store imported onto a tombstone |
| `Handle.dfy` | one facade handle: bring-ups, overtaking stops, one live runtime |
| `Collection.dfy` | payload tags against blob collection |
| `CoLocated.dfy` | the pass over identities hosted together, by remembered write counts |
| `Tombstone.dfy`, `Redial.dfy` | when a departed identity's tombstone has converged; when it dials again |
| `Linking.dfy`, `Ceremony.dfy` | a link's reservation and rollback; one-time secrets |
| `Heads.dfy` | author heads and their size-limited encoding |
| `PodRecords.dfy` | which pods an identity holds, from its private metadata |
| `PathSelector.dfy` | the endpoint's choice among network paths |
| `Classifier.dfy`, `Matching.dfy` | the sync test's classifier; the build cleaner's pairing |
| `Ids.dfy`, `Options.dfy`, `Sets.dfy` | what the others share |

## Where the code does less than it says

Each has a lemma with the failing case and a lemma with the exact or guarding condition.

- An accept that only takes a member's statements rests on write counts even when its view awaited a payload, so it stands after
  the payload arrives (`Freshness.TakenStatementsGoStale`); it is the decision of now exactly when
  `Freshness.TakenStatementsStandIff` says, and every other accept always (`Freshness.DecisionStands`).
- An identity hosted while a collection runs drops its writers' tags, never having been read, so the sweep can take the payload of
  an entry written here (`Collection.LateHostLoses`); exactly such a sweep does (`Collection.StepKeeps`,
  `Collection.WrittenPayloadsStay`), and none where hosting and collecting do not overlap (`Collection.HostedBetweenLosesNone`).
- A remote entry that lands after a collection read its engine loses a payload lying in the store if the sweep comes before the
  notice is tagged (`Collection.LateArrivalIsLost`, exactly when: `Collection.LateArrivalIsSwept`); nothing else is lost
  (`Collection.SweepSparesReferenced`).
- A dropped link's clean-up task that ends between the drops of the link's two guards lets a later link's reservation be released
  under it (`Linking.TwoLinksInFlight`); exactly that step breaks the invariant (`Linking.StepKeeps`), and it comes to two links
  exactly where the node does not host the identity (`Linking.OvertakenLetsTwoIn`, `Linking.HostedOvertakenLetsNoneIn`).
- Encoding heads drops all but the greatest author of a timestamp, so an author left out can be newer than one kept
  (`Heads.NewerLeftOutHappens`); `Heads.NewerLeftOut` and `Heads.WholeIffDistinct` give the exact conditions.
- `set_pod_records` checks no other role (`Registry.Registry.SetPodRecords`). Its one caller with a store guards the namespace
  first, but imports it over an await in between, and another pod registered on it meanwhile leaves it two roles
  (`Imports.TwoRoles`); a guarded set keeps one role each exactly when no other role took the namespace since the guard and still
  has it (`Imports.GuardedSet`).
- A pod's own record is looked up under its lower-case spelling while parsing takes either case
  (`PodRecords.OtherSpellingIsMissed`; exactly when the two agree: `PodRecords.OwnRecordAgrees`).
- The cleaner's description has each unit keep its closest directory; the code gives a directory to the closest pair first, so a
  unit may keep another (`Matching.FartherKept`; exactly when it keeps its closest: `Matching.KeepsClosest`,
  `Matching.AllKeepClosest`).
- A co-located session that fails leaves the remembered reading alone, so a pair whose sessions keep failing is dialed at every
  visit (`CoLocated.FailingPairIsRedialed`); the failures are all that exceeds a fixed bound (`CoLocated.SessionsEnd`).
- The guard over the last owner is said to need two passes for honest owners' concurrent demotions, and more only for what modified
  devices write. Two owners that demote each other at once, one promoting the other again after each round, need a pass more for
  every round, and with four rounds the view is left with no owner (`LastOwner.RoundsRunOut`, an if and only if in the number of
  rounds); every event of those four is one the code writes on the view before it (`LastOwner.RoundsAreHonest`). Two passes do where
  no event follows or names a demotion (`LastOwner.ConcurrentDemotionsSettle`), and four where there are at most three demotions
  (`LastOwner.FewDemotionsKeepOwner`): sufficient conditions, sharp by the rounds. Then an owner stands or there is no member whose
  ownership a demotion ended, not always an owner (`LastOwner.SoleOwnerLeaves`).

## Model
| member | source | states |
|---|---|---|
| Reconcile.SplitHalves | crates/pdn-store/src/ranger.rs:430-531 | a range with more than one entry, wrapping ones included, splits into two ranges that partition it, the first with half its entries rounded down and the second with the rest |
| Reconcile.ProcessMessage | crates/pdn-store/src/ranger.rs:312-541 | one message stores what it offers of the admitted and replies part by part from the frozen view, each part answered as `Reconcile.ReplyAnswers` says |
| Reconcile.ReplyAnswers | crates/pdn-store/src/ranger.rs:341-531 | entries shown unasked are answered by exactly those of the range their sender lacks or has older; an agreeing fingerprint by nothing; another by the range's entries where there is at most one or the peer shows none, and else by two halves, each by its entries up to the set size and by its fingerprint beyond |
| Reconcile.PutAllIsJoin | crates/pdn-store/src/ranger.rs:546-558 | storing entries one by one gives their join with what was there: an upper bound of both made of nothing else |
| Reconcile.PutAllIgnoresOrder | crates/pdn-store/src/ranger.rs:546-558 | the stored result reads neither order nor repetition of the entries offered |
| Reconcile.ReplyRanksLower | crates/pdn-store/src/ranger.rs:372-531 | every part of a reply ranks strictly below the part it answers, so a session cannot go on for ever |
| Reconcile.ReplyIsSparing | crates/pdn-store/src/ranger.rs:341-531 | a reply's fingerprint stands for more entries than the set size; entries go unasked only where they are no more than that, or one, or the peer showed none, and in answer only those the peer lacks or has older |
| Reconcile.RoundKeepsPending | crates/pdn-store/src/ranger.rs:341-531 | every entry one side still owes the other is carried or asked for by the message in flight, after every round |
| Reconcile.RoundKeepsHonest | crates/pdn-store/src/ranger.rs:341-531 | every fingerprint and item of a reply is true of the replier's view |
| Reconcile.OwedSuffices | crates/pdn-store/src/ranger.rs:341-371 | receiving only the entries one lacked leaves the same store as receiving the other side's whole view |
| Reconcile.Session | crates/pdn-store/src/net/codec.rs:226-262 | a session ends within the halvings of both views and three messages, in one exactly when the fingerprints agree; its transcript is the replies each side owes the message before; it leaves each live store joined with the other's served view as admitted |
| Reconcile.SessionConverges | crates/pdn-store/src/net/codec.rs:226-262 | served and admitted whole, both replicas end equal to the join of the two |
| Membership.RecordAllIsWinner | crates/data-layer/src/pod/membership_view.rs:832-849 | recording events in any order keeps the one with the highest precedence |
| Membership.WinnerIsUnique | crates/data-layer/src/pod/membership_view.rs:832-849 | of one set of events at a sequence there is one winner |
| Membership.WinnerRanks | crates/data-layer/src/pod/membership_view.rs:988-999 | a removal wins over a leave, that over a demotion, then a promotion, the creation and a join |
| Membership.AfterFollowsWinner | crates/data-layer/src/pod/membership_view.rs:805-815 | the standing after a sequence is what its winning event makes of the one before |
| Membership.SettledAlike | crates/data-layer/src/pod/membership_view.rs:700-727 | two groundings of the same events settle a sequence both reach alike |
| Membership.StuckStatesAgree | crates/data-layer/src/pod/membership_view.rs:617-648 | however sequences are opened and closed, a pass gets stuck in the same states |
| Membership.PassIsDeterministic | crates/data-layer/src/pod/membership_view.rs:617-662 | two whole passes over the same events, loop breaking included, end alike |
| Membership.OpenKeeps | crates/data-layer/src/pod/membership_view.rs:664-698 | opening a sequence keeps the pass's invariant |
| Membership.CloseKeeps | crates/data-layer/src/pod/membership_view.rs:700-727 | closing one settles its state, releases the events waiting on it and keeps the invariant |
| Membership.KillKeeps | crates/data-layer/src/pod/membership_view.rs:732-787 | deciding looped events keeps the invariant |
| Membership.Settle | crates/data-layer/src/pod/membership_view.rs:617-648 | working the open and closing sequences off, in any order, ends grounded with only waiting events left |
| Membership.Looped | crates/data-layer/src/pod/membership_view.rs:732-787 | the events found looped are exactly those that wait on themselves through others |
| Membership.BreakLoops | crates/data-layer/src/pod/membership_view.rs:732-787 | rounds of settling and breaking continue the one history of the pass, at most the bounded number, and every event is decided |
| Membership.Evaluate | crates/data-layer/src/pod/membership_view.rs:617-662 | a pass gives every candidate a verdict, the one its history of phases determines, and the verdicts and standings explain each other as `Membership.PassExplained` says |
| Membership.PassExplained | crates/data-layer/src/pod/membership_view.rs:700-830 | of each verdict what the standings its event names were, and of each standing what the counted events at its point and the standing before it make of it |
| Membership.DeadAreLooped | crates/data-layer/src/pod/membership_view.rs:732-787 | an event is decided as looped exactly when in some round before its sequence was reached, its transition allowed and its actor's point unsettled, and it waited on itself through others so waiting, or the rounds were up |
| Membership.StuckHoldsLoop | crates/data-layer/src/pod/membership_view.rs:732-787 | a stuck pass always holds a loop, so breaking loops always frees something |
| Membership.StandingIsRooted | crates/data-layer/src/pod/membership_view.rs:817-830 | where a member stands, counted joins lead back to a creation: the first on its chain at or before that point, each next on the actor's chain no later than the actor stood |
| Membership.OwnershipIsRooted | crates/data-layer/src/pod/membership_view.rs:817-830 | where an owner stands, counted promotions lead back to a creation in the same way, each by an actor owning the pod where its key names |
| Membership.AuthorityIsRooted | crates/data-layer/src/pod/membership_view.rs:205-221 | over a whole pass, loop breaking included: the joins behind every standing it ends with, and the promotions behind every ownership |
| Membership.DemotionsToSetAside | crates/data-layer/src/pod/membership_view.rs:855-904 | where an owner stands nothing is set aside; else exactly the counted demotions, nothing counted since nor a removal or leave beside them, of the one member still there whose lowest demoting actor the order takes last |
| Membership.SetAsideIsUnique | crates/data-layer/src/pod/membership_view.rs:855-904 | a result determines what its guard sets aside |
| Membership.EndingMeans | crates/data-layer/src/pod/membership_view.rs:884-904 | a demotion ends an ownership exactly when it counted, nothing counted after it on the chain and no removal or leave beside it |
| Membership.GuardKeepsOwner | crates/data-layer/src/pod/membership_view.rs:855-904 | a pass that calls for nothing new leaves an owner, or nobody still a member whose ownership a demotion ended |
| Membership.ViewIsDeterministic | crates/data-layer/src/pod/membership_view.rs:205-221 | replicas holding the same events compute the same view, whatever order either worked in |
| Membership.View | crates/data-layer/src/pod/membership_view.rs:205-221 | passes until the guard is satisfied, at most four, the last of them explained; a settled view keeps an owner or had none a demotion ended |
| LastOwner.SatisfiedMeans | crates/data-layer/src/pod/membership_view.rs:855-904 | a pass of the guard calls for nothing new exactly when it leaves an owner or no member whose ownership a demotion ended |
| LastOwner.FewDemotionsSettle | crates/data-layer/src/pod/membership_view.rs:970-973 | with at most three demotions among the events the passes end with the guard satisfied |
| LastOwner.FewDemotionsKeepOwner | crates/data-layer/src/pod/membership_view.rs:855-904 | and then an owner stands, or no member whose ownership a demotion ended |
| LastOwner.SoleOwnerLeaves | crates/data-layer/src/pod/membership_view.rs:855-904 | the view of a creation and its leave has no demotion and no owner |
| LastOwner.ConcurrentDemotionsSettle | crates/data-layer/src/pod/membership_view.rs:970-973 | where no event follows a demotion on its chain or names the point it makes, at most two passes are taken and the guard ends satisfied |
| LastOwner.RoundsRunOut | crates/data-layer/src/pod/membership_view.rs:970-973 | after `a - 1` rounds of two owners demoting each other the guard takes `a` passes, four at most; the first owns the pod, and the second if promoted again, exactly when `a` is at most four, and else nobody does |
| LastOwner.RoundsAreHonest | crates/pdn-node/src/pods.rs:786-862 | each promotion and demotion of up to four rounds is by an owner on another member, at the end of both chains, as the view of the events before shows them |
| Rests.Of | crates/data-layer/src/pod/past.rs:71-111 | the worklist ends, having found nothing its own chain does not rest on and missed nothing an event found names |
| Rests.AdmitsWhatItRestsOn | crates/data-layer/src/pod/past.rs:113-122 | a departed replica takes its own chain whole, another's exactly as far as a path of actors leads, and those actors' statements |
| Rests.RestsGrow | crates/data-layer/src/pod/past.rs:56-61 | what the worklist's result over some events admits, its result over more events admits |
| Past.Close | crates/data-layer/src/pod/past.rs:38-47 | the worklist ends with exactly the entries some chain of dependencies leads to: the least set that holds, with each entry it has, the chains, keys and device statements that entry needs |
| Past.ReachedIsLeast | crates/data-layer/src/pod/past.rs:258-277 | what chains of dependencies lead to is the least set complete in that sense, said of the entries and keys themselves |
| Past.DeparturePast | crates/data-layer/src/pod/past.rs:25-54 | none exactly without a counted removal or leave at the sequence; else the least such set over the removals, or without one the leaves |
| Past.PastIsClosed | crates/data-layer/src/pod/past.rs:258-277 | with an event a past holds every event before it on its chain, and on its actor's as far as it names |
| Past.PastAlone | crates/data-layer/src/pod/past.rs:1-5 | a pass over a past alone settles every point an event of it reads as the pass over the whole store did |
| Past.PastShowsDeparture | crates/data-layer/src/pod/past.rs:19-54 | and ends with the member departed at the same sequence |
| Past.PastViewShowsRemoval | crates/data-layer/src/pod/past.rs:19-54 | for a removal whose remover the past names no further, the whole view of the past takes one pass and shows the same departure |
| Registry.Registry.RegisterPod | crates/data-layer/src/registry.rs:45-72 | refused exactly for a pod held or a store that is one of another pod, changing nothing; else each store gets the role named, and one role per namespace is kept |
| Registry.Registry.SetPodRecords | crates/data-layer/src/registry.rs:77-87 | the record store named is the pod's, every other role as it was; one role per namespace survives exactly when the new store held no other |
| Registry.Registry.UnregisterPod | crates/data-layer/src/registry.rs:89-95 | removes the pod, returns its binding, keeps one role per namespace |
| Registry.Registry.PodOf | crates/data-layer/src/registry.rs:111-125 | finds a pod and store exactly when one holds the namespace; with one role each there is no other |
| Imports.StepKeeps | crates/data-layer/src/node.rs:1693-1711 | of all steps of imports, registrations, departures and discards, one role each is kept exactly by those that set no namespace another role has |
| Imports.RolesMove | crates/data-layer/src/node.rs:1693-1711 | what each step makes of a namespace's role: a set puts the guarded namespace in place of the record store, a registration let in brings both stores, forgetting ends the record store and discarding both |
| Imports.OneRoleOverRuns | crates/data-layer/src/node.rs:1911-1928 | over every run without such a set each namespace is one store of one pod |
| Imports.GuardedSet | crates/data-layer/src/node.rs:1693-1711 | whatever runs between guard and set, the set keeps one role each exactly when the pod is gone or no other role took the namespace since the guard and still has it |
| Imports.TwoRoles | crates/data-layer/src/node.rs:1693-1711 | a run from the empty registry in which another pod is registered on the namespace between guard and set and it ends in two roles |
| Access.DecisionIsPolicy | crates/data-layer/src/access.rs:511-741 | every way through the decision comes to one policy: which sessions open, exactly which entries each may see, and exactly which it may bring |
| Access.EgressIsConfined | crates/data-layer/src/access.rs:511-741 | a pod store goes out whole exactly to the entitled; an accepted record-store session is whole or denied; anyone else sees at most a departure's past or this identity's own statements |
| Access.IngestIsConfined | crates/data-layer/src/access.rs:511-741 | an accept by an identity not departed admits an entry exactly when it holds the pod and the caller is entitled to the whole, or, on the membership store, the caller is a former member on a listed device and the entry is in its past, or a current member and the entry is its statement |
| Access.RestsExactly | crates/data-layer/src/access.rs:696-706 | an accept rests on the write counts read before it, and on nothing a write count shows exactly where it serves another identity from a read awaiting a payload |
| Freshness.CountTellsFreshness | crates/data-layer/src/access.rs:798-829 | a read awaiting no payload is what a rebuild reads at any later moment at which the count it began under stands |
| Freshness.Keep | crates/data-layer/src/access.rs:850-865 | keeping a view keeps the others or drops them together, and never more than 256 |
| Freshness.Views.KeepView | crates/data-layer/src/access.rs:850-865 | the new map of kept views, in which the view kept is found under its store and count |
| Freshness.Views.KeptViewOf | crates/data-layer/src/access.rs:844-848 | a view is found exactly under the store and count it was kept with |
| Freshness.HitIsRebuild | crates/data-layer/src/access.rs:804-810 | a hit is what a rebuild made within the look would have read, whenever the view was kept |
| Freshness.KeptViewsRefineRebuilding | crates/data-layer/src/access.rs:798-829 | over every interleaving of looks, writes and payload arrivals, each look answers what a rebuild between its start and end would have read, and no more than 256 views are kept |
| Freshness.LookAgainHits | crates/data-layer/src/access.rs:798-829 | what a look under a count read, awaiting nothing, answers the next look under that count while it is kept, without a read |
| Freshness.LookEnds | crates/data-layer/src/access.rs:798-829 | no look waits on another: one that has not ended can end at any moment from then on |
| Freshness.DecisionStands | crates/data-layer/src/access.rs:289-325 | an accept resting on write counts, read one after the other before its reads, is while they stand the decision the stores give now, unless it takes statements from a read awaiting a payload |
| Freshness.TakenStatementsStandIff | crates/data-layer/src/access.rs:574-584 | an accept that takes a member's statements stands at a later moment exactly while the view then has the member current and this identity not departed, and serves the caller's device nothing |
| Freshness.SnapshotIsJudgedAsOfItself | crates/pdn-store/src/net/codec.rs:517-577 | with the recheck, what is in force over a frozen snapshot is the decision of reads no older than the snapshot, but for that one case, which is served nothing |
| Freshness.SnapshotReveals | crates/pdn-store/src/net/codec.rs:517-577 | an entry the snapshot reveals goes to a caller the stores, read no earlier than the freeze, entitle to the whole or to a past that holds it |
| Freshness.TakenStatementsGoStale | crates/data-layer/src/access.rs:574-584 | a store holding the named member's device statement, its payload awaited at both reads: the payload arrives, no count moves, the statements-only accept stands, and a decision taken then serves the store whole |
| Handle.Facade.ClaimBringUp | crates/pdn-mobile/src/node.rs:583-598 | a bring-up is claimed exactly from down, else refused changing nothing |
| Handle.Facade.ClaimStop | crates/pdn-mobile/src/node.rs:171-187 | a stop takes over whatever is up or coming up, and is a no-op when down |
| Handle.Facade.Install | crates/pdn-mobile/src/node.rs:682-694 | a runtime is installed exactly when its bring-up still holds the claim, and then the handle is up with that runtime |
| Handle.Facade.Settle | crates/pdn-mobile/src/node.rs:199-203 | only the claim's own task takes the handle down |
| Handle.MoveKeeps | crates/pdn-mobile/src/node.rs:547-598 | every task step keeps the queue of tasks each waiting for the one it overtook |
| Handle.OneRuntime | crates/pdn-mobile/src/node.rs:41-56 | over every run at most one runtime is alive, and none while the handle is down |
| Handle.RuntimeStays | crates/pdn-mobile/src/node.rs:547-700 | a runtime lives after a step exactly when it did and the step does not take it down, or a bring-up call on a handle that is down made it |
| Handle.StoppedMeansGone | crates/pdn-mobile/src/node.rs:162-207 | once a stop has ended every runtime alive was brought up after it |
| Handle.BringUpLands | crates/pdn-mobile/src/node.rs:665-700 | over every run, a bring-up no later call overtook ends with the handle up with its runtime exactly when its spawn ended well, and else down |
| Handle.OvertakenLeavesState | crates/pdn-mobile/src/node.rs:665-700 | an overtaken task never changes a later claim |
| Handle.FirstCanMove | crates/pdn-mobile/src/node.rs:187-206 | while a task has not ended some task can move: the waits close into no ring |
| Handle.CallsReturn | crates/pdn-mobile/src/node.rs:187-206 | with no further call the tasks move a bounded number of times, and when all have ended the handle is up or down |
| Collection.HeldPayloads.Hold | crates/pdn-store/src/engine/held.rs:26-31 | a tag is kept once per payload, and only after a first collection read |
| Collection.HeldPayloads.Wants | crates/pdn-store/src/engine/held.rs:34-37 | a tag is wanted exactly when holding it would change anything |
| Collection.HeldPayloads.Take | crates/pdn-store/src/engine/held.rs:41-45 | takes every tag and marks the engine read |
| Collection.HeldPayloads.Restore | crates/pdn-store/src/engine/held.rs:48-53 | puts a failed read's tags back beside the ones held since |
| Collection.StepKeeps | crates/pdn-store/src/engine.rs:836-846 | a step of writers, store actor, notices, hosting or collector keeps each referenced payload tagged, live, to be read yet, or pending, exactly when it is no sweep taking a payload of an engine hosted since its run began |
| Collection.WrittenPayloadsStay | crates/pdn-store/src/api.rs:266-287 | the payload of each entry written here, and of each insert on its way, is in the blob store all along a run exactly when no sweep of it takes one of an engine hosted since that collection began |
| Collection.HostedBetweenLosesNone | crates/data-layer/src/node.rs:3353-3361 | where no identity is hosted during a collection no sweep does |
| Collection.LateHostLoses | crates/pdn-store/src/engine/held.rs:12-31 | with any number of engines some run hosts one more after they are read, and sweeps the payload of its local entry |
| Collection.SweepSparesReferenced | crates/data-layer/src/node.rs:3329-3374 | of the engines it read a sweep takes a referenced payload only where a remote entry's notice has not come to a tag |
| Collection.FailedReadRestores | crates/pdn-store/src/engine/held.rs:46-53 | over every run a read that fails, whatever came since its tags were taken, leaves each of them held again |
| Collection.NoticesTold | crates/pdn-store/src/engine/live.rs:2097-2118 | over every run a remote insert's notice is asked for, tagged if wanted and its tag held, each once and in that order |
| Collection.LateArrivalIsSwept | crates/pdn-store/src/engine/live.rs:2097-2118 | over every run that has read all engines, a stored payload whose entry arrives then outlives the sweep exactly when another read entry or a tag names it |
| Collection.LateArrivalIsLost | crates/pdn-store/src/engine/live.rs:2097-2118 | with any number of engines, and in any of them, some run from the start ends in a sweep that takes a payload a remote entry references |
| CoLocated.Ordered | crates/data-layer/src/node.rs:5039-5048 | the pair's key names both identities in their order |
| CoLocated.StepKeeps | crates/data-layer/src/node.rs:5083-5140 | every write, delivery and step of the pass keeps what is remembered of a pair true: readings, frozen sides, entries on their way |
| CoLocated.SkippedPairAgrees | crates/data-layer/src/node.rs:5101-5106 | over every run, for a pair skipped, all its last session served and admitted towards the dialer is there, and all the other way is there or on its way; served and admitted whole, with that landed, the contents are equal |
| CoLocated.SessionsEnd | crates/data-layer/src/node.rs:5083-5140 | once no entry comes from outside, the sessions begun for a pair number at most those that failed, a bound fixed at that moment and the one open, from whichever side the pass walks |
| CoLocated.VisitEnds | crates/data-layer/src/node.rs:5083-5140 | after every run a visit under way can end in a skip or a success, serving both stores whole, with no failure and nothing written meanwhile |
| CoLocated.FailingPairIsRedialed | crates/data-layer/src/node.rs:5083-5140 | for every number there is a run without a write in which a pair is dialed that often and every session fails |
| Tombstone.Tombstones.Converged | crates/data-layer/src/node.rs:4426-4473 | the kept departure is taken up, kept or dropped by what the view shows, the answer is whether it has converged, and other pods' are left |
| Tombstone.KeptOverStretch | crates/data-layer/src/node.rs:4426-4473 | over any run one departure is kept for a whole stretch of derivations that show it, converged exactly when a derivation in it met a settling session and none since found the record store; or nothing is |
| Tombstone.KeptExactly | crates/data-layer/src/node.rs:4426-4473 | a tombstone is what is kept after a run exactly when some stretch of the run keeps it so |
| Tombstone.CountCarriesView | crates/data-layer/src/node.rs:4378-4382 | a snapshot whose count reached the one read past the view holds what the view was built from |
| Tombstone.ConvergedIsSound | crates/data-layer/src/node.rs:4562-4571 | a converged tombstone reached a current member's replica from a snapshot holding its departure, the record store forgotten since |
| Redial.Seen.Note | crates/data-layer/src/node.rs:4252-4279 | what an event adds, and whether it may list a device |
| Redial.Seen.TakeBrought | crates/data-layer/src/node.rs:4283-4291 | each marked peer met is returned once and its mark cleared |
| Redial.DialsAgain | crates/data-layer/src/node.rs:4165-4210 | one round dials a peer once more exactly when the pod is held and departed, the peer was met, and it was marked or brought an entry; its mark stays exactly while it is not so met |
| Redial.MarkMeans | crates/data-layer/src/node.rs:4165-4210 | over any rounds a peer is marked exactly when some round brought its entry and none from it on met it with the pod held |
| Redial.DialsPerInsert | crates/data-layer/src/node.rs:4165-4210 | over any rounds a peer is dialed again at most once per entry that arrived from it |
| Redial.QuietRoundsDialNobody | crates/data-layer/src/node.rs:4165-4210 | with the marks used up and nothing arriving nobody is dialed again |
| Linking.StepKeeps | crates/pdn-node/src/linking.rs:446-604 | a step keeps one claim to the reservation, the half up while hosted and as each armed link has it, and not up but where hosted or to be undone, exactly when it is no drop overtaken by its own clean-up |
| Linking.OneLinkAtATime | crates/pdn-node/src/linking.rs:229-269 | at most one link is in flight; another is let in exactly where the identity is not hosted and nothing is left to release it; when all has ended the reservation is free and the half stands exactly when the identity is hosted |
| Linking.HostedByCatchUp | crates/pdn-node/src/linking.rs:271-440 | over every run the identity is hosted exactly when a link was provisioned, imported and caught up |
| Linking.LinksTold | crates/pdn-node/src/linking.rs:271-440 | over every run where a link is follows from which of its own steps went well: on to the import, the catch-up and the confirmation, or undone after a failure, or dropped, its clean-up handed over exactly between provision and commit |
| Linking.EndsInTime | crates/pdn-node/src/linking.rs:484-495 | every move of a link or clean-up leaves less to do, so reservations are released |
| Linking.SomethingMoves | crates/pdn-node/src/linking.rs:549-563 | while anything has not ended something can move |
| Linking.TwoLinksInFlight | crates/pdn-node/src/linking.rs:549-563 | a run from the start on which a clean-up ends between the two guards' drops and two links are in flight |
| Linking.OvertakenLetsTwoIn | crates/pdn-node/src/linking.rs:549-563 | an overtaken drop on a node that does not host the identity always has a continuation with two links in flight |
| Linking.HostedOvertakenLetsNoneIn | crates/pdn-node/src/linking.rs:229-269 | on a node that hosts it such a drop has no continuation with two links in flight |
| Ceremony.PendingInvites.Mint | crates/pdn-node/src/ceremony.rs:85-108 | sweeps what expired and adds the secret; a lifetime out of range changes nothing |
| Ceremony.PendingInvites.VerifyAndBurn | crates/pdn-node/src/ceremony.rs:112-119 | answers and burns exactly a pending secret before its expiry |
| Ceremony.PendingInvites.MarkUsed | crates/pdn-node/src/ceremony.rs:123-129 | marks exactly a burned secret |
| Ceremony.PendingInvites.State | crates/pdn-node/src/ceremony.rs:131-141 | what is said of a secret for what it was minted for |
| Ceremony.AcceptedOnce | crates/pdn-node/src/linking.rs:147-205 | over every run of concurrent halves a secret is accepted from one connection at most, before its expiry, and used names that connection's newcomer |
| Ceremony.AcceptedFirst | crates/pdn-node/src/ceremony.rs:110-119 | over every run a secret is accepted exactly from the connection that first presents it before its expiry |
| Ceremony.MintedAs | crates/pdn-node/src/ceremony.rs:85-108 | over every run a secret is in the book from the step that minted it on, for what that step names and until its lifetime is over |
| Ceremony.StateMovesOn | crates/pdn-node/src/ceremony.rs:131-141 | one step leaves what is said of a secret or takes it along: pending to expired or burned, expired to unknown, burned to used or unknown, used to unknown; unknown is for good |
| Ceremony.SaidOnlyMovesOn | crates/pdn-node/src/ceremony.rs:131-141 | over every run and any continuation of it: after expired only unknown, after burned used or unknown, after used by a newcomer that newcomer or unknown, after unknown nothing else |
| Ceremony.AskedForAnother | crates/pdn-node/src/ceremony.rs:131-141 | over every run nothing is said of a secret for a subject it was not minted for |
| Ceremony.ForgottenBySweep | crates/pdn-node/src/ceremony.rs:85-108 | over every run a minted secret is unknown exactly when another was minted after it expired |
| Heads.NoNewsEitherWay | crates/pdn-store/src/heads.rs:44-56 | neither side has news for the other exactly when the heads are equal |
| Heads.AuthorHeads.Insert | crates/pdn-store/src/heads.rs:20-25 | the author's timestamp is the greater of the one given and the one there, and no other author's changes |
| Heads.AuthorHeads.HasNewsFor | crates/pdn-store/src/heads.rs:44-56 | counts the authors newer here, and answers nothing when there are none |
| Heads.AuthorHeads.Encode | crates/pdn-store/src/heads.rs:67-85 | encodes the longest run, newest first, that fits of one item per timestamp with its greatest author |
| Heads.OneListing | crates/pdn-store/src/heads.rs:68-74 | there is one such list of items |
| Heads.CapacityIsU64 | crates/pdn-store/src/heads.rs:9-9 | a ten-byte varint carries exactly the 64-bit numbers |
| Heads.Decode | crates/pdn-store/src/heads.rs:88-95 | fails exactly on malformed bytes, else holds every author of the items read at the greatest of its timestamps and no other author |
| Heads.BytesReadBack | crates/pdn-store/src/heads.rs:88-95 | the wire format of any items reads back to them, whatever follows |
| Heads.EncodedIsReadBack | crates/pdn-store/src/heads.rs:67-95 | an encoding is within the limit, misses nothing that fits, decodes to exactly the pairs kept and is no news to the original |
| Heads.LeftOut | crates/pdn-store/src/heads.rs:68-81 | an author left out is tied with a greater one kept, or older than all kept |
| Heads.NewerLeftOut | crates/pdn-store/src/heads.rs:68-81 | nobody left out is newer than one kept exactly when each kept timestamp but the oldest is one author's alone |
| Heads.NewerLeftOutHappens | crates/pdn-store/src/heads.rs:68-81 | three authors of whom the one left out is newer than one kept |
| Heads.WholeIffDistinct | crates/pdn-store/src/heads.rs:67-95 | without a limit the heads come back whole exactly when every timestamp is one author's alone |
| PodRecords.KeyReadsBack | crates/data-layer/src/private_metadata.rs:160-172 | a record's key reads back to its pod and sequence |
| PodRecords.ParsedIsKey | crates/data-layer/src/private_metadata.rs:164-172 | and no other key does, up to the case of the pod's digits |
| PodRecords.PodRecords | crates/data-layer/src/private_metadata.rs:568-586 | the loop over the entries computes the fold |
| PodRecords.FoldIsHighest | crates/data-layer/src/private_metadata.rs:566-586 | the fold is the highest sequence of each pod recorded, held exactly when no tombstone is at it |
| PodRecords.FoldIgnoresOrder | crates/data-layer/src/private_metadata.rs:566-586 | it reads neither order nor repetition |
| PodRecords.FoldMerges | crates/data-layer/src/private_metadata.rs:566-586 | two replicas' entries fold to their folds merged |
| PodRecords.MergeIsJoin | crates/data-layer/src/private_metadata.rs:566-586 | merging is commutative, associative and idempotent |
| PodRecords.OwnRecordFound | crates/data-layer/src/private_metadata.rs:557-564 | a pod's own record is found exactly when some entry spells the pod in lower case |
| PodRecords.OwnRecordAgrees | crates/data-layer/src/private_metadata.rs:557-564 | it is what the whole fold says of the pod exactly when an entry at the highest sequence spells it so and, where a tombstone sits there, a tombstone does |
| PodRecords.HeldOrDeparted | crates/data-layer/src/private_metadata.rs:530-555 | the pods recorded are those held and those departed, none both; a pod is held exactly when no tombstone is at its highest sequence |
| PodRecords.OtherSpellingIsMissed | crates/data-layer/src/private_metadata.rs:557-564 | one entry whose pod begins with an upper-case digit is folded, and missed by the pod's own record |
| PathSelector.Choose | crates/data-layer/src/path_selector.rs:102-130 | answers the preferred path, judged by the entries themselves: data comes in on it, then primary, then on how many connections, then the shortest round trip, then first read; but keeps a carried current path not outranked nor slower by the margin |
| PathSelector.OneAnswer | crates/data-layer/src/path_selector.rs:118-129 | the answer does not depend on the order the paths are gone through |
| PathSelector.ChosenIsKept | crates/data-layer/src/path_selector.rs:99-130 | the path chosen stands no worse than the one left, and chosen again is kept |
| PathSelector.MarginAtEqualStanding | crates/data-layer/src/path_selector.rs:127-129 | at equal standing a path is left exactly for one faster by the margin, or where the sum saturates |
| PathSelector.SwitchingBackTakesTwice | crates/data-layer/src/path_selector.rs:127-129 | going there and back at equal standing takes twice the margin |
| Classifier.Gaps | sync-test/classify.py:64-71 | the gaps are exactly the events something was lost before |
| Classifier.NothingLostBefore | sync-test/classify.py:55-61 | nothing was lost up to an event exactly when all up to it are one subscription's, numbered from zero |
| Classifier.Trusted | sync-test/classify.py:228-234 | the trusted pairs are the longest run with both sides before every gap and matching counts |
| Classifier.FoundMeans | sync-test/classify.py:279-290 | a violation is a trusted qualifying session that ended before the entry arrived; an absent entry is lost with such a session, and without one undetermined where sessions were distrusted and else stalled |
| Classifier.LessTrustFindsLess | sync-test/classify.py:220-236 | trusting fewer sessions creates no violation and no loss |
| Classifier.Tally | sync-test/classify.py:275-290 | the counters count the findings |
| Classifier.StatesSumUp | sync-test/classify.py:284-290 | the expected entries are the sum of the eight final states |
| Classifier.VerdictMeans | sync-test/classify.py:364-380 | a failure is exactly a violation, a lost, content-lost, uncounted or corrupt entry, a split or an extra one; a pass exactly none of these, nothing stalled, unlisted or unstaged, no background, and at most one in a hundred undetermined |
| Classifier.PassMeansReadable | sync-test/classify.py:364-380 | a pass means every expected entry readable but for undetermined absences, at most one in a hundred |
| Matching.Gather | scripts/clean-stale.py:109-126 | finds the directories written since the mark and exactly the admissible pairs, by distance |
| Matching.PairMeans | scripts/clean-stale.py:119-126 | a pair is a unit and a directory of its crate whose last session started in the window, as far apart as that session is before or after the unit's compilation |
| Matching.Claim | scripts/clean-stale.py:128-132 | keeps the directories written since and those of the pairs chosen in order of distance |
| Matching.ChosenOneToOne | scripts/clean-stale.py:128-132 | the pairs chosen hold a unit once and a directory once |
| Matching.OthersBeaten | scripts/clean-stale.py:128-132 | a pair passed over has its directory written since, or a pair no farther chosen with its unit or its directory |
| Matching.FirstIsClosest | scripts/clean-stale.py:7-9 | the first pair of a unit whose directory was not written since is at its least distance |
| Matching.KeepsClosest | scripts/clean-stale.py:7-9 | a unit ends with a directory at its least distance exactly when one of its directories at that distance is not taken by a pair ranked before |
| Matching.AllKeepClosest | scripts/clean-stale.py:7-9 | all units do when no two share their first ranked directory, and where no unit has two at its least distance only then |
| Matching.FartherKept | scripts/clean-stale.py:128-132 | two units and two directories of one crate, of which the earlier unit ends with its farther |
| Matching.Clean | scripts/clean-stale.py:109-134 | removes no directory whose last session is at or after the mark and none a unit left without one could have used |

## Left out

- Signature and payload checks that precede the membership view's state reading (`Parsed`, `Alone`): foreign cryptography; the candidate events are any set.
- The strongly connected components routine of the membership view: its result, the events waiting on themselves, is found by reachability instead.
- The device statements and `RecordView`: the access decisions hold for every function of the held entries in their place.
- Past.PastAlone: for a pass without a loop to break and with the same demotions set aside; that the checks on an event alone, its signature and its author's listing, come out alike over a past is not stated.
- The roles `guard_pod_import` refuses besides a pod's: a guard passes here wherever no pod holds the namespace.
- The fingerprint of a range: any function of its entries; convergence is stated for one that tells the two views' ranges apart, and a collision leaves both stores as they were.
- The split factor of reconciliation other than the default two.
- Wire encodings other than the author heads', and the relay, gossip and download paths.
- A session on the private metadata store, served on its ticket, and on a namespace held in no role, denied: one branch each.
- A pod unregistered, or the private metadata store re-armed, between an accept's decision and its snapshot: no write count shows it, and the registry is fixed here.
- Freshness.HitIsRebuild: assumes a replica's write count does not go back and payloads of held entries stay while the node is up.
- The blob store's own mark and sweep: a sweep is one step that spares what is live or tagged. An identity hosted again with entries on disk, and one no longer hosted, are not modelled.
- CoLocated.SkippedPairAgrees: both registries name the same record store.
- CoLocated.SessionsEnd: pairs forgotten when an identity is no longer hosted are not followed.
- Linking.OneLinkAtATime: the hosting record on disk is not modelled, only what stands in memory.
- A handle's release without a stop, poisoned locks and failure injection.
- The classifier's latency, clock and report sections, its split kinds, and how a final listing is read.
- HTTP routes, error tables, key files, endpoint binding and address lookup.
