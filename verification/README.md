# Synapse: verified models of six components

Synapse is a Matrix homeserver. This project models six of its components in Dafny and proves what they
promise about whole runs, and where a promise turns out to fail, exactly when.

| files | component |
|---|---|
| `Events.dfy`, `EventAuth.dfy`, `Permissions.dfy`, `Histories.dfy`, `RoomRules.dfy`, `ThirdPartyInvites.dfy` | event authorisation (the "Authorization rules" section of the Matrix Room Version 9 specification), its state selection, and linear room histories |
| `Ratelimiter.dfy` | the leaky-bucket rate limiter |
| `Scheduler.dfy`, `SchedulerQueues.dfy` | the application-service transaction scheduler |
| `Tokens.dfy`, `Notifier.dfy`, `NotifierRuns.dfy` | stream tokens and the notifier's wait and notify protocol |
| `Porter.dfy`, `Sweep.dfy`, `PortOrder.dfy`, `PortSetup.dfy`, `PortSessions.dfy`, `PortRestart.dfy`, `PortRun.dfy` | the SQLite to PostgreSQL porter, one run and any number of stopped and restarted ones |
| `Wrappers.dfy` | optional values |
| `Visibility.dfy`, `Sight.dfy` | history visibility for clients and servers |

Code that decides is modelled by functions. Code that updates objects is modelled by classes and methods
with loops, each proved equal to a specification function; the theorems about runs are about those
functions. `Permissions.dfy` and `Sight.dfy` hold separate references for the two largest decisions, said of
the contents of events and states alone, and prove the modelled decisions equal to them. Protocols whose steps interleave at `await` are transition systems with one step per stretch
between awaits.

## Where the code does not do what one would expect

Each of these comes with an exact condition, stated as an equivalence over all inputs or runs; the runs and
states that fail are built by a lemma beside it where the equivalence does not give them directly.

- The state selected for an event does not include the event that a power-levels event with a non-empty
  state key replaces (`EventAuth.SelectionSuffices`).
- A third-party invite can turn a joined user with the highest level into an invited one
  (`Histories.TopUserSecure`, `ThirdPartyInvites.TopUserUnseated`).
- Transactions can complete out of order even if the DOWN mark is atomic with the failed send and the UP
  mark is atomic with finding nothing unsent, because the sender acts on a state read before an `await`
  (`Scheduler.OrderKeptUnlessStale`, `Scheduler.OrderKeptIff`,
  `Scheduler.CompletedOutOfOrder`).
- A stream registered for a user who already has one leaves the room index inexact, and a stream that has
  left the indexes never wakes its waiters, which can happen to one whose stream expires while its
  callback runs (`NotifierRuns.SecondRegistrationExactIff`, `NotifierRuns.AsleepOnOrphan`,
  `NotifierRuns.WokenIffRegistered`).
- Every run of the porter empties the tables that are not append-only with `TRUNCATE ... CASCADE`, which also
  empties an append-only table that refers to one of them while its progress record stays. Such a table
  cannot be resumed (`PortSessions.RightIff`, `PortRestart.RestartLosesRows`).
- The porter's outer loop never ends on cyclic references or references to tables not being ported
  (`PortOrder.FinishesIffAcyclic`).
- The server filter withholds some events that a user of that server may see: steps away of their own, and
  changes that close the history (`Visibility.ServerCoversUserIff`).

## What the models assume

- Signature checks of third-party invites are an uninterpreted set of keys under which the block verifies.
- Power levels are integers; times and counts of the rate limiter are reals.
- Histories are linear: each event's only previous event is the one before it, and ids are distinct.
- The scheduler does not restart, the store does not fail, and the two state marks are atomic as above.
- The notifier looks a stream up and registers it in one step; streams are identified by numbers and
  deferreds by the number of times the stream was notified.
- The porter's source row ids are stable. An append-only source only gains rows, between runs and outside the
  swept range; any other source table may change in any way between runs.
  The target's foreign keys are taken as given, and `TRUNCATE ... CASCADE` as PostgreSQL documents it.
- The retention policy is an argument of the visibility check. In the source it is indexed by a loop
  variable left over from another loop (`synapse/visibility.py:137`).

## Model

| member | source | states |
|---|---|---|
| `EventAuth.SelectionSuffices` | synapse/event_auth.py:1083-1125 | Checking against the selected part of the state gives the same verdict as checking against the whole state, for every state whose entries stand under their own keys, if and only if the event is not a power-levels event that replaces one under a state key the selection leaves out |
| `EventAuth.VerdictDependsOnSelection` | synapse/event_auth.py:248-342 | Two states that agree on the selected keys give the same verdict, reason included |
| `EventAuth.MembershipDependsOnReads` | synapse/event_auth.py:465-703 | A membership verdict reads the state only through the sender, the target, the authorising user, the join rules, the levels and the named third-party invite |
| `EventAuth.JoinDependsOnReads` | synapse/event_auth.py:596-653 | The join branch, the restricted rules with their authorising user included, stays within those reads |
| `EventAuth.InviteDependsOnReads` | synapse/event_auth.py:549-595 | The invite branch, its third-party form included, stays within those reads |
| `EventAuth.LevelsDependOnBasics` | synapse/event_auth.py:724-758 | User, named and send levels depend only on the create and power-levels events |
| `EventAuth.PowerLevelsDependOnReads` | synapse/event_auth.py:822-941 | A power-levels event with the empty state key is judged from the selected state alone |
| `EventAuth.BlockingStateBlocks` | synapse/event_auth.py:866-941 | For every power-levels event under another state key that would pass the selection there is a state, with every entry under its own key, whose event under that key denies it: the failing half of the equivalence |
| `EventAuth.SelectionCoversReads` | synapse/event_auth.py:1094-1125 | The selected keys contain every key the rules may read |
| `EventAuth.SelectionSufficesInKnownVersions` | synapse/api/room_versions.py:106-335 | The same equivalence for every event of a known room version, with nothing asked of the version: knock_restricted never comes without restricted |
| `EventAuth.RunPowerLevelsCheck` | synapse/event_auth.py:822-941 | The loop with its early exits denies exactly when some slot that must be compared is out of reach, whatever the order of the slots |
| `EventAuth.ListSlots` | synapse/event_auth.py:874-900 | The list built by appending holds exactly the slots that have to be compared: the named ones, every user and every event type of either event, and notification levels where the version limits them |
| `EventAuth.AppendSlots` | synapse/event_auth.py:885-900 | Appending keeps what was listed and adds exactly the given slots |
| `EventAuth.RunIndependentCheck` | synapse/event_auth.py:142-245 | The loop over claimed auth events accepts exactly when all of them are known, unrejected, of the same room, expected for the event, free of repeated keys, and include a create event; a rejection gives the objection to the first faulty claim, or else the missing create event |
| `EventAuth.ClaimedStateEntries` | synapse/event_auth.py:278 | The state built from the claimed events has an entry for a key exactly if a claimed event has that key, and the entry is one of them |
| `EventAuth.ClaimsStandForState` | synapse/event_auth.py:142-342 | Once the claims pass the first check and are the current entries for the selected keys, checking against them gives the verdict of the whole room state |
| `Histories.CeilingNeverRises` | synapse/event_auth.py:872-941 | Over every run of accepted events the room ceiling (the maximum of 0, the default and all explicit levels) never rises, and no user ever exceeds the ceiling the run began with |
| `Histories.LevelChangeKeepsBound` | synapse/event_auth.py:905-941 | A permitted change of levels introduces nothing above a bound on the levels it replaces |
| `Histories.StepKeepsBound` | synapse/event_auth.py:872-941 | One accepted event, of any kind, keeps every bound on the levels |
| `Histories.RunKeepsBound` | synapse/event_auth.py:872-941 | A run of accepted events keeps every bound on the levels |
| `Histories.UserLevelBounded` | synapse/event_auth.py:948-985 | A bound on the levels bounds the effective level of every user, listed or not |
| `Histories.TopUserSecure` | synapse/event_auth.py:654-683 | Whatever others send, a joined user at the ceiling keeps that exact level and stays at the ceiling; the user stays joined throughout if and only if no third-party invite of theirs is accepted |
| `Histories.TopUserKeepsLevel` | synapse/event_auth.py:905-941 | A user at the ceiling keeps the level over every run sent by others, joined or not |
| `Histories.StepKeepsTop` | synapse/event_auth.py:905-941 | No accepted event of another user changes the level of a user at the ceiling |
| `Histories.StepKeepsTopJoined` | synapse/event_auth.py:549-683 | An accepted event of another user ends the membership of a joined user at the ceiling exactly if it is a third-party invite of that user |
| `ThirdPartyInvites.TopUserUnseated` | synapse/event_auth.py:549-554 | A history from the creation of a room, every event of which passes the checks of its claimed auth events and of the state, in which a sender without power turns the membership of the joined top user into an invite |
| `Histories.InviteAccepted` | synapse/event_auth.py:549-554 | A verified third-party invite is accepted for every user who is not banned, also one who is joined |
| `Histories.BanNeedsLifting` | synapse/event_auth.py:654-701 | Between a banned state and any later state without the ban there is an accepted leave by another, then-joined user with the ban and kick levels and strictly above the target |
| `Histories.BanExit` | synapse/event_auth.py:549-701 | Of all accepted membership events only such a leave ends a ban |
| `Histories.MembersTraceToCreator` | synapse/event_auth.py:596-653 | In a room that never opens, everybody who is joined at any point has a chain of earlier invites, each sent by somebody who had joined before it, back to the creator |
| `Histories.JoinEntry` | synapse/event_auth.py:596-653 | Under a closed join rule one becomes joined only as the creator or from an invite |
| `Histories.InviteEntry` | synapse/event_auth.py:549-595 | One becomes invited only through an invite whose sender is joined or had placed the matching third-party invite |
| `Histories.ThirdPartySenderJoined` | synapse/event_auth.py:315-332 | Every third-party invite in the state was placed by somebody joined at the time |
| `Histories.InvitedByMember` | synapse/event_auth.py:549-595 | Every invited user has an earlier invite by somebody who had joined before it |
| `Histories.JoinHasCause` | synapse/event_auth.py:603-653 | Each change to joined in a closed room is the creator or follows an invite |
| `Histories.RuleStaysClosed` | synapse/event_auth.py:521-526 | A room whose join rules never opened is closed at every point, before the first rule as well |
| `Histories.CreatorJoinsOnlyFirst` | synapse/event_auth.py:481-492 | The exemption for the creator applies to the second event of a history and to no other |
| `Histories.Ceiling` | synapse/event_auth.py:948-985 | The ceiling bounds every level and is itself 0, the default or an explicit level |
| `RoomRules.StateIsLatest` | synapse/event_auth.py:248-342 | The state entry for a key is the last accepted event with that key |
| `RoomRules.EntryHasOrigin` | synapse/event_auth.py:248-342 | Every state entry is an event of the history, and no later event has its key |
| `RoomRules.KeyedStateIsOwn` | synapse/event_auth.py:287-307 | At every point, state other than memberships, third-party invites and the create event that is kept under a user id was sent by that user, and aliases kept under a server name by a user of that server |
| `RoomRules.MemberLostByRank` | synapse/event_auth.py:549-683 | Between a state in which somebody is joined and a later one in which they are not lies the event that ends their membership: a membership event of theirs that is their own leave, a third-party invite, or a kick or ban by a then-joined user with the level for it and strictly above them |
| `RoomRules.MembersWereAdmitted` | synapse/event_auth.py:596-653 | In every history, whatever the join rules have been, everybody joined at any point has an earlier membership event that admitted them: the first join as the creator, a join of their own under a public rule or vouched for in a restricted room by a joined user who may invite, or an invite by somebody who had joined before it |
| `RoomRules.KnocksWereAllowed` | synapse/event_auth.py:684-701 | Whoever is knocking in a room has a membership event of their own by which they knocked, while neither joined, invited nor banned, under the join-rules event in force at the time, which allows knocks in the version of the room |
| `RoomRules.OnlyCreatorRules` | synapse/event_auth.py:724-781 | Before the first power-levels event only the creator sends state other than memberships and third-party invites, removes others or bans |
| `RoomRules.UnfederatedStaysLocal` | synapse/event_auth.py:280-285 | In a room that forbids federation all events and all members, the creator excepted, are of the server of the room |
| `Permissions.AcceptedIffPermitted` | synapse/event_auth.py:248-342 | In every state the rules accept exactly the events a separate reference permits, which is said of the contents of the state alone: levels as listed or by default, memberships, join rules, tokens and domains |
| `Permissions.GoesOnIffPermitted` | synapse/event_auth.py:248-342 | A history goes on exactly with the events that follow it with a new id in the same room and version and are permitted by its state |
| `Permissions.HistoryWasPermitted` | synapse/event_auth.py:248-342 | Every event of a history was permitted by the state it was sent in |
| `Permissions.SendersHadTheLevel` | synapse/event_auth.py:724-781 | In a room with power levels every sender of an ordinary event had the level set for the type of the event, or else that for state or for other events, with 50 and 0 where the room sets none |
| `Permissions.MaySendIff` | synapse/event_auth.py:724-758 | The required level is the one set for the type, or else the default for state or other events |
| `Permissions.LevelsIff` | synapse/event_auth.py:822-941 | A power-levels event passes exactly if it names users only, entries of every group that change are within the level of the sender before and after, and those of other users that change were strictly below it |
| `Permissions.RedactionIff` | synapse/event_auth.py:784-819 | A redaction passes with the redact level, in the newer event formats, or for an event of the same server |
| `Permissions.MembershipIff` | synapse/event_auth.py:465-703 | A membership event passes exactly if it is the first join of the creator or one of the five kinds in the situation that permits it |
| `Permissions.CreatePermittedIff` | synapse/event_auth.py:418-453 | A create event passes exactly if it comes first, from a user of the server of the room, in a known version, naming its creator where the version wants it named |
| `Permissions.DomainFollowsColon` | synapse/event_auth.py:280-285 | The domain of an id is all that follows its first colon, and an id without one has none |
| `Permissions.ClaimableKeys` | synapse/event_auth.py:1083-1125 | Key by key, what an event may claim auth events for; an invite also for the join rules and for its token |
| `Permissions.ClaimsAcceptableIff` | synapse/event_auth.py:190-245 | Claims are acceptable exactly if all are known, of this room, not rejected, for claimable keys, no two for the same one, with the create event among them |
| `Permissions.ObjectionMeans` | synapse/event_auth.py:193-237 | What each reported objection to a claim says about the claim |
| `Ratelimiter.LimiterRefinesEager` | synapse/api/ratelimiting.py:100-209 | For every run over any number of keys, the lazily settled, pruned buckets give the same answers as buckets that leak continuously and never go below empty |
| `Ratelimiter.StepRefines` | synapse/api/ratelimiting.py:164-193 | One check gives the answer of the continuous bucket and keeps the two in correspondence for all keys |
| `Ratelimiter.PruningUnobservable` | synapse/api/ratelimiting.py:242-260 | Pruning changes the level of no key at any later time |
| `Ratelimiter.OtherKeysUntouched` | synapse/api/ratelimiting.py:164-193 | A check on one key changes no other key at any later time |
| `Ratelimiter.CalledKey` | synapse/api/ratelimiting.py:168-193 | A check allows exactly if the leaked level leaves room, and then raises that level by the cost |
| `Ratelimiter.CalledAtAnyRate` | synapse/api/ratelimiting.py:164-193 | Whatever rate a bucket was stored with, the answer compares the level at the rate of the call, never below empty, with the burst, and the stored level rises by the cost exactly if the call is allowed |
| `Ratelimiter.UnrecordedLeavesNoTrace` | synapse/api/ratelimiting.py:192-193 | A check that is not recorded answers as a recorded one and changes no level at any later time |
| `Ratelimiter.NoLeakNoRetry` | synapse/api/ratelimiting.py:203-207 | A bucket that does not leak is given no time to try again |
| `Ratelimiter.WindowBound` | synapse/api/ratelimiting.py:168-193 | From an empty limiter, what is allowed for one key in any window is at most the burst plus the rate times the length of the window, whatever is interleaved |
| `Ratelimiter.StoredLevelWithinBurst` | synapse/api/ratelimiting.py:164-193 | Over every run, from any table, the level the stored table holds of a key stays between 0 and the burst, at the last call and at every later time |
| `Ratelimiter.LevelStaysWithinBurst` | synapse/api/ratelimiting.py:171-188 | One call keeps the level of the continuous bucket between 0 and the burst, and raises it by at least what it allows |
| `Ratelimiter.EagerWindowBound` | synapse/api/ratelimiting.py:168-193 | The window bound for the continuous bucket from any level within the burst |
| `Ratelimiter.WindowRemainder` | synapse/api/ratelimiting.py:168-193 | What can still be allowed until a given time is at most the room left plus what leaks until then |
| `Ratelimiter.RetryTimeExact` | synapse/api/ratelimiting.py:195-209 | After an allow or a deny, one further action is allowed at a later time if and only if the returned time has come, and that time is not in the past |
| `Ratelimiter.OneMoreAllowed` | synapse/api/ratelimiting.py:171-193 | One action on a stored entry is allowed exactly from the instant its excess has leaked |
| `Ratelimiter.RetryNotBefore` | synapse/api/ratelimiting.py:195-209 | The computed time is that instant, or now if it has passed |
| `Ratelimiter.TimeAllowed` | synapse/api/ratelimiting.py:195-209 | The branches compute the instant from which one more action fits, not before now, or -1 for a bucket that does not leak |
| `Ratelimiter.LeakTwice` | synapse/api/ratelimiting.py:171-178 | Draining a bucket at one time and again later, clamped at empty in between, is draining it once |
| `Ratelimiter.Limiter.CanDoAction` | synapse/api/ratelimiting.py:100-209 | The object answers and changes its buckets as the specification step says; exempt requesters are allowed and leave no trace |
| `Ratelimiter.Limiter.Prune` | synapse/api/ratelimiting.py:242-260 | The loop leaves exactly the entries that have not leaked empty |
| `Ratelimiter.Limiter.constructor` | synapse/api/ratelimiting.py:64-81 | A new limiter holds no entries |
| `Scheduler.EventsConserved` | synapse/appservice/scheduler.py:120-290 | Over every interleaving, for every service, the persistent events offered are, in order, the created transactions, then the batch in hand, then the queue; no transaction exceeds 100 events, and a sender starts only where none is at work |
| `Scheduler.StepKeepsOk` | synapse/appservice/scheduler.py:120-290 | Each single step keeps that for all services |
| `Scheduler.OfferConserves` | synapse/appservice/scheduler.py:120-166 | Enqueueing appends to the queue and disturbs neither the batch in hand nor the transactions |
| `Scheduler.TakeConserves` | synapse/appservice/scheduler.py:212-227 | Taking a batch moves a prefix of the queue into the hand of the sender |
| `Scheduler.CutConserves` | synapse/appservice/scheduler.py:213-227 | A queue is its cut followed by what the cut leaves, and the cut is at most the limit |
| `Scheduler.MoveConserves` | synapse/appservice/scheduler.py:363-518 | No step of sending, failing or recovering loses, repeats or reorders events |
| `Scheduler.StepKeepsFlight` | synapse/appservice/scheduler.py:198-258 | A service is marked in flight exactly while its sender is at work |
| `Scheduler.OthersUntouched` | synapse/appservice/scheduler.py:120-290 | A step of one service leaves the transactions, sender, recoverer and queues of every other service as they were, the device-list queue excepted, which taking a batch clears for all |
| `Scheduler.OrderKeptUnlessStale` | synapse/appservice/scheduler.py:388-518 | Over every run: a service never has, while up, an unsent transaction other than the one in flight, if and only if no transaction is created on an outdated reading of its state; and then completed transactions were acknowledged and form a prefix in creation order |
| `Scheduler.OrderKeptIff` | synapse/appservice/scheduler.py:388-518 | Over every run, outdated readings or not: completed transactions form a prefix of the creation order in every state if and only if no pushed transaction is completed while an older one is unsent |
| `Scheduler.MoveKeepsOrderIff` | synapse/appservice/scheduler.py:388-518 | One move loses the order exactly if it is such an overtaking; what the recoverer resends never does |
| `Scheduler.NothingToOvertake` | synapse/appservice/scheduler.py:388-428 | Where nothing has been forgotten there is nothing to overtake |
| `Scheduler.MoveKeepsConsistent` | synapse/appservice/scheduler.py:388-518 | Each move that is not such a creation keeps: acknowledged before completed, completed in order, up means nothing forgotten |
| `Scheduler.StaleMoveForgets` | synapse/appservice/scheduler.py:388-411 | Each such creation leaves an unsent transaction behind while the service is up |
| `Scheduler.CompletedOutOfOrder` | synapse/appservice/scheduler.py:388-518 | A concrete run, reachable even with both state marks atomic, that completes the third transaction before the second |
| `Scheduler.LatestMentionWins` | synapse/appservice/scheduler.py:233-247 | In a consolidated device-list summary the last summary that mentions a user decides, and leaving beats changing within one |
| `Scheduler.UnmentionedStayOut` | synapse/appservice/scheduler.py:233-247 | Nobody else enters the consolidated summary |
| `Scheduler.Oldest` | synapse/storage/databases/main/appservice.py:338-385 | The transaction retried is the oldest unsent one |
| `SchedulerQueues.KindsConserved` | synapse/appservice/scheduler.py:120-290 | Over every interleaving and for persistent, ephemeral and to-device items alike: what was queued and offered of a kind is, in order, what the batches taken carry under that kind, followed by what is still queued of it |
| `SchedulerQueues.BatchSplitsQueues` | synapse/appservice/scheduler.py:212-227 | A batch carries the head of each queue under its own kind, at most 100 items of each and fewer only if the queue holds no more, and the queues keep the rest |
| `SchedulerQueues.BatchConsolidates` | synapse/appservice/scheduler.py:233-248 | The device lists of a batch put a user where the last queued summary naming them does, and no service has summaries queued afterwards |
| `SchedulerQueues.BatchMentionsOnlyQueued` | synapse/appservice/scheduler.py:233-248 | Users named in no queued summary are in no device list of the batch |
| `SchedulerQueues.FlightEndsWithNothing` | synapse/appservice/scheduler.py:250-258 | The sender goes on exactly if the batch carries anything of any kind |
| `SchedulerQueues.FlightStartsWithAnything` | synapse/appservice/scheduler.py:141-203 | After an offer a sender is in flight exactly if one was or anything of any kind was offered, and a summary is queued exactly if it names somebody |
| `SchedulerQueues.BatchBecomesTransaction` | synapse/appservice/scheduler.py:388-404 | A batch without persistent events is dropped if the service was seen down; every other becomes the next transaction, pushed at once if the service was seen up |
| `SchedulerQueues.BackoffAfterFailures` | synapse/appservice/scheduler.py:485-489 | After n failures in a row the backoff counter has risen by n, as far as 9 |
| `SchedulerQueues.BackoffStartsOver` | synapse/appservice/scheduler.py:463-510 | A new recoverer and every successful resend start the counter at 1 |
| `Scheduler.ServiceQueuer.Enqueue` | synapse/appservice/scheduler.py:120-203 | All four queues grow by the data offered, for one service only, and a sender starts exactly if there is data and none is at work |
| `Scheduler.ServiceQueuer.TakeBatch` | synapse/appservice/scheduler.py:212-258 | The batch is the head of each queue within its limit, the queues keep the rest, and an empty batch ends the flight |
| `Scheduler.ServiceQueuer.constructor` | synapse/appservice/scheduler.py:177-196 | A new queuer holds nothing and no service is in flight |
| `Tokens.AfterMergeIffAfterBoth` | synapse/types/__init__.py:475-492 | An event is after a merged position if and only if it is after both, whichever writer persisted it |
| `Tokens.AdvanceOnlyAdvances` | synapse/types/__init__.py:942-966 | Advancing one stream of a token moves no stream back |
| `Tokens.TokenNeverReturns` | synapse/types/__init__.py:942-966 | A token that has advanced never equals an earlier one again |
| `Tokens.AdvanceReaches` | synapse/types/__init__.py:942-966 | Advancing one stream takes every writer, or the field, to the further of its old and its given position, and moves no other stream |
| `Tokens.AfterItsWriter` | synapse/types/__init__.py:1019-1020 | An event is after a position exactly if its own writer, listed or not, had not come as far |
| `Notifier.NotifierObject.Notify` | synapse/notifier.py:130-161 | The stream advances its token, remembers it as notified and fires its deferred; no other stream changes |
| `Notifier.NotifierObject.OnNewEvent` | synapse/notifier.py:496-547 | Exactly the streams found through the addressed users and rooms are notified |
| `Notifier.NotifierObject.AddStreamsOfUsers` | synapse/notifier.py:527-530 | The loop collects exactly the streams of the given users |
| `Notifier.NotifierObject.AddStreamsOfRooms` | synapse/notifier.py:532-533 | The loop collects exactly the streams indexed under the given rooms |
| `Notifier.NotifierObject.NotifyStreams` | synapse/notifier.py:542-547 | Each collected stream is notified once |
| `Notifier.NotifierObject.UserJoinedRoom` | synapse/notifier.py:804-809 | The stream of the user, if any, and the room index gain each other |
| `Notifier.NotifierObject.ReleasePending` | synapse/notifier.py:405-423 | The loop keeps the entries not yet covered in order, and gathers the users and rooms of the others after performing their joins |
| `Notifier.NotifierObject.NotifyPendingNewRoomEvents` | synapse/notifier.py:396-432 | Covered entries are released together and announced once |
| `Notifier.NotifierObject.RegisterWithKeys` | synapse/notifier.py:797-802 | The stream is indexed under its user and each of its rooms, and under nothing else |
| `Notifier.NotifierObject.Remove` | synapse/notifier.py:163-172 | The stream leaves the index of its user and of each of its rooms |
| `Notifier.NotifierObject.RemoveExpiredStreams` | synapse/notifier.py:784-795 | All expired streams, and no others, leave the indexes |
| `Notifier.NotifierObject.constructor` | synapse/notifier.py:223-231 | A new notifier has no streams, indexes, pending entries or waiters |
| `NotifierRuns.StepKeepsExact` | synapse/notifier.py:163-172 | Every step keeps the user and room indexes exact inverses of the users and rooms of the registered streams |
| `NotifierRuns.RegisterKeepsExact` | synapse/notifier.py:797-802 | Registration keeps that where the user has no stream yet |
| `NotifierRuns.JoinKeepsExact` | synapse/notifier.py:804-809 | A join keeps that |
| `NotifierRuns.ExpiryKeepsExact` | synapse/notifier.py:784-795 | Expiry keeps that |
| `NotifierRuns.SecondRegistrationExactIff` | synapse/notifier.py:579-590 | Registering a second stream of a user keeps the indexes exact if and only if the first stream had no rooms: why lookup and registration have to be one step |
| `NotifierRuns.RunKeepsGood` | synapse/notifier.py:597-644 | Every run keeps exact indexes, notified tokens current, and every waiter on the deferred of the token it has read or about to be woken |
| `NotifierRuns.NoLostWakeup` | synapse/notifier.py:177-190 | Once a stream has moved past the token of a waiter, then after any further steps a waiter asleep on that token can wake and one about to listen with it returns at once |
| `NotifierRuns.SleepersAreCurrent` | synapse/notifier.py:597-644 | A waiter that sleeps on and cannot wake has the current token and the current deferred |
| `NotifierRuns.AnnouncementReaches` | synapse/notifier.py:527-545 | With exact indexes, an announcement notifies exactly the registered streams whose own user or own rooms it addresses |
| `NotifierRuns.ReleaseWakesRoom` | synapse/notifier.py:405-432 | A released entry wakes, exactly once, every registered stream in its room, those of its extra users, and those of users for whom a membership entry with a join of that room is released in the same batch, and leaves them past the entry |
| `NotifierRuns.ReleaseExact` | synapse/notifier.py:405-432 | A release gives a registered stream exactly the rooms for which it releases a join of its user, and wakes it if and only if some released entry is in one of its rooms, old or new, or names its user |
| `NotifierRuns.JoinsAddRooms` | synapse/notifier.py:415-420 | Released entries add to a stream exactly the rooms of membership entries with membership join and its user as state key |
| `NotifierRuns.NotificationLeaves` | synapse/notifier.py:143-161 | A notification leaves the advanced token, noted as notified at that time, and the next deferred |
| `NotifierRuns.PendingIsUncovered` | synapse/notifier.py:369-413 | After every run the pending list is, in order, the entries never covered by a release since they were added: each is released at the first call that covers it and not again |
| `NotifierRuns.ReleaseSplits` | synapse/notifier.py:405-414 | A release neither loses nor repeats entries |
| `NotifierRuns.ReleasedIff` | synapse/notifier.py:411-414 | Released are exactly the pending entries that the position covers |
| `NotifierRuns.ExpiryExact` | synapse/notifier.py:784-795 | A registered stream outlives an expiry run if and only if somebody listens or it was notified within the limit |
| `NotifierRuns.OrphanNeverWoken` | synapse/notifier.py:163-172 | A stream that has left the indexes is never notified again in any run, so its waiters can only time out |
| `NotifierRuns.AsleepOnOrphan` | synapse/notifier.py:597-644 | A run from an empty notifier after which a waiter sleeps on a stream that is not registered: the stream expires while the callback of the waiter runs |
| `NotifierRuns.WokenIffRegistered` | synapse/notifier.py:527-545 | After every run, an announcement wakes a waiter that sleeps on if and only if it addresses the user or a room of the stream the waiter is on and that stream is registered at that point |
| `Porter.ConvertRowMeaning` | synapse/_scripts/synapse_port_db.py:884-897 | A row is dropped if and only if a text outside the boolean columns holds a NUL; otherwise a boolean column comes out false exactly for null, zero, the empty text or blob and false, and true for all else, and nothing else changes |
| `Porter.AscendingIsLimited` | synapse/_scripts/synapse_port_db.py:452-454 | A forward batch holds at most the limit, and all rows from the mark on if it is shorter |
| `Porter.AscendingIsOrdered` | synapse/_scripts/synapse_port_db.py:452-454 | A forward batch is in ascending order |
| `Porter.DescendingIsLimited` | synapse/_scripts/synapse_port_db.py:456-459 | A backward batch holds at most the limit, and all rows down from the mark if it is shorter |
| `Porter.DescendingIsOrdered` | synapse/_scripts/synapse_port_db.py:456-459 | A backward batch is in descending order |
| `Porter.ConvertRows` | synapse/_scripts/synapse_port_db.py:899-908 | The loop converts the rows in order, leaving out the dropped ones |
| `Sweep.SweptIsFaithful` | synapse/_scripts/synapse_port_db.py:464-527 | A whole sweep covers every source row, and leaves a faithful target if and only if it found one |
| `Sweep.SweptIsFinished` | synapse/_scripts/synapse_port_db.py:464-527 | A whole sweep keeps, of each row, how many copies the target has too many or too few |
| `Sweep.GrowthKeepsExcess` | synapse/_scripts/synapse_port_db.py:319-356 | New source rows outside the swept range leave the target as far off as it was |
| `Sweep.BatchKeepsFaithful` | synapse/_scripts/synapse_port_db.py:497-521 | One committed batch keeps a faithful target faithful and an unfaithful one unfaithful |
| `Sweep.BatchIsTwoStrips` | synapse/_scripts/synapse_port_db.py:464-509 | A batch inserts of each row as many copies as result from the two strips of rowids by which it moves the marks |
| `Porter.ForwardBatch` | synapse/_scripts/synapse_port_db.py:452-500 | A forward batch holds all rows from the mark up to its largest id, none skipped by the limit |
| `Porter.BackwardBatch` | synapse/_scripts/synapse_port_db.py:456-502 | A backward batch holds all rows from the mark down to its smallest id |
| `Sweep.BatchProgresses` | synapse/_scripts/synapse_port_db.py:450-521 | A batch taken while rows remain leaves strictly fewer |
| `Sweep.NothingRemains` | synapse/_scripts/synapse_port_db.py:464-527 | Both selections are empty exactly if no source row lies outside the marks |
| `Sweep.FinishedIsWhole` | synapse/_scripts/synapse_port_db.py:523-527 | A finished faithful target has each row as often as the conversion of the whole table yields it |
| `Sweep.Target.HandleTable` | synapse/_scripts/synapse_port_db.py:409-527 | The loop with its two directions terminates and is the whole sweep, whatever the target holds, also under counts taken before a cascade emptied it |
| `Sweep.Target.Commit` | synapse/_scripts/synapse_port_db.py:497-521 | Rows and marks change together as the batch prescribes |
| `Sweep.Target.ConvertSelected` | synapse/_scripts/synapse_port_db.py:504-505 | Forward rows come before backward ones, converted |
| `Sweep.Target.SetUp` | synapse/_scripts/synapse_port_db.py:318-379 | A recorded append-only table resumes where it stopped, an unrecorded one from the start with the rows it holds; any other starts over, empty |
| `Sweep.SweptUnchanged` | synapse/_scripts/synapse_port_db.py:464-490 | Rows added outside the swept range do not disturb what was ported |
| `PortOrder.FinishesIffAcyclic` | synapse/_scripts/synapse_port_db.py:835-861 | The outer loop ports every table in finitely many rounds if and only if no table refers to itself through a chain of references and no reference leads outside the tables |
| `PortOrder.HangsUnlessAcyclic` | synapse/_scripts/synapse_port_db.py:835-861 | Otherwise there is a round from which on nothing is ported while something is left |
| `PortOrder.StuckForever` | synapse/_scripts/synapse_port_db.py:835-861 | A round that ports nothing is followed only by such rounds |
| `PortOrder.SomethingReady` | synapse/_scripts/synapse_port_db.py:838-845 | While tables are left and there is no cycle, some table refers to none of those left |
| `PortOrder.WalkMeetsItself` | synapse/_scripts/synapse_port_db.py:838-845 | If every table left refers to another one left, following references meets a cycle |
| `PortSetup.SetUpOutcome` | synapse/_scripts/synapse_port_db.py:318-379 | For every interleaving of the set-ups of all tables, each with its own delete, cascading truncate and insert: a table that is not append-only starts afresh, and an append-only one resumes from its record, its rows gone exactly if some emptied table cascades into it |
| `PortSetup.SetUpSoFar` | synapse/_scripts/synapse_port_db.py:318-379 | However far the interleaved set-ups have come, an append-only table is where it was, its rows gone exactly if a table emptied so far cascades into it |
| `PortSetup.SetUpFaithfulIff` | synapse/_scripts/synapse_port_db.py:318-379 | For every interleaving of the set-ups of one run, a table whose record was right is right afterwards if and only if it starts afresh, has no rows, or no emptied table cascades into it; one without a record if and only if it starts afresh, has no rows, or is emptied |
| `PortSessions.RightIff` | synapse/_scripts/synapse_port_db.py:318-527 | Over any number of runs, each setting all tables up again and stopped at any batch, with sources that grow in between: a table whose record was right ends right if and only if it is not append-only, no emptied table cascades into it, or it has no rows at the beginning of each run |
| `PortSessions.RightIffNeverHurt` | synapse/_scripts/synapse_port_db.py:318-527 | The same for append-only tables and runs that may also be stopped during their set-ups: right at the end if and only if every run that empties the table finds it without rows |
| `PortSessions.RightIffAtLastHit` | synapse/_scripts/synapse_port_db.py:318-527 | From any target, right or wrong: an append-only table ends right if and only if nothing swept was to be ported when it was last emptied, or, if it never was, it was right from the beginning |
| `PortSessions.SessionRight` | synapse/_scripts/synapse_port_db.py:318-527 | One run leaves an append-only table right if and only if it was, or, if the run empties the table, nothing of what had been swept was to be ported |
| `PortSessions.SessionExcess` | synapse/_scripts/synapse_port_db.py:318-527 | One run keeps, of each row, how far an append-only table is off from what its set-up has made of the table |
| `PortSessions.LackStays` | synapse/_scripts/synapse_port_db.py:318-527 | A row that is missing below the marks is missing after any further runs |
| `PortSessions.FreshAfterSession` | synapse/_scripts/synapse_port_db.py:356-379 | A table that is not append-only is right after every run whose set-ups are complete |
| `PortRestart.RestartLosesRows` | synapse/_scripts/synapse_port_db.py:359-365 | From an empty target, a run that ports a row and is stopped and a second run whose set-ups empty the table through another: the record stands and the row is gone |
| `PortRun.Run` | synapse/_scripts/synapse_port_db.py:835-861 | For acyclic references within the tables the loop over rounds terminates, with every table in exactly one round, after the rounds of all tables it refers to, and every table swept once from where its set-up left it |
| `PortRun.HandleRound` | synapse/_scripts/synapse_port_db.py:847-859 | A round sweeps its tables and no others |
| `PortRun.WholePort` | synapse/_scripts/synapse_port_db.py:812-861 | After any number of stopped runs and one that goes on to sweep what is left, every row of every table has been swept, and a table whose record was right at the very beginning is ported faithfully if and only if it is not append-only, no emptied table cascades into it, or it had no rows at the beginning of each run |
| `Visibility.FilterForClients` | synapse/visibility.py:179-249 | The bulk filter with its two-stage fetch returns exactly the users whom the per-user check lets see the event |
| `Visibility.FilterByState` | synapse/visibility.py:220-249 | The state-based part, early exits included, returns exactly the users allowed by the event and the state each of them would be given |
| `Visibility.WithoutWithheld` | synapse/visibility.py:194-208 | Discarding leaves exactly the users from whom nothing is withheld |
| `Visibility.VisibleIff` | synapse/visibility.py:313-387 | The per-user check hides an event if and only if it is soft-failed, withheld, an outlier other than an own membership, or not allowed by visibility and membership |
| `Visibility.SameMembership` | synapse/visibility.py:252-274 | The restricted fetch, with the event itself put in, gives each user the membership of their full state |
| `Visibility.SameVisibility` | synapse/visibility.py:252-274 | The first fetch gives the visibility of the full state |
| `Visibility.CheckEventIsVisible` | synapse/visibility.py:620-641 | The loop over members answers whether some member on the server qualifies under the visibility |
| `Visibility.FilterForServer` | synapse/visibility.py:614-703 | With redaction every event is answered in its place, pruned exactly if the server may not see it, it is of another server in a partially stated room, or its sender is erased; without, the output is exactly the other events, whole and in their order. It fails exactly on a malformed sender with partial-state filtering |
| `Visibility.OutputInPlace` | synapse/visibility.py:696-703 | The output with redaction, event by event |
| `Visibility.OutputWithout` | synapse/visibility.py:696-703 | The output without redaction, with the place each event had |
| `Visibility.OpenIff` | synapse/visibility.py:719-750 | Whether a server may see an event, by the setting and the memberships its state holds; without a state the event is open |
| `Sight.UserSees` | synapse/visibility.py:313-387 | What a user sees of every event: whole while joined; else what the setting opens, to all or to invited users, and their own leaving, pruned if the sender is erased; also changes of an open setting; nothing that is withheld from clients |
| `Sight.AlwaysIncluded` | synapse/visibility.py:328-329 | Events to be included always are, unless they are withheld |
| `Sight.FetchSuffices` | synapse/visibility.py:107-113 | Fetching the setting and the own membership gives the answer of the whole state at the event |
| `Visibility.UsersSightIsSentWhole` | synapse/visibility.py:685-703 | For every list of events, what a user of the server may see through the client check is in the output of the server filter, whole, unless the event is one on which the two checks can diverge |
| `Visibility.ServerSeesWhatUsersSee` | synapse/visibility.py:620-641 | What a user may see through the client check is visible to the server of that user, in any state, for all events but own memberships and visibility changes |
| `Visibility.ServerCoversUserIff` | synapse/visibility.py:350-387 | Over all events: the server filter covers the client check in every state there can be at the event if and only if the event is neither a membership by which the user steps away nor a visibility change that closes the room |
| `Visibility.StepAwayDiverges` | synapse/visibility.py:410-436 | For every such own membership there is a state in which the user sees it and the server does not |
| `Visibility.ClosingDiverges` | synapse/visibility.py:535-555 | For every such visibility change there is a state in which the user sees it and the server does not |
| `Visibility.MemberIsOnServer` | synapse/visibility.py:773-813 | A user with a membership is among the memberships the server filter fetches |
| `Visibility.VisibleEventsSentWhole` | synapse/visibility.py:685-703 | With nothing erased and no partial-state filter, an event is sent whole if and only if it is visible |

## Left out

- UsersSightIsSentWhole: assumes that the server filter is asked neither to hide erased senders nor events of partially stated rooms.
- WindowBound: rounding of floating-point numbers is not modelled, nor the truncation of the retry time to milliseconds.
- HandleTable: the `sent_transactions`, `event_search` and `user_directory_stream_pos` special cases are not modelled.
- Signature verification, canonical JSON and the size limits of events.
- Branching event graphs and state resolution.
- Power levels given as strings or null.
- Redactions beyond their verdict: the flag that marks one for a later check, and what a redaction removes from an event.
- `record_action` and the waiting wrapper `ratelimit` of the rate limiter; the run theorems are about recorded checks.
- The device-list queue across services, which taking a batch for one service clears for all (`synapse/appservice/scheduler.py:248`).
- One-time-key counting, the HTTP push to application services, restarts, and exceptions in the scheduler.
- Replication, pusher and federation callbacks, metrics, real timers and the timeout loop bounds of the notifier.
- `get_events_for`, which only wraps the wait loop with permission checks.
- SQL, sequences, the row counts for the progress display and the terminal display of the porter.
- The tables of one round of the porter are swept one after another in the model; they touch disjoint tables.
- The list form of the client filter, which applies the per-event check to each event.
- `synapse/server.py`, `synapse/app`, configuration, `synapse/api/filtering.py` and the worker scripts: they wire components together, parse settings and talk to the operating system, and hold no state of the six components.
