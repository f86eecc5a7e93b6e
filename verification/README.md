# The application side of the token engine

An application asks its token manager for a *group* of tokens, one request per node. A node grants a request against a
quota or queues it. Freed tokens and quota messages drain the queues; nodes go offline and return under a new fence. A
group is complete once each of its requests is granted or failed, and the application learns the outcome either from the
call that asked or from one `token_grp_got`. This project models that engine, the data structures it stands on, and the
dispatcher's proportional split of tokens, and proves what they keep.

## How it is built

- `Words`, `Quota`, `Objects`, `Groups`, `Sums`, `NodeSpec`, `WorldSpec` give the state of requests, groups, nodes and the
  manager as values, and every entry point as a function on them. The word arithmetic of the code (64-bit sums and
  differences that wrap around) is written out.
- `Objects`, `DispatchNodes`, `Caches` and `Managers` hold the classes, with the fields the source updates in place. Each
  method is proved equal to the function of its entry point, and `GetTokenGrp` and `PutTokenGrp` keep the invariant.
- `Invariant` states what holds in the middle of an entry point as well as between them: requests asked about but not
  settled, tokens given back by a put under way, and outcomes nobody has been told are parts of the statement. `Steps`
  proves it for every operation and every run; `Bounds`, `Neutral` and `Versions` add what holds on fair runs, the round
  trip of get and put, and versions and fences. `Telling` follows every entry of the log of outcomes,
  `Waiters` the condition under which no waiter is stranded, `Frozen` what can be granted at a node above its quota;
  `FailingRuns` holds runs that go wrong. `Effects` says field by field what each operation leaves behind,
  and `Order` in what order it serves nodes, requests and groups. `Results` says what follows in plain terms.
- `Completion` takes `to_got` and `to_failed` apart into single shared accesses by any number of threads, and shows that
  a call nobody interrupts is the atomic step the rest of the model uses. `Race` does the same for a node's
  check-then-charge, with messages and resets in between, and `Wakeups` for its waiting list.
- `Rings`, `WaitIncrease`, `HashTables`, `Caches`, `Split` and `TokenUpdates` are the circular lists on real pointers, the list of nodes
  waiting for quota, the bucketed table, the counted caches and the proportional split.

An operation of the manager (get, put, online, offline, reset, a message) is one atomic step. Runs are arbitrary sequences
of operations with any totals, versions and ids. What the code asks of its callers is all that is assumed: a get brings at
least one resource (the argument is itself a list entry), and a put brings a group that has its outcome. Costs are
non-negative as `long`. A *fair* run is one in which every total received is at least `MIN_RS_NUM` (which is not below
the respond step) and at most 2^63; statements that need it say so. `node_online` called from a get, and a put called from a
failed get, happen inside that operation.

## What the code does that one might not expect

- The shrink step `token_quota - respond_step` wraps around, and raises the quota, exactly when the quota is below the
  step (`Quota.ShrinkLowersIff`). Two small totals and one grant take a new node there (`Quota.ShrinkMayRaise`).
- A waiter can be stranded in three ways: by a reset, which raises a quota below `MIN_RS_NUM` without draining
  (`FailingRuns.ResetStrands`); by a message whose shrink wraps around, which does not drain either
  (`FailingRuns.MessageStrands`); and by a grant that overtakes the waiters and wraps the sum around
  (`FailingRuns.WrapStrands`). Each has its guard, exact for a node whose waiters may have any costs
  (`Quota.ResetKeepsUnfitIff`, `Quota.MessageKeepsUnfitIff`, `Quota.GrantKeepsUnfitIff`); a run that meets the guards
  strands nobody, whatever its totals and costs (`Results.SafeRunsStrandNobody`), and a fair run meets them
  (`Waiters.FairRunIsSafe`).
- The check of a cost compares a sum that can wrap; it is the true comparison for every cost exactly while at most 2^63
  tokens are in use (`Quota.FitsTrulyIff`). This is why fair totals are at most 2^63.
- A wakeup can be lost: a free that gives back between the refused second try of `alloc_resource` and its `push_back`
  finds no waiter and returns without the lock, and the request then waits although it fits (`Wakeups.LostWakeup`). Under
  the guards this is the only way (`Wakeups.AlwaysAttendedIff`), and it cannot happen if nobody makes room while a refused
  request is on its way to the queue (`Wakeups.ApartLosesNone`).
- Fences are kept in an `int`. After 2^32 of them one returns, and a node is taken for an earlier one of its id
  (`FailingRuns.FenceReturns`); while fewer have been handed out since, it is not (`Results.FencesAsInts`).
- `try_alloc_from_desc` returns OK although its second check failed. Two callers can both be told OK and one be charged,
  after which the node never comes back to zero (`Race.TwoAtOnce`). From any state of a node, with messages and resets in
  between, the use is off by exactly what was granted without a charge (`Race.BackAgainIff`).
- `to_failed` raises `failed_exist` before its compare-and-swap, so a failure that loses against a grant of the same
  request still turns the outcome into FAILEDNODE (`Completion.LostFailureSpoils`). One access decides the outcome, and it
  is FAILEDNODE exactly if a call to fail has raised the flag by then (`Completion.OutcomeIff`); no request has failed
  then exactly if all are got and such a call clashed with a grant (`Completion.SpoiledIffClash`). In a run
  of the manager what a drain grants and an offline fails stands in a queue, and is unsettled
  (`Results.QueuesHoldLiveRequests`).
- The width of the message's press field is written `sizeof(unsigned long)<<3 - PRESS_TYPE_BIT`, which C reads as 8 shifted
  by 1: 16 bits. The reported press is right exactly while the waiting costs stay below 2^16
  (`Results.PressReported`); a waiter of 2^16 is reported as none (`FailingRuns.PressOverflows`).
- `rcvd` looks as if it retried a message after bringing an unknown node online; `continue` inside `do ... while (0)`
  leaves the loop, so the message is dropped. The model follows the code.
- `node_online` takes a fence number even when the node is present.
- The split subtracts the nodes' bases from a pool that no longer contains them. When no number leaves the word, the
  first node has room and every node is reached (exactly if the shares of all but the last leave something of the pool, or
  there is one node), the new quotas together are the old ones less all bases, and equal exactly if no node has a base
  (`Split.BaseLostIff`, with `Split.BaseLost`). The pool itself wraps around exactly if the quotas sum to less than twice
  the bases (`Split.PoolWrapsIff`); a single node at its minimum then ends at zero, where the code asserts
  (`Split.MinimumEndsAtZero`).
- Without upper limits the pool is handed out exactly, up to the word, whatever overflows (`Split.PoolKeptUnlimited`). This
  is how the program runs: it sets `limit.max` to 0 (sysqos_app_node.c:196) and nothing else. Where a limit is set, a node
  cut off in the first pass is counted twice in the second: of a pool of 20, 25 are handed out
  (`Split.LimitHandsOutMore`). The pool is then kept exactly if the rest is used up before the first node its limit cuts
  off, which can be told before the split (`Split.PoolKeptBefore`, `Split.PoolKeptEarly`).
- The product of a share can wrap; the share is the true one exactly if the product fits the word (`Split.ShareTrueIff`).

## Model

| member | source | states |
|---|---|---|
| Results.ChargeConservation | sysqos_token_reqgrp_manager.c:84-387 | after every legal run a node's `token_inuse` is, modulo 2^64, the sum of the costs of the granted, not yet put requests stamped with its fence; on fair runs the equation is exact |
| Results.FencesAsInts | sysqos_dispatch_node.c:88 | while fewer than 2^32 fences were handed out since the fence of a grant and since that of its node, comparing them as `int` is comparing them |
| Results.OwnershipPartition | sysqos_token_reqgrp_manager.c:39-209 | after every legal run a live request stands in exactly one place of one queue, that of its own node under its current fence, if it is unsettled, and in no queue at all otherwise; its group is outstanding and lists it |
| Results.QueuesHoldLiveRequests | sysqos_dispatch_node.c:96-160 | every queue entry is an unsettled request for that node, of an outstanding group |
| Results.ExactlyOnce | sysqos_token_reqgrp_manager.c:23-35 | an admitted group has had its outcome delivered, by return value or callback, once if all its requests are settled and not at all before; a group never admitted is never told; what was told is final and is what the group's requests showed when it was told, groups already put included, and OK iff none failed as long as the group is there |
| Results.GetReports | sysqos_token_reqgrp_manager.c:295-342 | after any legal run, a get returns MEMORY iff a cache is short, and then nothing changed; otherwise the result of the last request is the outcome of the whole group; OK means every request is got, and FAILEDNODE means the group is gone already; a final result is the next entry of the log, any other result adds none |
| Results.CacheAccounting | sysqos_token_reqgrp_manager.c:126-387 | units out of the group, request, node and table caches are the live groups, live requests, and nodes in the table, each within its limit; a node that got an item finds a table item too |
| Effects.OnlineBrings | sysqos_token_reqgrp_manager.c:126-176 | a new node joins unused, with quota and target MIN_RS_NUM and version 0, under the next fence, with one unit of each item cache, and nothing else changes; a known one costs a fence; with no item left nothing happens |
| Effects.CheckInBrings | sysqos_token_reqgrp_manager.c:276-293 | from any world, the unknown ids asked for join in the order they first come up, as far as the node cache has room, unused and under consecutive fences; old nodes, requests, groups and log stay |
| Effects.GetBrings | sysqos_token_reqgrp_manager.c:295-342 | after any get that found memory, whatever its result, the table is the old one and those ids |
| Effects.NewNodesGrant | sysqos_token_reqgrp_manager.c:295-342 | a get that asks distinct new nodes for at most MIN_RS_NUM each, with room in the caches, returns OK, and each of those nodes has its cost in use |
| Effects.AskEffect | sysqos_dispatch_node.c:96-128 | a request fails where its node is unknown, is granted where it fits, and else waits last, stamped either way; no other request, node or count changes |
| Effects.RcvdUnknown | sysqos_token_reqgrp_manager.c:232-274 | a message for an unknown id leaves exactly the old world with that node brought online, or the old world if the node cache is full |
| Effects.RcvdRaises | sysqos_token_reqgrp_manager.c:232-274 | a raise is in force at once, the longest prefix that fits is granted, and the groups complete by it are called back, latest completed first; nothing else changes |
| Effects.RcvdLowers | sysqos_token_reqgrp_manager.c:232-274 | a newer message that does not raise changes one node's base only: with the total in force the version alone, with a lower one target, version and quota; nobody is granted or told |
| Effects.RcvdOwnVersion | sysqos_token_reqgrp_manager.c:232-274 | a message of the node's own version, with any total, leaves the world as it is |
| Effects.OfflineEffect | sysqos_token_reqgrp_manager.c:179-209 | the node is gone with its units, its waiters have failed and no other request changed, and the groups that completes are called back, latest first |
| Effects.CheckOutTable | sysqos_token_reqgrp_manager.c:345-362 | for any world and ids, the table is the old one without those ids |
| Effects.CheckOutWaiters | sysqos_token_reqgrp_manager.c:345-362 | exactly the unsettled requests for those ids have failed; every other request is as it was |
| Effects.PutReportsFailed | sysqos_token_reqgrp_manager.c:365-387 | after a put exactly the ids reported are gone from the table, the requests that waited for them are failed, and every group completed by that is called back with FAILEDNODE; a put tells through callbacks only |
| Effects.ReleaseStale | sysqos_dispatch_node.c:80-93 | giving back what was not granted, or at a node gone or under another fence, does nothing at all |
| Effects.ReleaseDrains | sysqos_dispatch_node.c:80-93 | giving back at home takes the cost from the use of that node, and grants the longest prefix that then fits; nothing else changes |
| Effects.RetireEffect | sysqos_token_reqgrp.c:96-109 | exactly the group put and its requests are gone, and their units back |
| Effects.GetTells | sysqos_token_reqgrp_manager.c:295-342 | a get tells its own group by the result, and everyone else after it by callback |
| Order.CheckInInOrder | sysqos_token_reqgrp_manager.c:284-292 | each resource is looked at in the world the resources before it leave |
| Order.CheckOutInOrder | sysqos_token_reqgrp_manager.c:353-361 | each reported node is looked at in the world the nodes before it leave |
| Order.AskAllInOrder | sysqos_token_reqgrp_manager.c:94-102 | each request is asked for in the world the requests before it leave, and its result is the result so far |
| Order.ReleaseAllInOrder | sysqos_token_reqgrp_manager.c:113-123 | each request is given back in the world the requests before it leave |
| Order.AskedBackwards | sysqos_token_reqgrp.c:111-133 | a group lists its requests, and a get asks for them, from the last resource to the first |
| Order.LaterAskedFirst | sysqos_token_reqgrp.c:111-133 | of two resources at a node with room for either but not both, the later is granted and the earlier waits last |
| Order.DrainTells | sysqos_dispatch_node.c:41-54 | the groups a drain hands up are those whose unsettled requests all stand in the prefix it grants, the one completed last in front |
| Order.FailAllTells | sysqos_dispatch_node.c:147-159 | the same for failing all waiters, over the whole queue |
| Telling.StepTellsTruly | sysqos_token_reqgrp_manager.c:23-35 | an operation only adds to the log, and each entry it adds is final and the outcome its group's requests show at that time |
| Telling.RunTellsTruly | sysqos_token_reqgrp_manager.c:23-35 | every entry of the log of a run was made by one operation of it, and was true then |
| Telling.GetGrown | sysqos_token_reqgrp_manager.c:295-342 | a final result of a get is logged directly after what was there, before anything its own put brings; only its own group joins or leaves |
| FailingRuns.ResetStrands | sysqos_token_reqgrp_manager.c:211-228 | a run in which a total of 5, a request of 6 to 10 and a reset leave a waiter that fits |
| FailingRuns.WrapStrands | sysqos_dispatch_base_node.c:78-110 | a run with a total of 2^64 - 10 in which a request of 25 wraps the sum around, leaves 5 in use and strands a waiter of 15 |
| FailingRuns.MessageStrands | sysqos_dispatch_base_node.c:63-69 | a run with totals of 3 and 1, one safe grant and no reset, that leaves a waiter that fits |
| FailingRuns.PressOverflows | sysqos_policy_param.h:12-26 | a fair run in which a request of 2^16 waits and the press sent is 0 |
| FailingRuns.FenceReturns | sysqos_token_reqgrp_manager.c:141-143 | a run in which a grant under fence 0 is out while the node of that id is back, unused, under fence 2^32, which is 0 in an `int` |
| Frozen.StepGrantsNothing | sysqos_dispatch_node.c:24-160 | an operation that does not raise the quota of a fence, and gives back too little to bring its use within the quota, leaves the grants under it less those given back |
| Frozen.PutGrantsNothing | sysqos_token_reqgrp_manager.c:365-387 | the same for a put, over all its frees and drains |
| Frozen.GetGrantsNothing | sysqos_token_reqgrp_manager.c:295-342 | the same for a get, its own put after a failure included |
| Results.WaitGrantPut | sysqos_token_reqgrp_manager.c:232-387 | a run from a new manager: a request too large for a new node waits, a message grants it, its group is told OK by one callback, and after the put only the unused node is left |
| Results.PressReported | sysqos_policy_param.h:12-26 | `press` is the sum of the waiting costs modulo 2^64; the 16 bits sent are that sum modulo 2^16, and equal it iff it is below 2^16 |
| Results.SafeRunsStrandNobody | sysqos_dispatch_node.c:24-160 | after any run whose operations meet the guards, each queue is empty or its head does not fit |
| Results.NoStrandedWaiter | sysqos_dispatch_node.c:24-160 | after every operation of a fair run each queue is empty or its head's cost plus the use exceeds the quota |
| Results.BoundedUse | sysqos_dispatch_base_node.c:37-145 | on fair runs a node's use never exceeds the largest quota its incarnation has shown |
| Results.OverQuotaNeverGains | sysqos_dispatch_base_node.c:78-145 | after a fair run, an operation cannot add to the use of a node above its quota unless it raises the quota past the old use |
| Results.OverQuotaGrantsNothing | sysqos_dispatch_node.c:24-128 | after a fair run, at a node above its quota a get, online, offline, reset or a message that does not raise its quota grants nothing, and a put grants nothing unless what it gives back brings the use within the quota |
| Results.GetPutLeavesNoTrace | sysqos_token_reqgrp_manager.c:295-387 | after any fair run: a get that returns OK followed by its put, or a get that returns FAILEDNODE, leaves requests, groups, use, waiters and press as they were, nodes it brought online unused, and tells nobody else anything |
| Steps.StartHolds | sysqos_token_reqgrp_manager.c:432-470 | the invariant holds of a new manager |
| Steps.StepKeeps | sysqos_token_reqgrp_manager.c:126-387 | every legal operation keeps the invariant (links, ownership, charges, press, fences, delivery, caches) |
| Steps.RunKeeps | sysqos_token_reqgrp_manager.c:126-387 | so does every legal run |
| Steps.DrainKeeps | sysqos_dispatch_node.c:24-56 | a drain keeps the invariant; the groups it completes become due |
| Steps.OfflineKeeps | sysqos_token_reqgrp_manager.c:179-209 | failing the waiters of a node, removing it and telling the groups keeps the invariant, and no settled request changes |
| Steps.RcvdKeeps | sysqos_token_reqgrp_manager.c:232-274 | any message keeps the invariant; on fair runs the total must be fair |
| Steps.AskAllKeeps | sysqos_token_reqgrp_manager.c:84-103 | asking for the unsettled requests of one group one by one ends with none unsettled outside a queue, and the last result is the group's recorded outcome |
| Steps.ReleaseAllKeeps | sysqos_token_reqgrp_manager.c:105-124 | giving requests back leaves the charges equal to the holders that are left, stale grants included |
| Steps.PutKeeps | sysqos_token_reqgrp_manager.c:365-387 | a put of a completed group keeps the invariant, whatever nodes it reports failed |
| Steps.GetKeeps | sysqos_token_reqgrp_manager.c:295-342 | a get keeps the invariant on all of its paths |
| Steps.FinalMeansSettled | sysqos_token_reqgrp_manager.c:365-387 | a group with a recorded outcome has no unsettled request and has been told |
| Waiters.StepStrandsNobody | sysqos_dispatch_node.c:24-160 | from any world in which nobody is stranded, an operation strands nobody: put, online and offline always, a get if each grant over waiters is safe, a message and a reset if safe |
| Waiters.RunStrandsNobody | sysqos_dispatch_node.c:24-160 | so does any run of such operations, fair or not |
| Waiters.FairRunIsSafe | sysqos_dispatch_base_node.c:37-145 | every operation of a fair legal run meets the guards |
| Bounds.StepBounded | sysqos_dispatch_base_node.c:37-145 | an operation leaves the use of an incarnation at most its old use, old quota or new quota |
| Bounds.RunBounded | sysqos_dispatch_base_node.c:37-145 | over a run the use stays below the start's use and the largest quota shown |
| Bounds.OverQuotaFrozen | sysqos_dispatch_base_node.c:78-110 | a node above its quota queues every newcomer and its drain changes nothing |
| Neutral.GetPutNeutral | sysqos_token_reqgrp_manager.c:295-387 | the round trip of get and put from any state in which the fair invariant holds and nobody is stranded |
| Neutral.PutUndoes | sysqos_token_reqgrp_manager.c:365-387 | putting a group that completed within its get restores requests, groups, use and queues |
| Versions.VersionFallsOnlyByReset | sysqos_dispatch_base_node.c:37-76 | a node's version falls only by a reset or an older message to it, and then only quota, target and version change |
| Versions.OlderResets | sysqos_token_reqgrp_manager.c:232-274 | an older message puts the node to (MIN_RS_NUM, MIN_RS_NUM, 0) and changes nothing else in the world |
| Versions.RedeliveryIdle | sysqos_dispatch_node.c:58-77 | a message not older than the node leaves its version behind, and delivering it again changes nothing at all |
| Versions.FencesNeverReturn | sysqos_token_reqgrp_manager.c:141-143 | a fence that was handed out and is borne by no node is borne by none in any later run |
| Versions.StepFences | sysqos_token_reqgrp_manager.c:126-209 | no single operation brings a past fence back |
| Quota.ExactKept | sysqos_dispatch_base_node.c:37-145 | in the range of a fair run the check is the true comparison, charge and discharge are the true sum and difference, resets never raise the quota, and every operation stays in the range |
| Quota.FitsTrulyIff | sysqos_dispatch_base_node.c:78-88 | the check agrees with the true comparison for all costs iff at most 2^63 tokens are in use |
| Quota.TargetBelowQuota | sysqos_dispatch_base_node.c:37-145 | `token_quota_new` never exceeds `token_quota`, wrapping or not |
| Quota.GradualShrink | sysqos_dispatch_base_node.c:90-110 | k grants leave the quota at the larger of the target and k steps below where it was |
| Quota.NotNewerIdle | sysqos_dispatch_base_node.c:44-53 | a message not newer than the node leaves it as it is, whatever its total, and asks for a reset iff it is older |
| Quota.RaiseHolds | sysqos_dispatch_base_node.c:58-62 | after a raise, whatever the state before, quota and target are the total, and any grants leave them there |
| Quota.SameTotalShrinksOn | sysqos_dispatch_base_node.c:58-70 | after a newer message with the total in force a shrink under way goes on: k grants leave the larger of the old target and k steps down |
| Quota.SameTotalKeepsTarget | sysqos_dispatch_base_node.c:58-70 | for every state such a message changes the version only |
| Quota.StepDown | sysqos_dispatch_base_node.c:63-69 | for every state, a lower total becomes the target and takes the quota one step down, which below one step is near 2^64 |
| Quota.GrantWord | sysqos_dispatch_base_node.c:98-107 | for every state, what one grant makes of use, quota, target and version, numbers that leave the word included |
| Quota.FitsWord | sysqos_dispatch_base_node.c:81-87 | for every state, a cost fits iff the sum is within the quota, or has left the word and is within it again |
| Quota.MessageConverges | sysqos_dispatch_base_node.c:55-110 | after a smaller total and k grants the quota is the larger of the total and k + 1 steps down, and has arrived iff the difference is at most k + 1 steps |
| Quota.ShrinkLowersIff | sysqos_dispatch_base_node.c:63-69 | a shrink does not raise the quota iff the quota is at least one step |
| Quota.ShrinkMayRaise | sysqos_dispatch_base_node.c:63-106 | three calls that take a new node to a quota of 2^64 - 2 |
| Quota.Redelivered | sysqos_dispatch_base_node.c:37-76 | the second delivery of an accepted message finds nothing to do |
| Quota.ResetKeepsUnfitIff | sysqos_dispatch_base_node.c:138-145 | for every state, a reset lets in no cost that did not fit before iff the quota is at least MIN_RS_NUM, or the use is above it and at most the quota plus 2^63 + 1 |
| Quota.GrantKeepsUnfitIff | sysqos_dispatch_base_node.c:78-110 | for every state, no grant lets in a cost that did not fit before it iff a condition on use, quota and target holds that rules out wrapping sums and a wrapping shrink |
| Quota.MessageKeepsUnfitIff | sysqos_dispatch_base_node.c:37-76 | for every state, a message that starts no drain lets in no cost that did not fit before iff it does not shrink a quota below one step |
| Groups.FinishSettles | sysqos_token_reqgrp.c:63-92 | settling an unsettled request changes that request and its group only, and returns and records exactly the outcome the group's requests show |
| NodeSpec.DrainGrantsLongestPrefix | sysqos_dispatch_node.c:24-56 | the drain grants exactly the longest prefix that fits one by one with the quota shrinking, leaves the suffix, settles those requests and no others, and `press` is what still waits |
| NodeSpec.LongestPrefix | sysqos_dispatch_node.c:41-54 | a prefix of the queue can be granted one by one iff it is no longer than what the drain grants |
| NodeSpec.DrainNode | sysqos_dispatch_node.c:24-56 | queue, quota, use and press after a drain, by the number granted |
| NodeSpec.DrainStore | sysqos_dispatch_node.c:24-56 | exactly the granted prefix becomes got |
| NodeSpec.DrainSettles | sysqos_dispatch_node.c:24-56 | after a drain the queue is empty or its head does not fit, wrapping or not |
| NodeSpec.FreeSettles | sysqos_dispatch_node.c:80-160 | in any state a free of the node's own tokens leaves no waiter that fits, any other leaves none that was not there, and pop_all leaves no waiter |
| NodeSpec.ChangeSettles | sysqos_dispatch_node.c:58-72 | a message leaves no waiter that fits, unless its shrink starts below one step |
| NodeSpec.AllocSettles | sysqos_dispatch_node.c:96-128 | a newcomer leaves no waiter that fits, queued or granted over their heads, if the grant is safe |
| NodeSpec.ResetSettles | sysqos_dispatch_node.c:74-77 | a safe reset leaves no waiter that fits |
| Completion.AnyInterleaving | sysqos_token_reqgrp.c:45-92 | for any threads and any interleaving, repeated calls included: `req_pending_nr` is the unsettled requests plus the calls past their swap that have not subtracted; at most one call returns an outcome; it is the one recorded; OK implies every request is got; a failed request forces FAILEDNODE |
| Completion.OutcomeDelivered | sysqos_token_reqgrp.c:63-92 | once all requests are settled and all calls have returned, one call has returned the recorded outcome |
| Completion.StepKeeps | sysqos_token_reqgrp.c:45-92 | every shared access keeps the invariant of the protocol |
| Completion.LostFailureSpoils | sysqos_token_reqgrp.c:81-92 | a run in which a failing call loses its swap and the outcome of the granted request is FAILEDNODE |
| Completion.DecidingAccess | sysqos_token_reqgrp.c:63-92 | in any state calls can reach, the access that decides (a grant reading the flag, a failure taking the count to zero) writes FAILEDNODE iff a call to fail has raised the flag by then |
| Completion.OutcomeIff | sysqos_token_reqgrp.c:63-92 | a final outcome was decided by exactly one access of the run; it is FAILEDNODE iff a call to fail had raised the flag by then; every request was settled by then and none changes after |
| Completion.SpoiledIffClash | sysqos_token_reqgrp.c:63-92 | a final outcome is FAILEDNODE without a failed request iff the deciding access saw no failed request and a call to fail that had raised the flag for a granted one |
| Completion.AloneIsAtomic | sysqos_token_reqgrp.c:63-92 | a call run without interruption ends in the state and code of the atomic step |
| Completion.FinishIsAtomic | sysqos_token_reqgrp.c:63-92 | the step nodes and manager use to settle a request is that atomic step, seen on the group |
| Race.BackAgainIff | sysqos_dispatch_base_node.c:37-145 | from any state of the node, however tries, frees, messages and resets interleave: once all grants are given back the use is the old one less the costs granted without charge modulo 2^64, so the old one iff those are a multiple of the word |
| Race.RunBalanced | sysqos_dispatch_base_node.c:37-145 | at any point the use is the old one plus the charged grants still held minus the uncharged ones given back, modulo 2^64 |
| Race.TwoAtOnce | sysqos_dispatch_base_node.c:90-109 | two calls that pass the first check together leave 2^64 - 6 in use |
| Wakeups.StepAttendedIff | sysqos_dispatch_node.c:24-128 | under the guards, a step of any thread leaves a head that fits with nobody about to look at it iff it is a lost wakeup: a request joining an empty queue although it fits, after whoever made room has looked |
| Wakeups.AlwaysAttendedIff | sysqos_dispatch_node.c:24-128 | over any interleaving under the guards, a head that fits is attended all along iff no wakeup is lost |
| Wakeups.QuietStrandsNobody | sysqos_dispatch_node.c:24-128 | once all calls have returned and no wakeup was lost, the queue is empty or its head does not fit |
| Wakeups.ApartLosesNone | sysqos_dispatch_node.c:34-38 | no wakeup is lost if no free and no raising message falls between a refused second try and its push |
| Wakeups.LostWakeup | sysqos_dispatch_node.c:34-38 | a run in which all calls return and a request of 6 waits at a node with quota 10 and nothing in use |
| Objects.TokenReq.ToStat | sysqos_token_reqgrp.c:45-58 | the swap succeeds iff the request was unsettled, and otherwise leaves it |
| Objects.TokenReqGrp.ToGot | sysqos_token_reqgrp.c:63-79 | the objects change as the specification of a grant says, and nothing else live does |
| Objects.TokenReqGrp.ToFailed | sysqos_token_reqgrp.c:81-92 | the same for a failure; the flag is raised even if the request was settled |
| DispatchNodes.BaseNode.constructor | sysqos_dispatch_base_node.c:147-162 | a new node has MIN_RS_NUM as quota and target, nothing in use, version 0 |
| DispatchNodes.BaseNode.CheckUpdateTotalVersion | sysqos_dispatch_base_node.c:37-76 | a message is rejected, ignored, or taken as the version rule says, with quota, target and both flags |
| DispatchNodes.BaseNode.TryAlloc | sysqos_dispatch_base_node.c:90-110 | OK iff the cost fits, charged then and only then, with one step of shrink |
| DispatchNodes.BaseNode.Free | sysqos_dispatch_base_node.c:112-117 | only the use goes down by the cost |
| DispatchNodes.BaseNode.ResetBase | sysqos_dispatch_base_node.c:138-145 | quota, target and version restart; the use stays |
| DispatchNodes.NodeReqList.PushBack | sysqos_nodereq_list.c:10-18 | the request joins the tail and its cost the press |
| DispatchNodes.NodeReqList.PopFront | sysqos_nodereq_list.c:61-73 | the head and its cost leave; an empty list stays as it is |
| DispatchNodes.NodeReqList.PopAll | sysqos_nodereq_list.c:42-59 | all waiters leave in order, and the press is cleared if there were any |
| DispatchNodes.DispatchNode.ResourceIncreased | sysqos_dispatch_node.c:24-56 | the loop ends and leaves node, requests, groups and list of completed groups as the drain of the specification |
| DispatchNodes.DispatchNode.ResourceChanged | sysqos_dispatch_node.c:58-72 | quota message, drain if it raised the quota, and the request for a reset |
| DispatchNodes.DispatchNode.FreeResource | sysqos_dispatch_node.c:80-93 | only the incarnation that granted a request takes its tokens back and drains |
| DispatchNodes.DispatchNode.AllocResource | sysqos_dispatch_node.c:96-128 | the request is stamped, then granted or queued at the tail, and the code tells which |
| DispatchNodes.DispatchNode.PopAllWaiters | sysqos_dispatch_node.c:138-160 | every waiter is failed in order, and the groups that completed are collected |
| Managers.Manager.constructor | sysqos_token_reqgrp_manager.c:432-470 | an empty manager with the three limits given |
| Managers.Manager.EndTokenGrps | sysqos_token_reqgrp_manager.c:23-35 | each completed group is told its recorded outcome once, in list order |
| Managers.Manager.TryToAlloc | sysqos_token_reqgrp_manager.c:39-56 | an unknown node fails the request, a known one is asked |
| Managers.Manager.TryToFree | sysqos_token_reqgrp_manager.c:58-74 | tokens go back to the node of that id, if any, subject to its fence |
| Managers.Manager.TryToGetTokens | sysqos_token_reqgrp_manager.c:84-103 | all requests of the group are asked for in list order; the last result is returned |
| Managers.Manager.TryToPutTokens | sysqos_token_reqgrp_manager.c:105-124 | exactly the granted requests of the group are given back, in list order |
| Managers.Manager.NodeOnline | sysqos_token_reqgrp_manager.c:126-176 | a new node under the next fence, or none if the cache is empty or the id present; a unit taken in vain goes back, and the insert always finds its item |
| Managers.Manager.NodeOffline | sysqos_token_reqgrp_manager.c:179-209 | waiters failed, node gone, both units back, completed groups told |
| Managers.Manager.NodeReset | sysqos_token_reqgrp_manager.c:211-228 | the node of that id, if any, restarts its quota; nothing else changes |
| Managers.Manager.Rcvd | sysqos_token_reqgrp_manager.c:232-274 | a known node takes the message, is reset if it asks, and groups are told; an unknown one only comes online |
| Managers.Manager.SndMsgBuf | sysqos_token_reqgrp_manager.c:394-415 | FAILEDNODE iff the node is unknown; otherwise its press bits, version and use |
| Managers.Manager.CheckNodeIn | sysqos_token_reqgrp_manager.c:276-293 | the nodes missing from the table are brought online in list order |
| Managers.Manager.CheckNodeOut | sysqos_token_reqgrp_manager.c:345-362 | the reported nodes that are present go offline in list order |
| Managers.Manager.InitGroup | sysqos_token_reqgrp.c:111-180 | one unsettled request per resource, latest first, or none and every unit back |
| Managers.Manager.AdmitGroup | sysqos_token_reqgrp_manager.c:311-319 | no group iff a cache is short, and then no unit is missing |
| Managers.Manager.RetireGroup | sysqos_token_reqgrp.c:96-109 | the group and its requests are gone, and their units back |
| Managers.Manager.GetTokenGrp | sysqos_token_reqgrp_manager.c:295-342 | the whole get on objects is the get of the specification, with its result, on every path; it keeps the invariant |
| Managers.Manager.PutTokenGrp | sysqos_token_reqgrp_manager.c:365-387 | the whole put on objects is the put of the specification; it keeps the invariant |
| Caches.MemoryCache.Alloc | memory_cache.c:13-35 | a unit is given iff fewer than `cache_unit` are out, however often the counters have wrapped |
| Caches.MemoryCache.Free | memory_cache.c:37-45 | one unit fewer is out |
| Caches.FreeUnits | memory_cache.c:18 | the unsigned expression compared with zero is the number of free units |
| Rings.Add | list_head.h:48-51 | the new entry is first in the ring, `next` and `prev` inverse throughout |
| Rings.AddTail | list_head.h:53-56 | the new entry is last in the ring |
| Rings.Del | list_head.h:58-67 | the others close up in the same order; the entry keeps its stale pointers |
| Rings.Empty | list_head.h:34-37 | the test is true iff the list has no entry |
| Rings.Front | sysqos_nodereq_list.c:20-31 | the entry the ring starts with after its head, or none iff there is none |
| Rings.PopFront | sysqos_nodereq_list.c:61-73 | the ring without its first entry, if it has one |
| Rings.MoveAll | sysqos_nodereq_list.c:42-59 | the whole queue hangs from the new head in the same order, and the old head is empty |
| Rings.BorrowRing | sysqos_token_reqgrp_manager.c:306-341 | inserting and removing a head of one's own leaves every pointer of the caller's ring as it was |
| Rings.SameRing | list_head.h:39-67 | the sequence determines every pointer of a ring |
| WaitIncrease.OrderedByLatestEnqueue | sysqos_waitincrease_list.c:12-27 | after any inserts and erases a node is listed iff its last operation was an insert, no node is listed twice, and nodes stand in the order of their latest insert |
| WaitIncrease.WaitIncreaseList.EraseNode | sysqos_waitincrease_list.c:12-18 | the pointers form the list without the node, which is linked to itself |
| WaitIncrease.WaitIncreaseList.EnqueueNode | sysqos_waitincrease_list.c:20-27 | wherever the node was, the pointers form the list with it last |
| WaitIncrease.WaitIncreaseList.Perform | sysqos_waitincrease_list.c:12-27 | any sequence of inserts and erases on initialised nodes leaves the pointers of exactly the list the sequence describes, every other node linked to itself |
| WaitIncrease.WaitIncreaseList.FirstNode | sysqos_waitincrease_list.c:29-41 | the first node, if any |
| HashTables.SafeRwList.Find | safe_rw_list.c:14-34 | finds what the bucket maps the id to, or reports that it is absent |
| HashTables.SafeRwList.Insert | safe_rw_list.c:36-68 | adds an absent id to the bucket's map, at the front of the list; a present one is left and the item goes back |
| HashTables.SafeRwList.Erase | safe_rw_list.c:70-97 | removes the id from the bucket's map, returns its value and frees the item |
| HashTables.HashTable.constructor | hash_table.c:73-104 | an empty map over the given number of buckets |
| HashTables.HashTable.Find | hash_table.c:33-41 | agrees with the abstract map |
| HashTables.HashTable.Insert | hash_table.c:12-21 | updates the abstract map iff the key was absent; every key stays in its own bucket, once |
| HashTables.HashTable.Erase | hash_table.c:23-31 | removes the key from the abstract map and returns what it mapped to |
| HashTables.HashTable.ForEachDo | hash_table.c:52-60 | visits each entry of the map exactly once, bucket by bucket in list order |
| HashTables.ContentsAt | safe_rw_list.c:14-34 | in a list without repeated keys the value found is the value mapped, and the map has one key per item |
| Split.RestSmall | sysqos_token_update.c:55-60 | the rounded shares never exceed the pool and leave less than one token per node |
| Split.UsedUp | sysqos_token_update.c:102-108 | every prefix of shares fits the pool, and once it is used up the remaining shares are zero |
| Split.PoolKeptUnlimited | sysqos_token_update.c:88-118 | without limits, for any weights, bases and pool, products and sums beyond the word included: the second pass ends at the first node with nothing left, and the shares above base are the pool modulo 2^64 |
| Split.PoolKeptBefore | sysqos_token_update.c:88-118 | with limits, when no number leaves the word and every node is reached: the pool is kept iff the rest of the limited shares is used up before the first node its limit cuts off, a condition on weights, bases and limits |
| Split.PoolKeptEarly | sysqos_token_update.c:102-115 | if the pool is used up before every node is reached, it is kept unless the first node is cut off |
| Split.PoolKeptIff | sysqos_token_update.c:88-118 | for all inputs and limits: what is above base plus what is left equals the pool modulo 2^64 iff nothing slips (parts cut by a limit, and nodes the first pass did not reach, among those the second pass visits); otherwise it is off by exactly that |
| Split.LimitHandsOutMore | sysqos_app_node.c:85-93 | two nodes, the first with a limit of 5, and a pool of 20: 25 are handed out; the program itself sets no limit |
| Split.ShareWord | sysqos_token_update.c:55-57 | for all inputs the share is the product modulo 2^64, divided by the total weight and rounded down |
| Split.FirstGives | sysqos_token_update.c:44-61 | for all inputs each node the first pass reaches is set to its share plus its base modulo 2^64, within its limit, and the others are left alone |
| Split.FirstStops | sysqos_token_update.c:102-108 | the first pass goes on exactly as long as what was assigned is not the pool modulo 2^64 |
| Split.SecondOffers | sysqos_token_update.c:63-77 | for all inputs each node the second pass reaches is offered, on top of what it was set to, what the nodes before it left modulo 2^64 |
| Split.SecondGives | sysqos_token_update.c:63-77 | it takes the offer within its limit, and the nodes not reached are left alone |
| Split.SecondStops | sysqos_token_update.c:110-115 | the second pass goes on exactly as long as something is left |
| Split.ShareTrueIff | sysqos_token_update.c:55-57 | the computed share equals the true quotient iff the product fits the word |
| Split.SplitExact | sysqos_token_update.c:88-118 | when no number leaves the word and the first node has room, whatever limits at or above their base the others have: nodes reached get base plus limited share, the first also the rest; the shares sum to exactly the pool, nodes not reached had a share of zero and keep what they had; all are reached iff the shares of all but the last leave something or there is one node; without limits the rest is below the node count |
| Split.FirstExact | sysqos_token_update.c:102-108 | from any amount left that the shares fit, the first pass never goes below zero, stops early only at zero, and gives each node reached base plus limited share |
| Split.BaseLostIff | sysqos_token_update.c:31-35 | if every node is reached the new quotas are the bases and the pool; they sum to the old quotas iff no node has a base |
| Split.BaseLost | sysqos_token_update.c:31-35 | a single node with quota 10 and minimum 4 ends with 6 |
| Split.PoolWrapsIff | sysqos_token_update.c:31-35 | the pool is the quotas less twice the bases iff that is not negative |
| Split.MinimumEndsAtZero | sysqos_token_update.c:31-60 | a single node at its minimum of 10 makes a pool of 2^64 - 10 and ends with a quota of 0 |
| TokenUpdates.TokenUpdateCtx.AddResource | sysqos_token_update.c:10-29 | for any node: base is the smaller of minimum and quota, and the totals stay, modulo 2^64, the sums of weights, bases and quotas over the nodes added |
| TokenUpdates.TokenUpdateCtx.RunFirst | sysqos_token_update.c:102-108 | the loop over the objects is the first pass on their values, in word arithmetic |
| TokenUpdates.TokenUpdateCtx.RunSecond | sysqos_token_update.c:110-115 | the loop over the objects is the second pass on their values |
| TokenUpdates.TokenUpdateCtx.Update | sysqos_token_update.c:88-118 | the nodes end as the split on values leaves them, for any totals with a weight above zero; the pool is the sum of quotas less twice the bases, modulo 2^64; the context is empty again |

## Left out

- The dispatcher's quota lifecycle (sysqos_token_global.c, most of sysqos_app_node.c and sysqos_dispatch_manager.c): unfinished in the source; its natural invariants do not hold.
- `dequeue` of the wait-increase list, which uses a list head that is never initialised.
- The ring given to `put_token_grp` with failed nodes: its temporary head is not removed by the code, so nothing is claimed of that ring; the model takes the ids in ring order.
- Fairness between requests and groups: newcomers overtake waiters and completed groups are told latest first, as `Effects` and `Order` say; nothing better is claimed.
- Interleavings inside entry points other than those of `Completion`, `Race` and `Wakeups`: in the manager each entry point is one step, and the unlocked early return of `resource_increased` and the second try of `alloc_resource` have no effect of their own then. `pop_all` is no move of `Wakeups`, since the manager calls it under its write lock.
- Versions.FencesNeverReturn: speaks of an unbounded counter; `Results.FencesAsInts` says when the code's 32-bit one agrees. Overflow of the `long` message version is not modelled.
- Costs that are negative when read as `long`.
- Allocation failure below the counted caches, the order of their lock and allocator calls, and reuse of freed memory: object identities are never used twice.
- Managers.Manager: its node table is a field of type map, and a node's queue a sequence; the bucketed table and the pointer rings are proved on their own and not plugged in.
- `erase` of a single waiter (sysqos_nodereq_list.c:33-40), which the engine does not call, and `req_total_nr`, which is written and never read.
- HashTables.HashTable.Insert: requires a free item, as the assert in `rwinsert` does; a hash outside the table is not modelled.
- Split.SplitExact: is stated for splits in which no product or sum leaves the word, no base is above its limit and the first node has room; `Split.PoolKeptUnlimited` and `Split.PoolKeptIff` hold without these. Nodes behind an early stop keep their old target.
- The asserts of a split that a new quota is not below the minimum: they are not stops of the model, so its statements hold of every run that they do not end. That some weight is above zero is required, as the code asserts.
- Versions and the wait-increase insert that `update_token_quota_new` also makes while a split sets a new target.
- The bytes of messages, locks, and the type bits of the press.
- `count_controller.c`, `fence_executor.c` and all test code.
