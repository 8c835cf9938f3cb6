# OVN controllers: reconcilers, verified

The OVN controllers keep a switch, a database and a handful of tables in step
with what is asked of them, and each does so incrementally: it keeps a fast
structure that has to agree with a simple one over every run.  This project
models the hardest of these reconcilers in Dafny and proves that agreement.

| part | modules | of |
|---|---|---|
| bridge flow manager | `OpenFlow`, `Seqs`, `FlowTable`, `FlowIndex`, `FlowRefinement`, `FlowOrder`, `FlowLeftovers`, `FlowQuiescence`, `FlowOwners`, `FlowLaws`, `FlowManager`, `FlowHash`, `Words` | `ovn/br-controller/br-flow-mgr.c`, `ovs/lib/hash.h` |
| barrier and configuration tracker | `BarrierTracker`, `BarrierSafety`, `BarrierPuts`, `FlowDelivery` | `ovn/br-controller/br-ofctrl.c` |
| conntrack zones | `CtZone`, `CtZoneManager`, `CtZoneOrder`, `CtZoneRecovery`, `CtZoneFlush`, `CtZoneLimits` | `ovn/controller/ct-zone.c` |
| interface status | `IfStatus`, `IfStatusRuns`, `IfStatusMoves`, `IfStatusData` | `ovn/controller/if-status.c` |
| egress port security | `PortSec`, `PortSecCompiler`, `PortSecMeaning`, `PortSecText` | `ovn/controller/lflow.c` |
| logical flow cache | `LflowCache`, `LflowConsider`, `LflowLaws` | `ovn/controller/lflow-cache.c`, `ovn/controller/lflow.c` |
| EVPN | `Evpn`, `EvpnFdb`, `EvpnDelta`, `EvpnRuns` | `ovn/controller/evpn-binding.c`, `ovn/controller/evpn-fdb.c`, `ovn/controller/physical.c` |
| HA election | `HaChassis` | `ovn/controller/ha-chassis.c` |
| tunnel identifiers | `TunnelId` | `ovn/controller/encaps.c` |

Each part has the same shape.  The operations are functions on a datatype, or a
relation where the source leaves an order open; classes and methods with loops
are proved to do the same in place; and the promises are
lemmas about those functions, for all inputs, all runs and all orders of a hash
map's walk.  The main theorems are marked MAIN RESULT in the files.
`dafny verify dfyconfig.toml` checks everything.

The switch follows section 6.4 (flow table modification messages) and section
6.2 (message handling, barriers) of the OpenFlow Switch Specification 1.5.1.

## What is taken as given

- Answers of the databases, of the binding module and of the conjunction-id and
  transaction layers are arguments: arbitrary, and different in every call.
- Random uuids are fresh, and message xids are fresh on a connection.
- For delivery: a change of flows is reported to the put that follows it.
- The configuration number given to a put does not decrease, and barrier replies
  come in order.
- A transaction that commits carries what the last zone commit wrote.  The move of
  a zone change from its OpenFlow stage to its database stage is an event.
- Logical and physical flow keys are disjoint.  Cookies need not be non-zero for
  the refinement; a zero cookie matters only where `RecomputeSilent` says so.
- The expression compiler is a record of functions that report what they read; a
  result reached without reading anything does not depend on the environment
  (`ReadsRecorded`), and a row's text does not change while it is cached.
- Datapath keys start from 1, as the southbound schema has it.
- The CRC instructions of the processor compute CRC-32C; how a match is hashed is an
  argument.
- Numbers are unbounded but for table ids, priorities and the words of the flow hash;
  identifiers such as uuids, addresses of tunnel endpoints
  and expression trees are natural numbers, names are strings, IP and MAC
  addresses of port security are bit strings.

## Where the code does not do what one would expect

Each of these is stated by a lemma with the exact condition under which the code
is right; where it takes a run to break the condition, another lemma gives one.

- A second switch of flow lists before a populate brings leftovers of the old list
  back to life (`SwitchExact`, `SecondSwitchUnsafe`).
- The delete-all of the first put travels in the bundle, the flow mods of the same
  put do not, so the deletion runs last and empties the table (`ClearingPutExact`,
  `FirstPutLoses`).
- A recompute that asks for the same again is not always silent
  (`RecomputeSilent`).  An installed drop with cookie zero reads as not installed
  and is sent again (`ZeroDropResent`); conjunctions that several owners share can
  change their order (`SharedResent`); a flow that was left without an action is
  deleted once more (`IdleDeleted`).
- A request that is repeated while another owner asked first for the same actions is
  entered again each time (`RepeatIdle`).
- Requested conntrack zones that form a chain, are shared, or are zero can leave two
  names on one zone or the bitmap wrong, depending on the order of a walk
  (`UpdateExact`).
- A put that was skipped once makes every later put unconditional, since
  `skipped_last_time` is never reset (`SkippedIff`, `PutsUnconditional`).
- The keys of removed EVPN bindings are never given back, so that 65536 bindings
  added over a controller's life exhaust them (`BoundIffKeysLast`,
  `ExhaustedForever`); one endpoint that comes and goes is enough
  (`OneEndpointSuffices`).
- Parsing and creating tunnel ids are inverse only without delimiters inside the
  components (`RoundTrip`, `CreateClash`).
- Deleting an interface with an OVS record, when the claim that created it carried
  none and so gave it no name, compares with a null name
  (`ovn/controller/if-status.c`, line 419; `NullComparedIff`, `NullNameReached`).
  `DeleteIface` reports exactly this case; the run model then ignores the delete.

A flow lookup does not compare the table id (`LookupExact`), and does not need to:
the hash tells tables apart (`HashSeparates`).

Cached matches without conjunctions are accounted with the size of their header
only (`MatchesEntry`).

Where code and comment differ the model follows the code: the state diagram in
`ovn/controller/if-status.c` lets a release of a claimed or installing interface
destroy it, the code marks it down; the comment on a single HA candidate says it is
the local chassis, which the code does not check.

## Model

| member | source | states |
|---|---|---|
| FlowOrder.SwitchRefines | ovn/br-controller/br-flow-mgr.c:497-605 | Over every legal run of switches of lists, additions, removals and populates that ends in a populate, the switch that has applied the emitted flow mods in order holds a key iff a live request stands under it, and its actions are exactly those of the last normal request, else of the first allow in the order asked for, else none if a drop is asked for, else all conjunctions concatenated in that order; the kind of a request is read off the shape of its actions, order and liveness come from a ledger of the requests alone |
| FlowOrder.KindIs | ovn/br-controller/br-flow-mgr.c:826-862 | The classes the program tells apart are: no action at all; one resubmit alone; some conjunction; anything else |
| FlowLaws.Outcome | ovn/br-controller/br-flow-mgr.c:1031-1091 | Whoever asks for one flow, in whatever order, no request twice: a populate can follow, and every one leaves that flow alone on the switch, with the actions of the last request that is neither a drop, a lone resubmit nor part of a conjunction; else of the first lone resubmit; else none; else of all in order |
| FlowLaws.RemovalOutcome | ovn/br-controller/br-flow-mgr.c:572-605 | When one owner is removed and a populate follows, the switch is left with what the requests that stay come to by the same rule, or with nothing; normal requests replace each other, so if the owner's was the last none is left to go back to |
| FlowLaws.FirstResubmitWins | ovn/br-controller/br-flow-mgr.c:1031-1044 | Of two owners that resubmit the first to ask is on the switch, and the second once the first is removed |
| FlowLaws.MessagesExact | ovn/br-controller/br-flow-mgr.c:1013-1091 | The messages for a flow, by what the switch holds: none if it has the actions, unless they are none under cookie zero; a strict modify if it has the flow under the wanted cookie, not zero; an add otherwise; a delete if nothing is wanted |
| FlowLaws.WantsAsGiven | ovn/br-controller/br-flow-mgr.c:1031-1062 | What a flow wants is one of its actions with its own cookie, or its conjunctions together under the cookie set aside for them |
| FlowLaws.AddDue | ovn/br-controller/br-flow-mgr.c:498-569 | An addition makes a flow due for a visit iff it changes the flow, and makes no other flow due |
| FlowOrder.StepBooked | ovn/br-controller/br-flow-mgr.c:498-605 | Every legal step keeps the actions of each flow, slot by slot and in order, equal to the ledger's requests: a switch lets all lapse, a request whose owner was first to ask for those actions revives in place, any other is entered at the end, a removal forgets a uuid, a populate forgets the lapsed |
| FlowOrder.RepeatIdle | ovn/br-controller/br-flow-mgr.c:536-568 | Asking a second time for the same changes nothing iff it is a normal action or its owner is the first to have asked for those actions under the key; otherwise the list grows each time |
| FlowOrder.LedgerGoal | ovn/br-controller/br-flow-mgr.c:498-605 | The set of live requests in the ledger is the goal that StepOk and RecomputeSilent speak of |
| FlowRefinement.StepOk | ovn/br-controller/br-flow-mgr.c:1106-1152 | Every legal step keeps controller and switch together and moves the independently defined goal (the requests alive since the last switch) accordingly; a populate leaves nothing stale and nothing due |
| FlowRefinement.IndexesAgree | ovn/br-controller/br-flow-mgr.c:536-568 | In every state of every legal run an action is on its uuid's list iff exactly one slot of its flow holds it, every flow is on exactly one generation list, and every flow with a stale action is in the modified set or on the old list |
| FlowRefinement.AlwaysLinked | ovn/br-controller/br-flow-mgr.c:446-605 | Of this all but the tracking of stale actions holds in every state of every run whatsoever, with switches at any time and keys in both halves |
| FlowLeftovers.SwitchExact | ovn/br-controller/br-flow-mgr.c:446-464 | After a switch of lists every populate, whatever comes in between, leaves the switch with exactly the keys and actions of the ledgers iff no flow left over on the old list still has an action or an installed entry |
| FlowLeftovers.SecondSwitchUnsafe | ovn/br-controller/br-flow-mgr.c:446-464 | The condition fails on a legal run: any flow asked for and populated, then two switches in a row |
| FlowRefinement.PrepareSwitch | ovn/br-controller/br-flow-mgr.c:1031-1091 | Whatever was installed before, the messages for a flow leave exactly what it should have; a strict modify is sent only for a key the switch holds |
| FlowLeftovers.UnvisitedKept | ovn/br-controller/br-flow-mgr.c:1106-1152 | A populate leaves alone a flow that is on the active list and not due |
| FlowIndex.AddOk | ovn/br-controller/br-flow-mgr.c:498-569 | An addition keeps both indexes, both lists and the tracking of stale actions |
| FlowIndex.RemoveExact | ovn/br-controller/br-flow-mgr.c:572-605 | Removal through the uuid index takes out of every flow exactly the actions of that uuid, marks exactly the flows that lost one, and nothing else |
| FlowIndex.RemoveOk | ovn/br-controller/br-flow-mgr.c:572-605 | A removal keeps the indexes and lists |
| FlowIndex.SwitchOk | ovn/br-controller/br-flow-mgr.c:446-464 | A switch keeps them when the old list holds no action |
| FlowIndex.HandleModifiedOk | ovn/br-controller/br-flow-mgr.c:1094-1103 | Visiting a modified flow drops its stale actions from both indexes, and the flow itself if nothing is left |
| FlowQuiescence.RecomputeSilent | ovn/br-controller/br-flow-mgr.c:773-807 | From any state a populate left, a switch of either half or of both, followed by any additions, in any order and any number, that amount to the same live requests, is a legal run, and the next populate emits nothing iff every flow of a recomputed half has an action, is no drop installed with cookie zero, and, if it consists of conjunctions, these come out as installed when each is taken once in its old order and the requests of those who were not first to ask follow in theirs |
| FlowQuiescence.QuiescentRun | ovn/br-controller/br-flow-mgr.c:1013-1028 | The same iff over every legal run from the start that ends in a populate, with no premise on who asks for what |
| FlowOwners.OwnedQuiescent | ovn/br-controller/br-flow-mgr.c:1013-1028 | If each conjunction under a key has one owner and lists are switched only after a populate, the condition comes down to: no drop of a recomputed half was installed with cookie zero |
| FlowOwners.ZeroDropResent | ovn/br-controller/br-flow-mgr.c:773-807 | Any drop asked for with cookie zero and populated is sent again by the recompute that repeats it |
| FlowOwners.SharedResent | ovn/br-controller/br-flow-mgr.c:1031-1091 | Conjunctions c, c and d of three owners, the first two different: the recompute that repeats them in order is silent iff c and d can be put together in either order, since c c d becomes c d c |
| FlowOwners.SharedSilent | ovn/br-controller/br-flow-mgr.c:1031-1091 | With c, c alone it is silent |
| FlowOwners.IdleDeleted | ovn/br-controller/br-flow-mgr.c:1106-1152 | A flow asked for and removed, then two switches and a populate: the recompute that asks for nothing sends a deletion |
| FlowManager.LookupExact | ovn/br-controller/br-flow-mgr.c:645-651 | A lookup, which does not compare the table, finds the flow of its key and no other in every table iff the hash separates the tables of a match and priority |
| FlowHash.HashSeparates | ovs/lib/hash.h:63-189 | The hash does: whatever the hash of the match, Murmur and CRC variant alike are bijections of the word of table and priority, so every lookup finds the flow of its key and no other |
| Words.FoldBack | ovs/lib/hash.h:83-91 | An exclusive or with oneself shifted right by 11 bits or more can be undone |
| Words.TimesBack | ovs/lib/hash.h:63-91 | So can a wrap-around multiplication by a factor with an inverse |
| FlowHash.CrcBitHigh | ovs/lib/hash.h:170-189 | The high bit after a step of the CRC tells the low bit before it, so that steps can be undone |
| FlowManager.Lookup | ovn/br-controller/br-flow-mgr.c:723-738 | The scan of a bucket finds a flow of equal hash, priority and match, or there is none |
| FlowManager.FindMatching | ovn/br-controller/br-flow-mgr.c:865-879 | The first action of a list with these OpenFlow actions |
| FlowManager.ConcatConj | ovn/br-controller/br-flow-mgr.c:1031-1091 | All conjunctions of a flow, in list order |
| FlowManager.PickAction | ovn/br-controller/br-flow-mgr.c:1031-1091 | The effective action: normal, front allow, front drop, or the conjunctions together |
| FlowManager.OvnFlowTable.MatchAction | ovn/br-controller/br-flow-mgr.c:882-906 | Finds an equal action in the slot of its class |
| FlowManager.OvnFlowTable.AddOpenflow | ovn/br-controller/br-flow-mgr.c:498-569 | The in-place addition is the specified one, on the flow the lookup finds, which is the key's own if the hash separates tables |
| FlowManager.OvnFlowTable.RemoveFlows | ovn/br-controller/br-flow-mgr.c:572-605 | The walk along the uuid's list is the specified removal |
| FlowManager.OvnFlowTable.PopulateOldFlows | ovn/br-controller/br-flow-mgr.c:1106-1152 | Empties the old list, deleting what is installed |
| FlowManager.OvnFlowTable.PopulateModifiedFlows | ovn/br-controller/br-flow-mgr.c:1106-1152 | Visits every modified flow once, in the hash map's order, whichever that is |
| FlowManager.BrFlowTable.PopulateOflowMsgs | ovn/br-controller/br-flow-mgr.c:1106-1152 | Both old lists, then both modified sets: the messages and the tables after are those of the run model |
| BarrierTracker.BrOfctrl.TrackUpdate | ovn/br-controller/br-ofctrl.c:690-734 | Entries later than the request go, an equal one takes the new xid, else one is appended |
| BarrierTracker.BrOfctrl.PutCfg | ovn/br-controller/br-ofctrl.c:597-735 | What a put sends and what it does to the connection |
| BarrierTracker.BrOfctrl.Note | ovn/br-controller/br-ofctrl.c:600-625 | Whether a put is needed, and what it remembers of the request |
| BarrierTracker.BrOfctrl.Send | ovn/br-controller/br-ofctrl.c:639-734 | The batch with its bundle messages and barrier, and the tracking of it; without a batch the last update in flight stands for the request too |
| BarrierTracker.BrOfctrl.Run | ovn/br-controller/br-ofctrl.c:458-527 | The bounded progress loop is the composition of its turns |
| BarrierSafety.StepOk | ovn/br-controller/br-ofctrl.c:378-402 | Every event keeps the invariant: in-flight entries strictly increase in configuration and in position, the back entry holds the last barrier sent, an empty list means all is acknowledged |
| BarrierSafety.AckSafety | ovn/br-controller/br-ofctrl.c:428-444 | Whenever the number reached moves to c, every message sent on this connection by a put with a configuration up to c has been processed; the number never decreases |
| BarrierSafety.Drained | ovn/br-controller/br-ofctrl.c:597-735 | While flows are being updated, nothing is in flight iff every barrier has been answered, and then the number reached is the last configuration put |
| BarrierPuts.SendingPut | ovn/br-controller/br-ofctrl.c:639-734 | With a reason for a put (flows changed, a put was skipped, the clear is due, or a new number while the one before has not been reached), a way out and anything to send: the batch is the bundle's opening, the clear if due, the populate's flow mods in order, the commit and the barrier; the last update in flight is its barrier and number, those for lower numbers stay, and the number reached stays |
| BarrierPuts.SilentPut | ovn/br-controller/br-ofctrl.c:720-734 | With nothing to send nothing is sent: the last update in flight stands for the request, or the number is reached at once |
| BarrierPuts.BlockedPut | ovn/br-controller/br-ofctrl.c:626-638 | Without a way out nothing is sent and the put is marked as skipped, nothing else |
| BarrierPuts.IdlePut | ovn/br-controller/br-ofctrl.c:600-625 | Without a reason nothing is sent; a new number is reached at once iff nothing is in flight |
| BarrierPuts.TurnReads | ovn/br-controller/br-ofctrl.c:428-456 | A turn answers nothing but the first update in flight, and only while flows are being updated |
| BarrierPuts.PutReaches | ovn/br-controller/br-ofctrl.c:597-735 | After every legal run and a put that goes through, whatever the switch answers: once nothing is in flight the number of that put is reached; and the switch can always get there by answering |
| BarrierPuts.Life | ovn/br-controller/br-ofctrl.c:331-402 | Every edge of the connection's state machine with exactly what brings it about; UpdateFlows is left only by a reconnect |
| BarrierPuts.ClearDue | ovn/br-controller/br-ofctrl.c:377-402 | The initial clear falls due with the entry to UpdateFlows and stays due exactly until a put can go out |
| BarrierPuts.WaitsFirst | ovn/br-controller/br-ofctrl.c:349-375 | Over every run a connection clears or updates flows, or has sent anything, only if since it came up the state machine has found its wait expired |
| BarrierPuts.SkippedIff | ovn/br-controller/br-ofctrl.c:600-638 | Over every run the mark of a skipped put is set iff some put was skipped: nothing takes it back |
| BarrierPuts.PutsUnconditional | ovn/br-controller/br-ofctrl.c:600-625 | In every state of every run, every request is a reason for a put even if no flow changed iff one was skipped before or the initial clear is pending |
| FlowDelivery.Delivered | ovn/br-controller/br-ofctrl.c:597-735 | Flow manager, connection and switch together: over every run with reconnects and partial processing in which every flow change is reported to the next put, once a put could go out since the last change, the clear is sent and nothing is in flight, no flow is due and the switch holds exactly the keys asked for, each with exactly the actions of the ledgers |
| FlowDelivery.PutQuiets | ovn/br-controller/br-ofctrl.c:639-690 | A put with a reason and a way out sends exactly what the populate emits, in order and up to its barrier, and leaves both halves with nothing due |
| FlowDelivery.PutDelivers | ovn/br-controller/br-ofctrl.c:597-735 | After any such run, a put that goes through: the switch can answer it, and whenever it has, it holds exactly what has been asked for and the number of the put is reached |
| FlowDelivery.ClearingPutExact | ovn/br-controller/br-ofctrl.c:652-664 | The initial delete-all goes into the bundle while the flow mods of the same put do not, so it runs at the commit and the table is empty after it; the put is right iff nothing was asked for |
| FlowDelivery.FirstPutLoses | ovn/br-controller/br-ofctrl.c:652-664 | The condition fails on a legal run: any flow asked for between the connection coming up and its first put is wiped by that put |
| CtZoneManager.CtZoneCtx.Scan | ovn/controller/ct-zone.c:466-481 | The first clear bit of a range, or its end |
| CtZoneManager.CtZoneCtx.AddZone | ovn/controller/ct-zone.c:505-526 | Map, bitmap and log after an addition |
| CtZoneManager.CtZoneCtx.RemoveZone | ovn/controller/ct-zone.c:484-502 | Map, bitmap and log after a removal; an unknown name changes nothing |
| CtZoneManager.CtZoneCtx.UpdateLimit | ovn/controller/ct-zone.c:652-667 | A new limit is stored and logged for the database; it reports a change iff the name has a zone with another limit, and changes nothing else |
| CtZoneManager.CtZoneCtx.AssignUnused | ovn/controller/ct-zone.c:466-481 | Takes the first free zone from the start on; fails only if all are taken |
| CtZoneManager.CtZoneCtx.Prune | ovn/controller/ct-zone.c:217-238 | Users that are gone or out of range lose their zone, unless the startup grace protects them; what the others hold is noted |
| CtZoneManager.CtZoneCtx.Honour | ovn/controller/ct-zone.c:240-269 | Every request is met, its present holder evicted, in whatever order the requests are walked |
| CtZoneManager.CtZoneCtx.Fill | ovn/controller/ct-zone.c:271-282 | Everyone still without a zone gets a free one in range, or there is none |
| CtZoneManager.CtZoneCtx.Update | ovn/controller/ct-zone.c:170-288 | With the startup grace over and an exclusive start: the result is an outcome of some order of the requests as UpdateExact speaks of; requesters have their zones, every other user has one in range that no other such user has, or the range is full; compatible requests leave zones exclusive and the bitmap exact.  With or without grace: whoever asks for nothing and holds a zone in range that nobody asks for keeps it, names that are no users lose theirs unless the grace protects them, and whoever got another zone or lost one has a flush queued |
| CtZoneManager.LimitKeepsFlush | ovn/controller/ct-zone.c:652-667 | A later limit update cannot move a queued flush on to the database stage |
| CtZoneManager.FlushKept | ovn/controller/ct-zone.c:505-526 | No other change loses a queued flush |
| CtZoneManager.AssignExclusive | ovn/controller/ct-zone.c:505-526 | Assigning a free zone keeps zones exclusive and the bitmap exact |
| CtZoneManager.RemoveExclusive | ovn/controller/ct-zone.c:484-502 | So does a removal |
| CtZoneOrder.UpdateExact | ovn/controller/ct-zone.c:170-288 | From an exclusive start and with the startup grace over, the whole update ends with exclusive zones and an exact bitmap in every order of its walks iff the requests are compatible; otherwise some order of the requests ends broken whatever the fill does |
| CtZoneOrder.CompatibleExact | ovn/controller/ct-zone.c:240-269 | The pass over the requests keeps zones exclusive in every order iff the requests are distinct, in range, and no requester holds another's requested zone |
| CtZoneOrder.ReachedRecoverable | ovn/controller/ct-zone.c:170-288 | Whatever an update does to map and log keeps them recoverable |
| CtZoneManager.CtZoneCtx.Commit | ovn/controller/ct-zone.c:291-352 | Writes every change that has reached the database stage and marks it sent |
| CtZoneManager.CtZoneCtx.ClearCommittedEntries | ovn/controller/ct-zone.c:355-366 | Drops exactly the log entries that were sent |
| CtZoneManager.CtZoneCtx.RestoreZones | ovn/controller/ct-zone.c:67-119 | Rebuilds map and bitmap from the log and the database |
| CtZoneRecovery.StepOk | ovn/controller/ct-zone.c:291-366 | Every step keeps: a name without a log entry agrees with the database, a logged addition with the map, a logged removal is absent, a sent entry already agrees with the database |
| CtZoneRecovery.RestoreReproduces | ovn/controller/ct-zone.c:67-119 | In such a state a restore into an empty map gives back exactly the present zones and bitmap |
| CtZoneRecovery.RecoveryRefines | ovn/controller/ct-zone.c:589-617 | So it does in every state of every legal run from any database, with restarts and with a transaction in flight or lost; a restore over the present map gives the same |
| CtZoneRecovery.RestartKeeps | ovn/controller/ct-zone.c:67-119 | A restart at any point of such a run brings back the zone of every name with no logged change, and no other zone for it |
| CtZoneFlush.FlushedFirst | ovn/controller/ct-zone.c:484-526 | At every moment of every legal run from any database, a name's entry is at a database stage only if, since its zone was last given or taken, a flush for it was sent and then confirmed; until then the entry holds that zone and whether it was given or taken |
| CtZoneFlush.FlushedOnlyIfMoved | ovn/controller/ct-zone.c:535-562 | An entry before the database stage stems from an event that gave the name a zone or took it |
| CtZoneFlush.CommitSettles | ovn/controller/ct-zone.c:291-366 | A transaction that commits settles exactly the changes that had reached the database stage: their entries are gone, the database agrees with the zones on those names, and nothing else changes |
| CtZoneFlush.FailedRetries | ovn/controller/ct-zone.c:308-318 | One that fails leaves them due, and the next one writes the same |
| CtZoneLimits.LimitInForce | ovn/controller/ct-zone.c:652-667 | At every moment of every legal run a limit is in force on a name's zone iff some event set it while the name had the zone and nothing since has touched the zone; an assignment, a recompute and a restart leave it without a limit |
| CtZoneLimits.LimitLogged | ovn/controller/ct-zone.c:652-667 | What is logged for a zone with a limit is an addition that carries zone and limit; a new limit is logged at once, the same one again changes nothing |
| IfStatus.TotalSplit | ovn/controller/if-status.c:737-762 | The sum of record sizes does not depend on the order in which records are taken |
| IfStatus.PhasesCompose | ovn/controller/if-status.c:497-668 | The five walks of an update, in their order, take each interface where the single-step table says |
| IfStatus.IfStatusMgr.constructor | ovn/controller/if-status.c:242-255 | A new manager is empty and its index covers all states |
| IfStatus.IfStatusMgr.SetState | ovn/controller/if-status.c:847-859 | Moves a record between index sets and clears its sequence number, nothing else |
| IfStatus.IfStatusMgr.Create | ovn/controller/if-status.c:789-810 | A new record, in the index set of its state, accounted for |
| IfStatus.IfStatusMgr.Destroy | ovn/controller/if-status.c:822-836 | The record is gone from map, index and memory count |
| IfStatus.IfStatusMgr.ClaimIface | ovn/controller/if-status.c:301-353 | A claim creates a record or re-claims one that was installed, uninstalled or going down, and leaves the others |
| IfStatus.IfStatusMgr.ReleaseIface | ovn/controller/if-status.c:373-407 | A release marks down all but those already going down |
| IfStatus.IfStatusMgr.DeleteIface | ovn/controller/if-status.c:409-449 | A delete does the same unless it names another OVS record; it reports the one case in which the source compares a null name, and then changes nothing |
| IfStatus.IfStatusMgr.CleanOvnInstalled | ovn/controller/if-status.c:481-495 | Empties the uninstall table and its share of the memory count |
| IfStatus.IfStatusMgr.Clear | ovn/controller/if-status.c:257-277 | Empties everything but the sequence number; every index set is empty, as the source asserts |
| IfStatus.IfStatusMgr.UpdateAll | ovn/controller/if-status.c:497-668 | The update is the specified one; it asks for the next sequence number iff it let a waiting VIF through; index and memory count stay exact |
| IfStatus.IfStatusMgr.RemoveInstalled | ovn/controller/if-status.c:670-690 | Notes the OVS record and takes an interface out of MarkUp |
| IfStatus.IfStatusMgr.RunOnce | ovn/controller/if-status.c:692-735 | Acknowledged interfaces move on; the binding module is told up, down or remove for exactly the interfaces in those states after the move |
| IfStatus.IfStatusMgr.IfaceUpdate | ovn/controller/if-status.c:772-787 | Reports and stores a changed MTU, nothing else |
| IfStatusRuns.UpOnlyAfterAck | ovn/controller/if-status.c:692-735 | In every interleaving, an interface whose flows count as installed was last let out of Claimed by an update; if it was a VIF then, that update asked for a sequence number and a later run saw it acknowledged, with no claim in between |
| IfStatusRuns.VifUpOnlyAfterAck | ovn/controller/if-status.c:301-353 | So an interface only ever claimed as a VIF is MarkUp or Installed only after such an acknowledgement |
| IfStatusRuns.OthersUpAtOnce | ovn/controller/if-status.c:615-634 | A claimed interface goes straight to MarkUp iff it is not a VIF |
| IfStatusRuns.SeqnosRequested | ovn/controller/if-status.c:617-667 | An interface in InstallFlows waits for a number between 1 and the current one that was requested; any other has none |
| IfStatusRuns.AskedOnce | ovn/controller/if-status.c:657-667 | No sequence number is requested twice |
| IfStatusRuns.GoneOnlyFromDown | ovn/controller/if-status.c:574-655 | Outside a clear, a record goes only in an update and only from MarkDown or UpdatePort |
| IfStatusRuns.NullComparedIff | ovn/controller/if-status.c:409-423 | In every state of every run a delete compares with a null name iff it carries a record and the claim that created the present interface carried none, whatever later claims carried |
| IfStatusRuns.NullNameReached | ovn/controller/if-status.c:301-353 | Any claim without a record leads to such a state, also if it is followed by a claim with one |
| IfStatusMoves.EntersClaimed | ovn/controller/if-status.c:301-353 | An interface comes to be Claimed exactly by a claim while it is unknown, installed, uninstalled or going down |
| IfStatusMoves.EntersInstallFlows | ovn/controller/if-status.c:615-655 | InstallFlows: exactly by a writable update of a claimed VIF |
| IfStatusMoves.EntersRemOldOvnInst | ovn/controller/if-status.c:692-720 | RemOldOvnInst: exactly by a run that sees its number acknowledged while the old mark is set or there is no binding data |
| IfStatusMoves.EntersMarkUp | ovn/controller/if-status.c:497-655 | MarkUp: exactly by the acknowledgement without an old mark, by a writable update of a claimed interface that is no VIF, or when the old mark is found gone and the binding is not up yet |
| IfStatusMoves.EntersInstalled | ovn/controller/if-status.c:541-572 | Installed: exactly by an update that finds the binding ours, or makes it so, and up |
| IfStatusMoves.EntersUninstalled | ovn/controller/if-status.c:670-690 | Uninstalled: exactly by the removal of the mark of an interface in MarkUp |
| IfStatusMoves.EntersMarkDown | ovn/controller/if-status.c:373-449 | MarkDown: exactly by a release, or a delete that names no other record, of an interface not already going down |
| IfStatusMoves.EntersUpdatePort | ovn/controller/if-status.c:574-600 | UpdatePort: exactly by an update that finds a MarkDown interface unbound while the database is read-only |
| IfStatusMoves.Leaves | ovn/controller/if-status.c:574-655 | A record goes exactly by a clear or by an update from MarkDown or UpdatePort under the conditions stated |
| IfStatusMoves.ReleasedStaysDown | ovn/controller/if-status.c:373-449 | Over every run, after a release, or a delete that names no other record, the interface is MarkDown or UpdatePort or gone, and never counts as having its flows in, until it is claimed again |
| IfStatusMoves.ClaimedIsUpward | ovn/controller/if-status.c:301-353 | After a claim it is Claimed, InstallFlows, RemOldOvnInst or MarkUp |
| IfStatusMoves.BringUp | ovn/controller/if-status.c:497-735 | From any state with a claimed VIF, a writable update, a run that sees its number acknowledged and no old mark, and an update that finds the binding ours and up bring it to Installed; the premise is on the answers themselves |
| IfStatusMoves.TakeDown | ovn/controller/if-status.c:574-600 | And the way down: after a release, or a delete that names no other record, an update that finds it bound removes the record iff it finds it down, else keeps it MarkDown; one that finds it unbound removes it if it may write, and otherwise the next one that may write does |
| IfStatusData.DataFromLastClaim | ovn/controller/if-status.c:301-353 | Over every run, the port binding of an interface, how it is bound and whether it is a VIF are as its last claim said |
| IfStatusData.MtuFromLast | ovn/controller/if-status.c:772-810 | Its MTU is what the last event said that measured or created it |
| IfStatusData.TakenOverIff | ovn/controller/if-status.c:324-327 | An interface counts as taken over from another chassis iff a claim since the last run or clear said so |
| IfStatusData.PutDownIff | ovn/controller/if-status.c:670-690 | A record is on the list of marks to be removed, under a uuid, iff the first removal since the list was last emptied gave that uuid; a writable update empties it |
| IfStatusData.SeqnoCounts | ovn/controller/if-status.c:615-668 | The sequence number counts the updates that let a claimed VIF through |
| PortSecCompiler.PsAddrs.PushIp | ovn/controller/lflow.c:2490-2527 | An address goes to the list of its family with the mask its host bits call for, and its broadcast address; a prefix too long is refused |
| PortSecCompiler.PsAddrs.PushVrrpMac | ovn/controller/lflow.c:2446-2488 | A VRRP MAC prefix goes to its list, or is refused |
| PortSecCompiler.PsAddrs.ParseEntry | ovn/controller/lflow.c:3297-3360 | An entry parses iff it has a MAC and every token is good; the lists are then those of the entry |
| PortSecCompiler.Compiler.OutIp4 | ovn/controller/lflow.c:3031-3100 | The rules of priorities 90 and 95 for IPv4, from one match that is reused |
| PortSecCompiler.Compiler.OutIp6 | ovn/controller/lflow.c:3102-3163 | The same for IPv6 |
| PortSecCompiler.Compiler.OutEntry | ovn/controller/lflow.c:3201-3215 | The rules of an entry |
| PortSecCompiler.Compiler.OutVrrpEntry | ovn/controller/lflow.c:3265-3295 | The rules of a VRRP entry, one set for each of its MAC prefixes |
| PortSecCompiler.Compiler.Consider | ovn/controller/lflow.c:3363-3405 | The rules of a port: those of every well-formed entry, and the default drop iff there is one |
| PortSecMeaning.EgressExact | ovn/controller/lflow.c:3011-3163 | For every list of entries and every packet to the port, the highest-priority matching rule allows it iff some entry has its destination MAC and, for IP, no such entry restricts the family or one that lists it admits the destination; otherwise the rules drop it |
| PortSecMeaning.EgressConsistent | ovn/controller/lflow.c:3363-3405 | Rules of equal priority never disagree; the rules of a port say nothing of other ports, and a list without a well-formed entry says nothing |
| PortSecMeaning.NoIpFires | ovn/controller/lflow.c:3011-3029 | The rules of priority 85 match exactly the packets to the port with one of the entry's MACs as destination, and allow them |
| PortSecMeaning.PlainEntries | ovn/controller/lflow.c:3165-3216 | The same meaning spelled out for entries without VRRP |
| PortSecMeaning.AddrFires4 | ovn/controller/lflow.c:3067-3090 | The rules of one IPv4 address match exactly the subnet, or the host and its directed broadcast |
| PortSecMeaning.AddrFires6 | ovn/controller/lflow.c:3137-3143 | The rule of one IPv6 address matches exactly the subnet or the host |
| PortSecMeaning.LinkLocalExact | ovn/controller/lflow.c:3145-3153 | The link-local prefix matches exactly the link-local addresses of the MACs the rule stands for |
| PortSecMeaning.ParsedOk | ovn/controller/lflow.c:2490-2527 | What parsing lets through has prefix lengths in range |
| PortSecText.ParsedExact | ovn/controller/lflow.c:3297-3360 | A text is an entry iff it has a MAC and every token is an address with a prefix of its family or, in a VRRP entry, a VRRP MAC with bits in its prefix only; the entry lists exactly the addresses of its tokens, each in its family with its own prefix, and the VRRP prefixes it names, or all if it names none |
| PortSecText.TextAllows | ovn/controller/lflow.c:2490-2527 | Bit by bit on the tokens: an entry allows an IPv4 destination iff a token lists it (its subnet, or its host and the directed broadcast) or it is broadcast or multicast; IPv6 likewise with subnet or host, link-local and multicast |
| PortSecText.WellFormedExact | ovn/controller/lflow.c:3363-3405 | The entries that count are those of the good texts |
| LflowCache.AccountingExact | ovn/controller/lflow-cache.c:98-175 | Over every run of enable, add, delete, flush and trim: the counters equal the number and total size of the entries, stay within capacity and memory limit, the high watermark is not below the count, and a cache that is off is empty |
| LflowCache.MatchesNotEvicted | ovn/controller/lflow-cache.c:284-303 | An addition never loses matches; it costs one expression at most, only when the cache is full and matches are added |
| LflowCache.RemovedOk | ovn/controller/lflow-cache.c:370-394 | A deletion keeps the counters exact; the source's two assertions hold |
| LflowLaws.AddExact | ovn/controller/lflow-cache.c:332-368 | An entry is added iff the cache is on, its memory suffices and there is room, or for matches an expression to give way; only a full cache gives anything up, and then one expression |
| LflowLaws.TrimExact | ovn/controller/lflow-cache.c:396-419 | Memory is trimmed on demand, or iff the cache once held more entries than the limit and now holds at most the given percentage of them |
| LflowLaws.EnableExact | ovn/controller/lflow-cache.c:131-175 | New settings empty the cache iff they switch it off or it is too large for them |
| LflowCache.LflowCache.Enable | ovn/controller/lflow-cache.c:131-175 | Flushes when switched off or when the new bounds are exceeded, else trims when the trim settings change |
| LflowCache.LflowCache.Flush | ovn/controller/lflow-cache.c:98-115 | Empties both maps and trims |
| LflowCache.LflowCache.MakeRoom | ovn/controller/lflow-cache.c:284-303 | Evicts some expression iff matches are to be added and there is one |
| LflowCache.LflowCache.AddEntry | ovn/controller/lflow-cache.c:332-368 | The entry is in, or refused because the cache is off, out of memory, or full of what is at least as important |
| LflowCache.LflowCache.Get | ovn/controller/lflow-cache.c:245-265 | Finds an entry of the flow iff the cache is on and has one, an expression first |
| LflowCache.LflowCache.Delete | ovn/controller/lflow-cache.c:267-282 | Deletes what a lookup finds |
| LflowCache.LflowCache.DeleteEntry | ovn/controller/lflow-cache.c:370-394 | One entry less, counters exact |
| LflowCache.LflowCache.Trim | ovn/controller/lflow-cache.c:396-419 | Lowers the watermark to the count unless the cache is still large enough |
| LflowConsider.Transparent | ovn/controller/lflow.c:1149-1276 | Through a sound cache a flow compiles to the matches of a cold compile with every conjunction id moved by one offset, so that they start where ids were allocated or cached, and nothing else changed, with the same dependencies recorded, those of encoding its actions among them whenever it is installed; it fails only if the cold compile does or ids are exhausted |
| LflowConsider.ConsiderSound | ovn/controller/lflow.c:1242-1276 | What a compilation adds to the cache is sound for every later environment, with one entry per flow at most |
| LflowConsider.TransparentRun | ovn/controller/lflow.c:1149-1276 | So over every run of compilations, row changes while not cached, evictions, deletions, flushes, trims and switches of the cache |
| LflowConsider.SameUpToIds | ovn/controller/lflow.c:1149-1276 | Two compilations of one flow differ only by one offset of all their ids; without conjunctions not at all |
| LflowConsider.OwnIds | ovn/lib/expr.c:3449-3467 | If the compiler counts ids from 1, every conjunction id of an installed flow, cached or not, lies in the range allocated to it |
| LflowLaws.ColdExact | ovn/controller/lflow.c:1071-1240 | A flow is installed iff its datapath is local, the port its match names is related, its actions are good, its match converts and anything matches |
| LflowLaws.ColdReads | ovn/controller/lflow.c:1071-1240 | It depends exactly on the port named, the templates, address sets and port groups of actions and match, and what making the matches reads, each only if compilation gets that far |
| LflowLaws.HitUsed | ovn/controller/lflow.c:1149-1172 | What a lookup finds is used as it is and stays, unless its conjunction ids are taken: then it goes |
| LflowLaws.OfferedIff | ovn/controller/lflow.c:1242-1276 | A flow compiled from its text is offered to the cache iff the cache is on and no address set, port group or template is involved; as matches if it depends on nothing, else as an expression; with its size |
| LflowConsider.LflowContext.ConsiderFlow | ovn/controller/lflow.c:1067-1290 | The branching of the source, with its cache calls and dependency records, is the specified compilation |
| LflowConsider.LflowContext.Check | ovn/controller/lflow.c:1071-1132 | What is decided and recorded before the cache is asked |
| LflowConsider.LflowContext.Lookup | ovn/controller/lflow.c:1149-1172 | Cached matches whose conjunction ids are taken are dropped |
| LflowConsider.LflowContext.FromExpr | ovn/controller/lflow.c:1174-1276 | Compilation from the text or from a cached expression |
| Evpn.Bindings.Allocate | ovn/lib/ovn-util.c:826-845 | A key that was free, or none was left in the whole range, wherever the search started |
| Evpn.Bindings.Process | ovn/controller/evpn-binding.c:77-141 | One remote endpoint: its binding and group found or added, what differs set and noted; groups stay exact at every moment |
| Evpn.Bindings.RunOnce | ovn/controller/evpn-binding.c:56-171 | After a run: bindings are those asked for, as asked, but for those without a free key; a group exists for a network iff a binding does, with exactly its bindings as members; keys are unique, and those taken are those taken before and, disjoint from them, those of the new bindings; the deltas name all that is new, changed or gone and nothing freed, a binding that was there only if some endpoint asks for it otherwise, a group only with one of its bindings |
| EvpnFdb.Fdbs.Learn | ovn/controller/evpn-fdb.c:56-80 | A forwarding entry found or added, set to its binding, noted if it differs |
| EvpnFdb.Fdbs.RunOnce | ovn/controller/evpn-fdb.c:37-93 | Forwarding entries are exactly the learned addresses that have a binding; the deltas are complete, and an entry that was there is reported only if some address would have it lead elsewhere |
| EvpnDelta.DeltaComplete | ovn/controller/physical.c:3798-3869 | A complete delta turns the flows of the old state into those of the new one |
| EvpnDelta.BindingDeltasComplete | ovn/controller/physical.c:3798-3844 | The deltas of bindings and of groups are complete in that sense, a group's flows depending on its members' bindings |
| EvpnDelta.FdbDeltaComplete | ovn/controller/physical.c:3846-3869 | So is that of forwarding entries |
| EvpnRuns.HistoryExact | ovn/controller/ovn-controller.c:6266-6443 | Over every history of engine passes with any inputs, in which the run for the entries is left out when no binding was reported and flows are patched or made anew: every network with a binding has one group, of just its bindings; keys are unique; the entries are exactly the learned addresses over a binding, each naming one live binding of its network; the flows are exactly those of the tables |
| EvpnRuns.StepSound | ovn/controller/ovn-controller.c:6266-6443 | Every pass keeps that, and the number of keys taken equal to the number of bindings ever added |
| EvpnRuns.BoundIffKeysLast | ovn/controller/evpn-binding.c:94-104 | Over every history, a run binds every endpoint that resolves iff those among them without a binding and the bindings ever added come to at most 65536; one left unbound had no binding, and 65536 have then been added |
| EvpnRuns.ExhaustedForever | ovn/controller/evpn-binding.c:94-104 | Once 65536 bindings have been added no later pass adds one, whatever has become of those |
| EvpnRuns.OneEndpointSuffices | ovn/controller/evpn-binding.c:144-166 | A legal history in which one endpoint comes and goes leaves no binding and no key: no run binds anything after it |
| HaChassis.TotalOrder | ovn/controller/ha-chassis.c:25-35 | The comparison relates any two candidates, and both ways only equal ones |
| HaChassis.OrderTransitive | ovn/controller/ha-chassis.c:25-35 | It is transitive |
| HaChassis.CompareRanks | ovn/controller/ha-chassis.c:25-35 | The comparison puts the higher priority first and, at equal priority, the name that comes later in the dictionary, defined without strcmp |
| HaChassis.ActiveExact | ovn/controller/ha-chassis.c:149-203 | The whole decision on priorities and names: for every group, with members listed any number of times, exactly when a chassis is active |
| HaChassis.ActiveByPriority | ovn/controller/ha-chassis.c:149-203 | For members listed once, a chassis that sees another member is active iff every member it sees has a smaller priority, or the same and a name that comes earlier in the dictionary |
| HaChassis.ActiveIsGreatest | ovn/controller/ha-chassis.c:149-203 | In a clique the active one has the greatest priority |
| HaChassis.NoSplitBrain | ovn/controller/ha-chassis.c:149-203 | Two members that see each other are never both active, whatever else each sees |
| HaChassis.ExactlyOne | ovn/controller/ha-chassis.c:149-203 | Of two or more members that see each other, and no other member, exactly one is active |
| HaChassis.ActiveIffUnbeaten | ovn/controller/ha-chassis.c:149-203 | A chassis that sees another member is active iff no member it sees has an entry before its own first one |
| HaChassis.ExactlyOneIff | ovn/controller/ha-chassis.c:149-203 | Members that see each other may see others too: exactly one of them is active iff the first of them sees no member that comes before it |
| HaChassis.LoneChassis | ovn/controller/ha-chassis.c:96-121 | A lone member is active iff it sees a chassis that refers to the group |
| HaChassis.ActiveIsBest | ovn/controller/ha-chassis.c:149-203 | A chassis that sees another member is active iff its own entry comes first |
| HaChassis.CandidatesExact | ovn/controller/ha-chassis.c:72-87 | The candidates are exactly the entries that are local or seen |
| HaChassis.SortFirst | ovn/controller/ha-chassis.c:124-127 | Sorts in place: ordered, and a permutation |
| HaChassis.OrderedList | ovn/controller/ha-chassis.c:62-134 | The candidates, best first; nothing iff there are none or a single one that sees no referring chassis |
| HaChassis.OnlyCandidate | ovn/controller/ha-chassis.c:149-165 | The only entry with a chassis is the local one |
| HaChassis.IsActive | ovn/controller/ha-chassis.c:170-203 | The decision with its early answers is the specified one |
| TunnelId.RoundTrip | ovn/controller/encaps.c:94-157 | Parsing gives back what an id was created from iff the chassis is non-empty without '@', the remote part non-empty without '%', and the local part non-empty |
| TunnelId.RoundTripLegacy | ovn/controller/encaps.c:103-112 | The same of the older form |
| TunnelId.ParseExact | ovn/controller/encaps.c:114-157 | What parsing makes of any string: delimiters before the chassis and the remote part are skipped, one is taken after each, and the rest, if any, is the local part |
| TunnelId.CreateInjective | ovn/controller/encaps.c:94-101 | Under those conditions ids tell their components apart |
| TunnelId.CreateClash | ovn/controller/encaps.c:94-101 | Where a delimiter may occur inside a component they do not |
| TunnelId.MatchExact | ovn/controller/encaps.c:159-201 | An id that parses matches iff every component given, and present, is equal; one that does not parse matches iff it is no more than the chassis between delimiters and no remote part is given |
| TunnelId.MatchCreated | ovn/controller/encaps.c:159-201 | For created ids: iff every component given is equal; the local part is ignored in the older form |
| TunnelId.Tokenizer.Next | ovn/controller/encaps.c:122-157 | One cut of strtok_r |
| TunnelId.ParseId | ovn/controller/encaps.c:122-157 | Parsing by successive cuts |
| TunnelId.MatchId | ovn/controller/encaps.c:169-201 | Matching by successive cuts |

## Left out

- FlowOrder.SwitchRefines: compares keys and actions; the cookie of an entry is that of the last message sent for it, which MessagesExact gives.
- Bundle encoding, rconn, timers, backlog measurement, logging, memory trimming and freeing: input/output and resource handling without logic of their own.
- Pointers and in-place lists: records are values kept under their keys, an action of a flow is known by a number; aliasing between them is not modelled.
- 32-bit wrap-around of sequence numbers, configuration numbers, xids and counters.
- The 64-bit usage counters are integers, and the sizes of the source's structs are parameters.
- The reading of the zone range and of limits from the database.
- CtZoneManager.CtZoneCtx.Update: promises exclusivity only for compatible requests after the startup grace; UpdateExact shows that the condition on requests is exact.
- CtZoneManager.CtZoneCtx.Commit: does not write the conntrack limits of the datapath, which go to other tables and are never read back by a restore.
- CtZoneManager.CtZoneCtx.RestoreZones: names that start with a datapath uuid are not renamed, and a missing bridge or configuration row reads as an empty database.
- Conntrack limit synchronisation beyond the update of a single limit.
- if_status_handle_claims and the writes to the databases that accompany a state change in if-status.c: their effect comes back as answers.
- IfStatus.IfStatusMgr.Create: takes the OVS record of a claim to carry the claimed port as its iface-id, so that the record's MTU goes to the new interface; the uuid of a parent port binding is not kept.
- Ingress port security (ARP, neighbour discovery and IP source checks) and the lexing of port security entries: the compiler here starts from tokens.
- The rest of lflow.c: hairpin, learn, neighbour and address-set incremental processing, and the encoding of matches and actions, of which only what it reads matters here.
- LflowConsider.Transparent: the conjunction-id allocator is an argument; that a cached range is still free is its answer.
- The collection of EVPN tunnels and datapaths from the databases, and evpn-arp.c, which repeats the reconciliation of evpn-fdb.c; the flows made from a binding, group or entry are a function of its data.
- Evpn.Bindings.RunOnce: an endpoint may stay without a binding when all keys are taken, as in the source.
- The remaining functions of encaps.c, ha-chassis.c and ct-zone.c, and binding.c, chassis.c, physical.c, which mostly write database rows.
