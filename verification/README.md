# streambus: a verified model

A Dafny model of the core of streambus, a distributed log broker: how partitions are placed on brokers
(`pkg/cluster`), how requests travel (`pkg/protocol`), how cluster metadata is replicated (`pkg/consensus`,
`pkg/metadata`), and how clients consume and produce (`pkg/client`).

`dafny verify dfyconfig.toml` checks the whole project.

## Layout

| modules | what they model |
|---|---|
| `Common`, `PartitionKeys` | sorting as the library leaves it; partition keys and their parser |
| `Placements`, `Batches`, `Selection`, `Racks` | assignments, loads and limits; what a placed batch satisfies; walking the brokers |
| `RackPass`, `Turns`, `RoundRobin`, `Rebuilding` | the round-robin strategy, and which brokers each partition of a batch gets |
| `RangeRacks`, `RangeStrategy`, `RangeOrder`, `RangeTopics`, `RangeAssign` | the range strategy |
| `Sums`, `LoadBalancing`, `Sticky`, `Reassign`, `Balancer`, `StickyStrategy` | the sticky strategy |
| `ClusterRuns`, `Coordinator` | the cluster coordinator and all its runs |
| `RaftLog`, `Metadata`, `RaftNode`, `History` | the Raft log on disk, the metadata state machine, applying one to the other, and what the metadata then holds |
| `Bytes`, `Schemas`, `WireLaws`, `Wire` | the wire format, its laws, and the payload writer and reader |
| `Payloads`, `Layouts`, `Assignments`, `Messages`, `Codec`, `RequestLayouts`, `Frames`, `Decoding` | typed payloads and their bytes, assignment blobs, messages, request bodies and frames, and the decode loops |
| `Consumer`, `Producer`, `Transactions`, `TransactionRuns` | consumer position, batching producer, transactional producer |

## Reading the model

- Objects that the program updates are classes whose methods are tied to functions on values (`View`, `Delivered`,
  `Applied`, ...); the properties are proved about those functions and about runs of them.
- Broker ids are distinct: the coordinator lists the brokers of a registry keyed by id (pkg/cluster/broker.go:72-80).
- A loop that may run forever is an explicit outcome (`Diverges`, `NeverReturns`), proved to occur exactly under the stated
  condition. A Go panic is an explicit outcome as well (`Panics`, `Panic`, `None`).
- Network answers, clocks, the transport, checksums and the moments at which the background flusher runs are
  parameters, so that what is proved holds for all of them.
- A record's visibility, and the window a broker chooses, are the broker's; the consumer results hold for every choice.

## Where the code falls short of its documentation

Each of these has a lemma with an exact condition, a concrete input or run, or both.

- Round-robin rack-aware selection never returns when too few racks have room (`RackPass.Job.HaltsIffEnoughRacks`,
  `RackPass.LoopsForever`), and under the coordinator's lock nothing returns after it
  (`Coordinator.ClusterCoordinator.AssignPartitions`).
- Topics with a colon lose their partitions in a round-robin or range rebalance (`PartitionKeys.ParseInvertsKey`,
  `Rebuilding.KeysKeptIffCanonical`).
- A partition assigned while a rebalance is being computed is lost (`ClusterRuns.InstallKeepsIff`,
  `ClusterRuns.LosesAPartition`).
- A caller's negative load is believed and takes a broker over its limit (`ClusterRuns.NegativeLoadExceeds`).
- Sticky balancing can stop unbalanced, because its target counts partitions rather than replicas (`Balancer.BalanceLoad`,
  `StickyStrategy.StaysUnbalanced`).
- A restart after a snapshot past the last entry leaves a gap (`RaftLog.RunRecoversLastIff`, `RaftLog.GapInARun`), and a node's own
  snapshot never completes (`RaftNode.OwnSnapshotNeverSucceeds`).
- A restarted node does not restore its snapshot, and loses the metadata before the first entry it reloads
  (`RaftNode.RestartNeedsWholeLog`, `RaftNode.OwnSnapshotThenRestart`).
- A leader that is not the first of its list loses the lead when its partition loses another replica, although its broker
  stays (`StickyStrategy.LedEntry`, `StickyStrategy.LeaderReplaced`). No run of the coordinator has such a leader
  (`ClusterRuns.RunFirst`).
- A refused metadata command blocks all later ones (`RaftNode.RefusedCommandStops`, `RaftNode.TopicCreatedTwiceStops`).
- A failed background flush loses messages of a transaction that commits (`Transactions.LosesMessages`,
  `Transactions.FailedTickLoses`, `TransactionRuns.CommitLosesMessages`).
- A coordination payload beyond the message limit is measured as empty and then overruns its buffer (`Payloads.EncodePayload`,
  `Payloads.OversizedPayload`).
- The payload is cut from the frame with the checksum still in its capacity, so a string that is longer than the payload
  is read on into the checksum instead of failing (`Decoding.DeleteTopicPanicsIff`, `Decoding.ShortDeleteTopicAccepted`,
  `Decoding.CutProduceAccepted`).

## Model

| member | source | states |
|---|---|---|
| `PartitionKeys.KeyInjective` | pkg/cluster/assignment.go:104-106 | Two topic-partitions never share a key, colons in topic names included. |
| `PartitionKeys.FormatIntParses` | pkg/cluster/roundrobin.go:265-276 | The printed partition number parses back to itself and contains no colon, for every integer. |
| `PartitionKeys.ParseInvertsKey` | pkg/cluster/roundrobin.go:265-276 | Parsing a key gives its topic and number back if and only if the topic has no colon. |
| `PartitionKeys.ColonTopicMisparsed` | pkg/cluster/roundrobin.go:265-276 | Concrete failure: partition 0 of topic a:b is parsed as partition 0 of the empty topic. |
| `Common.StringLessIff` | pkg/protocol/wire.go:251-258 | The string order is that of the first differing character, a proper prefix coming first. |
| `Placements.Assignment.constructor` | pkg/cluster/assignment.go:94-101 | A new assignment is empty. |
| `Placements.Assignment.Clone` | pkg/cluster/assignment.go:170-192 | A clone has the same partitions, leaders, loads and version. |
| `Placements.Assignment.AddReplica` | pkg/cluster/assignment.go:109-122 | The whole new state: the list, its first broker as leader, and one more replica counted for each broker of the list. |
| `Placements.Assignment.RecomputeBrokerLoad` | pkg/cluster/assignment.go:195-202 | The counters become the exact tally of all replica lists, whatever order the map is walked in. |
| `Placements.Assignment.IsBalanced` | pkg/cluster/assignment.go:142-149 | True exactly when there are no counters or all loads lie within the given distance of each other (and of zero, should one be negative). |
| `Placements.Assignment.GetLoadRange` | pkg/cluster/assignment.go:152-167 | Returns bounds that are attained; zero and zero without counters; never a negative maximum. |
| `Placements.Assignment.Validate` | pkg/cluster/assignment.go:205-244 | Accepts exactly the assignments whose partitions all have a leader from their own list and whose counters equal the tally. |
| `Placements.RecountIs` | pkg/cluster/assignment.go:195-202 | Any positive counters that agree with the multiset of all replicas are the recount. |
| `Placements.TighterLimitIsBoth` | pkg/cluster/load.go:82-99 | The combined limit admits a count if and only if both limits do, non-positive meaning unlimited. |
| `Placements.LimitOfLast` | pkg/cluster/load.go:47-58 | A broker's entry is the tighter of the global maximum and the capacity of the last broker listed under its id. |
| `Placements.LoadTracker.constructor` | pkg/cluster/load.go:22-41 | Counts start from the existing load and the limits are those of the brokers. |
| `Placements.LoadTracker.AddAll` | pkg/cluster/load.go:122-131 | Adds every listed broker to the counts, repeated ones repeatedly. |
| `Placements.AvailableDistinct` | pkg/cluster/assignment.go:302-314 | Filtering and sorting leave exactly the brokers not excluded, in increasing order of id. |
| `Batches.ChoiceKeepsLimits` | pkg/cluster/load.go:113-131 | Choosing distinct brokers that each have room and counting them only afterwards keeps every count within its limit. |
| `Batches.ValidIffDistinct` | pkg/cluster/assignment.go:205-244 | A batch placed list by list passes validation if and only if no partition was named twice. |
| `Batches.ProgressDone` | pkg/cluster/roundrobin.go:24-76 | A finished pass over distinct keys has placed every partition with the asked number of distinct brokers, exact loads and all limits kept. |
| `Selection.TurnMeetsAll` | pkg/cluster/roundrobin.go:103-125 | One full turn around the brokers meets each broker with room exactly once. |
| `Selection.ScanNext` | pkg/cluster/roundrobin.go:103-125 | The test made at each step of the walk finds new brokers in the first turn and nothing after it. |
| `Selection.ScanIsPrefix` | pkg/cluster/roundrobin.go:103-125 | Stopping early yields a prefix of the full turn. |
| `RackPass.Job.HaltsIffEnoughRacks` | pkg/cluster/roundrobin.go:167-187 | The loop over racks terminates if and only if at least min(wanted, number of racks) racks hold a broker with room. |
| `RackPass.LoopsForever` | pkg/cluster/roundrobin.go:167-187 | Concrete failure: two racks of one broker each, one of them full, two replicas wanted; the loop never ends from any start. |
| `RackPass.Job.RunningBound` | pkg/cluster/roundrobin.go:167-187 | When it terminates, it does so within one look at each rack. |
| `RackPass.Job.StoppedPass` | pkg/cluster/roundrobin.go:167-187 | Where it stops, it has one replica in each of min(wanted, number of racks) racks. |
| `RackPass.SelectRackAware` | pkg/cluster/roundrobin.go:139-216 | Loops forever exactly when too few racks have room; otherwise succeeds exactly when enough brokers have room, and then covers min(wanted, racks) racks with distinct brokers. Which ones: the heads of the racks from the turn's position on, then the open brokers rack by rack. |
| `RackPass.SecondPass` | pkg/cluster/roundrobin.go:189-203 | Fills up from any rack and stops short only when every broker with room is in use. |
| `RackPass.Job.AfterIsHeads` | pkg/cluster/roundrobin.go:167-187 | While it runs, the loop has taken the first broker with room of every rack it looked at that has one, in the order of the racks from its start on. |
| `RackPass.FirstPass` | pkg/cluster/roundrobin.go:167-187 | Its replicas are those heads, from the given rack on, as many as wanted. |
| `RoundRobin.SelectStandard` | pkg/cluster/roundrobin.go:103-135 | Fails exactly when fewer brokers than wanted have room; one turn suffices although two are tried. |
| `RoundRobin.SelectReplicas` | pkg/cluster/roundrobin.go:79-136 | For both modes: succeeds exactly when a replica is wanted, enough brokers and, rack-aware, enough racks have room; never returns exactly when too few racks do; and what it returns. |
| `RoundRobin.UnlimitedPlaceable` | pkg/cluster/roundrobin.go:79-216 | Without limits no selection fails or loops for want of room, rack-aware or not. |
| `RoundRobin.SharesEven` | pkg/cluster/roundrobin.go:103-125 | Shares of consecutive slots around the brokers differ by at most one. |
| `RoundRobin.WindowShare` | pkg/cluster/roundrobin.go:103-125 | Without limits each broker receives exactly its share of the slots handed out. |
| `Turns.StandardTurn` | pkg/cluster/roundrobin.go:103-125 | Without limits a partition gets the brokers that follow each other from where the turn stands, and the turn moves past them. |
| `Turns.RackIdx` | pkg/cluster/roundrobin.go:167-205 | In a rack-aware batch the k-th partition's turn stands at k, whatever the others were given. |
| `Turns.SpreadRound` | pkg/cluster/roundrobin.go:24-125 | Without limits and racks the k-th partition's list begins after the replicas of all before it and goes round from there, led by its first. |
| `Turns.SpreadRacks` | pkg/cluster/roundrobin.go:24-205 | Without limits a rack-aware batch gives the k-th partition, as leader, the lowest-id broker of the rack at position k among the sorted rack names; its first min(wanted, racks) replicas are the lowest-id brokers of racks k, k + 1 and so on, going round. |
| `Turns.LedFromOwnRack` | pkg/cluster/roundrobin.go:167-187 | With limits, the first replica of the k-th partition is the lowest-id broker with room in the first rack with room at or after position k. |
| `RoundRobin.Assign` | pkg/cluster/roundrobin.go:24-76 | Places partitions up to the end of the batch or the first that cannot be placed; succeeds exactly when none is and no key repeats, and never returns exactly when the one it stopped at has too few racks with room. Success places every partition on available brokers within limits with exact loads, each with the list of its own turn. Without limits it succeeds exactly for distinct keys, rack-aware batches begin at the racks in turn, others go round the brokers with loads that differ by at most one. |
| `RoundRobin.Rebalance` | pkg/cluster/roundrobin.go:219-262 | A balanced assignment is returned as it is; otherwise all partitions, as re-parsed from their keys and in order of topic and number, are placed anew within limits, spread as by Assign, and the version rises by one. When it succeeds and when it never returns, exactly; without limits it succeeds exactly when no two keys parse alike. |
| `Rebuilding.ExtractPartitions` | pkg/cluster/roundrobin.go:233-242 | Lists every assigned partition, each key once, under its re-parsed name and with its replica count. |
| `Rebuilding.AskedOnceIff` | pkg/cluster/roundrobin.go:219-276 | That list names a partition twice exactly when two keys parse to the same topic and number. |
| `Rebuilding.KeysKeptIffCanonical` | pkg/cluster/roundrobin.go:219-276 | A rebuild keeps every partition key if and only if every key survives parsing. |
| `Rebuilding.CanonicalIffColonFree` | pkg/cluster/roundrobin.go:265-276 | Keys that survive parsing are exactly those of colon-free topics. |
| `Sticky.FilterRemoved` | pkg/cluster/sticky.go:79-107 | Every list loses exactly its removed brokers, keeps its order, and changes leader only when it lost something; the partitions to top up are exactly those that lost a replica, with their old counts. |
| `Sticky.FilterSplits` | pkg/cluster/sticky.go:263-271 | Filtering looks at each replica on its own and keeps their order. |
| `Sticky.FilteredLeads` | pkg/cluster/sticky.go:79-107 | A partition that lost something is led by the first replica left; one that lost nothing keeps its leader. |
| `Sticky.RecountOver` | pkg/cluster/sticky.go:109-120 | The counters cover exactly the available brokers and are exact. |
| `Sticky.FilteredIsSound` | pkg/cluster/sticky.go:79-120 | After filtering, lists are distinct, on available brokers only, led from within, and counted exactly. |
| `Sticky.FilteredIsSized` | pkg/cluster/sticky.go:79-120 | Partitions not waiting to be topped up still have their replica counts. |
| `Sticky.FilteredIsCapped` | pkg/cluster/sticky.go:79-120 | Filtering never takes a broker over its limit. |
| `Reassign.SortByLoadSorted` | pkg/cluster/assignment.go:281-299 | The order is by increasing load, ties by id. |
| `Reassign.PickOpen` | pkg/cluster/sticky.go:303-332 | Picking in place, counting as it goes, takes the first open brokers of the sorted list. |
| `Reassign.ReassignOne` | pkg/cluster/sticky.go:291-348 | Succeeds exactly when enough brokers are open. Then the list is the old one with the least loaded open brokers behind it, ties by id, none passed over being lighter; its first replica leads, and no other partition changes. |
| `Reassign.TakenLeastLoaded` | pkg/cluster/sticky.go:303-332 | Those taken are open, in order of load and id, and no open broker left out is lighter. |
| `Reassign.GrownLeads` | pkg/cluster/sticky.go:340-346 | The first replica leads a topped-up partition, and nothing changes who leads another. |
| `Reassign.GrownSound` | pkg/cluster/sticky.go:291-348 | Topping a partition up keeps lists distinct, leaders inside their lists and loads exact. |
| `Reassign.GrownCapped` | pkg/cluster/sticky.go:291-348 | Topping up never takes a broker over its limit. |
| `Reassign.ReassignPartitions` | pkg/cluster/sticky.go:274-351 | On success no partition is waiting any more and every partition has its original replica count again. Fails exactly at a partition for which too few brokers are open; without limits, exactly when some partition wants more replicas than there are brokers. |
| `Reassign.OpenUnlimited` | pkg/cluster/sticky.go:303-332 | Without limits every broker that does not hold the partition is open. |
| `LoadBalancing.MoveLowersSquares` | pkg/cluster/sticky.go:354-396 | Every move from a broker at least two heavier lowers the sum of squared loads by at least two. |
| `LoadBalancing.MoveNeverWidens` | pkg/cluster/sticky.go:354-396 | No move widens the spread of loads. |
| `LoadBalancing.MoveFillsRoom` | pkg/cluster/sticky.go:354-396 | Every move the loop makes fills one unit of room below the target and changes nothing about which limits lie under it. |
| `LoadBalancing.MoveCutsExcess` | pkg/cluster/sticky.go:354-396 | Every move cuts the replicas above the target plus one by one, down to none. |
| `LoadBalancing.WhereItEnds` | pkg/cluster/sticky.go:354-396 | When no room is left, the loads are balanced if and only if the initial excess fitted into the initial room and no limit lay under the target. |
| `Balancer.FindImbalanced` | pkg/cluster/sticky.go:399-434 | Returns the heaviest broker above the target and the lightest one below it that is not full, or nothing when there is none. |
| `Balancer.MovePartition` | pkg/cluster/sticky.go:437-494 | Moves one replica of one partition, in place in its list, leader included; fails only when no named partition can move or the receiver is full. |
| `Balancer.ShiftedSound` | pkg/cluster/sticky.go:437-494 | A move keeps lists distinct, leaders inside their lists and loads exact. |
| `Balancer.ShiftedCapped` | pkg/cluster/sticky.go:437-494 | A move to a broker with room keeps every limit. |
| `Balancer.InPlaceStep` | pkg/cluster/sticky.go:437-494 | Over the moves, a replica still listed stands where it stood, and one that left does not come back. A leader still listed still leads; otherwise, or where it did before, the first replica leads. |
| `Balancer.SomethingMovable` | pkg/cluster/sticky.go:437-494 | A heavier broker always holds a partition the lighter one does not. |
| `Balancer.TargetReachable` | pkg/cluster/sticky.go:354-396 | There are always enough replicas to bring every broker up to the target. |
| `Balancer.CapIsEnough` | pkg/cluster/sticky.go:370-396 | The iteration cap is never what stops the loop short. |
| `Balancer.DisplacedStep` | pkg/cluster/sticky.go:437-494 | A move takes at most one partition off one broker. |
| `Balancer.MovesBounded` | pkg/cluster/sticky.go:354-396 | The replicas moved are at most the room below the target, which is at most the number of partitions. |
| `Balancer.BalanceLoad` | pkg/cluster/sticky.go:354-396 | Keeps partitions, replica counts, distinctness, leaders, exact loads and limits; ends balanced if and only if it started so or the excess fits the room below the target; moves no more replicas than that room, and none when it started balanced. What is not moved keeps its place and its lead. Termination is by the sum of squares, without the cap. |
| `StickyStrategy.Assign` | pkg/cluster/sticky.go:28-35 | A first assignment is one of round-robin: the same placement, success condition, divergence and even load. |
| `StickyStrategy.DropRemoved` | pkg/cluster/sticky.go:70-120 | After dropping removed brokers the assignment is sound, every list is its survivors in order, and exactly the partitions that lost a replica are to be topped up. |
| `StickyStrategy.NothingLost` | pkg/cluster/sticky.go:132-162 | The clean-up pass at the end finds nothing to filter. |
| `StickyStrategy.FinalPass` | pkg/cluster/sticky.go:132-152 | Reports exactly the partitions with a replica on a removed broker, and changes nothing when there is none. |
| `StickyStrategy.Redistribute` | pkg/cluster/sticky.go:70-165 | Filtering, topping up, balancing, cleaning and recounting keep partitions, replica counts and limits and use available brokers only; when it succeeds without limits, when it ends balanced, and how many surviving replicas it moves, as for Rebalance. |
| `StickyStrategy.Rebalance` | pkg/cluster/sticky.go:38-173 | From any assignment with exact loads, distinct non-empty lists and valid leaders: same keys and replica counts, distinct lists on available brokers, leaders kept as LedEntry says, exact loads, limits kept, version up by one, input unchanged; validation cannot fail. Without limits it succeeds exactly when no partition has more replicas than there are brokers. It ends balanced exactly when the topped-up assignment was or could be, and moves at most as many surviving replicas as there is room below the target. |
| `StickyStrategy.LedEntry` | pkg/cluster/sticky.go:38-173 | Through filtering, topping up and balancing: survivors that stay keep their places at the head of the list; where the first replica led it still does, and a leader still listed then still leads; in general a leader still listed stays exactly when its partition lost nothing or it is the first survivor; a new leader is the first of the list. |
| `StickyStrategy.LeaderReplaced` | pkg/cluster/sticky.go:98-107 | Concrete run: one partition on 1, 2 and 3 led by 2, broker 3 replaced by 4; broker 2 stays in the list and does not lead any more. |
| `StickyStrategy.DisplacedByMoves` | pkg/cluster/sticky.go:70-130 | Every surviving replica that is missing at the end was moved by the balancer, none by filtering or topping up. |
| `StickyStrategy.StaysUnbalanced` | pkg/cluster/sticky.go:354-396 | Concrete run: two partitions on one of three brokers; the rebalance succeeds and the loads stay two, zero and zero, because the target counts partitions and rounds down. |
| `RangeRacks.Spread.ChosenLegal` | pkg/cluster/range.go:239-319 | Rack-aware choice returns distinct brokers with room, as many as wanted if and only if enough have room. |
| `RangeRacks.Spread.ChosenCovers` | pkg/cluster/range.go:263-308 | A full choice covers min(wanted, racks with room) racks. |
| `RangeOrder.ChosenOrder` | pkg/cluster/range.go:239-319 | The rack-aware list begins with the first broker with room from the owner on; then come the lowest brokers with room of further racks in increasing order, and whatever fills it up is in increasing order with no open broker passed over. |
| `RangeStrategy.NextBrokerWithCapacity` | pkg/cluster/range.go:228-236 | The first broker with room from the start on, or -1 when a whole turn finds none. |
| `RangeStrategy.SelectStandard` | pkg/cluster/range.go:175-223 | Returns the first wanted brokers of the turn that starts at the range owner. |
| `RangeStrategy.SelectRackAware` | pkg/cluster/range.go:239-319 | The loops compute the rack-spreading choice. |
| `RangeStrategy.SelectReplicas` | pkg/cluster/range.go:159-223 | The loops compute the specified selection, error cases included. |
| `RangeStrategy.SelectedIsChoice` | pkg/cluster/range.go:159-319 | Selection succeeds exactly when at least one replica is wanted and enough brokers have room; the result is distinct, within limits and, rack-aware, covers as many racks as possible. |
| `RangeOrder.SelectedFirst` | pkg/cluster/range.go:159-308 | In both modes the first broker with room from the owner on leads. |
| `RangeOrder.SelectedByOwner` | pkg/cluster/range.go:159-308 | Without limits the owner of the range leads, and without racks the brokers after it follow. |
| `RangeTopics.RangesCover` | pkg/cluster/range.go:118-131 | Ranges are consecutive, differ in size by at most one and together use every partition. |
| `RangeTopics.OwnerInRange` | pkg/cluster/range.go:124-134 | A partition within a broker's range has that broker as its owner. |
| `RangeTopics.AssignTopic` | pkg/cluster/range.go:103-156 | The nested loops over brokers and their ranges do what visiting the partitions one by one with their owners does. |
| `RangeAssign.GroupByTopic` | pkg/cluster/range.go:85-100 | Each topic's group holds exactly its partitions, sorted by number. |
| `RangeAssign.GroupByNumber` | pkg/cluster/range.go:92-97 | Distinct partitions of a topic are in strictly increasing order of number. |
| `RangeAssign.FlatPermutation` | pkg/cluster/range.go:47-74 | Grouping by topic loses and invents no partition. |
| `RangeAssign.OrderIndependent` | pkg/cluster/range.go:42-82 | Any order of the same distinct partitions and brokers gives the same outcome, error included. |
| `RangeAssign.AllLeaders` | pkg/cluster/range.go:103-156 | Without limits every partition of every topic is led by the owner of its range, rack-aware or not, and without racks the brokers after the owner follow in its list. |
| `RangeAssign.OutcomePlaces` | pkg/cluster/range.go:23-82 | Whatever is returned places every partition within limits and, unlimited, with contiguous leader ranges. |
| `RangeAssign.Assign` | pkg/cluster/range.go:23-82 | Returns that order-independent outcome; every partition placed, limits kept, ranges led by their owners. |
| `RangeAssign.Rebalance` | pkg/cluster/range.go:322-357 | As for round-robin: unchanged when balanced, otherwise everything placed anew under re-parsed keys, without limits in ranges led by their owners. |
| `ClusterRuns.MergeTotal` | pkg/cluster/coordinator.go:172-196 | Merging may replace lists but never counts a replica twice. |
| `ClusterRuns.AssignRecords` | pkg/cluster/coordinator.go:146-196 | After an assignment the record holds, for every partition just assigned, the list and leader just assigned, and for every other what it held; counters are exact and the version is one up. |
| `ClusterRuns.RunRecords` | pkg/cluster/coordinator.go:116-385 | In every state of every run the record of a partition is what was assigned or installed last. |
| `ClusterRuns.RunFirst` | pkg/cluster/coordinator.go:116-385 | In every state of every run, whatever the strategy, the first replica of every list leads. |
| `ClusterRuns.StepWithin` | pkg/cluster/coordinator.go:116-196 | Every assignment, snapshot, install or failed rebalance keeps every broker within its limit. |
| `ClusterRuns.RunWithin` | pkg/cluster/coordinator.go:337-385 | In every state of every interleaving of assignments and rebalances each broker holds at most the tighter of the two limits, loads exact. |
| `ClusterRuns.NegativeLoadExceeds` | pkg/cluster/coordinator.go:157-168 | Concrete run that puts two replicas on a broker with limit one, because the caller reported a negative load. |
| `ClusterRuns.InstallKeepsIff` | pkg/cluster/coordinator.go:337-385 | An install loses no partition if and only if everything current was in the snapshot it was computed from. |
| `ClusterRuns.AssignedInBetweenIsLost` | pkg/cluster/coordinator.go:337-385 | A partition first assigned between snapshot and install is gone after the install. |
| `ClusterRuns.LosesAPartition` | pkg/cluster/coordinator.go:337-385 | Concrete run: topic b is assigned while a rebalance of topic a is computed, and is gone after the install. |
| `ClusterRuns.RunKeysGrow` | pkg/cluster/coordinator.go:116-196 | Over every run without such an assignment in between, and with colon-free topics for the rebuilding strategies, the set of assigned partitions only grows. |
| `Coordinator.AssignWith` | pkg/cluster/coordinator.go:137-143 | Whichever strategy is configured, success places the whole batch within limits; it never returns exactly when it is not range and the partition reached has too few racks with room. |
| `Coordinator.RebalanceWith` | pkg/cluster/coordinator.go:359-378 | Whichever strategy is configured, success is a rebuild or a sticky rebalance; a rebuild without limits is spread rack-aware by its strategy. Only round-robin can loop forever, and only with limits. |
| `Coordinator.ClusterCoordinator.constructor` | pkg/cluster/coordinator.go:47-63 | Starts with no assignment and no rebalance. |
| `Coordinator.ClusterCoordinator.CumulativeExistingLoad` | pkg/cluster/coordinator.go:157-168 | Adds the running assignment's loads to the caller's, broker by broker. |
| `Coordinator.ClusterCoordinator.AssignPartitions` | pkg/cluster/coordinator.go:116-152 | Success is one assignment step of the run: the record then holds what is returned, with everything else as before and the version one up, and the limits hold with running and reported loads counted together. Failure changes nothing. A strategy that never returns keeps the lock, exactly then, and from then on no call returns. |
| `Coordinator.ClusterCoordinator.BeginRebalance` | pkg/cluster/coordinator.go:199-215 | Takes the snapshot unless a rebalance is running, nothing was assigned, or the lock is never given back. |
| `Coordinator.ClusterCoordinator.FinishRebalance` | pkg/cluster/coordinator.go:337-396 | Success is one install step, failure drops the snapshot and counts; a strategy that never returns, or a lock never given back, leaves the rebalance running for good. |
| `Coordinator.MergeAssignment` | pkg/cluster/coordinator.go:172-196 | A fresh assignment with the new lists and leaders over the old ones and exact loads; neither input changes. |
| `RaftLog.DiskStorage.constructor` | pkg/consensus/storage.go:238-255 | A restart takes the snapshot and then lets the entries file decide the first index. |
| `RaftLog.DiskStorage.SaveEntries` | pkg/consensus/storage.go:155-182 | The whole new state and outcome, gap refusal and out-of-range slice included. |
| `RaftLog.DiskStorage.SaveSnapshot` | pkg/consensus/storage.go:185-209 | The whole new state and outcome; the entries file is not rewritten. |
| `RaftLog.DiskStorage.Compact` | pkg/consensus/storage.go:212-230 | The whole new state and outcome. |
| `RaftLog.DiskStorage.Entries` | pkg/consensus/storage.go:73-92 | Returns exactly the entries of the index range, when it lies in the log. |
| `RaftLog.DiskStorage.Term` | pkg/consensus/storage.go:95-123 | The term of an entry, of the snapshot or of index 0; unknown otherwise. |
| `RaftLog.SaveEntriesRefines` | pkg/consensus/storage.go:155-182 | On the map from index to entry a save succeeds exactly when the batch starts in the log or right after it, and overwrites everything from there. |
| `RaftLog.SaveSnapshotRefines` | pkg/consensus/storage.go:185-209 | On that map a newer snapshot cuts the log below and at its index and is refused otherwise. |
| `RaftLog.CompactRefines` | pkg/consensus/storage.go:212-230 | On that map compaction succeeds exactly for an index in the log, and cuts below it. |
| `RaftLog.RunRefines` | pkg/consensus/storage.go:155-230 | Over every sequence of operations the slice with its moving first index is that map. |
| `RaftLog.RunLookups` | pkg/consensus/storage.go:155-230 | In every run an index holds what the last accepted operation about it left there: its entry of the last batch that covered it, or nothing once a later batch, snapshot or compaction cut it. |
| `RaftLog.TermKnownIff` | pkg/consensus/storage.go:95-123 | All terms from just below the log to its end are known if and only if the log starts at 1 or right after the snapshot; they are the entries' and the snapshot's, and none is known beyond. |
| `RaftLog.TermsKnownWithoutCompact` | pkg/consensus/storage.go:95-123 | In every run without compaction they are. |
| `RaftLog.RunPersists` | pkg/consensus/storage.go:290-368 | Over every run the files hold the snapshot and every entry in memory. |
| `RaftLog.Recovers` | pkg/consensus/storage.go:305-417 | A restart recovers the snapshot and a contiguous log with every entry that was in memory; the last index too, if and only if the entries file reaches the log. |
| `RaftLog.FileReachesAfter` | pkg/consensus/storage.go:185-209 | A save or compaction restores that condition; a snapshot keeps it if and only if it does not pass the last index. |
| `RaftLog.RunRecoversLastIff` | pkg/consensus/storage.go:155-230 | Over every sequence of operations the last index survives a restart if and only if every snapshot past the end was followed by a save or compaction. |
| `RaftLog.GapAfterRestart` | pkg/consensus/storage.go:155-182 | Where it fails, the entry that was next before the restart is refused after it. |
| `RaftLog.GapInARun` | pkg/consensus/storage.go:185-209 | Concrete run: one entry, then a snapshot at index 5; entry 6 is accepted before a restart and refused after it. |
| `RaftLog.LimitSize` | pkg/consensus/node.go:549-567 | Returns the longest prefix within the budget, empty when the first entry is already too large. |
| `Metadata.FSM.constructor` | pkg/metadata/fsm.go:37-42 | A new state machine is empty. |
| `Metadata.FSM.Apply` | pkg/metadata/fsm.go:53-106 | Every operation either takes the state to its specified successor or is refused and changes nothing, batches included. |
| `Metadata.DropTopic` | pkg/metadata/fsm.go:327-332 | Removes exactly the topic's partitions. |
| `Metadata.NoneExists` | pkg/metadata/fsm.go:402-407 | True exactly when no partition of the batch exists. |
| `Metadata.AppliedKeeps` | pkg/metadata/fsm.go:214-524 | Each success raises the version by exactly one and keeps every partition under its own key. |
| `Metadata.LookupExact` | pkg/metadata/types.go:280-282 | So a lookup by topic and number finds a partition of exactly that topic and number. |
| `Metadata.OtherTopicsUntouched` | pkg/metadata/fsm.go:283-524 | An operation leaves every partition of a topic it does not name as it was. |
| `History.AcceptedIff` | pkg/metadata/fsm.go:214-524 | Which operations are accepted, told by lookups, for all twelve. |
| `History.PartitionReadBack` | pkg/metadata/fsm.go:283-524 | After any accepted operation every field of every partition is what the operation carried for it, or what it was; a creation starts at epoch 1, a deleted topic has none. |
| `History.BrokerReadBack` | pkg/metadata/fsm.go:214-280 | Likewise for brokers: address, rack, status, resources, heartbeat and registration time; a registration is alive. |
| `History.TopicReadBack` | pkg/metadata/fsm.go:283-360 | Likewise for topics: partition count, replication, config and times. |
| `Metadata.DeleteUndoesCreate` | pkg/metadata/fsm.go:283-423 | Deleting a topic takes back its creation and that of any batch of its partitions, except for the version and time of change. |
| `Metadata.ApplyIgnoresClocks` | pkg/metadata/fsm.go:214-524 | States equal up to clock readings accept the same operations and stay equal up to clock readings. |
| `RaftNode.Node.constructor` | pkg/consensus/node.go:43-79 | Nothing is applied at the start. |
| `RaftNode.Node.ApplyCommittedEntries` | pkg/consensus/node.go:366-417 | The loop applies a batch entry by entry, skipping what is applied and stopping at the first failure. |
| `RaftNode.Node.ApplySnapshot` | pkg/consensus/node.go:420-435 | Installs state and index together, or neither; the storage has moved even when the data cannot be read. |
| `RaftNode.Node.CreateSnapshot` | pkg/consensus/node.go:446-490 | Saves and compacts; the snapshot index moves exactly on success. |
| `RaftNode.OwnSnapshotNeverSucceeds` | pkg/consensus/node.go:446-490 | It never succeeds: saving moves the first index past any index the compaction asks for. What stays is a snapshot with term zero and a log cut at the applied index. |
| `RaftNode.DeliveredFollows` | pkg/consensus/node.go:366-417 | A batch that may repeat entries but leaves no gap takes a node that follows the log to one that follows it, ending at the batch's end or at an entry that blocks it. |
| `RaftNode.RunFollows` | pkg/consensus/node.go:366-435 | In every run of batches and snapshot installs the metadata is the fold of the log up to the applied index: nothing missing, nothing twice. |
| `RaftNode.ReplicasAgree` | pkg/consensus/node.go:366-435 | Replicas that have applied as much agree on everything but clock readings, whatever brought them there. |
| `RaftNode.RefusedCommandStops` | pkg/consensus/node.go:377-387 | One refused command stops the metadata for good: no node ever applies it or anything after it. |
| `RaftNode.TopicCreatedTwiceStops` | pkg/metadata/fsm.go:283-310 | Concrete log: a topic created twice; no replica ever gets past the second creation. |
| `RaftNode.VersionCounts` | pkg/metadata/fsm.go:214-524 | In every run the version of a replica is the number of commands among the entries it has applied. |
| `History.LatestIs` | pkg/consensus/node.go:366-417 | The latest value is x if and only if some entry carried x and no later one carried another or removed it. |
| `History.FoldPartition` | pkg/consensus/node.go:366-417 | Over every log a partition's leader, epoch, in-sync replicas, replicas and offline replicas are what the last command about them carried since its topic was last deleted. |
| `History.FoldBroker` | pkg/consensus/node.go:366-417 | The same for a broker's address, rack, status and resources since it was last unregistered. |
| `History.FoldTopic` | pkg/consensus/node.go:366-417 | The same for a topic's counts and config since it was last deleted. |
| `History.ReplicaTold` | pkg/consensus/node.go:366-435 | And so on every replica at every point of every run, for the log up to its applied index. |
| `RaftNode.RestartFollowsIff` | pkg/consensus/node.go:43-79 | A restarted node starts empty; once it has applied what it is delivered it follows the log if and only if no command lies before that. |
| `RaftNode.RestartNeedsWholeLog` | pkg/consensus/node.go:43-79 | When the log begins with a command, a restart loses nothing if and only if the storage reloads the log from index 1. |
| `RaftNode.OwnSnapshotThenRestart` | pkg/consensus/node.go:446-490 | Concrete run: after one own snapshot and one more entry the storage reloads from index 2. |
| `Consumer.Consumer.constructor` | pkg/client/consumer.go:37-45 | Starts at the configured offset. |
| `Consumer.Consumer.FetchN` | pkg/client/consumer.go:53-147 | All outcomes: closed, no topic, unresolved end, failed fetch, and otherwise the first messages of the answer, as many as the limit allows, with position and counters of the position rule. |
| `Consumer.StepKeepsLimit` | pkg/client/consumer.go:102-135 | A positive limit is kept, and the next fetch resumes after the last message handed back, or at the window's end when nothing was cut. |
| `Consumer.Consumer.Seek` | pkg/client/consumer.go:164-175 | Moves to any non-negative offset of an open consumer and refuses otherwise. |
| `Consumer.StepExact` | pkg/client/consumer.go:102-135 | Against a broker that returns the visible records of a window, one fetch hands back exactly the visible records it moves past and never moves back, for any limit. |
| `Consumer.MovesIff` | pkg/client/consumer.go:125-135 | The position moves if and only if the broker reported the window's end or sent a record. |
| `Consumer.RunExact` | pkg/client/consumer.go:53-147 | Over any run of fetches with any limits and failures the messages received are the visible records between start and position, once each and in order. |
| `Consumer.StuckWithoutEnd` | pkg/client/consumer.go:112-135 | Concrete window of filtered records that is fetched again forever when its end is not reported. |
| `Producer.Producer.constructor` | pkg/client/producer.go:66-85 | Starts with no batches. |
| `Producer.Producer.SendMessage` | pkg/client/producer.go:218-259 | One request more, answered as the broker answers it and counted as sent or failed. |
| `Producer.Producer.FlushBatch` | pkg/client/producer.go:203-215 | Hands a batch over and empties it; an empty batch makes no request. |
| `Producer.Producer.FlushAll` | pkg/client/producer.go:304-320 | Leaves no batch with messages and no partition's account changed; succeeds exactly when all its requests do. |
| `Producer.Producer.Tick` | pkg/client/producer.go:262-280 | The background flush changes no account, whether its requests fail or not; when it runs, it makes requests exactly if messages wait, and leaves none waiting. |
| `Producer.Producer.AddToBatch` | pkg/client/producer.go:173-200 | Appends the message to its partition's account alone; every batch stays below the limit; fails exactly when a request of its own failed. Without a background flush it makes a request exactly when the batch is full, of the whole batch. |
| `Producer.Producer.SendMessagesToPartition` | pkg/client/producer.go:137-170 | Accepted messages enter their partition's account and no other, with the time set where there was none, in order unless an oversized send finds messages waiting; succeeds exactly when no request of its own failed, and then takes all; an oversized send is one request. |
| `Producer.Producer.Close` | pkg/client/producer.go:323-345 | Flushes everything and refuses from then on. |
| `Producer.FlushKeeps` | pkg/client/producer.go:203-215 | Flushing moves messages from buffer to request and changes no account. |
| `Producer.Conserved` | pkg/client/producer.go:173-259 | Accepted equals sent plus failed plus waiting, message by message and partition by partition. |
| `Producer.CountsMessages` | pkg/client/producer.go:242-259 | The counters count the messages that landed and those that were lost. |
| `Producer.OversizedOvertakes` | pkg/client/producer.go:160-170 | Concrete case in which an oversized send overtakes a waiting message of its partition. |
| `Producer.LandedIffTicksSucceed` | pkg/client/producer.go:262-280 | When no awaited request failed, every partition got all it was handed if and only if no background flush failed. |
| `Transactions.Group` | pkg/client/transactional_producer.go:512-522 | Groups by partition: partitions once each, every partition's messages in send order. |
| `Transactions.SendsInOrder` | pkg/client/transactional_producer.go:512-522 | A message stands in its partition's list right behind those of its partition sent before it. |
| `Transactions.FirstSeenOrder` | pkg/client/transactional_producer.go:512-522 | Partitions come in the order of their first messages. |
| `Transactions.FlushMessages` | pkg/client/transactional_producer.go:502-547 | For every interleaving of background flushes: each partition is handed its messages in send order and nothing else, all of them on success; success exactly when every partition can be written and no awaited request failed. All is delivered whatever the broker answers if no message ever waits, and whatever the schedule if the broker answers every request; in general exactly when no background flush failed. |
| `Transactions.WriteAll` | pkg/client/transactional_producer.go:532-540 | Sends partition after partition and stops at the first failure; says exactly when it succeeds; when nothing waits, one request per partition in order. |
| `Transactions.LosesMessages` | pkg/client/transactional_producer.go:502-547 | Whenever some message does wait there are answers, refusing a single request, and a schedule under which the call succeeds and not everything is delivered. |
| `Transactions.FinishFlush` | pkg/client/transactional_producer.go:542-546 | The last flush and the close, with background flushes before each, change no account and leave nothing waiting; success exactly when nothing awaited has failed. |
| `Transactions.DeliveredIff` | pkg/client/transactional_producer.go:502-547 | After a successful call everything landed if and only if no background flush failed. |
| `Transactions.FailedTickLoses` | pkg/client/producer.go:276-277 | The smallest such run: one message, batches of two; the call succeeds and the message is on no partition. |
| `TransactionRuns.TransactionalProducer.constructor` | pkg/client/transactional_producer.go:97-115 | An initialised producer is ready. |
| `TransactionRuns.TransactionalProducer.BeginTransaction` | pkg/client/transactional_producer.go:118-148 | Allowed from ready, committing and aborting only; starts with nothing registered. |
| `TransactionRuns.TransactionalProducer.Send` | pkg/client/transactional_producer.go:151-182 | A message is buffered only for a partition the coordinator has acknowledged in this transaction. |
| `TransactionRuns.TransactionalProducer.CommitTransaction` | pkg/client/transactional_producer.go:266-320 | Success means every partition was handed exactly its messages before the end, and all are delivered when none ever waits or the broker answers every request; a failed write aborts; a failed end leaves the outcome open. Like every method it keeps each produce request after its partition's acknowledgement in the same transaction. |
| `TransactionRuns.CommitLosesMessages` | pkg/client/transactional_producer.go:266-320 | Whenever some message of a transaction waits in a batch, a whole transaction is begun, filled and committed with success and not everything is delivered. |
| `TransactionRuns.TransactionalProducer.AbortTransaction` | pkg/client/transactional_producer.go:323-369 | Drops the transaction whatever the coordinator answers and writes nothing. |
| `TransactionRuns.TransactionalProducer.Close` | pkg/client/transactional_producer.go:372-408 | Aborts an open transaction; one whose commit is undecided is not ended. |
| `TransactionRuns.GuardedRequests` | pkg/client/transactional_producer.go:462-494 | Appending the requests of a flush keeps every produce request after its partition's acknowledgement in the same transaction. |
| `TransactionRuns.RequestIsPending` | pkg/client/transactional_producer.go:502-547 | A request only carries messages pending for its partition. |
| `Bytes.IntRoundTrip` | pkg/protocol/wire.go:56-86 | Two's complement big-endian integers of any width read back as written. |
| `Bytes.IntBytesOf` | pkg/protocol/wire.go:151-185 | And what was read is written back as the same bytes. |
| `Layouts.BigEndianByte` | pkg/protocol/wire.go:56-86 | Byte i of a w-byte integer is its digit of 256 to the power w - 1 - i. |
| `Schemas.ItemsTakeSpace` | pkg/protocol/wire.go:232-247 | A list of n values takes at least n bytes. |
| `WireLaws.ReadCountAt` | pkg/protocol/wire.go:232-247 | The bound on list lengths never rejects a written list. |
| `WireLaws.ParseWritten` | pkg/protocol/wire.go:138-247 | A written value is read back from wherever it stands, whatever follows. |
| `WireLaws.RoundTrip` | pkg/protocol/wire.go:20-247 | Every value that fits a message decodes to itself with any trailing bytes, nil and empty byte fields kept apart, whether or not the reader can see bytes beyond its slice. |
| `WireLaws.EncInjective` | pkg/protocol/wire.go:89-108 | Different payloads of a type have different bytes. |
| `WireLaws.ParseMore` | pkg/protocol/wire.go:138-247 | What was read from some bytes is read from any longer ones. |
| `WireLaws.PrefixRejected` | pkg/protocol/wire.go:138-247 | Every proper prefix of an encoding is rejected. |
| `WireLaws.SpareOnlyAtTheEnd` | pkg/protocol/codec.go:112 | Bytes beyond the slice change nothing that ends before them, in either direction. |
| `WireLaws.FixedEndsBefore` | pkg/protocol/codec.go:112 | A value that ends with an integer is never read into them. |
| `WireLaws.ParseIntoSpare` | pkg/protocol/codec.go:112 | A value whose last string runs into them, and no more, is read whole. |
| `WireLaws.ParseSound` | pkg/protocol/wire.go:131-247 | Reading any bytes yields a value of the schema or an error at a position within the bytes. |
| `WireLaws.CheckedFlag` | pkg/protocol/wire.go:159-161 | Any non-zero byte is true to the checked reader. |
| `WireLaws.CheckedCount` | pkg/protocol/wire.go:232-247 | A list length is accepted exactly when it is not negative and not more than the bytes left. |
| `WireLaws.CheckedData` | pkg/protocol/wire.go:187-226 | Strings and byte slices are the bytes after their length, accepted exactly under the same bound; only a byte slice may be nil. |
| `WireLaws.ParseExact` | pkg/protocol/wire.go:138-247 | What is accepted takes as many bytes as writing it would and, without booleans, is exactly its encoding. |
| `Wire.PayloadWriter.Put` | pkg/protocol/wire.go:42-49 | Reserves and fills exactly the bytes given, or only counts them without a buffer; panics exactly when they do not fit. |
| `Wire.PayloadWriter.WriteData` | pkg/protocol/wire.go:89-108 | Length prefix and bytes, a length beyond the limit written as zero; panics exactly when they do not fit. |
| `Wire.PayloadWriter.Write` | pkg/protocol/wire.go:20-108 | Measuring and writing advance by the same amount, that of the wire format, and the bytes written are the format's; panics exactly when they do not fit. |
| `Wire.MeasurePayload` | pkg/protocol/codec_coordination.go:92-102 | The measured size is the number of bytes written, or zero beyond the message limit. |
| `Wire.PayloadReader.constructor` | pkg/protocol/wire.go:121-123 | Starts at the beginning without an error. |
| `Wire.PayloadReader.TakeBytes` | pkg/protocol/wire.go:138-149 | Never passes the end; the first error sticks and stops all movement. |
| `Wire.PayloadReader.ReadOptional` | pkg/protocol/wire.go:187-226 | Length -1 is nil where allowed, other negative lengths are errors. |
| `Wire.PayloadReader.ReadLength` | pkg/protocol/wire.go:232-247 | A list length is rejected exactly when negative or more than the bytes left. |
| `Wire.PayloadReader.ReadValue` | pkg/protocol/wire.go:151-247 | Reads what the format says is there, or stops with the format's first error. |
| `Wire.DecodePayload` | pkg/protocol/codec_coordination.go:113-140 | Decoding returns the format's value or its first error. |
| `Payloads.FieldsBack` | pkg/protocol/coordination.go:167-639 | For all 24 coordination and transaction payloads decoding takes every field from where encoding put it. |
| `Payloads.EncodePayload` | pkg/protocol/codec_coordination.go:92-110 | Returns the payload's bytes exactly when they fit a message or the buffer's own spare room; otherwise the writer, given the measured size, runs past its buffer. |
| `Layouts.PayloadLayout` | pkg/protocol/coordination.go:166-612 | For all 24 payloads the exact bytes, apart from schemas: every field by name, in order and with its width, strings and lists with a four-byte length, nil as length -1. |
| `Payloads.OversizedPayload` | pkg/protocol/codec_coordination.go:92-110 | Concrete case: leaving a group whose name alone is as long as the message limit takes more bytes than a message may have, whatever the member. |
| `Payloads.DecodeCoordination` | pkg/protocol/codec_coordination.go:113-140 | Returns the payload the bytes hold or the first error. |
| `Payloads.PayloadRoundTrip` | pkg/protocol/transaction.go:24-307 | Every payload that fits a message decodes to itself, whatever follows it. |
| `Payloads.PayloadPrefixRejected` | pkg/protocol/codec_coordination.go:113-140 | Cut anywhere before its end a payload is rejected. |
| `Assignments.CollectEntries` | pkg/protocol/coordination.go:124-135 | Collecting a map's entries in any order gives the map. |
| `Assignments.SubscriptionRoundTrip` | pkg/protocol/coordination.go:33-71 | Every subscription blob within the message limit decodes to the subscription. |
| `RequestLayouts.SubscriptionLayout` | pkg/protocol/coordination.go:42-49 | The exact bytes of a subscription blob. |
| `RequestLayouts.AssignmentLayout` | pkg/protocol/coordination.go:92-109 | The exact bytes of an assignment blob. |
| `Assignments.AssignmentRoundTrip` | pkg/protocol/coordination.go:83-142 | An assignment blob decodes to the assignment in whatever order its topics were written. |
| `Assignments.SortedOrderUnique` | pkg/protocol/wire.go:251-258 | The sorted order of topics is settled by the assignment alone. |
| `Assignments.EncodeMemberAssignment` | pkg/protocol/coordination.go:83-109 | The bytes do not depend on the order in which the map yields its keys. |
| `Messages.MessageBack` | pkg/protocol/codec.go:861-906 | A message is rebuilt with all its headers whatever their order on the wire. |
| `RequestLayouts.MessageLayout` | pkg/protocol/codec.go:821-858 | The exact bytes of a message: offset, timestamp, key, value and headers, with their widths. |
| `Messages.TotalPermutes` | pkg/protocol/types.go:303-309 | The headers take as many bytes in one order as in another. |
| `Messages.MessageSize` | pkg/protocol/types.go:303-309 | The computed size is the encoded length for every header order. |
| `Codec.MessagesSize` | pkg/protocol/codec.go:392-394 | The summed sizes are what the message list takes. |
| `RequestLayouts.BodyIsLayout` | pkg/protocol/codec.go:479-575 | The exact bytes of every request body, field by field with widths. |
| `RequestLayouts.TypeByteIs` | pkg/protocol/types.go:30-48 | The type byte of each request. |
| `Codec.BodyRoundTrip` | pkg/protocol/codec.go:479-705 | Every request body that fits decodes to the request, for every header order and whatever lies after it: no field is lost, moved or clamped. |
| `Codec.OldRequests` | pkg/protocol/codec.go:605-655 | A produce request without producer identity decodes as not transactional, a fetch without isolation level as uncommitted. |
| `Codec.FetchResponseRoundTrip` | pkg/protocol/codec.go:259-288 | A fetch response decodes to itself; without the later fields the stable offset is the high-water mark and the next offset -1. |
| `RequestLayouts.FetchedLayout` | pkg/protocol/codec.go:733-739 | The exact bytes of a fetch response before its later fields. |
| `Decoding.DecodeHeaders` | pkg/protocol/codec.go:889-903 | The loop collects exactly the header map the format holds, or runs past the bytes it can see exactly when there is none. |
| `Decoding.DecodeMessage` | pkg/protocol/codec.go:861-906 | Decodes the message at an offset and ends at its end, or runs past the bytes it can see exactly when the format has no message there. |
| `Decoding.DecodeMessages` | pkg/protocol/codec.go:598-604 | The loop over messages returns all of them and the offset after the last. |
| `Decoding.DecodeProduce` | pkg/protocol/codec.go:583-625 | With its optional trailing fields, exactly the produce request the bytes hold, the slice's capacity included. |
| `Decoding.DecodeFetch` | pkg/protocol/codec.go:627-655 | Topic, numbers and the optional isolation level, read in turn: exactly the fetch request the bytes hold. |
| `Decoding.DecodeGetOffset` | pkg/protocol/codec.go:657-668 | Exactly the offset request the bytes hold. |
| `Decoding.DecodeCreateTopic` | pkg/protocol/codec.go:670-685 | Exactly the creation the bytes hold. |
| `Decoding.DecodeDeleteTopic` | pkg/protocol/codec.go:687-694 | Exactly the deletion the bytes hold. |
| `Decoding.DecodeFetchResponse` | pkg/protocol/codec.go:259-288 | With its optional trailing fields, exactly the fetch response the bytes hold, the slice's capacity included. |
| `Decoding.DecodeRequestPayload` | pkg/protocol/codec.go:578-705 | For every type code the request the bytes hold, the first error of a checked read, an unknown type, or a panic; strings may run into the slice's capacity. |
| `Decoding.FixedRequestPanicsIff` | pkg/protocol/codec.go:627-685 | Fetch, offset and creation requests panic if and only if the payload itself is cut short. |
| `Decoding.DeleteTopicPanicsIff` | pkg/protocol/codec.go:687-694 | A deletion panics if and only if its length is cut short or exceeds the payload and the checksum together. |
| `Decoding.DecodeFrame` | pkg/protocol/codec.go:70-119 | Reads length, checksum, header and payload in turn; every error case of the frame. |
| `Decoding.ShortDeleteTopicAccepted` | pkg/protocol/codec.go:70-119 | Concrete frame, accepted for every checksum function: a deletion that holds only the length 4 deletes the topic named by the frame's own checksum. |
| `Decoding.CutProduceAccepted` | pkg/protocol/codec.go:583-625 | A produce request cut inside its last header value, with the missing bytes after the payload, decodes as if it were whole, without producer identity. |
| `Decoding.CutFetchResponseAccepted` | pkg/protocol/codec.go:259-288 | And so does a fetch response, without its later fields. |
| `Frames.PayloadSize` | pkg/protocol/codec.go:380-425 | The size computed apart from the encoding equals the bytes written in any header order, or the range error. |
| `Frames.WriteBody` | pkg/protocol/codec.go:479-575 | Writes exactly the body at the position and nothing else; panics exactly when it does not fit. |
| `Frames.FillFrame` | pkg/protocol/codec.go:40-64 | Header, body, checksum into a buffer of the computed size: the frame when the body has that size, a panic when it is larger than size and checksum together. |
| `Frames.EncodeRequest` | pkg/protocol/codec.go:23-67 | Succeeds exactly when the frame fits a message and then fills its buffer to the last byte, with the bytes of FrameIsLayout; an oversized coordination payload panics. |
| `Frames.FrameIsLayout` | pkg/protocol/codec.go:36-66 | The exact bytes of a frame: length, request id, type, version, flags, body and checksum. |
| `Frames.RequestRoundTrip` | pkg/protocol/codec.go:70-119 | A frame decodes to its header and request and leaves the stream at its end, for every header order and checksum function. |

## Left out

- Server-side partitions, the transaction and consumer-group coordinators and the storage engine: the client and protocol results treat them as parameters.
- HTTP and admin APIs, commands, TLS, authentication, connection pooling and retries: a request succeeds or fails, whichever it does.
- Goroutines below the level of a step: assignments, rebalance snapshots and installs interleave as whole steps, as the locks make them; the transactional producer's own calls do not overlap, while its background flusher may run between any two steps.
- Slices shared between caller and callee: sorting the caller's broker slice in place and stamping the caller's messages in place are not visible in the model.
- Placements.Assignment.Clone: lists are values, so that the copy's lists are apart from the original's holds by construction.
- Machine integers: loads, offsets and counters are unbounded; the wire format's widths are modelled exactly.
- Replica counts below zero: the program panics allocating the list.
- ClusterRuns.RunWithin: the load a caller reports as existing is assumed not negative; NegativeLoadExceeds shows that the condition is needed.
- ClusterRuns.StepWithin: likewise.
- ClusterRuns.RunKeysGrow: stated for runs whose assignments do not fall between a snapshot and its install; AssignedInBetweenIsLost shows that the condition is needed.
- Hard state, configuration state and JSON marshalling of the Raft and metadata files; a file is written whole or not at all.
- A Raft node without a state machine, and the Raft protocol itself: committed entries arrive in index order, possibly again.
- RaftNode.RunFollows: a snapshot installed from a peer is assumed to hold the fold of the log up to its index.
- Metadata reads (lists, lookups, clones): they only copy.
- SendOffsetsToTransaction, Poll, FetchOne, Flush of one topic and the statistics: they would only add easy members.
- Producer identity and epoch tags on a transactional producer's requests, and bytes-sent metrics.
- Response frames and the responses other than fetch: the same framing with a different header, read field by field.
- Request fields that do not travel (acks, timeout, leader epoch, offset-lookup timestamp), and a request whose type does not match its payload.
- A key, value or header map that is nil rather than empty: the core codec writes both alike and so does the model.
- FirstError of the responses and the coordinator-key helpers: they only read.
- Compression, the buffer pool and connection handling.
