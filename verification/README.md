# Verified models of Raft, MapReduce and gossip

This project models three protocols of the repository in Dafny and proves what
they promise about every run.

**Raft** (`src/raft`). `RaftLog` holds the log operations, `RaftNode` the handlers
of one node as functions from node to node, and `RaftServer` the same handlers as
a class with the source's fields, loops and Persister; every method of the class
is proved to take the object from one `RaftNode` value to the next. `RaftCluster`
is the cluster: n nodes, a set of calls in flight whose requests and replies may be
lost, delayed without bound and reordered, and crashes at any moment. A run is any
sequence of its steps. `RaftShape`, `RaftElection`, `RaftMatching`, `RaftSafety`
and `RaftSteps` carry the invariants, `RaftTheorems` and `RaftBacktrack` state the
results, and `RaftWitness` shows which assumptions the code needs. `RaftAnswers` and
`RaftShipping` say what each step must achieve, in terms of logs, terms and sets of
nodes, and `RaftAgreement` that no orderly run is ever stuck. `RaftApply` and
`RaftKilled` follow what is handed to the services. Kill is a no-op
(`src/raft/raft.go:784-788`), so `RaftKilled` puts the cluster into a world with all
its killed instances: they still handle requests, take replies to their own calls,
run for election, take commands, commit and apply, at any time. `RaftKilledLogs`
compares their logs with the others, and `RaftKilledSafety` what they apply. Only one
thing is asked of them: an instance whose candidacy, after its death, counted a vote
of another election gets no command. `RaftKilledWitness` shows that this is needed,
and has an instance that commits and applies after its death.

**labrpc and crashes** (`src/labrpc`, `src/raft/config.go`). `LabrpcCrash`
interleaves calls with the steps of crash1 and start1, including handlers that keep
running on a killed instance. `RaftCrash` puts the Persisters of the tester under the
world of killed instances: crash1 and start1 run step by step, copying, blanking and
refilling Persisters while old instances still write to theirs, and every such run is
a run in which the restart is one step.

**MapReduce** (`src/mapreduce`). `MrPipeline` says what a job means, `MrTasks` runs
doMap, doReduce, merge and Sequential over a file system, and `MrSchedule` is the
distributed master with workers that fail, answers that get lost and attempts whose
effect lands late. `MrLeftovers` says when files of an earlier job of the same name
show in the output.

**Gossip** (`project/gossip/pkg/gossip`). `GossipStore` and `GossipNode` are the
store and the node as classes; `Gossip` is a cluster of nodes over a network that
loses, repeats and reorders messages, `GossipReach` says exactly which nodes a rumor
can get to, and `GossipWitness` has two runs.

## Where the Raft code is weaker than the paper

The paper is Ongaro and Ousterhout, "In Search of an Understandable Consensus
Algorithm". The code differs from its Figure 2 in three places, and its safety
properties then hold only in runs that avoid them. The model keeps the code.

- *A vote is counted whatever election it belongs to* (`src/raft/raft.go:307-310`).
  The reply handler raises the count before it compares terms, so votes of an older
  election stay in the count of the running one. `TimelyVotes`: a granted reply that
  reaches a candidate belongs to the running election.
  `RaftWitness.CountedVoteIsReal` shows that this guard decides, for every state,
  whether a counted reply adds a voter; `RaftWitness.TwoLeadersWithoutTimelyVotes`
  is a run in which one late vote gives a term two leaders.
- *A heartbeat reply is compared with the term the heartbeat was sent in*
  (`src/raft/raft.go:384-393`), so a late one can step a node "down" inside its own
  term and erase its vote. `TimelyHeartbeats`: such a reply is newer than the node.
  `RaftWitness.BeatReplyKeepsVotes` gives the exact guard,
  `RaftWitness.TwoLeadersWithoutTimelyHeartbeats` the failing run.
- *An accepted batch always cuts the rest of the log* (`src/raft/raft.go:566-593`),
  even entries of the same leader that a reordered older batch does not reach.
  `InOrderAppends`: an accepted non-empty batch reaches at least as far as the
  follower has acknowledged to that leader. `RaftWitness.MergeKeepsAcknowledged`
  gives the exact guard, `RaftWitness.LostCommitWithoutInOrderAppends` a run in
  which a committed entry is missing from the log that wins the next term.

`RaftWitness.OrderlyRunCommits` is a run that meets all three and still commits and
elects.

Crash refinement, log shape, leader indices, terms, the numbering of applied entries
and what each step answers need none of the three. Log
Matching and backtracking need only one winner per term. Election Safety needs the
first two. The others need all three; such a run is called orderly.

A node alone never commits: a leader looks for entries to commit only when a peer has
answered (`src/raft/raft.go:642-648`). `RaftAnswers.AloneNeverCommits` proves it for one
node; with two or more, `RaftAnswers.NothingRipeWaits` proves that nothing a majority is
known to have waits in any state, and `RaftAgreement.EveryRunCanAgree` that every orderly
run can go on until all nodes have committed and applied a new command.

## Where the gossip code does less than it is meant to

The digest exchange is meant to repair gaps. A Missing message lists what its
*sender* has, and the fetch reply goes back to that sender, so
`Gossip.OnlyPushSpreads` proves that the exchange never changes any store.
`GossipWitness.ExchangeRepairsNothing` is a complete exchange after which both
nodes lack what the other has.

## Where the MapReduce code depends on an empty directory

A map task creates no file for a part without pairs, and a reduce task reads any file
of that name. What an earlier job of the same name left there is then taken for
output. `MrTasks.FileSystem.Sequential` and `MrSchedule.DistributedEqualsSequential`
hold over any files. Leftovers of a key are harmless if there are none from the key's
own reduce task on (none at all, if the job does not emit the key), or if the last of
them, after that task, repeat exactly the values emitted. `MrLeftovers.WinningIsHarmless`
proves that this decides whether the values of the key that reach the output are those
emitted. So the output is the meaning of the job, for every reduce function, exactly when
all leftovers are harmless (`MrLeftovers.HarmlessOutput`, `MrLeftovers.HarmfulShows`).
A leftover key that the job never emits shows whatever the reduce function is
(`MrLeftovers.StrangeKeyShows`).

## Model

| member | source | states |
|---|---|---|
| RaftKilledSafety.StateMachineSafety | src/raft/raft.go:717-744 | in every orderly run no two instances, running or killed, of one node or of two, ever apply different commands at the same index |
| RaftKilled.AppliesInOrder | src/raft/raft.go:717-744 | in every run each instance applies indices 1, 2, 3, ... with no gap, before and after it is killed |
| RaftKilled.WorldNeverStuck | src/raft/raft.go:784-788 | every enabled step of the cluster or of a killed instance is defined in every reachable world |
| RaftKilledSafety.LateReplySafe | src/raft/raft.go:629-648 | an acknowledgement taken by a killed leader lets it commit only what a majority acknowledged |
| RaftKilledSafety.LateHandleSafe | src/raft/raft.go:499-558 | an append request handled after the death, in order or not, leaves the instance with committed entries up to its commit index |
| RaftKilledSafety.LateVoteSafe | src/raft/raft.go:293-317 | a killed candidate that wins by votes of its own election had a majority of real voters, so nobody else wins that term |
| RaftKilledSafety.LateProposeSafe | src/raft/raft.go:746-782 | a command taken by a killed leader is of a term nobody else adds to, and nothing committed is lost by it |
| RaftKilledLogs.KilledLogMatching | src/raft/raft.go:521-543 | with one winner per term, the logs of any two instances, running or killed, with the same term at an index are equal up to it, up to the commands a killed one took after its death |
| RaftKilledLogs.NothingOwn | src/raft/raft.go:784-788 | a killed instance that took no command after its death has no such part, so its whole log matches |
| RaftKilledWitness.AppliesAfterDeath | src/raft/raft.go:784-788 | an orderly run in which a killed leader takes an acknowledgement, commits by it and applies |
| RaftKilledWitness.CommandAfterLateVote | src/raft/raft.go:307-310 | a run of five nodes, orderly but for a command to a killed instance that counted a vote of another election, in which two instances apply different commands at index 1 |
| RaftCrash.CrashRefines | src/raft/config.go:75-103 | every run in which crash1 and start1 work step by step on shared Persisters is a run in which each restart is one step |
| RaftCrash.StepRefines | src/raft/config.go:112-189 | each step is one step of the world or changes nothing in it, and an old instance never writes what a new one reads |
| RaftCrash.RestartHappens | src/raft/config.go:112-189 | conversely every restart can be done step by step, from every reachable state with the node up |
| RaftCrash.CrashSafety | src/raft/config.go:112-189 | no two instances apply different commands at an index in any orderly run with such crashes |
| RaftCrash.LabNeverStuck | src/raft/config.go:112-189 | every enabled step, of the tester or of an instance, extends every such run |
| RaftAgreement.EveryRunCanAgree | src/raft/raft.go:85-782 | every orderly run of two nodes or more has an orderly continuation in which all nodes have one log that ends in a given new command, all of it committed and applied by each |
| RaftAgreement.CanLead | src/raft/raft.go:249-317 | from every orderly run some node can go on to lead a term higher than any |
| RaftAnswers.NothingRipeWaits | src/raft/raft.go:685-701 | with two nodes or more, in every state of every run a leader has committed every index of its term that more than half of the nodes are known to have |
| RaftAnswers.CommitsAllRipe | src/raft/raft.go:629-701 | taking a reply raises the commit index to the highest such index, and only an acknowledgement in its term raises it at all |
| RaftAnswers.AloneNeverCommits | src/raft/raft.go:642-648 | a node alone never commits |
| RaftAnswers.VoteAnswer | src/raft/raft.go:211-239 | a request is granted iff the voter may still choose the candidate in that term and is not ahead of the log the candidate advertised; with the reply, vote, term and role that follow |
| RaftAnswers.ExtensionGetsVote | src/raft/raft.go:227-238 | a free vote goes to every candidate whose advertised log extends the voter's |
| RaftAnswers.CountAnswer | src/raft/raft.go:293-317 | a grant counts once, and the candidate leads iff it is of the running election and makes more than half of all nodes |
| RaftAnswers.ElectionAsksAll | src/raft/raft.go:249-291 | an election is a new term with the node's own vote and asks exactly the other nodes, showing the end of its log |
| RaftShipping.AckMovesOn | src/raft/raft.go:642-648 | after a step that raised what the leader knows of a peer, its next call to that peer carries exactly the log past that |
| RaftShipping.ReplyAnswer | src/raft/raft.go:629-678 | a reply changes what the leader knows of its peer alone, to the end of the accepted batch; a newer term makes a follower, a stale reply nothing |
| RaftShipping.WinnerStartsAtEnd | src/raft/raft.go:100-129 | a new leader counts nobody but itself and first asks each node about the end of its log, with no entries |
| RaftShipping.LeaderHoldsOwn | src/raft/raft.go:746-765 | in every run a leader counts its own log to the end |
| RaftShipping.CommandIsAppended | src/raft/raft.go:746-765 | a command becomes the last entry of the leader's log, in its term |
| RaftShipping.BatchAnswer | src/raft/raft.go:499-558 | a batch is accepted iff its term is not old and the entry before it is there; with the reply, term, vote, role and commit index that follow |
| RaftShipping.BatchAdopted | src/raft/raft.go:543-593 | an accepted batch ends the log and gives it its terms, and with one winner per term its very entries |
| RaftShipping.NothingWithheld | src/raft/raft.go:717-744 | the next entry is what is handed over, and in orderly runs that is possible whenever something committed is not yet applied |
| RaftShipping.BeatAnswer | src/raft/raft.go:335-361 | a heartbeat that is not old makes a follower of its term, keeps the vote within a term and touches nothing else |
| RaftShipping.BeatAsksAll | src/raft/raft.go:363-383 | a heartbeat round goes to exactly the other nodes in the present term |
| RaftShipping.BeatReplyAnswer | src/raft/raft.go:384-393 | a reply has an effect iff it is of a later term than its heartbeat, and then makes a follower without a vote |
| RaftTheorems.LeaderCompleteness | src/raft/raft.go:227-238 | in every orderly run the whole prefix committed in a term is a prefix of the log with which any later term is won |
| RaftTheorems.AcknowledgementSound | src/raft/raft.go:642-648 | matchIndex[p] >= N means follower p agrees with the leader through N while p is in that term |
| RaftTheorems.CommitWithinLog | src/raft/raft.go:685-701 | every commit index lies inside its node's log |
| RaftTheorems.FollowerCommitBound | src/raft/raft.go:548-555 | a step that raises a follower's commit index leaves it within the batch just accepted |
| RaftTheorems.CommitNeverFalls | src/raft/raft.go:548-555 | between restarts a node's commit index never goes down |
| RaftTheorems.LogMatchingInRun | src/raft/raft.go:521-543 | with one winner per term, two logs with the same term at an index are equal up to it |
| RaftTheorems.CallMatchesLog | src/raft/raft.go:605-621 | the same between a log and the entries of a call still in flight, down to the call's previous index |
| RaftTheorems.CallsMatch | src/raft/raft.go:605-621 | and between two calls in flight, on all indices they share below an entry of the same term |
| RaftTheorems.CrashRefinement | src/raft/raft.go:790-837 | in every run the Persister decodes to the node's term, vote and log, so a restart resets volatile fields and nothing else |
| RaftTheorems.LeaderAppendOnly | src/raft/raft.go:499-593 | between two states of any run in which a node leads the same term, its log was only appended to |
| RaftTheorems.RunVoted | src/raft/raft.go:211-239 | in every run a node's vote is one it cast in its present term |
| RaftTheorems.TermsNeverFall | src/raft/raft.go:85-98 | no node's term goes down over any part of any run, crashes included |
| RaftTheorems.LogShape | src/raft/raft.go:566-593 | every log keeps its term-0 sentinel and has non-decreasing terms bounded by the node's term |
| RaftTheorems.WinsWithAdvertisedLog | src/raft/raft.go:259-310 | the log a candidate wins with is the one it advertised when it asked for votes |
| RaftTheorems.LeaderIndicesValid | src/raft/raft.go:605-678 | while a node leads, every next index is a cut of its log and every match index lies inside it, whatever stale replies arrive |
| RaftTheorems.NeverStuck | src/raft/raft.go:499-683 | every enabled step is defined in every reachable state: no index is ever out of range |
| RaftElection.ElectionSafety | src/raft/raft.go:211-317 | with timely votes and heartbeats at most one node wins each term over the whole run |
| RaftElection.MajoritiesMeet | src/raft/raft.go:307-310 | two majorities of n nodes share a node |
| RaftElection.GrantAddsBacker | src/raft/raft.go:307-310 | consuming a granted reply of the running election adds its sender to the candidate's distinct voters |
| RaftElection.StepFair | src/raft/raft.go:211-397 | every timely step keeps votes unique per term and vote counts covered by distinct voters |
| RaftMatching.StepMatched | src/raft/raft.go:499-593 | every step keeps all logs and calls in flight consistent with one log per term |
| RaftMatching.LeaderOwns | src/raft/raft.go:100-116 | a leader's log is the log of its term |
| RaftSafety.WinnersComplete | src/raft/raft.go:227-238 | Leader Completeness in one state for anything a majority acknowledged, by induction on terms from a voter shared by the two quorums |
| RaftSafety.CommitsAgree | src/raft/raft.go:685-701 | two indices that majorities acknowledged, in any terms, have the same entries up to the lower one |
| RaftSafety.CommittedIsHeld | src/raft/raft.go:642-648 | what a node acknowledged and what was committed is in its log, in that term and all later ones |
| RaftSteps.RunSafe | src/raft/raft.go:85-782 | all invariants together hold in every state of every orderly run |
| RaftBacktrack.BacktrackingExact | src/raft/raft.go:655-678 | processing a refusal lowers the next attempt strictly, never below the common prefix with the log the follower answered from: to the end of a log that is too short, onto the common prefix when the leader holds the term found, before all of that term otherwise |
| RaftLog.BackUpIsExact | src/raft/raft.go:522-540 | the same for any two well-shaped matching logs |
| RaftLog.Settle | src/raft/raft.go:655-678 | the retry loop ends, at an index where the follower accepts |
| RaftLog.ScanBackFindsLast | src/raft/raft.go:661-669 | the backward scan that gives up early finds the last entry of the term, or there is none |
| RaftLog.SyncIsLeaderPrefix | src/raft/raft.go:566-593 | an accepted batch leaves exactly the leader's log up to the end of the batch |
| RaftLog.SyncAnyStart | src/raft/raft.go:566-593 | for any start, clamped into the log, the merge keeps the log exactly as far as its terms agree with the batch and goes on with the rest of the batch |
| RaftLog.RefusesIff | src/raft/raft.go:522-540 | a call is refused iff its previous index is past the log or holds another term |
| RaftLog.BackUpLands | src/raft/raft.go:655-678 | for any hint, backing up lands behind the last entry of the reported term if there is one, else on the reported index, never below 1 |
| RaftLog.SyncTerms | src/raft/raft.go:566-593 | with nothing known about the logs the merge still has the receiver's head and the sender's terms |
| RaftLog.AheadIsOrder | src/raft/raft.go:227-231 | being ahead in the voters' comparison is a strict order: a later last term decides, then length, and an extension is ahead of what it extends |
| RaftLog.LogMatching | src/raft/raft.go:148-156 | two logs consistent with one log per term that share a term at an index agree up to it |
| RaftNode.RestartKeepsDurable | src/raft/raft.go:401-431 | booting from what was saved restores term, vote and log and resets the rest |
| RaftNode.BootIsIdle | src/raft/raft.go:401-431 | whatever the Persister holds, the new instance is an idle follower with that state and never an empty log |
| RaftNode.CountIsCard | src/raft/raft.go:685-701 | the counting loop gives the number of nodes that hold the index |
| RaftWitness.CountedVoteIsReal | src/raft/raft.go:307-310 | a counted reply adds a voter of the running election iff it belongs to that election |
| RaftWitness.BeatReplyKeepsVotes | src/raft/raft.go:384-393 | a heartbeat reply leaves every vote cast in force iff it is newer than the node, or not newer than its own heartbeat, or the node has no vote |
| RaftWitness.MergeKeepsAcknowledged | src/raft/raft.go:566-593 | an accepted batch leaves the follower with the leader's log through m iff the batch reaches m |
| RaftWitness.TwoLeadersWithoutTimelyVotes | src/raft/raft.go:293-317 | a run of five nodes in which exactly one step takes a late vote, all else is orderly, and a term has two winners |
| RaftWitness.TwoLeadersWithoutTimelyHeartbeats | src/raft/raft.go:384-393 | a run of three nodes with timely votes and in-order appends, but not timely heartbeats, in which a term has two winners |
| RaftWitness.LostCommitWithoutInOrderAppends | src/raft/raft.go:566-593 | a run of three nodes in which a reordered batch loses a committed entry from the next winner's log |
| RaftWitness.WholeSuffixIsInOrder | src/raft/raft.go:605-621 | in an orderly run a batch that ends where its leader's log ends, as every batch does when it is sent, is in order |
| RaftWitness.OrderlyRunCommits | src/raft/raft.go:685-701 | an orderly run of three nodes that commits two entries in term 1 and has a winner of term 2 |
| RaftServer.Persister.Copy | src/raft/persister.go:24-31 | a new Persister with the same saved state |
| RaftServer.Persister.SaveRaftState | src/raft/persister.go:33-37 | replaces what a later read returns |
| RaftServer.Raft.Make | src/raft/raft.go:401-431 | a fresh server is the boot of what its Persister holds |
| RaftServer.Raft.ReadPersist | src/raft/raft.go:805-837 | restores term, vote and log; blank bytes leave the initial values |
| RaftServer.Raft.Persist | src/raft/raft.go:790-803 | the Persister then holds the current term, vote and log |
| RaftServer.Raft.StepDownLocked | src/raft/raft.go:85-98 | refines stepping down and leaves the Persister current |
| RaftServer.Raft.BecomeLeaderLocked | src/raft/raft.go:100-129 | refines becoming leader, index arrays built by the loop included |
| RaftServer.Raft.StartElection | src/raft/raft.go:249-281 | refines starting an election, with the new term and vote saved |
| RaftServer.Raft.RequestVote | src/raft/raft.go:211-239 | refines the vote handler, its reply and its saved state |
| RaftServer.Raft.OnVoteReply | src/raft/raft.go:293-317 | refines counting a vote reply |
| RaftServer.Raft.Heartbeat | src/raft/raft.go:335-361 | refines the heartbeat handler |
| RaftServer.Raft.OnHeartbeatReply | src/raft/raft.go:384-393 | refines the heartbeat reply |
| RaftServer.Raft.SyncLocked | src/raft/raft.go:566-593 | the in-place merge leaves the log the merge function gives, for any start index |
| RaftServer.Raft.CheckPrev | src/raft/raft.go:522-540 | refuses exactly when the previous entry is missing or differs, with the conflict hint |
| RaftServer.Raft.AppendEntries | src/raft/raft.go:499-558 | refines the append handler: log, term, commit index, reply and saved state |
| RaftServer.Raft.FirstOfTerm | src/raft/raft.go:531-537 | the first index of the run of entries of one term |
| RaftServer.Raft.BuildAppend | src/raft/raft.go:605-621 | the call carries the leader's whole suffix from the clamped next index |
| RaftServer.Raft.LastOfTerm | src/raft/raft.go:661-669 | the backward scan of the leader's log |
| RaftServer.Raft.OnAppendReply | src/raft/raft.go:629-678 | refines success, step-down, stale reply and backing up |
| RaftServer.Raft.TryAdvanceCommitLocked | src/raft/raft.go:685-701 | refines committing the highest index of the current term that a majority holds |
| RaftServer.Raft.Start | src/raft/raft.go:746-782 | a leader appends one entry of its term at the end and reports its index; others report -1 and change nothing |
| RaftServer.Raft.ApplyNext | src/raft/raft.go:717-744 | sends the next committed entry that is present, and only then |
| RaftServer.SkipMatching | src/raft/raft.go:578-586 | the scan stops at the end of the longest run of equal terms |
| LabrpcCrash.AcknowledgedSurvives | src/labrpc/labrpc.go:206-248 | once a call returned true, every later instance boots from a state at or after what its handler saved, for every interleaving with crashes |
| LabrpcCrash.SavesSurvive | src/labrpc/labrpc.go:206-248 | all that the handler of a call that returned true saved is, unbroken, in what any later instance boots from |
| LabrpcCrash.CurrentGrows | src/raft/config.go:75-103 | no step of crash or restart ever shortens what a restart would read |
| LabrpcCrash.StepOk | src/raft/config.go:112-189 | every step keeps acknowledged states inside what a restart would read |
| LabrpcCrash.UnconfirmedMayBeLost | src/labrpc/labrpc.go:176-184 | a run in which a handler finished on a killed instance and its save is lost, so the dead-server check is needed |
| LabrpcCrash.ReturnedThenRestarted | src/raft/config.go:112-189 | a run in which a call returns true and its server crashes and restarts |
| MrPipeline.ShardingPreservesMeaning | src/mapreduce/common_reduce.go:28-77 | the merged output is the plain group-by of all emitted pairs |
| MrPipeline.ShardingIsInvisible | src/mapreduce/common_map.go:58-77 | the number of reduce tasks and the hash make no difference to the merged output |
| MrPipeline.MeaningLists | src/mapreduce/master_splitmerge.go:14-51 | the output lists each emitted key once, keys rising character by character, each with the reduction of exactly the values emitted under it, by task and place of emission |
| MrPipeline.AllGathered | src/mapreduce/common_reduce.go:28-52 | the values a key is reduced from are those emitted under it, each once, in order of map task and place |
| MrPipeline.ColumnIsShard | src/mapreduce/common_reduce.go:28-52 | reading a reduce task's files in task order gives exactly its shard of all pairs |
| MrPipeline.ShardValues | src/mapreduce/common_map.go:58-77 | a shard has a key with all its values, or not at all |
| MrPipeline.MergedIsPartial | src/mapreduce/master_splitmerge.go:14-51 | after reading some outputs the merge table holds exactly the keys of those shards, fully reduced |
| MrNames.ReduceNameInjective | src/mapreduce/common.go:36-38 | two intermediate files of a job have one name only if map and reduce task are the same |
| MrNames.MergeNameInjective | src/mapreduce/common.go:41-43 | two reducer outputs of a job have one name only if the task is the same |
| MrNames.NamesSpelled | src/mapreduce/common.go:36-43 | how the files are named, the task numbers standing in decimal notation |
| MrNames.ItoaReads | src/mapreduce/common.go:36-43 | the digits written for a task number, read back, are that number |
| MrNames.NamesDistinct | src/mapreduce/common.go:36-43 | intermediate files, reducer outputs and the final output never collide |
| MrOrder.SortKeys | src/mapreduce/common_reduce.go:54-60 | the sorted keys are the one arrangement of the given keys in which each is a proper prefix of the later ones or smaller where they first differ |
| MrOrder.LexIsBelow | src/mapreduce/common_reduce.go:54-60 | the comparison puts a before b iff a is a proper prefix of b or has the smaller character where they first differ |
| MrOrder.OneArrangement | src/mapreduce/master_splitmerge.go:36-41 | a set of keys has only one strictly increasing arrangement |
| MrTasks.FileSystem.DoMap | src/mapreduce/common_map.go:58-77 | leaves each non-empty part in its own file, creates no file for an empty part and touches no other |
| MrTasks.MapRoutes | src/mapreduce/common_map.go:58-77 | after a map task the file of a reduce task holds exactly the emitted pairs whose hash selects it, or, if there are none, is as it was |
| MrTasks.FileSystem.DoReduce | src/mapreduce/common_reduce.go:28-77 | writes the sorted reduction of what the task's files hold, a missing file counting as empty |
| MrTasks.FileSystem.Merge | src/mapreduce/master_splitmerge.go:14-51 | writes the sorted union of the reducer outputs, and fails exactly when one is missing |
| MrTasks.FileSystem.Sequential | src/mapreduce/master.go:55-76 | succeeds over any files and leaves the final output they determine, which is the meaning of the job when there are no leftovers |
| MrTasks.MapLands | src/mapreduce/worker.go:26-39 | a map attempt, first or repeated, completes its task and spoils no other task's files, over any earlier files |
| MrTasks.ReduceLands | src/mapreduce/worker.go:26-39 | once all maps are done a reduce attempt, first or repeated, leaves the right output and spoils nothing |
| MrTasks.SequentialLeaves | src/mapreduce/master.go:55-118 | over any files, all reducer outputs are there for merge and the result is the final output |
| MrTasks.CleanOutput | src/mapreduce/common_map.go:58-77 | without leftovers the final output is the meaning of the job |
| MrLeftovers.WinningIsHarmless | src/mapreduce/common_reduce.go:28-52 | the values of a key that reach the output are those emitted, in order, iff the leftover files are harmless for the key |
| MrLeftovers.HarmlessOutput | src/mapreduce/common_reduce.go:28-52 | over files with harmless leftovers the output is the meaning of the job |
| MrLeftovers.HarmfulShows | src/mapreduce/common_reduce.go:28-52 | over any other files there is a reduce function for which it is not |
| MrLeftovers.StrangeKeyShows | src/mapreduce/common_reduce.go:28-52 | a leftover key that the job never emits makes the output differ from its meaning for the job's own reduce function |
| MrLeftovers.CleanIsHarmless | src/mapreduce/common_map.go:58-77 | files without leftovers have no harmful ones |
| MrLeftovers.TableIsWinning | src/mapreduce/master_splitmerge.go:14-51 | over any files, each key ends with the reduction of what the last reduce task that meets it reads |
| MrSchedule.DistributedEqualsSequential | src/mapreduce/schedule.go:21-59 | for every arrival, failure, lost answer and late or repeated attempt, and over any files, a finished distributed job has the final output a sequential run leaves, and keeps it; without leftovers it is the meaning of the job |
| MrSchedule.ReduceWaitsForMaps | src/mapreduce/master.go:110-111 | no reduce task is handed out before every map task succeeded and all its output is in place |
| MrSchedule.WorkersConserved | src/mapreduce/schedule.go:34-52 | a registration is held by a task iff that task is calling it, so it is in one pair of hands at most |
| MrSchedule.SignalsMeanAllDone | src/mapreduce/schedule.go:54-59 | the barrier has all its signals iff every task of the phase succeeded |
| MrSchedule.CallsAreBounded | src/mapreduce/schedule.go:34-52 | DoTask calls never exceed tasks plus registrations |
| MrSchedule.EveryRunCanFinish | src/mapreduce/master.go:100-118 | whatever has failed, got lost or is still out, every run of every job has a continuation that finishes |
| MrSchedule.StepBooked | src/mapreduce/master.go:32-41 | every step keeps each call accounted for as success, dropped worker or still out |
| MrSchedule.StepFiles | src/mapreduce/worker.go:26-39 | every step keeps the files of settled tasks right |
| GossipStore.Store.Add | project/gossip/pkg/gossip/store.go:42-55 | files an unseen rumor under its ID and queues it once; a seen ID changes nothing |
| GossipStore.Store.ReadyToPush | project/gossip/pkg/gossip/store.go:59-72 | returns the queued rumors in order and empties the queue |
| GossipStore.Store.Digest | project/gossip/pkg/gossip/store.go:76-85 | lists exactly the seen IDs, each once |
| GossipStore.Store.LookupMany | project/gossip/pkg/gossip/store.go:125-135 | returns the known rumors among the asked IDs in order |
| GossipStore.FoundAll | project/gossip/pkg/gossip/store.go:125-135 | the rumors found are those at exactly the asked places whose ID is known, in the order asked |
| GossipNode.Diff | project/gossip/pkg/gossip/node.go:241-253 | the elements of the first list that the second lacks |
| GossipNode.WithoutKeeps | project/gossip/pkg/gossip/node.go:241-253 | they are those at exactly the places whose element the second lacks, in order |
| GossipNode.Node.Inject | project/gossip/pkg/gossip/node.go:37-56 | an unseen ID is stored and queued as a rumor of this origin, with the TTL given if positive and the configured one otherwise; a seen one changes nothing |
| GossipNode.Node.PickPeers | project/gossip/pkg/gossip/node.go:121-136 | a choice of k of the peers, each at most as often as it is listed, or all of them if there are fewer |
| GossipNode.PickedIsChoice | project/gossip/pkg/gossip/node.go:121-136 | the same for every permutation |
| GossipNode.AnyChoice | project/gossip/pkg/gossip/node.go:121-136 | every choice of fewer than all, in every order, comes up for some permutation |
| GossipNode.PushTaken | project/gossip/pkg/gossip/node.go:156-163 | a push leaves of each ID the copy already known, or else its first copy with positive TTL, one less, queued for its push |
| GossipNode.FetchTaken | project/gossip/pkg/gossip/node.go:227-235 | a fetch reply does the same at no cost of TTL |
| GossipNode.Node.TickOnce | project/gossip/pkg/gossip/node.go:92-119 | one push of the whole queue to each picked peer, and the queue is empty |
| GossipNode.Node.Handle | project/gossip/pkg/gossip/node.go:142-174 | dispatches each message kind to its effect on the store and its replies |
| GossipNode.Node.SendDigest | project/gossip/pkg/gossip/node.go:195-207 | one digest of exactly the seen IDs to one peer, and none iff there is no peer or nothing seen |
| GossipNode.AnyPeerAsked | project/gossip/pkg/gossip/node.go:195-207 | the digest goes to every peer for some permutation |
| GossipNode.Node.HandleDigest | project/gossip/pkg/gossip/node.go:209-216 | answers with exactly the IDs this node has and the other lacks, and not at all iff there are none |
| Gossip.OnlyPushSpreads | project/gossip/pkg/gossip/node.go:195-235 | in every run, no step of the digest exchange changes any store |
| Gossip.NeverStuck | project/gossip/pkg/gossip/store.go:59-72 | every enabled action of every reachable cluster extends the run: no queued ID is ever missing from the store |
| GossipWitness.ExchangeRepairsNothing | project/gossip/pkg/gossip/node.go:209-225 | a run in which the exchange started by a digest is taken to its end and both nodes still lack what the other has |
| GossipWitness.ReplyReachesSender | project/gossip/pkg/gossip/node.go:218-235 | a run in which a fetch reply is taken, by a node that has the rumor already |
| GossipReach.ReachExact | project/gossip/pkg/gossip/node.go:92-163 | a node can learn of an injected rumor iff a chain of peers with fanout leads to it that is no longer than the rumor's TTL |
| GossipReach.KnownWithin | project/gossip/pkg/gossip/node.go:92-163 | in every run, whatever a node knows was injected no further away than its TTL |
| GossipReach.CanReach | project/gossip/pkg/gossip/node.go:92-163 | along any such chain a run takes the rumor there |
| GossipReach.InjectionsMade | project/gossip/pkg/gossip/node.go:37-56 | every rumor stems from a call of Inject, with the TTL asked for if positive and the node's own otherwise |
| Gossip.TickAnswer | project/gossip/pkg/gossip/node.go:92-119 | a tick empties the queue and puts on the wire one push of all of it, in order, to each of its targets, a choice of fanout many peers |
| Gossip.TargetsDistinct | project/gossip/pkg/gossip/node.go:121-136 | every tick of a node whose peers are distinct has pairwise distinct targets among them, as many as its fanout allows |
| Gossip.PushBudget | project/gossip/pkg/gossip/node.go:92-136 | push messages carrying an ID never exceed nodes times fanout, neither as sent nor as distinct messages on the wire |
| Gossip.StepSent | project/gossip/pkg/gossip/node.go:112-118 | every step keeps the pushes on the wire equal to the messages of the recorded ticks |
| Gossip.PushedOnce | project/gossip/pkg/gossip/store.go:59-72 | two ticks that push the same ID are ticks of different nodes |
| Gossip.TtlConserved | project/gossip/pkg/gossip/node.go:156-163 | stored TTL plus push hops is the TTL of an injection that happened, with body, origin and time unchanged and each hop a push that was sent |
| Gossip.TrailsAreSimple | project/gossip/pkg/gossip/store.go:42-55 | the chain of pushes behind a stored copy visits no node twice |
| Gossip.StepWire | project/gossip/pkg/gossip/node.go:209-225 | every step keeps pushes equal to their sender's copies, Missing lists known to their sender and fetch replies known to their receiver |

## Left out

- Timers, randomised timeouts and any liveness or probability claim: elections and heartbeats are steps that may happen at any time.
- Go scheduling and data races: each region under the mutex is one step, and so is Make, although it starts the applier before it reads the Persister.
- The network's enabled flags, connect and disconnect: the model allows every loss they cause.
- Delivering one Raft request twice: labrpc runs a handler at most once per call, and so does the model.
- Snapshots in the Persister, which Raft here never writes.
- gob, JSON and reflection: codecs are assumed to round-trip.
- ihash: any function from keys to numbers.
- File-system errors and two writers interleaving inside one file.
- net/rpc and UDP plumbing, HTTP endpoints, shutdown and statistics.
- MrSchedule: the schedule loops are modelled as steps of a machine over values, so the channel's order of delivery is not captured; any idle worker may be taken.
- MrTasks.FileSystem.Sequential: asks for at least one reduce task, since the source takes keys modulo their number.
- The text form of the final output (one "key: value" line each): the model keeps the list of pairs.
- A negative gossip fanout, on which making the slice panics, and gossip nodes that restart and forget what they have seen.
- Gossip addresses and node IDs are one name, since a node sends from the socket it listens on.
- The word-count and inverted-index programs, which only supply a map and a reduce function.
- Logging and the tester's helpers.
