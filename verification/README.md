# DIDEm, verified

A Dafny model of the blockchain core of DIDEm: the consensus rounds, the Merkle transaction set and
its reader, the transaction pool, block making, the two stores with their indexes, the block validator
and the parent walk. `dafny verify dfyconfig.toml` checks everything.

## How it is laid out

- `Bytes`, `Objects`: byte strings and their order; blocks, transactions, sets and the codec.
- `TxSets`, `Chain`: the Merkle tree as a reference, the builder, the reader's specification.
- `Indexes`, `MemStore`, `Validator`: indexes as folds of a history, the in-memory store, the validator.
- `Metadata`: the persistent store's key-value table.
- `MemPool`, `MakeBlock`: the heap, and the way from the pool to a stored block.
- `ChainWalk`: from a tip back to the last applied block.
- `Rounds`: one node's rounds as a state machine on values. `RoundSafety`, `RoundHistory`, `RoundRecords`
  and `RoundEpochs` hold the invariants, `RoundTheorems` the results for every run, `RoundNumbers` what becomes
  of the round number, `Guarantees` what each handler can bring about, `Progress` what nodes achieve and what
  they do when nothing is heard, `ConsensusNode` the engine as an object whose handlers refine the machine.
- `Quorums`, `Network`, `Agreement`: vote counting, many nodes of which some are faulty, and what follows.
- `Vetting`: the events that stand behind everything a node votes for, locks or commits.
- `Witnesses`, `Disagreement`: runs that show where stronger claims fail, of one node and of a network.

## What is assumed

- A handler is one atomic step. A timer fires only while it is armed.
- Hashing is injective and never yields the undefined CID; decoding undoes encoding (`Objects.Sound`).
- Printing a CID is injective and never blank, and parsing undoes it (`Rounds.SoundText`). Other texts may
  parse to the same CID, as they do for CIDs written in another base.
- A message taken in as coming from a correct node was sent by it, because messages are signed.
- Go's map iteration visits keys in an arbitrary order, reported as a ghost result where it matters.
- The node list, the verdict on a proposed block, the block that was built and the success of a
  publication come with the event that needs them.

## Results worth knowing

- A defined block is committed only on more than f prevotes and more than f precommits, but f is counted
  only on the proposer's branch of `startRound`. A node that has never led has f = 0 and commits any valid
  block on one vote of each kind (`Progress.OneVoteCommits`). Exactly when commits of correct nodes at one
  height and round can differ, whatever f each side demands, is `Disagreement.AgreementIff`: both directions
  are about network runs.
- The delayed block broadcast reads the state of the moment. Left over from an earlier epoch it announces
  a block without a single precommit (`Witnesses.LeftoverBroadcast`). In its own epoch it announces the
  undefined CID if the prevote timer fired before a lock (`Witnesses.UndefinedBroadcast`), and the leader
  then commits that. `RoundTheorems.BroadcastBacked` says exactly when the announcement has a quorum,
  `RoundTheorems.UndefinedCommits` exactly when a commit is of no block.
- `onNewRound` takes the announced height unchecked. `RoundTheorems.HeightsTogether` says exactly in which
  runs the two heights stay together.
- The Merkle root does not bind the multiset of transactions: an odd level repeats its last node
  (`TxSets.OddLevelCollision`). `TxSets.SameRootIff` gives the exact equivalence, and without repeated
  transactions the root does bind the set (`Chain.RootBindsSet`).
- The validator records success on the test copy, so validating and accepting alone never indexes anything
  (`Validator.AcceptingAloneIndexesNothing`).
- A DID update or revocation without an indexed document passes, because the error wrapped is nil; together
  with map iteration this makes the verdict on a block depend on the order (`Validator.OrderMatters`).
  `Validator.AcceptedInEveryOrderIff` says exactly which blocks are accepted in every order, and
  `Validator.SameIndexIff` exactly which of them leave the same index.
- `ApplyFromTip` compares no heights. Its walk ends exactly if the parents do not run in a circle
  (`ChainWalk.EndlessIff`).
- A block message delivered again, at any time before the next reset, overwrites the parent with the block
  itself and changes nothing else of the committed state (`RoundTheorems.Redelivery`).
- The comment on `GetTx` in `pkg/did/consensus/mempool.go` speaks of the most recent transaction; the code
  gives the oldest, and the model follows the code.

## Model

| member | source | states |
|---|---|---|
| `RoundTheorems.CommitsBacked` | pkg/did/consensus/consensus.go:428-676 | in every run, a commit of a defined block rests on more than f prevotes and more than f precommits of distinct senders other than the proposer, each for exactly its height, round and block |
| `RoundTheorems.TipIsLastCommit` | pkg/did/consensus/consensus.go:651-676 | in every run the committed height and block are those of the last recorded commit, and nothing else moves them |
| `Vetting.NothingUnvetted` | pkg/did/consensus/consensus.go:260-590 | in every run since a node is set up, it prevotes only blocks that its own validator accepted in some event of the run; it precommits, locks and commits only such blocks and blocks it built in some event, although the block survives across rounds |
| `Vetting.VettedIff` | pkg/did/consensus/consensus.go:493-560 | over any run a defined block comes to count as validated exactly if some event was a proposal from the then proposer, in the propose step, that the validator accepted and whose text parses to it; as built exactly if a round was started as leader, without a block, in which it was built and stored |
| `Vetting.InvalidProposal` | pkg/did/consensus/consensus.go:493-560 | a proposal that the validator refuses: nothing goes out but a prevote for the undefined CID, nothing else counts as validated, and the block proposed becomes undefined or stays |
| `RoundNumbers.RoundStep` | pkg/did/consensus/consensus.go:272-278 | a tick starts with round 1, an accepted announcement with the round announced, an enabled precommit timeout adds one modulo 2^32, and no other event changes the round |
| `RoundNumbers.TermRun` | pkg/did/consensus/consensus.go:260-339 | since the last tick or accepted announcement the round number, modulo 2^32, and the epoch have grown by exactly the number of precommit timeouts |
| `RoundNumbers.EpochsOfTerm` | pkg/did/consensus/consensus.go:260-339 | until the counter wraps, two epochs without a tick or accepted announcement between them have different rounds |
| `RoundNumbers.LocksOfTerm` | pkg/did/consensus/consensus.go:564-592 | in every run, until the counter wraps, two locks without a tick or accepted announcement between them have different rounds |
| `RoundTheorems.VotesOncePerEpoch` | pkg/did/consensus/consensus.go:493-723 | between two resets at most one prevote and one precommit are sent, for the same height and round, and if neither is blank for the same block |
| `RoundTheorems.RecordsOncePerEpoch` | pkg/did/consensus/consensus.go:575-629 | between two resets at most one lock is taken and at most one block broadcast is scheduled |
| `RoundTheorems.CommittingIsNotAbandoned` | pkg/did/consensus/consensus.go:597-731 | in every run, a precommit timeout that reaches a node in the block step changes nothing |
| `RoundTheorems.HeightsTogether` | pkg/did/consensus/consensus.go:260-480 | in every run the proposal height is the committed height or one more at every moment, exactly if the first height fits 64 bits, every announcement acted upon names the committed height or the next, and the height fits whenever the node opens a round itself |
| `RoundTheorems.HeightsRise` | pkg/did/consensus/consensus.go:260-676 | under that condition, from any such state, the committed height never falls, rises by at most one within an epoch, and over a run by at most the number of resets plus one |
| `RoundTheorems.CommitsOfEpoch` | pkg/did/consensus/consensus.go:564-676 | in every run, all commits recorded between two resets have the same proposer, height, round and block, whatever votes and timeouts lie between them |
| `RoundTheorems.UndefinedCommits` | pkg/did/consensus/consensus.go:651-731 | in every run a commit is of the undefined CID exactly if no defined block was locked in its epoch, and even then it has more than f precommits |
| `RoundTheorems.Redelivery` | pkg/did/consensus/consensus.go:651-676 | in every run, once an epoch has committed, no event before the next reset moves the committed height or block; a block message delivered again, however late, only overwrites the parent with the block itself |
| `RoundTheorems.BroadcastBacked` | pkg/did/consensus/consensus.go:608-624 | in every run, the broadcast that fires announces what is locked at that moment, and more than f precommits carry exactly the announced height, round and CID exactly if the block step was entered in this epoch and the locked value and round are those being voted on |
| `RoundTheorems.DefinedBroadcastBacked` | pkg/did/consensus/consensus.go:608-624 | the announcement of a defined block is backed exactly if the block step was entered in this epoch |
| `RoundTheorems.VotesDemanded` | pkg/did/consensus/consensus.go:315 | in every run the votes demanded, and those every commit was made on, are none or an odd number |
| `RoundTheorems.InvRun` | pkg/did/consensus/consensus.go:254-747 | the invariant of votes, steps, locks, messages and commits is kept by every sequence of events |
| `RoundSafety.RoundInvNext` | pkg/did/consensus/consensus.go:254-747 | every step keeps: recorded votes match the current height, round and block; no votes before the proposal step is left; a lock has its quorum; the block step has its precommits |
| `RoundHistory.LogInvNext` | pkg/did/consensus/consensus.go:493-787 | every step keeps: one vote of a kind per epoch, all votes of an epoch agreeing |
| `RoundRecords.RecordInvNext` | pkg/did/consensus/consensus.go:254-747 | every step keeps: locks justified and one per epoch, broadcasts naming only what was locked in their epoch, commits justified, everything vetted |
| `RoundEpochs.EpochInvNext` | pkg/did/consensus/consensus.go:254-747 | every step keeps: what the current epoch locked and committed is the current lock, the committed state shows it, and commits of past epochs agree with each other and with the locks of their epoch |
| `ConsensusNode.Consensus.Handle` | pkg/did/consensus/consensus.go:190-252 | for every event the object takes exactly the machine's step, keeps the invariant, and does only what is guaranteed for that kind of event |
| `Guarantees.NextGuarantee` | pkg/did/consensus/consensus.go:190-252 | all guarantees by kind of event; whatever the event, the committed state moves only with a commit that has its quorums, and in one epoch there is only one value to commit |
| `Guarantees.ReceiveGuarantee` | pkg/did/consensus/consensus.go:404-417 | what any message can bring about: an announcement from the proposer leaves no vote, lock or once flag behind and sets the height and round announced, one from anybody else changes nothing, a block message changes neither votes nor locks nor what was said |
| `Guarantees.ProposalGuarantee` | pkg/did/consensus/consensus.go:493-560 | a proposal commits and locks nothing; at most one prevote goes out, the first of its epoch: for no block, or, only if the validator accepts it, for the block its text denotes, which is then the proposed one; nothing else counts as validated |
| `Guarantees.VoteGuarantee` | pkg/did/consensus/consensus.go:428-456 | a vote commits nothing; a lock is taken only on a quorum, and the block step entered only on more than f precommits for exactly the height, round and block being voted on |
| `Guarantees.PreVoteGuarantee` | pkg/did/consensus/consensus.go:564-592 | a lock only on more than f prevotes for exactly the locked block, none of them the proposer's, and only one in an epoch; with it goes at most the precommit for it, and nothing else is sent |
| `Guarantees.PreCommitGuarantee` | pkg/did/consensus/consensus.go:597-630 | precommits lock, commit and send nothing, and complete only on a matching quorum |
| `Guarantees.BlockGuarantee` | pkg/did/consensus/consensus.go:651-676 | a block message moves the committed state only with a commit that has more than f precommits, for a defined block both quorums, a vetted block, and the same value as every earlier commit of the epoch |
| `Guarantees.BroadcastGuarantee` | pkg/did/consensus/consensus.go:614-624 | only the announcement is sent, a defined block announced was locked in this very epoch, and the committed state moves only on a quorum |
| `Guarantees.ProposeTimeoutGuarantee` | pkg/did/consensus/consensus.go:680-699 | commits and locks nothing, and sends at most a blank prevote, only if none was sent in this epoch |
| `Guarantees.PrevoteTimeoutGuarantee` | pkg/did/consensus/consensus.go:703-723 | commits and locks nothing, and sends at most a blank precommit, only if none was sent in this epoch |
| `ConsensusNode.Consensus.StartRound` | pkg/did/consensus/consensus.go:260-339 | the new state of a round start, for proposer and others, with each early return; a restart goes one round further modulo 2^32, a fresh start begins with round 1, and the height is one above the committed one |
| `ConsensusNode.Consensus.ProposeBlock` | pkg/did/consensus/consensus.go:303-338 | f from the other nodes, a block unless there is one, the proposal sent, each failure ending there |
| `Quorums.RemoveSelf` | pkg/did/consensus/consensus.go:303-313 | the loop leaves exactly the other nodes, without duplicates, in the shortened list |
| `Quorums.SharedVotersIff` | pkg/did/consensus/consensus.go:575-608 | attainable vote sets larger than fa and fb always share more than d of the voters exactly if fa + fb + 2 exceeds their number by more than d |
| `Quorums.QuorumsShare` | pkg/did/consensus/consensus.go:315 | two quorums of m nodes share at least floor(m/3) + 2 voters, and for m = 2 modulo 3 no more can be promised |
| `Quorums.QuorumAttainable` | pkg/did/consensus/consensus.go:315 | a quorum can be reached exactly if m is not 0, 1 or 3 |
| `Network.NetInvRun` | pkg/did/consensus/consensus.go:341-417 | in every network run each correct node keeps its invariant, every recorded vote of a correct node was sent by it, and every commit under a correct proposer goes back to an epoch of that proposer in which it locked the block and, unless the commit is its own, sent the block message |
| `Agreement.CommitValidated` | pkg/did/consensus/consensus.go:493-676 | a defined block committed under a correct proposer was locked there, for the same round, on more than f prevotes; for every correct one of these voters some step of the run was a proposal of that block which its own validator accepted, and there are more such nodes than f less the faulty voters |
| `Vetting.AcceptedIff` | pkg/did/consensus/consensus.go:493-560 | in every network run a node counts a defined block as validated exactly if in some earlier step its own validator accepted a proposal of it |
| `Agreement.CorrectProposerAgreement` | pkg/did/consensus/consensus.go:564-676 | each commit under a correct proposer goes back to an epoch of that proposer in which it locked the block and, unless the commit is its own, sent the block message for it; two commits that go back to one epoch have the same block and round, whoever made them |
| `Agreement.QuorumAgreement` | pkg/did/consensus/consensus.go:564-676 | whoever proposes, two correct commits at one height and round are equal if fc + fd + 2 exceeds the voters by more than the double voters: the faulty ones and the correct ones put back into that height and round; `Disagreement.AgreementIff` has the converse |
| `Agreement.FullQuorumAgreement` | pkg/did/consensus/consensus.go:303-315 | with the computed quorum on both sides up to floor(m/3) + 1 double voters are tolerated |
| `Disagreement.AgreementIff` | pkg/did/consensus/consensus.go:303-315 | no network run has two correct nodes that demand fa and fb and commit different blocks at one height and round, on votes from v with at most d double voters, exactly if fa + fb + 2 > number of voters + d; for all fa and fb that a node can demand (`RoundTheorems.VotesDemanded`) and that v can reach |
| `Disagreement.Disagree` | pkg/did/consensus/consensus.go:286-315 | whenever fa + fb + 2 is at most the number of voters plus d a network run leads to such a disagreement, with no more than d double voters |
| `Disagreement.FreshNodesDisagree` | pkg/did/consensus/consensus.go:286-315 | a network run in which two correct nodes that demand no votes, as before they have led, commit different blocks at one height and round on the votes of one double voter |
| `Progress.VotesCommit` | pkg/did/consensus/consensus.go:428-676 | a node that does not lead takes whatever height and round the proposer announces, and commits any valid block there on f + 1 prevotes and f + 1 precommits of any distinct senders but the proposer, for every f; its prevote and its precommit are all it sends, and no timer is left running |
| `Progress.OneVoteCommits` | pkg/did/consensus/consensus.go:286-315 | a node with f = 0 commits any valid block, at any height and round, on one prevote and one precommit |
| `Progress.LeaderCommits` | pkg/did/consensus/consensus.go:260-676 | a node that can sign, made proposer, builds a block, and on f + 1 votes of each kind, f from the other nodes of the list, announces and commits it at the next height; the round, the proposal, its precommit and the block are all it sends |
| `Progress.LeadingCommits` | pkg/did/consensus/consensus.go:564-676 | the same from the prevote step of any later round |
| `Progress.LeaderRetries` | pkg/did/consensus/consensus.go:303-338 | a leader that gets no votes proposes the same block again in the next round, whatever it could build by then, with f counted anew |
| `Progress.LeadFails` | pkg/did/consensus/consensus.go:260-339 | for a node that can sign, a failure at the start of a led round ends it there: without the announcement nothing has changed, without node list or block nothing is proposed, and unless the proposal got out the step stays |
| `Progress.SilentRounds` | pkg/did/consensus/consensus.go:680-731 | a follower that hears nothing waits, after k silent rounds, in the k-th round after, with its committed state unchanged and two blank votes sent per round; until the counter wraps |
| `Progress.OneProposeTimeout` | pkg/did/consensus/consensus.go:680-699 | the exact effect: outside the propose step, with the height not committed, none; else on to prevotes, and unless a prevote was sent the blank one goes out and the prevote timer starts |
| `Progress.OnePrevoteTimeout` | pkg/did/consensus/consensus.go:703-723 | the same for the prevote step, the blank precommit and the precommit timer |
| `Progress.OnePrecommitTimeout` | pkg/did/consensus/consensus.go:272-292 | a follower starts over in the next round; without a block it waits for a proposal again, with one, or when the counter has wrapped, it goes to prevotes |
| `Progress.UnsentPrevote` | pkg/did/consensus/consensus.go:513-531 | a prevote that cannot be published is spent: the node stays in the propose step with its propose timer stopped, its prevote timer as it was, and no vote has any effect on it |
| `Progress.Unarmed` | pkg/did/consensus/consensus.go:190-252 | a timeout whose timer is not armed changes nothing, and neither does a broadcast when none is waiting |
| `Progress.UnsentBroadcast` | pkg/did/consensus/consensus.go:614-624 | a block broadcast that cannot be sent is not tried again and the leader does not commit |
| `Witnesses.LeftoverBroadcast` | pkg/did/consensus/consensus.go:614-624 | for any node list: a leader that completes a round, is made leader again and locks the next block announces that block with no precommits when the broadcast left over fires |
| `Witnesses.UndefinedBroadcast` | pkg/did/consensus/consensus.go:597-723 | for any node list: a leader whose prevote timer fires first collects its precommits for c, then announces the undefined CID for round 0 and commits it without one prevote |
| `TxSets.BuildTreeShape` | pkg/storage/chain.go:120-162 | the tree has exactly the listed transactions, all at depth ceil(log2 n) |
| `TxSets.CeilLog2Exact` | pkg/storage/chain.go:135-160 | the depth is the least d with n at most 2 to the d |
| `TxSets.CidOfInjective` | pkg/storage/chain.go:142-154 | the address of a set binds the whole tree below it |
| `TxSets.SameRootIff` | pkg/storage/chain.go:135-162 | two lists have the same root exactly if they agree once odd levels are completed, and then have the same transactions |
| `TxSets.LeavesInOrder` | pkg/storage/chain.go:135-162 | reading the stored children left to right from the root gives the list itself, its odd levels completed |
| `TxSets.OddLevelCollision` | pkg/storage/chain.go:136-138 | three transactions and the same with the last repeated share a root |
| `TxSets.RoundTrip` | pkg/storage/memstore.go:153-197 | for up to 1000 transactions, reading a stored tree by its root succeeds exactly if every listed transaction can be read, and gives exactly those |
| `TxSets.ReadExtends` | pkg/storage/memstore.go:153-197 | what can be read from a root stays the same when more is stored |
| `Chain.NewTxSet` | pkg/storage/chain.go:108-163 | the list is sorted in place, too many are refused with nothing stored, else the whole tree of the sorted list is stored and its root returned, with the exact number of writes |
| `Chain.StoreTree` | pkg/storage/chain.go:120-162 | the level loop stores the reference tree and returns its address, with the exact number of writes |
| `Chain.RootIgnoresOrder` | pkg/storage/chain.go:100-112 | the root depends only on the multiset of CIDs |
| `Chain.RootBindsSet` | pkg/storage/chain.go:108-163 | without repeated CIDs equal roots mean equal sets and conversely |
| `Chain.BuildWrites` | pkg/storage/chain.go:122-157 | fewer than 2n + ceil(log2 n) sets are written |
| `Bytes.SortedUnique` | pkg/storage/chain.go:100-104 | a list sorted by byte order is determined by its multiset |
| `MemStores.AllTxs` | pkg/storage/memstore.go:153-197 | on any store, cycles included, the loop ends; it succeeds exactly if everything reachable is stored and at most 1000 transactions occur, and returns exactly the reachable ones |
| `MemStores.MemStore.PutObject` | pkg/storage/memstore.go:94-106 | an object goes under its hash and no stored object is lost |
| `MemStores.MemStore.StartTest` | pkg/storage/memstore.go:52-75 | a fresh store with equal objects, indexes and marks, and no last block |
| `MemStores.MemStore.MarkBlock` | pkg/storage/memstore.go:199-229 | the mark is set; a block marked Validated before and Accepted now is indexed, if it can be read, so that all its transactions are under it and DIDs and nodes are those of the last deciding one in the order visited; if it cannot be read that is reported and it stays marked; in all other cases the indexes stay |
| `MemStores.MarkMeaning` | pkg/storage/memstore.go:199-240 | the same about the specification: every lookup after any marking, by the mark before and the mark now |
| `MemStores.ValidatedThenAccepted` | pkg/storage/memstore.go:199-240 | marking any readable block Validated and then Accepted succeeds, and only the second indexes its transactions, under the block |
| `MemStores.MemStore.ApplyTxs` | pkg/storage/memstore.go:231-240 | the indexes become the fold of the block's transactions in the order visited |
| `MemStores.MemStore.ApplyOne` | pkg/storage/memstore.go:242-267 | afterwards a DID looks up this transaction exactly if the transaction is about it, a node is added or gone exactly if the transaction adds or revokes it, and every other lookup is as before |
| `MemStores.MemStore.Nodes` | pkg/storage/memstore.go:352-367 | exactly the indexed node ids, strictly sorted |
| `MemStores.MarkHistory` | pkg/storage/memstore.go:94-240 | after any successful puts and marks, in any order, the indexes are the fold of the transactions of exactly the blocks marked Accepted when their last mark was Validated, in call order, and objects have only been added |
| `MemStores.CallsKept` | pkg/storage/memstore.go:94-240 | whatever successful calls follow, an object that was put is there, and the mark of a block is that of the last call on it |
| `MemStores.ReacceptIndexesNothing` | pkg/storage/memstore.go:199-212 | accepting an accepted block again changes nothing |
| `MemStores.SecondEdgeNeedsValidation` | pkg/storage/memstore.go:199-212 | without a call that marks it Validated a block is indexed at most once, and only if it was Validated before |
| `Indexes.FoldMeaning` | pkg/storage/memstore.go:231-267 | every index answers as the last deciding transaction of the history says |
| `Indexes.OrderIrrelevant` | pkg/storage/memstore.go:231-240 | transactions on pairwise different nodes and DIDs leave the same indexes in every order |
| `Validator.TxValidator.IsBlockValid` | pkg/storage/validator.go:75-123 | on every exit the live store differs only in the mark of the block; a block that cannot be read is refused; any other is accepted exactly if each transaction is admissible where it is visited (see `Validator.AcceptedExactly`) |
| `Validator.TxValidator.TestApply` | pkg/storage/validator.go:98-116 | the loop accepts exactly if each transaction is admissible where it is visited, spelled out without the verdict function |
| `Validator.AcceptedExactly` | pkg/storage/validator.go:98-232 | an order is accepted exactly if at each position version, timestamp, sender and data are there; the transaction is a VC or a DID Add, Update or Revoke with a well-formed document; an Add is on a DID not taken there and signed by its own document; an Update or Revoke is signed by the document found there, if one decodes; and for a new block it is in no stored block |
| `Validator.AcceptedAdds` | pkg/storage/validator.go:98-232 | in every order an accepted block has no node transaction and, if new, none already in a block; an Add is only for a DID not taken before and not touched earlier in the block |
| `Validator.AcceptedIffAllPass` | pkg/storage/validator.go:98-116 | with pairwise different DIDs and nodes a block is accepted exactly if each transaction passes against the index as it was |
| `Validator.OrderDoesNotMatter` | pkg/storage/validator.go:98-116 | with pairwise different DIDs and nodes verdict and test index are the same in all orders, whether the block is accepted or refused |
| `Validator.AcceptedInEveryOrderIff` | pkg/storage/validator.go:98-232 | a block is accepted in every visiting order exactly if each transaction passes against the index as it was and also right after any other transaction of the block on its DID |
| `Validator.SameIndexIff` | pkg/storage/validator.go:98-116 | a block accepted in every order leaves the same test index in every order exactly if no two of its transactions are on one DID |
| `Validator.OrderMatters` | pkg/storage/validator.go:98-226 | no block with an Add and any other stored transaction on its DID is accepted in every order |
| `Validator.BothOrders` | pkg/storage/validator.go:211-226 | for an Add and an Update or Revoke of one DID that both pass alone: with the Add second the pair is refused, with the Add first it is accepted exactly if the other is signed by the added document or that document cannot be decoded |
| `Validator.AcceptingAloneIndexesNothing` | pkg/storage/validator.go:85-120 | calls that never mark the live store Validated never change its indexes |
| `Metadata.TypedKey` | internal/storage/ipfs.go:804-822 | the prefix byte and the parts with separators between them |
| `Metadata.SingleKeysDiffer` | internal/storage/ipfs.go:804-822 | one-part keys determine table and part |
| `Metadata.TwoPartKeys` | internal/storage/ipfs.go:804-822 | two-part keys whose second part has no separator determine table and both parts, whatever separators the first has |
| `Metadata.HistoryKept` | internal/storage/ipfs.go:510-534 | every DID transaction indexed is listed in the history table of its DID, whatever is indexed after it, if no transaction id has a separator |
| `Metadata.IndexedIff` | internal/storage/ipfs.go:458-540 | a history can be indexed exactly if all its transactions are supported |
| `Metadata.FollowsPut` | internal/storage/ipfs.go:431-534 | after indexing more transactions the table answers for every DID, every node and the block of every transaction as the longer history says |
| `Metadata.PutAllKeeps` | internal/storage/ipfs.go:490-534 | indexing keeps node entries pointing at stored Adds and DID entries at stored Adds or Updates |
| `Metadata.NodeIffListed` | internal/storage/ipfs.go:768-798 | under the table invariant, which every operation keeps, Node succeeds exactly for the ids that Nodes lists, with the data of that id, and never fails with an error |
| `Metadata.NodeFollowsHistory` | internal/storage/ipfs.go:768-798 | Node gives the data of the last Add of the history, its key included, and nothing if a Revoke came after it |
| `Metadata.LookupFollowsHistory` | internal/storage/ipfs.go:588-618 | LookupDID gives the document of the last Add or Update, and nothing after a Revoke |
| `Metadata.SameNodes` | internal/storage/ipfs.go:687-701 | after the same history both stores have the same nodes |
| `Metadata.SameBlocks` | internal/storage/ipfs.go:358-371 | after the same history both stores give every transaction the same block |
| `Metadata.SameProposer` | pkg/did/consensus/consensus.go:139-172 | both stores list the nodes identically, without duplicates, and pick the same proposer for every beacon value; each node is picked by exactly one of any |nodes| consecutive values |
| `Metadata.ProposerCycles` | pkg/did/consensus/consensus.go:150-152 | the beacon goes through the node list in order: q * |nodes| + j picks node j |
| `Metadata.PickedOnce` | pkg/did/consensus/consensus.go:150-152 | of any |nodes| consecutive beacon values exactly one picks a given node |
| `Metadata.IPFSStorage.PutObject` | internal/storage/ipfs.go:247-258 | an object goes under its hash, none is lost, and every node and DID lookup answers as before |
| `Metadata.IPFSStorage.Nodes` | internal/storage/ipfs.go:687-701 | the range scan lists exactly the nodes, strictly sorted |
| `Metadata.IPFSStorage.Node` | internal/storage/ipfs.go:768-798 | the answer that the indexed history gives, found exactly for listed ids |
| `Metadata.IPFSStorage.LookupDID` | internal/storage/ipfs.go:588-618 | the answer that the indexed history gives |
| `Metadata.IPFSStorage.MarkBlock` | internal/storage/ipfs.go:373-405 | the mark is always set; the block is indexed and made the latest at the edge only, completely or not at all |
| `Metadata.IPFSStorage.IndexBlock` | internal/storage/ipfs.go:409-456 | all or nothing, and it succeeds exactly if the block reads, pins and all its transactions are supported |
| `Metadata.IPFSStorage.FillBatch` | internal/storage/ipfs.go:431-447 | the batch holds all transactions in the order visited, or is dropped |
| `MemPools.TxMemPool.AddTx` | pkg/did/consensus/mempool.go:90-95 | exactly the new transaction is added and the heap is kept |
| `MemPools.TxMemPool.GetTx` | pkg/did/consensus/mempool.go:80-88 | exactly one transaction is removed, none in the pool is older; nothing from an empty pool |
| `MemPools.TxMemPool.Up` | pkg/did/consensus/mempool.go:41-67 | sift-up restores the heap and keeps the contents |
| `MemPools.TxMemPool.Down` | pkg/did/consensus/mempool.go:41-78 | sift-down restores the heap on the first n elements and keeps the contents |
| `MemPools.TxMemPool.TakeOldest` | pkg/did/consensus/blocks.go:42-50 | the n oldest transactions in timestamp order, none newer than any left |
| `MemPools.RootIsOldest` | pkg/did/consensus/mempool.go:48-53 | the root of a heap is the oldest transaction |
| `MemPools.DrainSorts` | pkg/did/consensus/mempool.go:80-88 | taking as many transactions as the pool holds takes exactly the pool and leaves nothing; that they come out in timestamp order is part of what `TakeOldest` ensures |
| `MakeBlock.Make` | pkg/did/consensus/blocks.go:16-82 | exactly the min(1000, size) oldest transactions leave the pool into a stored block; no block from an empty pool |
| `MakeBlock.StoreTxs` | pkg/did/consensus/blocks.go:54-79 | transactions and the whole tree are stored, under the root of their sorted CIDs, and nothing stored before is lost |
| `MakeBlock.ReadBack` | pkg/did/consensus/blocks.go:69-79 | reading the block back succeeds exactly if every transaction decodes; transactions whose data is of their declared type all decode, and then exactly those are read |
| `MakeBlock.MadeBlockIndexed` | pkg/did/consensus/blocks.go:16-82 | a block made this way, stored and marked Validated and then Accepted, puts exactly the taken transactions, if well typed, under its CID in the block index and leaves all other entries |
| `ChainWalk.BlocksToApply` | pkg/storage/validator.go:26-56 | if the parents do not run in a circle the walk ends; it succeeds exactly if a stored chain leads from the last applied block to the tip, and gives it oldest first; where heights follow the rule it is as long as the height difference plus one |
| `ChainWalk.WalkBack` | pkg/storage/validator.go:41-51 | if the parents do not run in a circle the fetch loop ends at the last applied block, or fails only where no chain exists, whatever heights the blocks claim |
| `ChainWalk.EndlessIff` | pkg/storage/validator.go:41-51 | the walk from a tip can go on without end exactly if its parents run in a circle that does not hold the last applied block |
| `ChainWalk.HeightRuleNoCircle` | pkg/storage/chain.go:51-68 | where every stored block is one above its stored parent there is no such circle |
| `ChainWalk.Invert` | pkg/storage/validator.go:54-56 | the queue is reversed in place |
| `ChainWalk.BlockKeepsRule` | pkg/storage/chain.go:51-68 | storing a block that no stored block names as its parent keeps the height rule exactly if its parent is not stored or is one below it |
| `ChainWalk.NewBlockKeepsRule` | pkg/storage/chain.go:51-68 | storing a block with the height NewBlock gives it keeps the height rule, if no stored block names it as its parent yet |
| `ChainWalk.NewBlockHeights` | pkg/storage/chain.go:51-68 | along a chain of blocks with the heights NewBlock gives, from one without a parent on, the height of a block is its position |
| `ChainWalk.MadeBlockKeepsRule` | pkg/did/consensus/blocks.go:20-26 | a block made by the proposer keeps the height rule exactly if the committed block is not stored or is stored with the committed height |

## Left out

- Networking, streams, the randomness beacon client, pinning, signatures and serialisation: parameters or hypotheses, see above.
- Evidence messages and evidence tables: written but never read by any handler.
- Wall-clock durations, liveness beyond the runs of `Progress`, and races inside a handler (the five-second sleep in `startRound`).
- The calls into the store from `onBlock`: their errors are only logged and no round handler reads them back.
- The handlers of `ConsensusNode` below `Handle` have no rows: each equals the machine's function of the same step, and the rows of `Guarantees` say what that means.
- The once objects of `internal/utils/resync/resync.go`: modelled as the flags they hold, since handlers are atomic.
- The store's failure to write an object in `NewTxSet` and `makeBlock`: the in-memory store cannot fail there.
- `sort.Sort` and `sort.Strings`: modelled by their result, the sorted permutation.
- The bloom filter of a block, its nonce, creation time and signature.
- The validator over the persistent store: there `GetTxBlock` reports a different not-found error, and completing a test closes a batch that is not there.
- The loop of `ApplyFromTip` that validates and accepts the fetched blocks: each iteration is `IsBlockValid` and `MarkBlock`.
- HistoryKept: CIDs in keys are their bytes, where the original prints them; that the printed form has no separator is a hypothesis.
- Genesis, claims, DID history lookups, and the persistent store's test mode.
- Clearing the signature of the transaction under validation: the validator works on transactions decoded for the occasion, and no index keeps a signature.
- An empty list for `NewTxSet` and a store without a last applied block for `ApplyFromTip`: the original panics on both.
- Received transactions (`onTx`): they go to `AddTx`, and the pool ignores the time to live.
- BlocksToApply: says nothing about parents that run in a circle, because there the original loop does not end (`ChainWalk.EndlessIff`).
