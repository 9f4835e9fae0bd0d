# Shardlands in Dafny

Shardlands writes its own infrastructure: a Raft implementation, a lock-free queue, an LSM
storage engine, an event store, two coordination styles for trades between players, a lease
lock with fencing tokens, and an outbox that feeds read models. This project models that code
and proves what it is built for, for all inputs, all interleavings and all reachable states,
under the conditions listed below.

Code that works by changing things in place is modelled by classes and loops, and each method
is proved to compute a function of its arguments and the old state. What the system promises is
then proved about these functions, or about the steps of a state machine made of them.

## The parts

**Raft** (`RaftSpec`, `RaftNode`, `RaftSystem`, `RaftInvariant`, `RaftPreservation`, `RaftLead`,
`RaftAccept`, `RaftSafety`, `RaftTheorems`). `RaftSpec` has each handler as a function; `RaftNode`
has the node as the source writes it, every method proved against its function. `RaftSystem` puts
nodes on a network that may lose, delay, repeat and reorder messages, with crashes and restarts
from storage; the answer to a vote request counts at most once per election, as the source's
synchronous call has it. A recorded history of reigns, acknowledgements and ballots serves the
proofs only. `RaftTheorems` has Election Safety, Log Matching, Leader Completeness, State Machine
Safety and the applier's order.

**Ring buffer** (`RingBuffer`). One atomic operation is one step. First in first out, no value
lost, duplicated or read early, no data race, and what a refused push or an empty pop tells.

**Storage engine** (`Codec`, `Wal`, `Runs`, `SkipList`, `Merge`, `Bloom`, `SSTable`, `Disk`,
`Db`, `DbCrash`). From the bytes up: the directory holds the bytes of table files, manifest and
log, files grow byte by byte, and `Directory.past` keeps every state it was in. `DB.Model()` is
the finite map the engine stands for. Each operation states the new map and what its directory
states recover to: the map before, from one moment on the map after, and on return the map after.
`CrashAndOpen` puts it together: any sequence of operations, a crash at any byte, and the engine
opened again.

**Event store** (`Keys`, `EventStore`). The in-memory index always is the one the log determines,
and reads agree with a flat list.

**Inventories and trades** (`Inventory`, `InventoryStore`, `Trade`, `Market`, `MarketSafety`,
`MarketTheorems`, `Saga`, `SagaTheorems`, `SagaFaults`). `Market` lets any number of trades work
on shared inventories, every store read and append being a step of its own, any of which may
fail, with coordinators that may die and replay at any point: nothing is overspent, goods are
conserved, and reserved amounts are what they should be but for goods taken out twice.
`InventoryStore` has the inventories' reads and appends on the event store. `Saga` has
orchestrator and choreographer over the same steps: they agree, and replaying the log acts on
nothing twice. `SagaFaults` has the places where the sagas fail, and when.

**Lock and handoff** (`DLock`, `Handoff`). Tokens are log indexes and never fall, an unexpired
lease is not taken away, and a session never applies an older holder's order behind a newer one.
`ReplicasAgree` rests on Raft's State Machine Safety.

**Outbox** (`Outbox`) and **Raft store** (`RaftStore`). At-least-once publishing becomes
exactly-once effect; the mirror of the stored Raft state never differs from the disk.

## Where the code does not do what it says

Each of these is a theorem here, with the exact condition where there is one.

- Raft's append handler can lower the commit index; only the sender's habit of shipping its whole
  suffix prevents it (`HandlerLowersCommitWhen`, `HandlerCanLowerCommit`).
- The record encoder writes payloads the decoder refuses (`RoundTripExactlyWhenFits`,
  `SomeRecordIsRefused`).
- A torn tail of the log is skipped by the replay but not cut off, and what is appended behind it
  is lost in the next crash unless a flush comes first (`ReopenedLogIsDurableWhen`; `DB.Logged()`
  is the condition in the engine's contracts).
- The table builder's check for strictly ascending keys lets a row of empty keys at the start pass
  (`AcceptsWhen`). The engine itself refuses empty keys.
- A table lookup may decode 17 records, not at most 16: one of the next index slice, exactly when
  the key is above all of its own (`LookupIsShort`).
- A save of the Raft store that stops among its deletions leaves a log that cannot be loaded
  (`CutDeletesLeaveAGap`).
- Goods are taken out of a reserved amount twice if and only if their commit is stored behind
  their release, or the reverse (`TwiceOutWhen`); nothing else takes a reserved amount below zero
  (`NeverBelow`), and no run takes a spendable one there (`NoOverspend`). It needs a coordinator
  that starts over behind a release or a settle step that fails behind a commit
  (`CalmRunsKeepAll`):
  - A choreographer that dies between releasing and cancelling has left its trade waiting. An
    accept that the replay meets is acted on, and settles what has been released, if and only if
    the counterparty can be reserved by then and the settle step works (`ResumedAfterRelease`;
    `ReserveSucceedsWhen` says when it can). It may be the accept that was refused
    (`ReplayOverdraws`), or one stored before the proposal, when the handler that died was that
    of a reject (`RejectOverdraws`).
  - One that dies undoing a failed settle settles what it has released, if and only if the step
    works in the replay (`ResumedAfterFailedSettle`).
  - A settle step that fails behind a commit is undone by a release of what was committed, in
    both styles (`FailedSettleTakesTwice`); what was committed and not received is lost
    (`NothingInTransit`).
- With a reject stored before the proposal, an accept whose handler dies behind its reservation
  leaves the counterparty's goods reserved for good (`RejectStrands`).
- An accept, reject or expiry that is stored before its trade is proposed does nothing when it
  comes; if the log is replayed later it is acted on, if and only if the proposer's goods could be
  set aside (`EarlyInputActsOnReplay`); `ReplayAppendsNothing` therefore lets inputs follow their
  proposal.

## Conditions

- Ring buffer positions, Raft terms and indexes, and event numbers are mathematical integers.
- A bloom filter is built for array sizes whose low 32 bits are not all zero; for others the
  division in the source fails. Tables are smaller than 2^63 bytes, and records written to log
  and tables have payloads of at most 2^28 bytes.
- Trades have fresh identities and two different sides. A store operation of `Market` may fail at
  any point; one that fails has stored nothing.
- `CrashAndOpen` asks for room for tables of any of the records involved.

## Model

| member | source | states |
|---|---|---|
| RaftNode.MemoryStorage.Save | pkg/raft/storage.go:34-46 | the stored hard state becomes exactly the one given |
| RaftNode.MemoryStorage.Load | pkg/raft/storage.go:48-56 | gives back the hard state of the latest save |
| RaftNode.Node.constructor | pkg/raft/node.go:40-71 | a node starts as a follower from its stored term, vote and log, with commit and apply indexes at zero |
| RaftNode.Node.PersistLocked | pkg/raft/node.go:479-486 | afterwards term, vote and log on disk are those in memory, and nothing else changed |
| RaftNode.Node.StepDownLocked | pkg/raft/node.go:251-258 | the node is a follower; the vote is cleared exactly when the term rises |
| RaftNode.Node.StandLocked | pkg/raft/node.go:179-189 | candidacy: term one up, vote for itself, both on disk before any request leaves |
| RaftNode.Node.StartElection | pkg/raft/node.go:173-200 | does nothing on a leader; wins at once when alone; otherwise asks with the last index and term of its log |
| RaftNode.Node.BecomeLeaderLocked | pkg/raft/node.go:228-247 | a new leader has appended one entry of its term to its log, stored it, and expects every peer to be up to date |
| RaftNode.Node.OnVoteResponse | pkg/raft/node.go:208-224 | a higher term makes a follower; only a grant of the same election counts, and a majority makes a leader |
| RaftNode.Node.HandleRequestVote | pkg/raft/node.go:345-380 | the answer and the new state are those of the vote rule, term and vote on disk before the answer |
| RaftNode.Node.Propose | pkg/raft/node.go:120-133 | accepted exactly by a leader, and then the command stands at the index returned, in the leader's term, stored |
| RaftNode.Node.BuildAppend | pkg/raft/node.go:274-284 | the request carries everything from the peer's next index on and the term of the entry before it |
| RaftNode.Node.HandleAppendEntries | pkg/raft/node.go:382-440 | the answer and the new state are those of the append rule, whatever request comes |
| RaftNode.Node.StoreEntries | pkg/raft/node.go:417-429 | the log keeps what agrees with the request and is cut only at the first entry whose term differs |
| RaftNode.Node.OnAppendResponse | pkg/raft/node.go:291-317 | a success raises the match index and never lowers it; a refusal moves the next index back by one, not below 1 |
| RaftNode.Node.AdvanceCommitLocked | pkg/raft/node.go:324-341 | the commit index becomes the highest index of the own term that a majority holds |
| RaftNode.Node.TakeBatch | pkg/raft/node.go:444-466 | hands over exactly the entries between the applied and the commit index, in order |
| RaftSystem.StepsAreHandlers | pkg/raft/node.go:173-466 | what a step of the cluster does to a node is what that node's handler computes; the recorded history influences nothing |
| RaftSafety.StepKeeps | pkg/raft/node.go:173-466 | every step of timeouts, requests, answers, proposals, applying and crashes keeps the invariant of the cluster |
| RaftSafety.MajorityCertifies | pkg/raft/node.go:324-341 | what the commit rule counts as held by a majority in the leader's own term is in the logs of a quorum that no later leader can miss |
| RaftSafety.SendIsGood | pkg/raft/node.go:268-284 | every append request is a part of its leader's log, and its commit index is backed by what it carries |
| RaftLead.WinKeeps | pkg/raft/node.go:219-247 | winning an election with a majority keeps the invariant: a term has one leader, and its log holds whatever may have been committed before |
| RaftLead.Overlap | pkg/raft/node.go:219-221 | two majorities of the same cluster share a node |
| RaftLead.ExtendKeeps | pkg/raft/node.go:120-133 | a leader's new entry keeps the invariant: it extends its reign's log and takes back nothing that was acknowledged |
| RaftPreservation.GrantKeeps | pkg/raft/node.go:345-380 | granting a vote under the vote restriction keeps the invariant, in which a node votes once per term and what it has acknowledged is vouched for |
| RaftPreservation.UpToDateKeeps | pkg/raft/node.go:366-370 | a log that passes the vote restriction holds whatever prefix the voter vouches for |
| RaftAccept.SpliceShape | pkg/raft/node.go:417-429 | after an accepted request the log agrees with the leader's as far as the request reaches, and keeps its own tail only where it agreed all along |
| RaftAccept.LeaderCompleteness | pkg/raft/node.go:324-380 | whatever was committed in one reign is in the log of every later reign |
| RaftAccept.CommittedStays | pkg/raft/node.go:417-434 | no append request, however stale or repeated, truncates a committed entry |
| RaftAccept.CommitForward | pkg/raft/node.go:430-434 | taking in a request that was sent raises the commit index to the leader's or leaves it |
| RaftTheorems.RunInv | pkg/raft/node.go:173-466 | the invariant holds in every state of every run with loss, delay, repetition and restarts |
| RaftTheorems.ElectionSafety | pkg/raft/node.go:173-226 | at most one node is ever leader in a given term, at any two moments of a run |
| RaftTheorems.LogMatching | pkg/raft/node.go:382-440 | two logs that agree on the term at an index are identical up to it |
| RaftTheorems.CommittedReachesLeaders | pkg/raft/node.go:228-247 | an entry committed anywhere at any moment is in the log of every leader of a higher term, at any moment before or after, and of the leader of the same term from then on |
| RaftTheorems.StateMachineSafety | pkg/raft/node.go:324-466 | no two nodes, at any two moments, have different entries committed at an index |
| RaftTheorems.ApplySafety | pkg/raft/node.go:444-466 | no two state machines are ever handed different entries for an index |
| RaftTheorems.CommittedPrefixStays | pkg/raft/node.go:382-440 | except for a crash of the node itself, no step lowers a commit index or changes the log below it |
| RaftTheorems.FedInOrder | pkg/raft/node.go:444-466 | between crashes a state machine is fed consecutive indexes without gap, from the log |
| RaftTheorems.HandlersStayInBounds | pkg/raft/node.go:268-466 | in every reachable state the commit index lies in the log, disk and memory agree, and every next index of a leader lies in its log or just behind it |
| RaftTheorems.CommitInLog | pkg/raft/node.go:324-466 | the applied index is at most the commit index, and that at most the length of the log |
| RaftTheorems.HandlerLowersCommitWhen | pkg/raft/node.go:430-434 | for a request consistent with the log, the handler alone lowers the commit index exactly when the request ends below it and the leader's commit index lies above it |
| RaftTheorems.HandlerCanLowerCommit | pkg/raft/node.go:430-434 | a request that does lower it, consistent with the log; only the sender's habit of shipping its whole suffix rules it out |
| RingBuffer.RoundUp | pkg/ringbuf/ringbuf.go:58-65 | the capacity is the least power of two that is at least 2 and at least what was asked for |
| RingBuffer.MPSC.constructor | pkg/ringbuf/ringbuf.go:58-74 | a new queue is empty, with slot i carrying sequence number i |
| RingBuffer.MPSC.TryPush | pkg/ringbuf/ringbuf.go:78-99 | alone on the queue: succeeds exactly below capacity, and then the value is the last of the contents |
| RingBuffer.MPSC.TryPop | pkg/ringbuf/ringbuf.go:103-118 | alone on the queue: gives the oldest value and removes it, or nothing from an empty queue |
| RingBuffer.StepKeeps | pkg/ringbuf/ringbuf.go:78-118 | each single atomic operation of a producer or the consumer keeps the invariant of the queue |
| RingBuffer.RunInv | pkg/ringbuf/ringbuf.go:58-118 | the invariant holds after every interleaving, for any number of producers and any capacity of at least 2 |
| RingBuffer.Fifo | pkg/ringbuf/ringbuf.go:78-118 | values are popped in the order their positions were claimed; each claimed position not yet popped has its value in its slot or with exactly one producer |
| RingBuffer.NoDataRace | pkg/ringbuf/ringbuf.go:87-113 | no two threads stand before plain accesses to the same slot value |
| RingBuffer.RejectMeansFull | pkg/ringbuf/ringbuf.go:80-94 | a push about to return false read its slot's sequence number at a moment when all slots were outstanding |
| RingBuffer.EmptyMeansUnpublished | pkg/ringbuf/ringbuf.go:104-110 | a pop that loads a sequence number below its position finds the position unclaimed, or claimed and not yet published, and only then |
| RingBuffer.StepRefines | pkg/ringbuf/ringbuf.go:78-118 | seen as a bounded queue, every atomic operation enqueues below capacity, dequeues the head, or changes nothing |
| RingBuffer.LenIsClose | pkg/ringbuf/ringbuf.go:122-132 | the two counters being loaded one after the other, the length reported is never above capacity, at most one above the number of values at either moment, and short of the first by no more than was popped in between |
| RingBuffer.OneSlotLosesAValue | pkg/ringbuf/ringbuf.go:50-62 | with a single slot there is an interleaving after which popped values are not the pushed ones |
| RingBuffer.CapacityTwoIsExact | pkg/ringbuf/ringbuf.go:50-62 | order is kept in every interleaving if and only if the capacity is at least 2 |
| Codec.UvarintRoundTrip | pkg/storage/codec.go:29-38 | every length below 2^64 is read back, leaving what follows it |
| Codec.UvarintTorn | pkg/storage/codec.go:46-52 | a proper prefix of a length reads as the end of the stream when empty and as torn otherwise |
| Codec.Le32RoundTrip | pkg/storage/codec.go:38-63 | the checksum field reads back as written |
| Codec.ParseRoundTrip | pkg/storage/codec.go:29-77 | a payload is taken apart into the key, value and tombstone it was made of |
| Codec.DecodeRoundTrip | pkg/storage/codec.go:26-77 | decoding an encoded record gives it back and leaves exactly what follows |
| Codec.PrefixNeverDecodes | pkg/storage/codec.go:46-87 | no proper prefix of an encoded record decodes: cut at its start it is the end of the log, elsewhere a torn tail |
| Codec.RoundTripExactlyWhenFits | pkg/storage/codec.go:12-60 | what is encoded decodes again if and only if its payload is at most 2^28 bytes: the encoder does not check what the decoder does |
| Codec.SomeRecordIsRefused | pkg/storage/codec.go:12-60 | a key of 2^28 + 1 zero bytes is encoded and refused |
| Wal.WriteRec | pkg/storage/codec.go:26-41 | the frame assembled piece by piece is the encoding of the record |
| Wal.Log.Append | pkg/storage/wal.go:38-50 | the file grows by exactly the record's frame |
| Wal.Log.Reset | pkg/storage/wal.go:56-66 | the file is empty |
| Wal.ReplayLog | pkg/storage/wal.go:75-98 | the loop hands over the records of the longest decodable beginning, and fails only on a length that does not fit 64 bits or a payload length that overflows |
| Wal.ReplayWhole | pkg/storage/wal.go:75-98 | replaying a log of whole records gives exactly these |
| Wal.ReplayPrefix | pkg/storage/wal.go:75-98 | wherever the log is cut, replay gives exactly the records that lie wholly before the cut |
| Wal.ReplayAfter | pkg/storage/wal.go:75-98 | a replay goes through whole records to whatever follows them |
| Wal.ReopenedLogIsDurableWhen | pkg/storage/wal.go:30-36 | a log reopened for appending keeps every record appended next if and only if it had no torn tail, for the tail is not cut off |
| SkipList.Memtable.constructor | pkg/storage/memtable.go:31-38 | a new memtable is empty |
| SkipList.Memtable.Walk | pkg/storage/memtable.go:51-59 | on each level the walk ends at the last node before the key, and never reads a link its node does not have |
| SkipList.Memtable.Splice | pkg/storage/memtable.go:67-70 | each of the new node's levels is linked behind its predecessor and takes over its link; no other link changes |
| SkipList.Memtable.Put | pkg/storage/memtable.go:51-73 | for any height, the records are those before with this one in its place, in order; size and count stay exact |
| SkipList.Memtable.Get | pkg/storage/memtable.go:75-86 | the record a linear search of the records finds |
| SkipList.Memtable.IterFrom | pkg/storage/memtable.go:97-105 | the iterator has exactly the records at or after the key before it |
| SkipList.MemIter.Next | pkg/storage/memtable.go:107-114 | hands over the first record left, or none at the end |
| SkipList.Drain | pkg/storage/memtable.go:93-114 | iterating to the end gives exactly the records at or after the key, in order |
| SkipList.InsertKeepsLinks | pkg/storage/memtable.go:67-70 | after splicing at the predecessors every link again goes to the next node tall enough for its level |
| SkipList.LevelsNest | pkg/storage/memtable.go:11-22 | each level starts at the head, is exactly the chain its links make and a sublist of the level below; level 0 holds every record in strict key order |
| Runs.UpsertLayer | pkg/storage/memtable.go:51-73 | putting a record changes a sorted run, as a map, at its key and nowhere else |
| Runs.UpsertSorted | pkg/storage/memtable.go:51-73 | the run stays strictly sorted, with nothing in it but the old records and the new one |
| Runs.SortedUnique | pkg/storage/types.go:33-37 | two sorted runs that agree as maps are the same run |
| Runs.FromKeeps | pkg/storage/memtable.go:95-105 | the part of a sorted run at or after a key is sorted and is the map restricted to these keys |
| Runs.LiveLayer | pkg/storage/merge.go:66-83 | leaving out tombstones is restricting the map to its live keys |
| Merge.MergeLayers | pkg/storage/merge.go:5-64 | the merge of sorted runs has strictly ascending keys and is, as a map, the newer runs laid over the older |
| Merge.NewestWins | pkg/storage/merge.go:5-10 | each key of the overlay has the record of the first run that has the key |
| Merge.MergeStep | pkg/storage/merge.go:42-64 | taking the least head, of the newest run on a tie, and using up every head of its key is taking the first record of the merge |
| Merge.MergeFrom | pkg/storage/merge.go:28-64 | starting every run at a key is starting the merge there |
| Merge.MergeIter.constructor | pkg/storage/merge.go:20-26 | everything the sources hold is still to come |
| Merge.MergeIter.Next | pkg/storage/merge.go:28-64 | hands over the first record of the merge of what is pending and leaves the rest |
| Merge.DropTombIter.Next | pkg/storage/merge.go:73-83 | hands over the first live record of the merge and leaves the live rest |
| Merge.MergeLive | pkg/storage/sstable.go:98-116 | reading to the end gives the live records of the merge |
| Bloom.NewBloom | pkg/storage/bloom.go:29-51 | the nested loops set exactly the bits of the filter of these hashes |
| Bloom.MayContain | pkg/storage/bloom.go:53-63 | true exactly if every bit the hash asks for is set |
| Bloom.FilterBits | pkg/storage/bloom.go:42-50 | a bit is set if and only if some key's hash probes it |
| Bloom.NoFalseNegative | pkg/storage/bloom.go:29-63 | every key the filter was built from is let through, with 32-bit wrap-around in the probes and in the array size, for every array size whose low 32 bits are not all zero |
| Bloom.MarshalRoundTrip | pkg/storage/bloom.go:65-81 | a filter written out is read back |
| Bloom.UnmarshalIsExact | pkg/storage/bloom.go:71-81 | what is accepted is a count, a length and exactly that many bytes |
| SSTable.Builder.Add | pkg/storage/sstable.go:54-70 | a record is taken exactly if its key is above the last; offset, sparse index, hashes and count follow; a refused one changes nothing |
| SSTable.Builder.Finish | pkg/storage/sstable.go:72-94 | the file is records, index, filter and footer |
| SSTable.WriteTable | pkg/storage/sstable.go:98-129 | writes the table file of these records, or fails exactly if the builder refuses one |
| SSTable.AcceptsWhen | pkg/storage/sstable.go:54-57 | the builder takes exactly the runs that ascend strictly once leading empty keys are set aside: an empty last key counts as none |
| SSTable.LoadIndex | pkg/storage/sstable.go:186-212 | the loop reads the index section, or reports it corrupt |
| SSTable.OpenTable | pkg/storage/sstable.go:142-184 | opens a file exactly if footer, offsets, index and filter can be read |
| SSTable.OpenBuilt | pkg/storage/sstable.go:72-184 | a table written and opened again shows the same index, filter, count and data section |
| SSTable.SearchSplits | pkg/storage/sstable.go:235-237 | the binary search finds the first index key above the key |
| SSTable.IndexEntries | pkg/storage/sstable.go:58-60 | index entry j is record 16j with the offset of its first byte |
| SSTable.Get | pkg/storage/sstable.go:229-258 | filter, index search and scan, step for step, and how many records they decode |
| SSTable.LookupIsLinearSearch | pkg/storage/sstable.go:229-258 | in a written table the lookup finds exactly what a linear search of its records finds |
| SSTable.LookupIsShort | pkg/storage/sstable.go:227-258 | the whole lookup decodes at most the sixteen records of a slice and the first of the next; that one exactly if the filter lets the key through and the key is above all of its slice |
| SSTable.TableIter.constructor | pkg/storage/sstable.go:271-286 | reading starts at the index entry that may hold the key |
| SSTable.TableIter.Next | pkg/storage/sstable.go:288-305 | hands over the first record at or after the key, and from then on every record |
| SSTable.IterationIsSuffix | pkg/storage/sstable.go:271-305 | the jump by the index skips no record at or after the key |
| SSTable.ReadFrom | pkg/storage/sstable.go:271-305 | iterating to the end gives exactly the suffix of the records from the key on |
| Disk.Directory.WriteFile | pkg/storage/sstable.go:98-129 | a table file comes into being byte by byte; every state in between differs from the first in this file only |
| Disk.Directory.AppendLog | pkg/storage/wal.go:38-50 | the log grows byte by byte; the k-th state on the way has exactly the first k bytes of the record |
| Disk.Directory.ReplaceManifest | pkg/storage/db.go:329-349 | the table list changes in one step |
| Disk.WrittenIsWhole | pkg/storage/sstable.go:98-184 | a completely written table file holds exactly the records it was written from |
| Disk.HoldsUpsert | pkg/storage/db.go:127-151 | one more record in the memtable changes the map at its key and nowhere else |
| Disk.HoldsFlushed | pkg/storage/db.go:257-288 | a memtable in front of a table of the same records changes nothing, nor does forgetting it: replaying after a flush is harmless |
| Disk.HoldsCompacted | pkg/storage/db.go:290-324 | one table of the live records of all tables stands for the same map: dropping tombstones revives nothing |
| Disk.UnlistedIgnored | pkg/storage/db.go:62-101 | files the manifest does not list have no influence on what a directory stands for |
| Disk.LogGrows | pkg/storage/db.go:127-139 | with any proper part of a record behind a whole log the replay gives the old memtable, with all of it the new one |
| Db.DB.StoreTable | pkg/storage/db.go:269-277 | a table file under a number above every number in use; in every state on the way the listed tables are untouched |
| Db.DB.FlushLocked | pkg/storage/db.go:265-288 | the map is unchanged, the memtable is empty and its records are the newest table; if the log replays to the memtable, torn tail or not, every state of the directory on the way recovers to this map |
| Db.DB.CompactLocked | pkg/storage/db.go:296-324 | two or more tables become one, of the live records of all; the map is unchanged, and in every state of the directory on the way too if the log replays to the memtable |
| Db.DB.RemoveFiles | pkg/storage/db.go:318-322 | removing what is no longer listed changes nothing |
| Db.DB.LogAndPut | pkg/storage/db.go:136-141 | log first, memtable second: the states of the directory on the way recover to the map before, and from one moment on to the map after |
| Db.DB.Write | pkg/storage/db.go:127-151 | the map changes by this write exactly, through automatic flush and compaction; the states of the directory on the way recover to the map before and from one moment on to the map after; when the call returns a crash recovers to the map after; a closed engine or an empty key changes nothing |
| Db.DB.Put | pkg/storage/db.go:117-119 | the map with this key set; an error changes nothing; once it has returned, a crash recovers to the new map |
| Db.DB.Delete | pkg/storage/db.go:123-125 | the map without this key, whether or not it was there; once it has returned, a crash recovers to the new map |
| Db.DB.Flush | pkg/storage/db.go:217-224 | the map is unchanged, also in every state on the way; if the memtable held something the log is whole afterwards, even if it had a torn tail |
| Db.DB.Compact | pkg/storage/db.go:228-235 | the map is unchanged, in every state of the directory on the way too, also behind a torn tail that nothing was appended to |
| Db.DB.Close | pkg/storage/db.go:241-255 | closed, and a crash recovers to the map, if the log replayed to the memtable or the memtable was not empty |
| Db.DB.Get | pkg/storage/db.go:153-180 | the value the map has under the key, or not found; a table is never found corrupt |
| Db.FirstHitDecides | pkg/storage/db.go:160-179 | the first record found from new to old decides, as the map does |
| Db.DB.ScanFrom | pkg/storage/db.go:191-214 | shows the entries from the key on until the callback has enough |
| Db.EntriesAre | pkg/storage/db.go:191-214 | these entries are exactly the live keys of the map at or after the key, strictly ascending, each with its value |
| Db.EntriesAreTheMap | pkg/storage/db.go:191-214 | what a scan shows is the engine's map from the key on, no key missing and none twice |
| Db.DB.Open | pkg/storage/db.go:62-115 | opening any directory whose listed tables are whole gives the map it stands for, cleans up without changing that map, and numbers new tables above every file found; its log replays to its memtable, torn tail or not |
| Db.AppendRecovers | pkg/storage/db.go:127-139 | while a record is appended the directory recovers to the map before, with its last byte to the map after |
| Db.LoggedRecovers | pkg/storage/db.go:136-141 | what has been acknowledged is safe: with a whole log, a crash now recovers to the engine's map |
| Db.ReplayableRecovers | pkg/storage/db.go:103-107 | the same with a torn tail that nothing was appended to |
| DbCrash.PerformAll | pkg/storage/db.go:127-349 | over any sequence of writes, flushes and compactions the map is their effect; while one is under way the directory recovers to the map before it and from one moment on to the map after it, and when it returns to the map after it |
| DbCrash.CrashAndOpen | pkg/storage/db.go:62-349 | after any sequence of operations and a crash at any state of the directory on the way, opening gives the map of the operations that had returned, or of these and the one under way; if none was under way, exactly the former |
| Db.FlushSteps | pkg/storage/db.go:257-288 | after the manifest switch and after the log reset alike the directory recovers to the same map |
| Db.CompactSteps | pkg/storage/db.go:290-324 | after the manifest switch the one new table recovers to the map of all the old ones |
| Db.RemoveUnlisted | pkg/storage/db.go:88-101 | removes exactly what is not listed, using up its numbers |
| Db.Rebuild | pkg/storage/db.go:103-107 | the log's records in the memtable, later ones over earlier ones |
| Keys.BigEndianOrder | pkg/es/es.go:99-104 | byte order of the keys is number order, and different numbers have different keys |
| Keys.Scan | pkg/es/es.go:219-240 | the keys from a number on, in order |
| EventStore.GKeyOrder | pkg/es/es.go:99-104 | batches are scanned in global order and never overwrite each other |
| EventStore.GaplessIsDense | pkg/es/es.go:125-136 | global numbers are dense over the log and sequence numbers are dense in every stream |
| EventStore.IndexIsRight | pkg/es/es.go:108-146 | the index holds for every stream its length and the global numbers of its events |
| EventStore.Store.Append | pkg/es/es.go:151-205 | appends all events with the next numbers as one batch; a version conflict, an empty stream name or no events change nothing |
| EventStore.Store.ReadAll | pkg/es/es.go:209-246 | exactly the events of the flat list from a number on, at most as many as asked for |
| EventStore.Store.ReadStream | pkg/es/es.go:250-290 | exactly the stream's part of the flat list from a sequence number on, at most as many as asked for |
| EventStore.Store.Fetch | pkg/es/es.go:268-288 | each event comes out of its own batch, with its own numbers, whatever batch is at hand |
| EventStore.Store.BatchStartFor | pkg/es/es.go:294-307 | the first number of the batch that holds the event |
| EventStore.Store.Open | pkg/es/es.go:108-146 | rebuilds exactly the index and the list a store left behind; a gap is refused |
| EventStore.Collect | pkg/es/es.go:228-240 | takes the wanted events of a batch up to the limit |
| EventStore.KeysAre | pkg/es/es.go:219-240 | a scan from a batch on shows that batch and all behind it |
| EventStore.Projection.Turn | pkg/es/project.go:11-32 | after each round the reader has been given exactly the events up to its checkpoint, each once |
| EventStore.AppendsKeepReaders | pkg/es/project.go:11-32 | appends between the rounds leave the reader right: what is in the log stays where it is |
| Inventory.FoldAll | services/inventory/events.go:61-67 | the loop gives the balance the events fold to |
| Inventory.FoldMore | services/inventory/events.go:69-104 | one event changes spendable and reserved amounts by its own deltas |
| Inventory.FoldKeepsNoZero | services/inventory/events.go:97-104 | no kind is kept with a count of zero |
| Inventory.FindMove | services/inventory/ops.go:92-102 | true exactly if the stream has a move of this type for this trade |
| Inventory.Stock.Append | services/inventory/ops.go:104-107 | appends exactly if the version expected is the stream's, or none is |
| InventoryStore.StreamsAgree | pkg/es/es.go:151-205 | a player's stream of the event store, decoded, is the player's stream of the inventories; the version the store checks is the length a reservation has read |
| InventoryStore.AppendAgrees | pkg/es/es.go:151-205 | the event store takes an inventory event exactly where the inventories do, and then holds exactly one entry more |
| InventoryStore.ReadStream | services/inventory/ops.go:36-39 | reading and decoding a player's stream of the event store gives what the inventories hold |
| InventoryStore.Append | services/inventory/ops.go:104-107 | on the event store itself: appends exactly if the version expected is the stream's, or none is |
| Inventory.Stock.Reserve | services/inventory/ops.go:31-60 | the retry loop, whatever others append between each read and append |
| Inventory.ReserveIsCovered | services/inventory/ops.go:31-60 | a reservation is appended only where the balance covers it at that very moment and the trade has none; it is refused only where the balance does not |
| Inventory.Stock.IdempotentMove | services/inventory/ops.go:79-89 | appends the move unless the stream has one of its type for the trade |
| Inventory.MovedTwice | services/inventory/ops.go:79-89 | doing a move again does nothing |
| Trade.FoldTradeAll | services/trade/trade.go:101-127 | the loop gives the state the events fold to |
| Trade.HasMoveIsDid | services/inventory/ops.go:92-102 | whether a stream has a move of a trade is whether it is among the trade's own moves |
| MarketSafety.StepKeeps | services/inventory/ops.go:31-107 | every store read, append, phase, store error and restart of any trade keeps the invariant, in any order |
| MarketSafety.AfterReserveStep | services/inventory/ops.go:47-56 | a reservation whose version still holds is covered by the balance, one whose version does not is tried again or given up |
| MarketSafety.MoveSteps | services/trade/steps.go:40-60 | a commit, receipt or release is stored only where the trade has not made it, also when a coordinator starts over |
| MarketSafety.RunInv | services/inventory/ops.go:31-107 | the invariant holds in every reachable state |
| MarketSafety.PartsAddUp | services/inventory/events.go:61-95 | the whole log adds up to the sum of its parts, by player as well as by trade |
| MarketTheorems.NoOverspend | services/inventory/ops.go:31-60 | in every interleaving of trades, retries, gathers, store errors and restarts no spendable amount is below zero, and what is reserved of a player's goods is what trades have set aside, less what trades have taken out twice |
| MarketTheorems.NeverBelow | services/inventory/ops.go:31-60 | no reserved amount is below zero as long as no trade has both committed and released goods of the player |
| MarketTheorems.TwiceOutWhen | services/trade/steps.go:37-60 | a step makes a trade take out goods twice if and only if it stores their commit behind their release, or their release behind their commit; and that stays so |
| MarketTheorems.CalmRunsKeepAll | services/trade/choreographer.go:100-154 | where no coordinator starts over behind a release and no settle step fails behind a commit, no reserved amount is below zero, and goods are on their way only while their trade is being settled |
| MarketTheorems.DoneIsDone | services/trade/choreographer.go:127-139 | a trade that went through has made both commits and both receipts; nothing of it is set aside or on its way |
| MarketTheorems.GoodsConserved | services/trade/steps.go:37-60 | in every such state, what all players hold of a kind with what is between a commit and its receipt is what was ever gathered |
| MarketTheorems.NothingInTransit | services/trade/steps.go:37-60 | nothing is in transit if and only if no trade stands between a commit and its receipt; one that does is being settled, or was given up by a settle step that failed |
| Saga.TellStatus | services/trade/trade.go:101-136 | an event takes the state of its trade one step on and leaves every other trade alone |
| Saga.Coordinator.SettleTrade | services/trade/steps.go:40-51 | both commits and both receipts, or as many of them, in order, as the store lets be made before it fails |
| Saga.Coordinator.Execute | services/trade/orchestrator.go:44-97 | the whole trade, each failure undone by what stands beside it |
| Saga.Coordinator.Apply | services/trade/choreographer.go:71-154 | the reaction to one event, guarded by the phase |
| Saga.Coordinator.Follow | services/trade/choreographer.go:32-88 | reacts to every event up to the end of the log, those the reactions add included |
| Saga.ReactionAddsLess | services/trade/choreographer.go:100-154 | a reaction adds at most one event, and one that can set off less: every chain ends |
| SagaTheorems.StylesAgree | services/trade/orchestrator.go:44-97 | for every inventory, fresh offer, decision and moment behind the proposal at which it comes, and a settle step that fails anywhere, both styles store the same inventory events and end in the same phase for the same reason |
| SagaTheorems.LateInput | services/trade/choreographer.go:113-154 | an accept, reject or expiry to a trade that is not waiting for one changes nothing |
| SagaTheorems.QuietExactlyWhen | services/trade/choreographer.go:71-154 | an event sets something off if and only if its trade is in the phase the event belongs to |
| SagaTheorems.HandleAdvances | services/trade/choreographer.go:100-154 | acting on an event takes its trade past it, and no trade back |
| SagaTheorems.ReplayAppendsNothing | services/trade/choreographer.go:19-23 | in every run of many trades, repeated inputs and restarts from the start of the log, an event handled once is never acted on again |
| SagaFaults.ReserveSucceedsWhen | services/inventory/ops.go:31-60 | a reservation nobody interferes with succeeds if and only if the amount is positive and the trade has one already or the spendable amount covers it |
| SagaFaults.EarlyInputActsOnReplay | services/trade/choreographer.go:57-67 | an input stored before its proposal does nothing in its turn, and is acted on in a replay if and only if the proposer's goods could be set aside |
| SagaFaults.ResumedAfterRelease | services/trade/choreographer.go:113-124 | where a handler died between release and cancel, acting on an accept settles what was released if and only if the counterparty can be reserved by then and the settle step works, and takes the given amount out of the proposer's reserved amount once more with its first move; it falls below zero exactly if less was reserved |
| SagaFaults.ResumedAfterFailedSettle | services/trade/choreographer.go:127-139 | the same for a handler that died undoing a failed settle: the trade ends settled if and only if the settle step works the second time |
| SagaFaults.SettledHeld | services/trade/choreographer.go:127-139 | what a settle step and what undoes it take out of a side's reserved amount, wherever it fails and whatever was made before |
| SagaFaults.FailedSettleTakesTwice | services/trade/choreographer.go:132-136 | undoing a failed settle takes a side's goods out of its reserved amount twice if and only if the step failed behind that side's commit |
| SagaFaults.ReplayAccepts | services/trade/choreographer.go:113-124 | a replay goes by the input stored first: by an accept it reserves and settles, whatever was stored behind it |
| SagaFaults.ReplayAborts | services/trade/choreographer.go:143-154 | by a reject or an expiry it releases and cancels, whatever was stored behind it |
| SagaFaults.AbandonedIs | services/trade/choreographer.go:113-124 | what the dying handler of a refused accept has stored, reached through the handlers, is what the whole handler stores without the cancel |
| SagaFaults.ReplayOverdraws | services/trade/choreographer.go:100-139 | for any two players and positive amounts, a refused accept, a handler that dies and a replay that end with the trade settled and minus the given amount reserved |
| SagaFaults.RejectOverdraws | services/trade/choreographer.go:143-154 | for any two players and positive amounts, an accept stored before the proposal, a reject whose handler dies and a replay that end the same way |
| SagaFaults.RejectStrands | services/trade/choreographer.go:113-124 | with a reject stored before the proposal and an accept whose handler dies, the replay cancels and the counterparty's goods stay reserved whatever comes |
| DLock.Replica.ApplyMessage | pkg/dlock/dlock.go:92-124 | the table after a command, and the index applied |
| DLock.Replica.Granted | pkg/dlock/dlock.go:264-268 | a token exactly for the owner of a lease that has not run out |
| DLock.TokenIsAcquire | pkg/dlock/dlock.go:100-108 | a held lock's token is the log index of an acquire of that key by its owner |
| DLock.TokensRise | pkg/dlock/dlock.go:100-108 | tokens of a key never fall, whatever releases, expiries and renewals lie between, and a new owner has a greater one |
| DLock.AcquireRaises | pkg/dlock/dlock.go:100-108 | an acquire that succeeds has a token above every token the key had before |
| DLock.LeaseNotStolen | pkg/dlock/dlock.go:96-119 | no command takes an unexpired lease from its owner but the owner's own release |
| DLock.LeaseKept | pkg/dlock/dlock.go:96-119 | over any stretch in which its owner is silent and no command is stamped after its end, a lease stays exactly as it is |
| DLock.ReplicasAgree | pkg/dlock/dlock.go:92-124 | two replicas of a cluster, at any two moments of any run, have the same table after the same number of entries |
| Handoff.Session.OnEnterArena | services/gateway/gateway.go:637-655 | an order is refused exactly if its token is below the session's, and then changes nothing |
| Handoff.Session.OnEnterHub | services/gateway/gateway.go:658-677 | an order is refused exactly if its token is below the session's, and then changes nothing |
| Handoff.Coordinator.NextOwner | services/handoff/handoff.go:105 | an owner no earlier transfer of this node had since it was started |
| Handoff.Coordinator.Transfer | services/handoff/handoff.go:117-158 | the session moves exactly if the lock was taken and the session accepts; the audit trail says which; the lock is given back |
| Handoff.Fenced | services/handoff/handoff.go:100-158 | for every lock log, clock and delay or repetition of orders, a session never applies an older acquire's order behind a newer one's |
| Handoff.TokensTellTransfersApart | services/handoff/handoff.go:92-114 | orders with one token have one owner; where no owner acquires twice, a token stands for one owner's acquire alone |
| Outbox.StepKeeps | services/outbox/outbox.go:111-171 | every append, publish, save, crash, delivery and restart keeps the invariant |
| Outbox.NextInLine | services/outbox/consume.go:47-63 | the message a consumer stands before is one it has applied, or the very next event |
| Outbox.ExactlyOnce | services/outbox/consume.go:40-64 | in every run a consumer has applied exactly a prefix of the log, each event once and in order |
| Outbox.CaughtUp | services/outbox/outbox.go:111-171 | nothing is left out: a saved checkpoint at the end of the log and a consumer at the end of the bus mean that all is applied |
| Outbox.Relay.PublishBatch | services/outbox/outbox.go:146-171 | publishes one by one up to the first failure; the checkpoint moves exactly if all of them and the save succeed |
| Outbox.Consumer.OnMessage | services/outbox/consume.go:40-64 | the step of a consumer: a number already applied is dropped, any other is applied, remembered and taken into the read model |
| Outbox.BatchIsSteps | services/outbox/outbox.go:111-171 | what the relay does with a batch is a run of the system's steps: read, publish one by one, save |
| Outbox.ReadModel.Apply | services/inventory/inventory.go:35-50 | the balance of the event's player changes by the event, no other |
| Outbox.ReadModel.Available | services/inventory/inventory.go:55-67 | the spendable amount, zero for an unknown player |
| Outbox.ReadModelIsFold | services/inventory/inventory.go:35-50 | for every player the read model is the balance that the player's events in a prefix of the store fold to |
| RaftStore.KeyOrder | pkg/raftstore/store.go:71-76 | entries are scanned in index order, the meta record behind them, and no two keys collide |
| RaftStore.Store.constructor | pkg/raftstore/store.go:55-69 | after a reopening the mirror is the log on disk |
| RaftStore.Store.Save | pkg/raftstore/store.go:92-131 | disk and mirror both hold exactly the hard state saved, and only indexes behind the common prefix were touched |
| RaftStore.Store.Load | pkg/raftstore/store.go:134-181 | gives back the hard state saved last; fails exactly if an index is missing |
| RaftStore.Store.DeleteTail | pkg/raftstore/store.go:103-108 | the surplus entries go, from the lowest up; the records after k deletions are those without entries n+1 to n+k |
| RaftStore.FirstDifference | pkg/raftstore/store.go:94-101 | the loop finds the length of the longest common prefix |
| RaftStore.CutDeletesLeaveAGap | pkg/raftstore/store.go:103-108 | a save stopped among its deletions can be loaded again if and only if none of them had been made, or all |

## Left out

- Bloom.Hashes: 69/100 of the bits per key, rounded down, stands for the product with the binary fraction nearest to 0.69; no theorem depends on the number of hashes.
- RingBuffer.MPSC.TryPush: states what a push does when nothing else is under way; what it guarantees among other threads is stated about its atomic steps.
- RingBuffer.MPSC.TryPop: as TryPush.
- SkipList.Memtable.Put: the height is any height from 1 to 12 instead of the outcome of a seeded generator.
- Merge.MergeIter.Next: a source is the sequence of records it will hand over; sources that fail are not modelled.
- SSTable.OpenTable: an index count so large that allocating for it fails is not modelled.
- SSTable.Get: a filter with hashes to ask for but no bits, or a multiple of 2^32 of them, divides by zero in the source and is excluded.
- SSTable.WriteTable: excludes sizes from 2^63 on, payloads above 2^28, and filter sizes for which the source divides by zero.
- Bloom.NewBloom: excludes the array sizes for which the source divides by zero.
- Db.DB.Write: needs room for the tables the write may lead to, in the sense of the size conditions above.
- Db.DB.Open: speaks about directories whose listed tables are whole; for others it only may refuse to open.
- Db.DB.ScanFrom: the callback is a function of what it has been shown so far.
- Disk.Directory.ReplaceManifest: the temporary manifest file and its rename are one atomic step, and the manifest is a list of numbers instead of file names.
- EventStore.Store.Open: the storage engine under the event store is a finite map scanned in key order, which is what the engine is proved to be.
- EventStore.Store.Append: the clock is a parameter, and storage errors are not modelled.
- Inventory.Stock.Reserve: what other writers append between a read and an append is a parameter.
- Saga.Coordinator.Execute: the decision of the counterparty is a parameter; inventory and trade streams are two sequences, which forgets the order between an inventory event and a trade event.
- Saga.Coordinator.Apply: reservations and releases meet no store errors here, as they do in `Market`; only the settle step fails.
- SagaTheorems.StylesAgree: a decider that returns an error has no counterpart in the choreography and is excluded.
- DLock.Replica.ApplyMessage: the decoding of commands is an arbitrary function.
- Handoff.Coordinator.Transfer: the lock service's answer and the session are parameters; regions, shards and messages to the client are not modelled.
- Outbox.Relay.PublishBatch: what becomes of each message is a parameter.
- Outbox.Consumer.OnMessage: messages that cannot be decoded, and the dead-letter queue, are not modelled.
- RaftStore.Store.Save: the engine underneath is a finite map per record kind; a save cut short among its puts, or before its meta record, is not modelled.
- 64-bit and 32-bit wrap-around of terms, indexes, positions, versions and amounts.
- Wall-clock time, election timers, randomness, liveness and the quorum check of a leader; timeouts are steps that may happen at any moment.
- Raft nodes that are stopped without a restart, and calls still pending at a node that has crashed: a stopped node simply takes no more steps.
- The transport's partitions, which are message loss.
- File-system errors, fsync, JSON, CRC-32 and FNV; checksums and hashes are arbitrary functions, JSON is injective.
- The waiting loops and leader lookup of the lock manager; a grant is read from any replica at any applied index.
- The HTTP and WebSocket gateway beyond the token check of a session, gRPC, NATS, Kubernetes, Vault, metrics, tracing and logging.
- Actors, matchmaking, circuit breaker, arena and world physics.
- Hash ring, vector clock, CRDT counters, token bucket and key rotation, which would add easier members.
