/** The behaviour of one Raft node, handler by handler, as functions from the
    node's state to its next state and the message it answers with. Each handler
    of pkg/raft/node.go runs under one mutex, so one function is one atomic step. */
module RaftSpec {
  import opened Common

  type Id = nat

  datatype Entry = Entry(term: nat, cmd: Bytes)

  datatype Role = Follower | Candidate | Leader

  /** What survives a crash. */
  datatype HardState = HardState(term: nat, votedFor: Option<Id>, log: seq<Entry>)

  datatype VoteReq = VoteReq(term: nat, candidate: Id, lastIndex: nat, lastTerm: nat)
  datatype VoteResp = VoteResp(term: nat, granted: bool)
  datatype AppendReq = AppendReq(term: nat, leader: Id, prevIndex: nat, prevTerm: nat,
                                 entries: seq<Entry>, leaderCommit: nat)
  datatype AppendResp = AppendResp(term: nat, success: bool)

  datatype ApplyMsg = ApplyMsg(index: nat, term: nat, cmd: Bytes)

  /** One node. `votes` and `awaiting` are the vote counter of the latest election
      and the peers whose RequestVote call of that election has not returned yet. */
  datatype NodeState = NodeState(
    id: Id,
    peers: seq<Id>,
    role: Role,
    term: nat,
    votedFor: Option<Id>,
    log: seq<Entry>,
    commit: nat,
    applied: nat,
    next: map<Id, nat>,
    matched: map<Id, nat>,
    votes: nat,
    awaiting: set<Id>,
    disk: HardState)

  function TermAt(log: seq<Entry>, index: nat): nat {
    if index == 0 || index > |log| then 0 else log[index - 1].term
  }

  function LastTerm(log: seq<Entry>): nat {
    TermAt(log, |log|)
  }

  function Members(peers: seq<Id>): set<Id> {
    set p | p in peers
  }

  function Persist(n: NodeState): NodeState {
    n.(disk := HardState(n.term, n.votedFor, n.log))
  }

  function StepDown(n: NodeState, term: nat): NodeState {
    if term > n.term
    then n.(term := term, votedFor := None, role := Follower)
    else n.(role := Follower)
  }

  /** Restart from storage: everything outside the hard state starts over. */
  function Boot(id: Id, peers: seq<Id>, hs: HardState): NodeState {
    NodeState(id, peers, Follower, hs.term, hs.votedFor, hs.log, 0, 0, map[], map[], 0, {}, hs)
  }

  // ---- election ----

  function BecomeCandidate(n: NodeState): NodeState {
    Persist(n.(role := Candidate, term := n.term + 1, votedFor := Some(n.id),
               votes := 1, awaiting := Members(n.peers)))
  }

  function Fill(peers: seq<Id>, v: nat): map<Id, nat> {
    map p | p in peers :: v
  }

  function BecomeLeader(n: NodeState): NodeState {
    var log := n.log + [Entry(n.term, [])];
    Persist(n.(role := Leader, log := log,
               next := n.next + Fill(n.peers, |log| + 1),
               matched := n.matched + Fill(n.peers, 0)))
  }

  predicate Majority(count: nat, n: NodeState) {
    count * 2 > |n.peers| + 1
  }

  function StartElection(n: NodeState): NodeState {
    if n.role.Leader? then n
    else
      var c := BecomeCandidate(n);
      if Majority(1, c) then BecomeLeader(c) else c
  }

  function VoteRequest(n: NodeState): VoteReq {
    VoteReq(n.term, n.id, |n.log|, LastTerm(n.log))
  }

  /** The goroutine of election `electionTerm` that called `from` gets its answer. */
  function OnVoteResponse(n: NodeState, from: Id, electionTerm: nat, resp: VoteResp): NodeState {
    if resp.term > n.term then Persist(StepDown(n, resp.term))
    else if !n.role.Candidate? || n.term != electionTerm then n
    else
      var m := n.(awaiting := n.awaiting - {from});
      if !resp.granted then m
      else
        var counted := m.(votes := m.votes + 1);
        if Majority(counted.votes, counted) then BecomeLeader(counted) else counted
  }

  predicate UpToDate(req: VoteReq, log: seq<Entry>) {
    req.lastTerm > LastTerm(log) || (req.lastTerm == LastTerm(log) && req.lastIndex >= |log|)
  }

  function CastVote(n: NodeState, candidate: Id): NodeState {
    Persist(n.(votedFor := Some(candidate)))
  }

  function Seen(n: NodeState, term: nat): NodeState {
    if term > n.term then Persist(StepDown(n, term)) else n
  }

  function HandleRequestVote(n: NodeState, req: VoteReq): (NodeState, VoteResp) {
    var m := Seen(n, req.term);
    if req.term < m.term then (m, VoteResp(m.term, false))
    else if (m.votedFor == None || m.votedFor == Some(req.candidate)) && UpToDate(req, m.log) then
      (CastVote(m, req.candidate), VoteResp(m.term, true))
    else (m, VoteResp(m.term, false))
  }

  // ---- replication ----

  function Propose(n: NodeState, cmd: Bytes): NodeState {
    if !n.role.Leader? then n
    else Persist(n.(log := n.log + [Entry(n.term, cmd)]))
  }

  /** A leader knows where to send from for every peer, and never past its log. */
  predicate CanSend(n: NodeState, peer: Id) {
    n.role.Leader? && peer in n.next && 1 <= n.next[peer] <= |n.log| + 1
  }

  function BuildAppend(n: NodeState, peer: Id): AppendReq
    requires CanSend(n, peer)
  {
    var prev := n.next[peer] - 1;
    AppendReq(n.term, n.id, prev, TermAt(n.log, prev), n.log[prev..], n.commit)
  }

  /** Entries already there with the same term are kept; at the first conflict
      the tail is cut and the leader's entries written. */
  function Splice(log: seq<Entry>, prev: nat, entries: seq<Entry>): seq<Entry>
    requires prev <= |log|
    decreases |entries|
  {
    if entries == [] then log
    else if prev == |log| then log + entries
    else if log[prev].term != entries[0].term then log[..prev] + entries
    else Splice(log, prev + 1, entries[1..])
  }

  predicate Consistent(log: seq<Entry>, req: AppendReq) {
    req.prevIndex <= |log| && TermAt(log, req.prevIndex) == req.prevTerm
  }

  function Accept(n: NodeState, req: AppendReq): NodeState
    requires Consistent(n.log, req)
  {
    Persist(n.(role := Follower,
               log := Splice(n.log, req.prevIndex, req.entries),
               commit := if req.leaderCommit > n.commit
                         then Min(req.leaderCommit, req.prevIndex + |req.entries|)
                         else n.commit))
  }

  function HandleAppendEntries(n: NodeState, req: AppendReq): (NodeState, AppendResp) {
    var m := Seen(n, req.term);
    if req.term < m.term then (m, AppendResp(m.term, false))
    else if !Consistent(m.log, req) then (m.(role := Follower), AppendResp(m.term, false))
    else (Accept(m, req), AppendResp(m.term, true))
  }

  function Lookup(m: map<Id, nat>, p: Id): nat {
    if p in m then m[p] else 0
  }

  /** How many of `peers` are known to hold the log up to `index`. */
  function CountMatched(peers: seq<Id>, matched: map<Id, nat>, index: nat): nat {
    if peers == [] then 0
    else (if Lookup(matched, peers[0]) >= index then 1 else 0) + CountMatched(peers[1..], matched, index)
  }

  function AdvanceFrom(n: NodeState, index: nat): nat {
    if index <= n.commit || TermAt(n.log, index) != n.term then n.commit
    else if Majority(1 + CountMatched(n.peers, n.matched, index), n) then index
    else AdvanceFrom(n, index - 1)
  }

  function AdvanceCommit(n: NodeState): NodeState {
    n.(commit := AdvanceFrom(n, |n.log|))
  }

  function OnAppendResponse(n: NodeState, from: Id, req: AppendReq, resp: AppendResp): NodeState {
    if resp.term > n.term then Persist(StepDown(n, resp.term))
    else if !n.role.Leader? || n.term != req.term then n
    else if resp.success then
      var upTo := req.prevIndex + |req.entries|;
      var matched := n.matched[from := if upTo > Lookup(n.matched, from) then upTo else Lookup(n.matched, from)];
      AdvanceCommit(n.(matched := matched, next := n.next[from := matched[from] + 1]))
    else if Lookup(n.next, from) > 1 then n.(next := n.next[from := n.next[from] - 1])
    else n
  }

  // ---- applying ----

  function Batch(log: seq<Entry>, from: nat, to: nat): (msgs: seq<ApplyMsg>)
    requires from <= to <= |log|
    ensures |msgs| == to - from
  {
    seq(to - from, i requires 0 <= i < to - from =>
      ApplyMsg(from + i + 1, log[from + i].term, log[from + i].cmd))
  }

  function ApplyAll(n: NodeState): NodeState {
    if n.applied < n.commit then n.(applied := n.commit) else n
  }
}
