/** A cluster of Raft nodes over a network that may lose, delay, repeat and reorder
    messages, with nodes crashing and restarting from their storage.

    `History` records what happened, for the proofs only: no step reads it. */
module RaftSystem {
  import opened Common
  import opened RaftSpec

  datatype Packet =
    | VoteAsk(to: Id, ask: VoteReq)
    | VoteReply(from: Id, to: Id, electionTerm: nat, vote: VoteResp)
    | AppendAsk(to: Id, req: AppendReq)
    | AppendReply(from: Id, to: Id, req: AppendReq, resp: AppendResp)

  /** The leader of one term: who it is, the log it has built so far, who elected it. */
  datatype Reign = Reign(leader: Id, log: seq<Entry>, electors: set<Id>)

  /** Per term the reign; per (term, node) how much of that term's leader log the node
      has acknowledged; per (term, node) whom it voted for. */
  datatype History = History(
    reigns: map<nat, Reign>,
    acks: map<(nat, Id), nat>,
    ballots: map<(nat, Id), Id>)

  /** `net` holds every packet ever sent; a packet never delivered is a lost one.
      `delivered` holds every entry ever handed to a state machine, and by whom. */
  datatype System = System(nodes: map<Id, NodeState>, net: set<Packet>, hist: History, delivered: set<(Id, ApplyMsg)>)

  datatype Step =
    | Timeout(id: Id)
    | RecvVoteAsk(p: Packet)
    | RecvVoteReply(p: Packet)
    | Submit(id: Id, cmd: Bytes)
    | Send(id: Id, peer: Id)
    | RecvAppendAsk(p: Packet)
    | RecvAppendReply(p: Packet)
    | Deliver(id: Id)
    | Crash(id: Id)

  ghost predicate DistinctPeers(peers: seq<Id>) {
    forall i, j :: 0 <= i < j < |peers| ==> peers[i] != peers[j]
  }

  /** Every node starts blank and lists exactly the other nodes as its peers. */
  ghost predicate Init(s: System) {
    && s.net == {}
    && s.hist == History(map[], map[], map[]) && s.delivered == {}
    && forall i :: i in s.nodes ==>
         && s.nodes[i] == Boot(i, s.nodes[i].peers, HardState(0, None, []))
         && DistinctPeers(s.nodes[i].peers)
         && Members(s.nodes[i].peers) == s.nodes.Keys - {i}
  }

  predicate Enabled(s: System, step: Step) {
    match step
    case Timeout(i) => i in s.nodes && !s.nodes[i].role.Leader?
    case RecvVoteAsk(p) => p in s.net && p.VoteAsk? && p.to in s.nodes
    case RecvVoteReply(p) =>
      && p in s.net && p.VoteReply? && p.to in s.nodes
      // the call of one election to one peer returns at most once
      && (p.electionTerm == s.nodes[p.to].term ==> p.from in s.nodes[p.to].awaiting)
    case Submit(i, _) => i in s.nodes && s.nodes[i].role.Leader?
    case Send(i, peer) => i in s.nodes && peer in s.nodes[i].peers && CanSend(s.nodes[i], peer)
    case RecvAppendAsk(p) => p in s.net && p.AppendAsk? && p.to in s.nodes
    case RecvAppendReply(p) => p in s.net && p.AppendReply? && p.to in s.nodes
    case Deliver(i) => i in s.nodes && s.nodes[i].applied < s.nodes[i].commit <= |s.nodes[i].log|
    case Crash(i) => i in s.nodes
  }

  // ---- the pieces steps are made of ----

  function SetNode(s: System, i: Id, n: NodeState): System {
    s.(nodes := s.nodes[i := n])
  }

  function Post(s: System, packets: set<Packet>): System {
    s.(net := s.net + packets)
  }

  function Ack(h: History, term: nat, i: Id): nat {
    if (term, i) in h.acks then h.acks[(term, i)] else 0
  }

  function RecordAck(h: History, term: nat, i: Id, upTo: nat): History {
    h.(acks := h.acks[(term, i) := if upTo > Ack(h, term, i) then upTo else Ack(h, term, i)])
  }

  function RecordVote(h: History, term: nat, voter: Id, candidate: Id): History {
    h.(ballots := h.ballots[(term, voter) := candidate])
  }

  function Supporters(h: History, nodes: set<Id>, term: nat, candidate: Id): set<Id> {
    set v | v in nodes && (term, v) in h.ballots && h.ballots[(term, v)] == candidate
  }

  /** Node `i` votes for itself in the next term. */
  function Stand(s: System, i: Id): System
    requires i in s.nodes
  {
    var n := BecomeCandidate(s.nodes[i]);
    SetNode(s, i, n).(hist := RecordVote(s.hist, n.term, i, i))
  }

  /** Node `i`, a candidate, becomes the leader of its term. */
  function Win(s: System, i: Id): System
    requires i in s.nodes
  {
    var n := BecomeLeader(s.nodes[i]);
    var reign := Reign(i, n.log, Supporters(s.hist, s.nodes.Keys, n.term, i));
    SetNode(s, i, n).(hist := RecordAck(s.hist.(reigns := s.hist.reigns[n.term := reign]), n.term, i, |n.log|))
  }

  /** Node `i`, a leader, appends one entry of its own term. */
  function Extend(s: System, i: Id, cmd: Bytes): System
    requires i in s.nodes
  {
    var n := Propose(s.nodes[i], cmd);
    var electors := if n.term in s.hist.reigns then s.hist.reigns[n.term].electors else {};
    var reign := Reign(i, n.log, electors);
    SetNode(s, i, n).(hist := RecordAck(s.hist.(reigns := s.hist.reigns[n.term := reign]), n.term, i, |n.log|))
  }

  /** Node `i` moves to a higher term it has seen. */
  function Observe(s: System, i: Id, term: nat): System
    requires i in s.nodes
  {
    SetNode(s, i, Seen(s.nodes[i], term))
  }

  function Grant(s: System, i: Id, candidate: Id): System
    requires i in s.nodes
  {
    var n := CastVote(s.nodes[i], candidate);
    SetNode(s, i, n).(hist := RecordVote(s.hist, n.term, i, candidate))
  }

  function Store(s: System, i: Id, req: AppendReq): System
    requires i in s.nodes && Consistent(s.nodes[i].log, req)
  {
    SetNode(s, i, Accept(s.nodes[i], req))
      .(hist := RecordAck(s.hist, req.term, i, req.prevIndex + |req.entries|))
  }

  // ---- steps ----

  function VoteAsks(n: NodeState): set<Packet> {
    set p | p in Members(n.peers) :: VoteAsk(p, VoteRequest(n))
  }

  function DoTimeout(s: System, i: Id): System
    requires i in s.nodes
  {
    var c := Stand(s, i);
    if Majority(1, c.nodes[i]) then Win(c, i) else Post(c, VoteAsks(c.nodes[i]))
  }

  function DoVoteAsk(s: System, p: Packet): System
    requires p.VoteAsk? && p.to in s.nodes
  {
    var (n, resp) := HandleRequestVote(s.nodes[p.to], p.ask);
    var o := Observe(s, p.to, p.ask.term);
    var g := if resp.granted then Grant(o, p.to, p.ask.candidate) else o;
    Post(g, {VoteReply(p.to, p.ask.candidate, p.ask.term, resp)})
  }

  function DoVoteReply(s: System, p: Packet): System
    requires p.VoteReply? && p.to in s.nodes
  {
    var n := s.nodes[p.to];
    if p.vote.term > n.term then Observe(s, p.to, p.vote.term)
    else if !n.role.Candidate? || n.term != p.electionTerm then s
    else
      var m := n.(awaiting := n.awaiting - {p.from});
      if !p.vote.granted then SetNode(s, p.to, m)
      else
        var counted := SetNode(s, p.to, m.(votes := m.votes + 1));
        if Majority(m.votes + 1, m) then Win(counted, p.to) else counted
  }

  function DoAppendAsk(s: System, p: Packet): System
    requires p.AppendAsk? && p.to in s.nodes
  {
    var (n, resp) := HandleAppendEntries(s.nodes[p.to], p.req);
    var o := Observe(s, p.to, p.req.term);
    var a := if p.req.term < o.nodes[p.to].term then o
             else if Consistent(o.nodes[p.to].log, p.req) then Store(o, p.to, p.req)
             else SetNode(o, p.to, n);
    Post(a, {AppendReply(p.to, p.req.leader, p.req, resp)})
  }

  function DoDeliver(s: System, i: Id): System
    requires i in s.nodes && s.nodes[i].applied < s.nodes[i].commit <= |s.nodes[i].log|
  {
    var n := s.nodes[i];
    SetNode(s, i, ApplyAll(n)).(delivered := s.delivered +
      set m | m in Batch(n.log, n.applied, n.commit) :: (i, m))
  }

  function Do(s: System, step: Step): System
    requires Enabled(s, step)
  {
    match step
    case Timeout(i) => DoTimeout(s, i)
    case RecvVoteAsk(p) => DoVoteAsk(s, p)
    case RecvVoteReply(p) => DoVoteReply(s, p)
    case Submit(i, cmd) => Extend(s, i, cmd)
    case Send(i, peer) => Post(s, {AppendAsk(peer, BuildAppend(s.nodes[i], peer))})
    case RecvAppendAsk(p) => DoAppendAsk(s, p)
    case RecvAppendReply(p) => SetNode(s, p.to, OnAppendResponse(s.nodes[p.to], p.from, p.req, p.resp))
    case Deliver(i) => DoDeliver(s, i)
    case Crash(i) =>
      var n := s.nodes[i];
      SetNode(s, i, Boot(n.id, n.peers, n.disk))
  }

  /** A run: states and the steps between them. */
  datatype Run = Run(states: seq<System>, steps: seq<Step>)

  ghost predicate IsRun(r: Run) {
    && |r.states| == |r.steps| + 1
    && Init(r.states[0])
    && forall k :: 0 <= k < |r.steps| ==>
         Enabled(r.states[k], r.steps[k]) && r.states[k + 1] == Do(r.states[k], r.steps[k])
  }

  /** The node that acts in a step, and what its handler makes of it. */
  function Actor(step: Step): Id {
    match step
    case Timeout(i) => i
    case Submit(i, _) => i
    case Send(i, _) => i
    case Deliver(i) => i
    case Crash(i) => i
    case RecvVoteAsk(p) => p.to
    case RecvVoteReply(p) => p.to
    case RecvAppendAsk(p) => p.to
    case RecvAppendReply(p) => p.to
  }

  function Handled(s: System, step: Step): NodeState
    requires Enabled(s, step)
  {
    var n := s.nodes[Actor(step)];
    match step
    case Timeout(_) => StartElection(n)
    case RecvVoteAsk(p) => HandleRequestVote(n, p.ask).0
    case RecvVoteReply(p) => OnVoteResponse(n, p.from, p.electionTerm, p.vote)
    case Submit(_, cmd) => Propose(n, cmd)
    case Send(_, _) => n
    case RecvAppendAsk(p) => HandleAppendEntries(n, p.req).0
    case RecvAppendReply(p) => OnAppendResponse(n, p.from, p.req, p.resp)
    case Deliver(_) => ApplyAll(n)
    case Crash(_) => Boot(n.id, n.peers, n.disk)
  }

  /** What a step does to the nodes is exactly what the actor's handler computes:
      the history only watches. */
  lemma StepsAreHandlers(s: System, step: Step)
    requires Enabled(s, step)
    ensures Do(s, step).nodes == s.nodes[Actor(step) := Handled(s, step)]
  {
    match step
    case RecvVoteReply(p) => VoteReplyIsHandler(s, p);
    case RecvAppendAsk(p) => AppendAskIsHandler(s, p);
    case RecvVoteAsk(p) =>
      assert Do(s, step).nodes[p.to] == Handled(s, step);
    case _ =>
  }

  lemma VoteReplyIsHandler(s: System, p: Packet)
    requires p.VoteReply? && p.to in s.nodes
    ensures DoVoteReply(s, p).nodes ==
            s.nodes[p.to := OnVoteResponse(s.nodes[p.to], p.from, p.electionTerm, p.vote)]
  {
    hide BecomeLeader, Supporters, RecordAck, StepDown, Persist;
    assert DoVoteReply(s, p).nodes[p.to] == OnVoteResponse(s.nodes[p.to], p.from, p.electionTerm, p.vote);
  }

  lemma AppendAskIsHandler(s: System, p: Packet)
    requires p.AppendAsk? && p.to in s.nodes
    ensures DoAppendAsk(s, p).nodes == s.nodes[p.to := HandleAppendEntries(s.nodes[p.to], p.req).0]
  {
    assert DoAppendAsk(s, p).nodes[p.to] == HandleAppendEntries(s.nodes[p.to], p.req).0;
  }
}
