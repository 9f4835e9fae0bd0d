/** Every step keeps the invariant, and what that means for every run: Figure 3 of
    Ongaro and Ousterhout, proved of the handlers of pkg/raft. */
module RaftSafety {
  import opened RaftSpec
  import opened RaftSystem
  import opened RaftInvariant
  import opened RaftPreservation
  import opened RaftLead
  import opened RaftAccept

  // ---- the leader counts matches ----

  lemma {:induction false} AdvanceFromMeans(n: NodeState, index: nat)
    requires index <= |n.log|
    ensures var c := AdvanceFrom(n, index);
            c == n.commit ||
            (n.commit < c <= index && TermAt(n.log, c) == n.term && Majority(1 + CountMatched(n.peers, n.matched, c), n))
  {
    if !(index <= n.commit || TermAt(n.log, index) != n.term)
       && !Majority(1 + CountMatched(n.peers, n.matched, index), n) {
      AdvanceFromMeans(n, index - 1);
    }
  }

  ghost function Holders(peers: seq<Id>, matched: map<Id, nat>, index: nat): set<Id> {
    set p | p in peers && Lookup(matched, p) >= index
  }

  lemma HoldersSplit(peers: seq<Id>, matched: map<Id, nat>, index: nat)
    requires DistinctPeers(peers) && peers != []
    ensures DistinctPeers(peers[1..]) && peers[0] !in Holders(peers[1..], matched, index)
    ensures Holders(peers, matched, index) ==
            (if Lookup(matched, peers[0]) >= index then {peers[0]} else {}) + Holders(peers[1..], matched, index)
  {
    assert peers[0] !in peers[1..];
    assert peers == [peers[0]] + peers[1..];
  }

  lemma {:induction false} CountMatchedMeans(peers: seq<Id>, matched: map<Id, nat>, index: nat)
    requires DistinctPeers(peers)
    ensures CountMatched(peers, matched, index) == |Holders(peers, matched, index)|
  {
    if peers == [] {
      assert Holders(peers, matched, index) == {};
    } else {
      hide Holders, DistinctPeers;
      HoldersSplit(peers, matched, index);
      CountMatchedMeans(peers[1..], matched, index);
    }
  }

  /** Section 5.4.2: an index of the leader's own term that a majority is known to match
      is certified. */
  lemma MajorityCertifies(nodes: set<Id>, h: History, i: Id, n: NodeState, index: nat)
    requires GoodNode(nodes, i, n) && i in nodes && n.role.Leader? && GoodLeader(i, n, h)
    requires 1 <= index <= |n.log| && TermAt(n.log, index) == n.term
    requires Majority(1 + CountMatched(n.peers, n.matched, index), n)
    ensures Certified(h, nodes, n.term, index)
  {
    var counted := Holders(n.peers, n.matched, index);
    CountMatchedMeans(n.peers, n.matched, index);
    ClusterSize(nodes, i, n.peers);
    assert i !in Members(n.peers);
    assert counted + {i} <= Ackers(h, nodes, n.term, index) by {
      forall v | v in counted
        ensures v in nodes && Ack(h, n.term, v) >= index
      {
        assert v in Members(n.peers);
      }
    }
    SubsetSize(counted + {i}, Ackers(h, nodes, n.term, index));
  }

  lemma AdvanceBacked(nodes: set<Id>, h: History, i: Id, n: NodeState)
    requires GoodNode(nodes, i, n) && i in nodes && n.role.Leader? && GoodLeader(i, n, h)
    requires Backed(h, nodes, n.log, n.commit, n.term)
    ensures var c := AdvanceFrom(n, |n.log|);
            n.commit <= c <= |n.log| && Backed(h, nodes, n.log, c, n.term)
  {
    hide Certified;
    AdvanceFromMeans(n, |n.log|);
    var c := AdvanceFrom(n, |n.log|);
    if c != n.commit {
      MajorityCertifies(nodes, h, i, n, c);
      assert Agree(h.reigns[n.term].log, n.log, c);
    }
  }

  // ---- one lemma per step ----

  lemma TimeoutKeeps(s: System, i: Id)
    requires Inv(s) && i in s.nodes && !s.nodes[i].role.Leader?
    ensures Inv(DoTimeout(s, i))
  {
    hide Inv, GoodPacket;
    var c := Stand(s, i);
    StandKeeps(s, i);
    if Majority(1, c.nodes[i]) {
      WinKeeps(c, i);
    } else {
      AsksAreGood(c, i);
      PostKeeps(c, VoteAsks(c.nodes[i]));
    }
  }

  lemma AsksAreGood(s: System, i: Id)
    requires Inv(s) && i in s.nodes
    ensures forall p :: p in VoteAsks(s.nodes[i]) ==> GoodPacket(s.nodes, s.hist, p)
  {
    hide ReignLogs, NodeLogs, GoodBallots, GoodElectors, GoodAcks, NodesKeep, CandidatesKeep, LeadersKeep,
      GoodNet, GoodRoles, CommitsBacked, DeliveriesBacked;
    assert s.nodes[i].id == i;
  }

  lemma VoteAskKeeps(s: System, p: Packet)
    requires Inv(s) && p in s.net && p.VoteAsk? && p.to in s.nodes
    ensures Inv(DoVoteAsk(s, p))
  {
    hide Inv, GoodAsk, UpToDate, LastTerm;
    var (n, resp) := HandleRequestVote(s.nodes[p.to], p.ask);
    var o := Observe(s, p.to, p.ask.term);
    ObserveKeeps(s, p.to, p.ask.term);
    var g := if resp.granted then Grant(o, p.to, p.ask.candidate) else o;
    if resp.granted {
      AskInNet(o, p);
      GrantKeeps(o, p.to, p.ask);
    }
    assert GoodVote(g.hist, VoteReply(p.to, p.ask.candidate, p.ask.term, resp));
    PostKeeps(g, {VoteReply(p.to, p.ask.candidate, p.ask.term, resp)});
  }

  lemma AskInNet(s: System, p: Packet)
    requires Inv(s) && p in s.net && p.VoteAsk?
    ensures GoodAsk(s.nodes, p.ask)
  {
    assert GoodPacket(s.nodes, s.hist, p);
  }

  /** A response of the current election is counted at most once per peer. */
  lemma CountIsCovered(all: set<Id>, waiting: set<Id>, from: Id, votes: nat, granted: bool)
    requires votes <= |all - waiting| && from in waiting && (granted ==> from in all)
    ensures (if granted then votes + 1 else votes) <= |all - (waiting - {from})|
  {
    if granted {
      assert all - (waiting - {from}) == (all - waiting) + {from};
    } else {
      SubsetSize(all - waiting, all - (waiting - {from}));
    }
  }

  lemma CountIsGood(s: System, p: Packet, m: NodeState)
    requires Inv(s) && p in s.net && p.VoteReply? && p.to in s.nodes
    requires s.nodes[p.to].role.Candidate? && s.nodes[p.to].term == p.electionTerm && p.from in s.nodes[p.to].awaiting
    requires var n := s.nodes[p.to];
             m == n.(awaiting := n.awaiting - {p.from}, votes := if p.vote.granted then n.votes + 1 else n.votes)
    ensures GoodNode(s.nodes.Keys, p.to, m) && GoodCandidate(s.nodes.Keys, p.to, m, s.hist)
  {
    hide ReignLogs, NodeLogs, GoodBallots, GoodElectors, GoodAcks, NodesKeep, CandidatesKeep, LeadersKeep,
      DeliveriesBacked, CommitsBacked, GoodLeader, GoodAsk, GoodAppend;
    var n := s.nodes[p.to];
    assert GoodNode(s.nodes.Keys, p.to, n) && GoodCandidate(s.nodes.Keys, p.to, n, s.hist);
    assert GoodPacket(s.nodes, s.hist, p);
    CountIsCovered(Supporters(s.hist, s.nodes.Keys, n.term, p.to), n.awaiting, p.from, n.votes, p.vote.granted);
  }

  lemma CountKeeps(s: System, p: Packet, m: NodeState)
    requires Inv(s) && p in s.net && p.VoteReply? && p.to in s.nodes
    requires s.nodes[p.to].role.Candidate? && s.nodes[p.to].term == p.electionTerm && p.from in s.nodes[p.to].awaiting
    requires var n := s.nodes[p.to];
             m == n.(awaiting := n.awaiting - {p.from}, votes := if p.vote.granted then n.votes + 1 else n.votes)
    ensures Inv(SetNode(s, p.to, m))
  {
    hide ReignLogs, NodeLogs, GoodBallots, GoodElectors, GoodAcks, NodesKeep, CandidatesKeep, LeadersKeep,
      DeliveriesBacked, Backed, GoodNet, GoodNode, GoodCandidate;
    CountIsGood(s, p, m);
    CalmStep(s, p.to, m);
  }

  lemma VoteReplyKeeps(s: System, p: Packet)
    requires Inv(s) && p in s.net && p.VoteReply? && p.to in s.nodes
    requires p.electionTerm == s.nodes[p.to].term ==> p.from in s.nodes[p.to].awaiting
    ensures Inv(DoVoteReply(s, p))
  {
    hide Inv;
    var n := s.nodes[p.to];
    if p.vote.term > n.term {
      ObserveKeeps(s, p.to, p.vote.term);
    } else if n.role.Candidate? && n.term == p.electionTerm {
      var m := n.(awaiting := n.awaiting - {p.from}, votes := if p.vote.granted then n.votes + 1 else n.votes);
      CountKeeps(s, p, m);
      if p.vote.granted && Majority(m.votes, m) {
        WinKeeps(SetNode(s, p.to, m), p.to);
      }
    }
  }

  lemma SendKeeps(s: System, i: Id, peer: Id)
    requires Inv(s) && i in s.nodes && peer in s.nodes[i].peers && CanSend(s.nodes[i], peer)
    ensures Inv(Post(s, {AppendAsk(peer, BuildAppend(s.nodes[i], peer))}))
  {
    hide Inv, GoodPacket, BuildAppend;
    SendIsGood(s, i, peer);
    PostKeeps(s, {AppendAsk(peer, BuildAppend(s.nodes[i], peer))});
  }

  /** The whole suffix is shipped, so a request never ends before its commit index. */
  lemma SendIsGood(s: System, i: Id, peer: Id)
    requires Inv(s) && i in s.nodes && peer in s.nodes[i].peers && CanSend(s.nodes[i], peer)
    ensures GoodPacket(s.nodes, s.hist, AppendAsk(peer, BuildAppend(s.nodes[i], peer)))
  {
    hide ReignLogs, NodeLogs, GoodBallots, GoodElectors, GoodAcks, NodesKeep, CandidatesKeep, LeadersKeep,
      DeliveriesBacked, Backed, GoodNet, GoodCandidate;
    var n := s.nodes[i];
    assert GoodLeader(i, n, s.hist);
    assert peer in Members(n.peers);
  }

  lemma AppendAskKeeps(s: System, p: Packet)
    requires Inv(s) && p in s.net && p.AppendAsk? && p.to in s.nodes
    ensures Inv(DoAppendAsk(s, p))
  {
    hide Inv, GoodAppend, Consistent, Accept, TermAt;
    var (n, resp) := HandleAppendEntries(s.nodes[p.to], p.req);
    var o := Observe(s, p.to, p.req.term);
    ObserveKeeps(s, p.to, p.req.term);
    RequestInNet(o, p);
    var reply := AppendReply(p.to, p.req.leader, p.req, resp);
    if p.req.term < o.nodes[p.to].term {
      PostKeeps(o, {reply});
    } else if Consistent(o.nodes[p.to].log, p.req) {
      StoreKeeps(o, p.to, p.req);
      StoredReply(o, p, reply);
      PostKeeps(Store(o, p.to, p.req), {reply});
    } else {
      FollowKeeps(o, p.to);
      assert n == o.nodes[p.to].(role := Follower);
      assert SetNode(o, p.to, n).nodes.Keys == o.nodes.Keys;
      assert GoodPacket(SetNode(o, p.to, n).nodes, o.hist, reply);
      PostKeeps(SetNode(o, p.to, n), {reply});
    }
  }

  lemma RequestInNet(s: System, p: Packet)
    requires Inv(s) && p in s.net && p.AppendAsk?
    ensures GoodAppend(s.hist, s.nodes.Keys, p.req)
  {
    assert GoodPacket(s.nodes, s.hist, p);
  }

  lemma StoredReply(s: System, p: Packet, reply: Packet)
    requires p.AppendAsk? && p.to in s.nodes && s.nodes[p.to].term == p.req.term && Consistent(s.nodes[p.to].log, p.req)
    requires GoodAppend(s.hist, s.nodes.Keys, p.req)
    requires reply.AppendReply? && reply.from == p.to && reply.req == p.req
    ensures GoodPacket(Store(s, p.to, p.req).nodes, Store(s, p.to, p.req).hist, reply)
  {
    hide GoodAppend;
    var g := Store(s, p.to, p.req).hist;
    assert Store(s, p.to, p.req).nodes.Keys == s.nodes.Keys;
    StoresGrows(s.nodes, s.hist, g, p.to, Accept(s.nodes[p.to], p.req), p.req);
    AppendGrows(s.hist, g, s.nodes.Keys, p.req);
  }

  lemma FollowKeeps(s: System, i: Id)
    requires Inv(s) && i in s.nodes
    ensures Inv(SetNode(s, i, s.nodes[i].(role := Follower)))
  {
    hide ReignLogs, NodeLogs, GoodBallots, GoodElectors, GoodAcks, NodesKeep, CandidatesKeep, LeadersKeep,
      DeliveriesBacked, Backed, GoodNet;
    CalmStep(s, i, s.nodes[i].(role := Follower));
  }

  /** The leader after it noted a success: matches stay below what was acknowledged. */
  lemma MatchIsGood(s: System, p: Packet, n: NodeState)
    requires Inv(s) && p in s.net && p.AppendReply? && p.resp.success && p.to in s.nodes
    requires s.nodes[p.to].role.Leader? && s.nodes[p.to].term == p.req.term
    requires var m := s.nodes[p.to];
             var upTo := p.req.prevIndex + |p.req.entries|;
             var best := if upTo > Lookup(m.matched, p.from) then upTo else Lookup(m.matched, p.from);
             n == m.(matched := m.matched[p.from := best], next := m.next[p.from := best + 1])
    ensures GoodNode(s.nodes.Keys, p.to, n) && GoodLeader(p.to, n, s.hist)
  {
    hide ReignLogs, NodeLogs, GoodBallots, GoodElectors, GoodAcks, NodesKeep, CandidatesKeep, LeadersKeep,
      DeliveriesBacked, Backed, CommitsBacked;
    assert GoodPacket(s.nodes, s.hist, p);
    assert GoodLeader(p.to, s.nodes[p.to], s.hist);
  }

  lemma AppendReplyKeeps(s: System, p: Packet)
    requires Inv(s) && p in s.net && p.AppendReply? && p.to in s.nodes
    ensures Inv(SetNode(s, p.to, OnAppendResponse(s.nodes[p.to], p.from, p.req, p.resp)))
  {
    hide ReignLogs, NodeLogs, GoodBallots, GoodElectors, GoodAcks, NodesKeep, CandidatesKeep, LeadersKeep,
      DeliveriesBacked, Backed, GoodNet, Inv, AdvanceFrom;
    var m := s.nodes[p.to];
    var n := OnAppendResponse(m, p.from, p.req, p.resp);
    if p.resp.term > m.term {
      ObserveKeeps(s, p.to, p.resp.term);
    } else if !m.role.Leader? || m.term != p.req.term {
      assert SetNode(s, p.to, n) == s;
    } else if p.resp.success {
      SuccessKeeps(s, p);
    } else {
      BackOffKeeps(s, p);
    }
  }

  lemma SuccessKeeps(s: System, p: Packet)
    requires Inv(s) && p in s.net && p.AppendReply? && p.to in s.nodes && p.resp.success
    requires s.nodes[p.to].role.Leader? && s.nodes[p.to].term == p.req.term >= p.resp.term
    ensures Inv(SetNode(s, p.to, OnAppendResponse(s.nodes[p.to], p.from, p.req, p.resp)))
  {
    hide ReignLogs, NodeLogs, GoodBallots, GoodElectors, GoodAcks, NodesKeep, CandidatesKeep, LeadersKeep,
      DeliveriesBacked, Backed, GoodNet, AdvanceFrom;
    var m := s.nodes[p.to];
    var upTo := p.req.prevIndex + |p.req.entries|;
    var best := if upTo > Lookup(m.matched, p.from) then upTo else Lookup(m.matched, p.from);
    var n := m.(matched := m.matched[p.from := best], next := m.next[p.from := best + 1]);
    MatchIsGood(s, p, n);
    AdvanceBacked(s.nodes.Keys, s.hist, p.to, n);
    assert OnAppendResponse(m, p.from, p.req, p.resp) == AdvanceCommit(n);
    CalmStep(s, p.to, AdvanceCommit(n));
  }

  lemma BackOffKeeps(s: System, p: Packet)
    requires Inv(s) && p in s.net && p.AppendReply? && p.to in s.nodes && !p.resp.success
    requires s.nodes[p.to].role.Leader? && s.nodes[p.to].term == p.req.term >= p.resp.term
    ensures Inv(SetNode(s, p.to, OnAppendResponse(s.nodes[p.to], p.from, p.req, p.resp)))
  {
    hide ReignLogs, NodeLogs, GoodBallots, GoodElectors, GoodAcks, NodesKeep, CandidatesKeep, LeadersKeep,
      DeliveriesBacked, Backed, GoodNet;
    assert GoodLeader(p.to, s.nodes[p.to], s.hist);
    CalmStep(s, p.to, OnAppendResponse(s.nodes[p.to], p.from, p.req, p.resp));
  }

  /** What a node hands to its state machine is certified. */
  lemma BatchBacked(h: History, nodes: set<Id>, log: seq<Entry>, from: nat, to: nat, bound: nat)
    requires from <= to <= |log| && Backed(h, nodes, log, to, bound)
    ensures forall m :: m in Batch(log, from, to) ==> DeliveryBacked(h, nodes, m)
  {
    forall m | m in Batch(log, from, to)
      ensures DeliveryBacked(h, nodes, m)
    {
      var x :| 0 <= x < to - from && Batch(log, from, to)[x] == m;
      var t: nat, k: nat :| Certified(h, nodes, t, k) && t <= bound && to <= k && Agree(h.reigns[t].log, log, to);
      assert h.reigns[t].log[m.index - 1] == log[m.index - 1];
    }
  }

  lemma DeliverKeeps(s: System, i: Id)
    requires Inv(s) && i in s.nodes && s.nodes[i].applied < s.nodes[i].commit <= |s.nodes[i].log|
    ensures Inv(DoDeliver(s, i))
  {
    hide ReignLogs, NodeLogs, GoodBallots, GoodElectors, GoodAcks, NodesKeep, CandidatesKeep, LeadersKeep,
      GoodNet, GoodRoles, GoodNodes, CommitsBacked, DeliveryBacked;
    AppliedKeeps(s, i);
    BatchIsBacked(s, i);
  }

  lemma BatchIsBacked(s: System, i: Id)
    requires Inv(s) && i in s.nodes && s.nodes[i].applied < s.nodes[i].commit <= |s.nodes[i].log|
    ensures forall m :: m in Batch(s.nodes[i].log, s.nodes[i].applied, s.nodes[i].commit) ==>
              DeliveryBacked(s.hist, SetNode(s, i, ApplyAll(s.nodes[i])).nodes.Keys, m)
  {
    hide ReignLogs, NodeLogs, GoodBallots, GoodElectors, GoodAcks, NodesKeep, CandidatesKeep, LeadersKeep,
      DeliveriesBacked, Backed, GoodNet, GoodRoles, GoodNodes, DeliveryBacked;
    assert SetNode(s, i, ApplyAll(s.nodes[i])).nodes.Keys == s.nodes.Keys;
    var n := s.nodes[i];
    BatchBacked(s.hist, s.nodes.Keys, n.log, n.applied, n.commit, n.term);
  }

  lemma AppliedKeeps(s: System, i: Id)
    requires Inv(s) && i in s.nodes && s.nodes[i].applied < s.nodes[i].commit
    ensures Inv(SetNode(s, i, ApplyAll(s.nodes[i])))
  {
    hide ReignLogs, NodeLogs, GoodBallots, GoodElectors, GoodAcks, NodesKeep, CandidatesKeep, LeadersKeep,
      DeliveriesBacked, Backed, GoodNet;
    CalmStep(s, i, ApplyAll(s.nodes[i]));
  }

  lemma CrashKeeps(s: System, i: Id)
    requires Inv(s) && i in s.nodes
    ensures Inv(SetNode(s, i, Boot(s.nodes[i].id, s.nodes[i].peers, s.nodes[i].disk)))
  {
    hide ReignLogs, NodeLogs, GoodBallots, GoodElectors, GoodAcks, NodesKeep, CandidatesKeep, LeadersKeep,
      DeliveriesBacked, Certified, GoodNet;
    CalmStep(s, i, Boot(s.nodes[i].id, s.nodes[i].peers, s.nodes[i].disk));
  }

  /** Every step of every handler, crash included, keeps the invariant. */
  lemma StepKeeps(s: System, step: Step)
    requires Inv(s) && Enabled(s, step)
    ensures Inv(Do(s, step))
  {
    hide Inv;
    match step
    case Timeout(i) => TimeoutKeeps(s, i);
    case RecvVoteAsk(p) => VoteAskKeeps(s, p);
    case RecvVoteReply(p) => VoteReplyKeeps(s, p);
    case Submit(i, cmd) => ExtendKeeps(s, i, cmd);
    case Send(i, peer) => SendKeeps(s, i, peer);
    case RecvAppendAsk(p) => AppendAskKeeps(s, p);
    case RecvAppendReply(p) => AppendReplyKeeps(s, p);
    case Deliver(i) => DeliverKeeps(s, i);
    case Crash(i) => CrashKeeps(s, i);
  }
}
