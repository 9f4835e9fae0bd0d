/** Every piece of every step keeps the invariant. */
module RaftPreservation {
  import opened Common
  import opened RaftSpec
  import opened RaftSystem
  import opened RaftInvariant

  // ---- history only grows ----

  /** Reigns gain entries of their own term only; acknowledgements and ballots stay. */
  ghost predicate Grows(h: History, g: History) {
    && (forall t :: t in h.reigns ==>
          && t in g.reigns
          && g.reigns[t].leader == h.reigns[t].leader && g.reigns[t].electors == h.reigns[t].electors
          && Agree(h.reigns[t].log, g.reigns[t].log, |h.reigns[t].log|)
          && forall j :: |h.reigns[t].log| <= j < |g.reigns[t].log| ==> g.reigns[t].log[j].term == t)
    && (forall t: nat, v: Id :: Ack(h, t, v) <= Ack(g, t, v))
  }

  lemma LacksGrows(h: History, g: History, t: nat, k: nat, w: nat)
    requires Grows(h, g) && Lacks(h, t, k, w) && t < w
    requires 1 <= k <= |h.reigns[t].log| && h.reigns[t].log[k - 1].term == t
    ensures Lacks(g, t, k, w)
  {
    var before, after := h.reigns[w].log, g.reigns[w].log;
    if k > |before| {
      assert k <= |after| ==> after[k - 1].term == w;
      assert g.reigns[t].log[k - 1].term == t;
    } else {
      var j :| 0 <= j < k && h.reigns[t].log[j] != before[j];
      assert g.reigns[t].log[j] != after[j];
    }
  }

  lemma KeptGrows(h: History, g: History, t: nat, k: nat, log: seq<Entry>, u: nat)
    requires Grows(h, g) && t in h.reigns && Kept(h, t, k, log, u)
    requires 1 <= k <= |h.reigns[t].log| && h.reigns[t].log[k - 1].term == t
    ensures Kept(g, t, k, log, u)
  {
    if Agree(h.reigns[t].log, log, k) {
      assert forall j :: 0 <= j < k ==> g.reigns[t].log[j] == h.reigns[t].log[j];
    } else {
      var w :| t < w < u && Lacks(h, t, k, w);
      LacksGrows(h, g, t, k, w);
    }
  }

  lemma CertifiedGrows(h: History, g: History, nodes: set<Id>, t: nat, k: nat)
    requires Grows(h, g) && Certified(h, nodes, t, k)
    ensures Certified(g, nodes, t, k)
  {
    assert g.reigns[t].log[k - 1] == h.reigns[t].log[k - 1];
    var a, b := Ackers(h, nodes, t, k), Ackers(g, nodes, t, k);
    assert a <= b;
    SubsetSize(a, b);
  }

  lemma SubsetSize<T>(a: set<T>, b: set<T>)
    requires a <= b
    ensures |a| <= |b|
  {
    assert b == a + (b - a);
  }

  lemma BackedGrows(h: History, g: History, nodes: set<Id>, log: seq<Entry>, log': seq<Entry>, k: nat, bound: nat, bound': nat)
    requires Grows(h, g) && Backed(h, nodes, log, k, bound) && bound <= bound'
    requires Agree(log, log', k)
    ensures Backed(g, nodes, log', k, bound')
  {
    if k != 0 {
      var t: nat, m: nat :| Certified(h, nodes, t, m) && t <= bound && k <= m && Agree(h.reigns[t].log, log, k);
      CertifiedGrows(h, g, nodes, t, m);
      assert forall j :: 0 <= j < k ==> g.reigns[t].log[j] == h.reigns[t].log[j] == log[j] == log'[j];
      assert Agree(g.reigns[t].log, log', k);
    }
  }

  lemma DeliveriesGrow(h: History, g: History, nodes: set<Id>, delivered: set<(Id, ApplyMsg)>)
    requires Grows(h, g) && DeliveriesBacked(nodes, h, delivered)
    ensures DeliveriesBacked(nodes, g, delivered)
  {
    forall i, m | (i, m) in delivered
      ensures DeliveryBacked(g, nodes, m)
    {
      var t: nat, k: nat :| Certified(h, nodes, t, k) && m.index <= k
                            && h.reigns[t].log[m.index - 1] == Entry(m.term, m.cmd);
      CertifiedGrows(h, g, nodes, t, k);
      assert g.reigns[t].log[m.index - 1] == h.reigns[t].log[m.index - 1];
    }
  }

  /** An append request stays a slice of its leader's log. */
  lemma AppendGrows(h: History, g: History, nodes: set<Id>, req: AppendReq)
    requires Grows(h, g) && GoodAppend(h, nodes, req)
    ensures GoodAppend(g, nodes, req)
  {
    var log, log' := h.reigns[req.term].log, g.reigns[req.term].log;
    assert Agree(log, log', req.leaderCommit);
    BackedGrows(h, g, nodes, log, log', req.leaderCommit, req.term, req.term);
    assert req.prevIndex > 0 ==> log'[req.prevIndex - 1] == log[req.prevIndex - 1];
  }

  // ---- changes that leave a node's log alone ----

  /** `n` may replace node `i`: same log, a term no lower, a vote kept within its term. */
  ghost predicate Steady(nodes: map<Id, NodeState>, i: Id, n: NodeState) {
    && i in nodes
    && n.log == nodes[i].log
    && n.term >= nodes[i].term
    && (n.term == nodes[i].term ==> nodes[i].votedFor in {None, n.votedFor})
  }

  /** Steady, and no candidacy that was not there before. */
  ghost predicate Calm(nodes: map<Id, NodeState>, i: Id, n: NodeState) {
    && Steady(nodes, i, n)
    && (n.role.Candidate? ==> nodes[i].role.Candidate? && n.term == nodes[i].term)
  }

  lemma CalmLogs(nodes: map<Id, NodeState>, h: History, i: Id, n: NodeState)
    requires Steady(nodes, i, n) && NodeLogs(nodes, h.reigns)
    ensures NodeLogs(nodes[i := n], h.reigns)
  {
  }

  lemma CalmRecords(nodes: map<Id, NodeState>, h: History, i: Id, n: NodeState)
    requires Steady(nodes, i, n)
    requires GoodBallots(nodes, h) && GoodElectors(nodes, h) && GoodAcks(nodes, h)
    ensures GoodBallots(nodes[i := n], h) && GoodElectors(nodes[i := n], h) && GoodAcks(nodes[i := n], h)
  {
    assert nodes[i := n].Keys == nodes.Keys;
  }

  lemma CalmKeep(nodes: map<Id, NodeState>, h: History, i: Id, n: NodeState)
    requires Calm(nodes, i, n)
    requires NodesKeep(nodes, h) && CandidatesKeep(nodes, h)
    ensures NodesKeep(nodes[i := n], h) && CandidatesKeep(nodes[i := n], h)
  {
    var nodes' := nodes[i := n];
    forall t: nat, k: nat, v: Id | Point(h, t, k, v) && v in nodes'
      ensures Kept(h, t, k, nodes'[v].log, nodes'[v].term + 1)
    {
      assert Kept(h, t, k, nodes[v].log, nodes[v].term + 1);
    }
    forall t: nat, k: nat, v: Id, u: nat | Point(h, t, k, v) && (u, v) in h.ballots && t < u && u !in h.reigns
      ensures CandidateKeeps(nodes', h, t, k, u, h.ballots[(u, v)])
    {
      assert CandidateKeeps(nodes, h, t, k, u, h.ballots[(u, v)]);
    }
  }

  lemma CalmNet(nodes: map<Id, NodeState>, h: History, net: set<Packet>, i: Id, n: NodeState)
    requires Calm(nodes, i, n) && GoodNet(nodes, h, net)
    ensures GoodNet(nodes[i := n], h, net)
  {
    var nodes' := nodes[i := n];
    assert nodes'.Keys == nodes.Keys;
    forall p | p in net
      ensures GoodPacket(nodes', h, p)
    {
      assert GoodPacket(nodes, h, p);
    }
  }

  lemma CalmStep(s: System, i: Id, n: NodeState)
    requires Inv(s) && Calm(s.nodes, i, n)
    requires GoodNode(s.nodes.Keys, i, n)
    requires GoodLeader(i, n, s.hist) && GoodCandidate(s.nodes.Keys, i, n, s.hist)
    requires Backed(s.hist, s.nodes.Keys, n.log, n.commit, n.term)
    ensures Inv(SetNode(s, i, n))
  {
    hide ReignLogs, NodeLogs, GoodBallots, GoodElectors, GoodAcks, NodesKeep, CandidatesKeep, LeadersKeep, DeliveriesBacked, GoodNet, Backed, GoodLeader, GoodCandidate;
    assert SetNode(s, i, n).nodes.Keys == s.nodes.Keys;
    CalmLogs(s.nodes, s.hist, i, n);
    CalmRecords(s.nodes, s.hist, i, n);
    CalmKeep(s.nodes, s.hist, i, n);
    CalmNet(s.nodes, s.hist, s.net, i, n);
  }

  lemma PostKeeps(s: System, packets: set<Packet>)
    requires Inv(s)
    requires forall p :: p in packets ==> GoodPacket(s.nodes, s.hist, p)
    ensures Inv(Post(s, packets))
  {
    hide ReignLogs, NodeLogs, GoodBallots, GoodElectors, GoodAcks, NodesKeep, CandidatesKeep, LeadersKeep, DeliveriesBacked, GoodNodes, GoodRoles, CommitsBacked, GoodPacket;
  }

  lemma GrowsReflexive(h: History)
    ensures Grows(h, h)
  {
  }

  lemma ObserveKeeps(s: System, i: Id, term: nat)
    requires Inv(s) && i in s.nodes
    ensures Inv(Observe(s, i, term))
  {
    hide ReignLogs, NodeLogs, GoodBallots, GoodElectors, GoodAcks, NodesKeep, CandidatesKeep, LeadersKeep, DeliveriesBacked, GoodNet;
    var n, n' := s.nodes[i], Seen(s.nodes[i], term);
    GrowsReflexive(s.hist);
    BackedGrows(s.hist, s.hist, s.nodes.Keys, n.log, n'.log, n.commit, n.term, n'.term);
    CalmStep(s, i, n');
  }

  // ---- standing for election ----

  /** `g` records one more vote than `h`: `voter` for `candidate` in `term`. */
  ghost predicate Voted(h: History, g: History, term: nat, voter: Id, candidate: Id) {
    && g == RecordVote(h, term, voter, candidate)
    && ((term, voter) in h.ballots ==> h.ballots[(term, voter)] == candidate)
  }

  lemma SupportersGrow(h: History, g: History, nodes: set<Id>, term: nat, voter: Id, candidate: Id, t: nat, c: Id, waiting: set<Id>)
    requires Voted(h, g, term, voter, candidate)
    ensures |Supporters(h, nodes, t, c) - waiting| <= |Supporters(g, nodes, t, c) - waiting|
  {
    SubsetSize(Supporters(h, nodes, t, c) - waiting, Supporters(g, nodes, t, c) - waiting);
  }

  /** The other nodes' roles are untouched by a new vote. */
  lemma VotedRole(h: History, g: History, nodes: set<Id>, term: nat, voter: Id, candidate: Id, i: Id, n: NodeState)
    requires Voted(h, g, term, voter, candidate)
    requires GoodLeader(i, n, h) && GoodCandidate(nodes, i, n, h)
    ensures GoodLeader(i, n, g) && GoodCandidate(nodes, i, n, g)
  {
    SupportersGrow(h, g, nodes, term, voter, candidate, n.term, i, n.awaiting);
    assert forall p :: Ack(g, n.term, p) == Ack(h, n.term, p);
  }

  lemma VotedKept(h: History, g: History, term: nat, voter: Id, candidate: Id, t: nat, k: nat, log: seq<Entry>, u: nat)
    requires Voted(h, g, term, voter, candidate) && t in h.reigns
    ensures Kept(h, t, k, log, u) ==> Kept(g, t, k, log, u)
  {
    if !Agree(h.reigns[t].log, log, k) && Kept(h, t, k, log, u) {
      var w :| t < w < u && Lacks(h, t, k, w);
      assert Lacks(g, t, k, w);
    }
  }

  lemma VotedElectors(nodes: map<Id, NodeState>, h: History, g: History, term: nat, voter: Id, candidate: Id)
    requires Voted(h, g, term, voter, candidate) && GoodElectors(nodes, h)
    ensures GoodElectors(nodes, g)
  {
  }

  lemma VotedGrows(h: History, g: History, term: nat, voter: Id, candidate: Id)
    requires Voted(h, g, term, voter, candidate)
    ensures Grows(h, g)
  {
  }

  lemma VotedNet(nodes: map<Id, NodeState>, h: History, g: History, net: set<Packet>, term: nat, voter: Id, candidate: Id)
    requires Voted(h, g, term, voter, candidate) && GoodNet(nodes, h, net)
    ensures GoodNet(nodes, g, net)
  {
    VotedGrows(h, g, term, voter, candidate);
    forall p | p in net
      ensures GoodPacket(nodes, g, p)
    {
      assert GoodPacket(nodes, h, p);
      if p.AppendAsk? || p.AppendReply? {
        AppendGrows(h, g, nodes.Keys, p.req);
      }
    }
  }

  /** The vote itself, as the voter sees it: any point it holds, the candidate keeps. */
  lemma VotedKeep(nodes: map<Id, NodeState>, h: History, g: History, term: nat, voter: Id, candidate: Id)
    requires Voted(h, g, term, voter, candidate)
    requires NodesKeep(nodes, h) && CandidatesKeep(nodes, h)
    requires forall t: nat, k: nat :: Point(h, t, k, voter) && t < term && term !in h.reigns ==>
               CandidateKeeps(nodes, h, t, k, term, candidate)
    ensures NodesKeep(nodes, g) && CandidatesKeep(nodes, g)
  {
    forall t: nat, k: nat, v: Id | Point(g, t, k, v) && v in nodes
      ensures Kept(g, t, k, nodes[v].log, nodes[v].term + 1)
    {
      assert Point(h, t, k, v);
      VotedKept(h, g, term, voter, candidate, t, k, nodes[v].log, nodes[v].term + 1);
    }
    forall t: nat, k: nat, v: Id, u: nat | Point(g, t, k, v) && (u, v) in g.ballots && t < u && u !in g.reigns
      ensures CandidateKeeps(nodes, g, t, k, u, g.ballots[(u, v)])
    {
      assert Point(h, t, k, v);
      var c := g.ballots[(u, v)];
      assert CandidateKeeps(nodes, h, t, k, u, c);
      if c in nodes {
        VotedKept(h, g, term, voter, candidate, t, k, nodes[c].log, u);
      }
    }
  }

  lemma VotedLeadersKeep(h: History, g: History, term: nat, voter: Id, candidate: Id)
    requires Voted(h, g, term, voter, candidate) && LeadersKeep(h)
    ensures LeadersKeep(g)
  {
    forall t: nat, k: nat, v: Id, u: nat | Point(g, t, k, v) && u in g.reigns && v in g.reigns[u].electors && t < u
      ensures Kept(g, t, k, g.reigns[u].log, u)
    {
      assert Point(h, t, k, v);
      VotedKept(h, g, term, voter, candidate, t, k, g.reigns[u].log, u);
    }
  }

  lemma VotedCommits(nodes: map<Id, NodeState>, h: History, g: History, term: nat, voter: Id, candidate: Id)
    requires Voted(h, g, term, voter, candidate) && CommitsBacked(nodes, h) && GoodNodes(nodes)
    ensures CommitsBacked(nodes, g)
  {
    VotedGrows(h, g, term, voter, candidate);
    forall i | i in nodes
      ensures Backed(g, nodes.Keys, nodes[i].log, nodes[i].commit, nodes[i].term)
    {
      BackedGrows(h, g, nodes.Keys, nodes[i].log, nodes[i].log, nodes[i].commit, nodes[i].term, nodes[i].term);
    }
  }

  /** Recording one vote, everything else equal. */
  lemma VoteStep(s: System, term: nat, voter: Id, candidate: Id)
    requires Inv(s) && Voted(s.hist, RecordVote(s.hist, term, voter, candidate), term, voter, candidate)
    requires voter in s.nodes && candidate in s.nodes && term <= s.nodes[voter].term && term <= s.nodes[candidate].term
    requires term == s.nodes[voter].term ==> s.nodes[voter].votedFor == Some(candidate)
    requires forall t: nat, k: nat :: Point(s.hist, t, k, voter) && t < term && term !in s.hist.reigns ==>
               CandidateKeeps(s.nodes, s.hist, t, k, term, candidate)
    ensures Inv(s.(hist := RecordVote(s.hist, term, voter, candidate)))
  {
    hide ReignLogs, NodeLogs, GoodElectors, GoodNodes, NodesKeep, CandidatesKeep, LeadersKeep, DeliveriesBacked, GoodNet,
      CommitsBacked, GoodLeader, GoodCandidate, CandidateKeeps, Point;
    var h, g := s.hist, RecordVote(s.hist, term, voter, candidate);
    forall i | i in s.nodes
      ensures GoodLeader(i, s.nodes[i], g) && GoodCandidate(s.nodes.Keys, i, s.nodes[i], g)
    {
      VotedRole(h, g, s.nodes.Keys, term, voter, candidate, i, s.nodes[i]);
    }
    VotedGrows(h, g, term, voter, candidate);
    VotedElectors(s.nodes, h, g, term, voter, candidate);
    VotedKeep(s.nodes, h, g, term, voter, candidate);
    VotedLeadersKeep(h, g, term, voter, candidate);
    VotedCommits(s.nodes, h, g, term, voter, candidate);
    VotedNet(s.nodes, h, g, s.net, term, voter, candidate);
    DeliveriesGrow(h, g, s.nodes.Keys, s.delivered);
  }

  lemma PromoteKeep(nodes: map<Id, NodeState>, h: History, i: Id)
    requires i in nodes && NodesKeep(nodes, h) && CandidatesKeep(nodes, h)
    requires forall v :: (nodes[i].term, v) in h.ballots && h.ballots[(nodes[i].term, v)] == i ==> v == i
    ensures var nodes' := nodes[i := nodes[i].(role := Candidate)]; NodesKeep(nodes', h) && CandidatesKeep(nodes', h)
  {
    var nodes' := nodes[i := nodes[i].(role := Candidate)];
    forall t: nat, k: nat, v: Id | Point(h, t, k, v) && v in nodes'
      ensures Kept(h, t, k, nodes'[v].log, nodes'[v].term + 1)
    {
      assert Kept(h, t, k, nodes[v].log, nodes[v].term + 1);
    }
    forall t: nat, k: nat, v: Id, u: nat | Point(h, t, k, v) && (u, v) in h.ballots && t < u && u !in h.reigns
      ensures CandidateKeeps(nodes', h, t, k, u, h.ballots[(u, v)])
    {
      assert CandidateKeeps(nodes, h, t, k, u, h.ballots[(u, v)]);
      if h.ballots[(u, v)] == i && nodes[i].term == u {
        assert Kept(h, t, k, nodes[v].log, nodes[v].term + 1);
        if !Agree(h.reigns[t].log, nodes[i].log, k) {
          var w :| t < w < u + 1 && Lacks(h, t, k, w);
          assert w < u;
        }
      }
    }
  }

  lemma PromoteNet(nodes: map<Id, NodeState>, h: History, net: set<Packet>, i: Id)
    requires i in nodes && GoodNet(nodes, h, net)
    requires forall p :: p in net && p.VoteAsk? && p.ask.candidate == i ==> p.ask.term < nodes[i].term
    ensures GoodNet(nodes[i := nodes[i].(role := Candidate)], h, net)
  {
    var nodes' := nodes[i := nodes[i].(role := Candidate)];
    assert nodes'.Keys == nodes.Keys;
    forall p | p in net
      ensures GoodPacket(nodes', h, p)
    {
      assert GoodPacket(nodes, h, p);
    }
  }

  /** A follower that has just voted for itself in a fresh term may call itself candidate. */
  lemma PromoteStep(s: System, i: Id)
    requires Inv(s) && i in s.nodes && !s.nodes[i].role.Leader?
    requires GoodCandidate(s.nodes.Keys, i, s.nodes[i].(role := Candidate), s.hist)
    requires forall v :: (s.nodes[i].term, v) in s.hist.ballots && s.hist.ballots[(s.nodes[i].term, v)] == i ==> v == i
    requires forall p :: p in s.net && p.VoteAsk? && p.ask.candidate == i ==> p.ask.term < s.nodes[i].term
    ensures Inv(SetNode(s, i, s.nodes[i].(role := Candidate)))
  {
    hide ReignLogs, NodeLogs, GoodBallots, GoodElectors, GoodAcks, NodesKeep, CandidatesKeep, LeadersKeep,
      DeliveriesBacked, GoodNet, GoodRoles, GoodNodes, CommitsBacked, GoodCandidate;
    var n := s.nodes[i].(role := Candidate);
    assert s.nodes[i := n].Keys == s.nodes.Keys;
    PromoteNodes(s.nodes, s.hist, i);
    PromoteKeep(s.nodes, s.hist, i);
    PromoteNet(s.nodes, s.hist, s.net, i);
    PromoteRoles(s.nodes, s.hist, i, n);
    CalmLogs(s.nodes, s.hist, i, n);
    CalmRecords(s.nodes, s.hist, i, n);
  }

  lemma PromoteNodes(nodes: map<Id, NodeState>, h: History, i: Id)
    requires GoodNodes(nodes) && CommitsBacked(nodes, h) && i in nodes && !nodes[i].role.Leader?
    ensures var nodes' := nodes[i := nodes[i].(role := Candidate)]; GoodNodes(nodes') && CommitsBacked(nodes', h)
  {
    hide Backed;
    assert nodes[i := nodes[i].(role := Candidate)].Keys == nodes.Keys;
  }

  lemma PromoteRoles(nodes: map<Id, NodeState>, h: History, i: Id, n: NodeState)
    requires GoodRoles(nodes, h) && i in nodes && !n.role.Leader? && GoodCandidate(nodes.Keys, i, n, h)
    ensures GoodRoles(nodes[i := n], h)
  {
    hide GoodCandidate;
    assert nodes[i := n].Keys == nodes.Keys;
  }

  lemma FreshTerm(s: System, i: Id)
    requires Inv(s) && i in s.nodes
    ensures forall t, v :: t > s.nodes[i].term && (t, v) in s.hist.ballots ==> v != i && s.hist.ballots[(t, v)] != i
    ensures forall t :: t > s.nodes[i].term && t in s.hist.reigns ==> s.hist.reigns[t].leader != i
    ensures forall p :: p in s.net && p.VoteAsk? && p.ask.candidate == i ==> p.ask.term <= s.nodes[i].term
  {
    forall p | p in s.net && p.VoteAsk? && p.ask.candidate == i
      ensures p.ask.term <= s.nodes[i].term
    {
      assert GoodPacket(s.nodes, s.hist, p);
    }
  }

  /** The vote for itself, recorded while still a follower. */
  lemma SelfVoteKeeps(s: System, i: Id, f: NodeState)
    requires Inv(s) && i in s.nodes
    requires f == BecomeCandidate(s.nodes[i]).(role := Follower)
    ensures Inv(SetNode(s, i, f).(hist := RecordVote(s.hist, f.term, i, i)))
  {
    hide ReignLogs, NodeLogs, GoodElectors, GoodAcks, NodesKeep, CandidatesKeep, LeadersKeep, DeliveriesBacked, GoodNet;
    FreshTerm(s, i);
    GrowsReflexive(s.hist);
    BackedGrows(s.hist, s.hist, s.nodes.Keys, f.log, f.log, f.commit, s.nodes[i].term, f.term);
    CalmStep(s, i, f);
    VoteStep(SetNode(s, i, f), f.term, i, i);
  }

  lemma StandKeeps(s: System, i: Id)
    requires Inv(s) && i in s.nodes
    ensures Inv(Stand(s, i))
  {
    hide Inv;
    var f := BecomeCandidate(s.nodes[i]).(role := Follower);
    var s' := SetNode(s, i, f).(hist := RecordVote(s.hist, f.term, i, i));
    assert SetNode(s', i, s'.nodes[i].(role := Candidate)) == Stand(s, i);
    FreshTerm(s, i);
    SelfVoteKeeps(s, i, f);
    StoodAlone(s', i);
    PromoteStep(s', i);
  }

  /** Only its own vote recorded so far: the candidate's count is covered. */
  lemma StoodAlone(s: System, i: Id)
    requires Inv(s) && i in s.nodes && s.nodes[i].votes == 1 && s.nodes[i].term >= 1
    requires (s.nodes[i].term, i) in s.hist.ballots && s.hist.ballots[(s.nodes[i].term, i)] == i
    requires s.nodes[i].term in s.hist.reigns ==> s.hist.reigns[s.nodes[i].term].leader != i
    ensures GoodCandidate(s.nodes.Keys, i, s.nodes[i].(role := Candidate), s.hist)
  {
    hide ReignLogs, NodeLogs, GoodElectors, GoodAcks, NodesKeep, CandidatesKeep, LeadersKeep, DeliveriesBacked, GoodNet,
      CommitsBacked, GoodBallots, GoodRoles;
    assert i !in Members(s.nodes[i].peers);
    SelfSupport(s.hist, s.nodes.Keys, s.nodes[i].term, i, s.nodes[i].awaiting);
  }

  lemma SelfSupport(h: History, nodes: set<Id>, term: nat, i: Id, waiting: set<Id>)
    requires i in nodes && i !in waiting && (term, i) in h.ballots && h.ballots[(term, i)] == i
    ensures 1 <= |Supporters(h, nodes, term, i) - waiting|
  {
    SubsetSize({i}, Supporters(h, nodes, term, i) - waiting);
  }

  // ---- granting a vote ----

  /** The heart of section 5.4.1: a candidate at least as up to date as a voter holds
      every acknowledged point the voter holds, or an intermediate leader lost it. */
  lemma UpToDateKeeps(h: History, t: nat, k: nat, voterLog: seq<Entry>, log: seq<Entry>, u: nat, bound: nat, req: VoteReq)
    requires ReignLogs(h.reigns) && Rooted(h.reigns, log) && Rooted(h.reigns, voterLog)
    requires TermsAscend(voterLog, bound) && TermsAscend(log, u) && u !in h.reigns
    requires t in h.reigns && 1 <= k <= |h.reigns[t].log| && h.reigns[t].log[k - 1].term == t
    requires Agree(h.reigns[t].log, voterLog, k)
    requires UpToDate(req, voterLog) && req.lastIndex == |log| && req.lastTerm == LastTerm(log)
    ensures Kept(h, t, k, log, u)
  {
    assert voterLog[k - 1].term == t;
    assert LastTerm(voterLog) >= t;
    var last := LastTerm(log);
    assert log[|log| - 1].term == last >= t;
    assert RootedAt(h.reigns, log, |log| - 1);
    var lead := h.reigns[last].log;
    assert Agree(log, lead, |log|);
    if last == t {
      assert LastTerm(voterLog) == t && |log| >= |voterLog| >= k;
    } else if Agree(h.reigns[t].log, lead, k) {
      assert lead[k - 1].term == t < last == lead[|log| - 1].term;
      assert TermsAscend(lead, last);
      assert k <= |log|;
    } else {
      assert Lacks(h, t, k, last);
    }
  }

  /** What the voter's log keeps, an up-to-date candidate of the voter's term keeps. */
  lemma VoterVouches(nodes: map<Id, NodeState>, h: History, i: Id, req: VoteReq, t: nat, k: nat)
    requires i in nodes && GoodAsk(nodes, req) && req.term == nodes[i].term
    requires UpToDate(req, nodes[i].log) && ReignLogs(h.reigns) && NodeLogs(nodes, h.reigns)
    requires Point(h, t, k, i) && t < req.term && req.term !in h.reigns
    requires Kept(h, t, k, nodes[i].log, req.term + 1)
    ensures CandidateKeeps(nodes, h, t, k, req.term, req.candidate)
  {
    var c := nodes[req.candidate];
    if c.role.Candidate? && c.term == req.term {
      if Agree(h.reigns[t].log, nodes[i].log, k) {
        UpToDateKeeps(h, t, k, nodes[i].log, c.log, req.term, req.term, req);
      } else {
        var w :| t < w < req.term + 1 && Lacks(h, t, k, w);
        assert w < req.term;
      }
    }
  }

  lemma GrantKeeps(s: System, i: Id, req: VoteReq)
    requires Inv(s) && i in s.nodes && GoodAsk(s.nodes, req)
    requires req.term == s.nodes[i].term && UpToDate(req, s.nodes[i].log)
    requires s.nodes[i].votedFor in {None, Some(req.candidate)}
    ensures Inv(Grant(s, i, req.candidate))
  {
    hide ReignLogs, NodeLogs, GoodElectors, GoodAcks, NodesKeep, CandidatesKeep, LeadersKeep, DeliveriesBacked, GoodNet;
    var n := CastVote(s.nodes[i], req.candidate);
    var s' := SetNode(s, i, n);
    assert s'.(hist := RecordVote(s'.hist, req.term, i, req.candidate)) == Grant(s, i, req.candidate);
    assert GoodAsk(s'.nodes, req);
    CalmStep(s, i, n);
    GrantRecord(s', i, req);
  }

  lemma GrantRecord(s: System, i: Id, req: VoteReq)
    requires Inv(s) && i in s.nodes && GoodAsk(s.nodes, req)
    requires req.term == s.nodes[i].term && UpToDate(req, s.nodes[i].log)
    requires s.nodes[i].votedFor == Some(req.candidate)
    ensures Inv(s.(hist := RecordVote(s.hist, req.term, i, req.candidate)))
  {
    hide ReignLogs, NodeLogs, GoodElectors, GoodAcks, CandidatesKeep, LeadersKeep, DeliveriesBacked, GoodNet, GoodRoles, CommitsBacked, Kept;
    forall t: nat, k: nat | Point(s.hist, t, k, i) && t < req.term && req.term !in s.hist.reigns
      ensures CandidateKeeps(s.nodes, s.hist, t, k, req.term, req.candidate)
    {
      VoterVouches(s.nodes, s.hist, i, req, t, k);
    }
    VoteStep(s, req.term, i, req.candidate);
  }
}
