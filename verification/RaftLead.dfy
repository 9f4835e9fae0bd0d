/** A leader is elected, or appends to its log: both extend the log of one reign by
    an entry of the reign's own term. */
module RaftLead {
  import opened Common
  import opened RaftSpec
  import opened RaftSystem
  import opened RaftInvariant
  import opened RaftPreservation

  /** `g` is `h` after leader `i` of `term` went from `log` to `log'`. */
  ghost predicate Leads(h: History, g: History, i: Id, term: nat, log: seq<Entry>, log': seq<Entry>, electors: set<Id>) {
    && |log'| == |log| + 1 && Agree(log, log', |log|) && log'[|log|].term == term
    && g == RecordAck(h.(reigns := h.reigns[term := Reign(i, log', electors)]), term, i, |log'|)
    && (term in h.reigns ==> h.reigns[term] == Reign(i, log, electors))
  }

  /** What replaces node `i`: the longer log, the role of leader, the same term and vote. */
  ghost predicate Crowned(nodes: map<Id, NodeState>, i: Id, n: NodeState, term: nat, log': seq<Entry>) {
    && i in nodes && n.term == term == nodes[i].term && n.votedFor == nodes[i].votedFor
    && n.log == log' && n.role.Leader? && n.commit == nodes[i].commit && n.applied == nodes[i].applied
    && n.peers == nodes[i].peers
  }

  lemma LeadsGrows(h: History, g: History, i: Id, term: nat, log: seq<Entry>, log': seq<Entry>, electors: set<Id>)
    requires Leads(h, g, i, term, log, log', electors)
    ensures Grows(h, g)
  {
  }

  lemma RootedGrows(h: History, g: History, log: seq<Entry>)
    requires Grows(h, g) && Rooted(h.reigns, log)
    ensures Rooted(g.reigns, log)
  {
    forall j | 0 <= j < |log|
      ensures RootedAt(g.reigns, log, j)
    {
      assert RootedAt(h.reigns, log, j);
    }
  }

  lemma LeaderLogRooted(h: History, g: History, i: Id, term: nat, log: seq<Entry>, log': seq<Entry>, electors: set<Id>)
    requires Leads(h, g, i, term, log, log', electors)
    requires Rooted(h.reigns, log) && TermsAscend(log, term) && term >= 1
    ensures Rooted(g.reigns, log') && TermsAscend(log', term)
  {
    LeadsGrows(h, g, i, term, log, log', electors);
    RootedGrows(h, g, log);
    forall j | 0 <= j < |log'|
      ensures RootedAt(g.reigns, log', j)
    {
      if j < |log| {
        assert RootedAt(g.reigns, log, j);
      }
    }
  }

  lemma LeadsLogs(nodes: map<Id, NodeState>, h: History, g: History, i: Id, n: NodeState, term: nat, log: seq<Entry>, log': seq<Entry>, electors: set<Id>)
    requires Leads(h, g, i, term, log, log', electors) && Crowned(nodes, i, n, term, log') && nodes[i].log == log
    requires ReignLogs(h.reigns) && NodeLogs(nodes, h.reigns) && term >= 1
    ensures ReignLogs(g.reigns) && NodeLogs(nodes[i := n], g.reigns)
  {
    hide Rooted, TermsAscend, Leads;
    assert g.reigns == h.reigns[term := Reign(i, log', electors)] by { LeadsShape(h, g, i, term, log, log', electors); }
    LeadsGrows(h, g, i, term, log, log', electors);
    LeaderLogRooted(h, g, i, term, log, log', electors);
    forall t | t in g.reigns
      ensures Rooted(g.reigns, g.reigns[t].log) && TermsAscend(g.reigns[t].log, t) && t >= 1
    {
      if t != term {
        RootedGrows(h, g, h.reigns[t].log);
      }
    }
    forall j | j in nodes && j != i
      ensures Rooted(g.reigns, nodes[j].log)
    {
      RootedGrows(h, g, nodes[j].log);
    }
  }

  lemma LeadsShape(h: History, g: History, i: Id, term: nat, log: seq<Entry>, log': seq<Entry>, electors: set<Id>)
    requires Leads(h, g, i, term, log, log', electors)
    ensures g.reigns == h.reigns[term := Reign(i, log', electors)]
    ensures g.ballots == h.ballots
    ensures forall t: nat, v: Id :: (t, v) != (term, i) ==> Ack(g, t, v) == Ack(h, t, v)
    ensures Ack(g, term, i) >= |log'|
  {
  }

  lemma LeadsElectors(nodes: map<Id, NodeState>, h: History, g: History, i: Id, n: NodeState, term: nat, log: seq<Entry>, log': seq<Entry>, electors: set<Id>)
    requires Leads(h, g, i, term, log, log', electors) && Crowned(nodes, i, n, term, log')
    requires GoodBallots(nodes, h) && GoodElectors(nodes, h)
    requires Quorum(electors, nodes.Keys)
    requires forall v :: v in electors ==> (term, v) in h.ballots && h.ballots[(term, v)] == i
    ensures GoodBallots(nodes[i := n], g) && GoodElectors(nodes[i := n], g)
  {
    hide Leads, Quorum;
    LeadsShape(h, g, i, term, log, log', electors);
    assert nodes[i := n].Keys == nodes.Keys;
  }

  lemma LeadsAcks(nodes: map<Id, NodeState>, h: History, g: History, i: Id, n: NodeState, term: nat, log: seq<Entry>, log': seq<Entry>, electors: set<Id>)
    requires Leads(h, g, i, term, log, log', electors) && Crowned(nodes, i, n, term, log')
    requires GoodAcks(nodes, h)
    ensures GoodAcks(nodes[i := n], g)
    ensures Ack(g, term, i) == |log'|
  {
    assert nodes[i := n].Keys == nodes.Keys;
  }

  /** A role other than `i`'s, in a cluster whose only leader of `term` is `i`. */
  lemma LeadsRole(nodes: set<Id>, h: History, g: History, i: Id, term: nat, log: seq<Entry>, log': seq<Entry>, electors: set<Id>, j: Id, n: NodeState)
    requires Leads(h, g, i, term, log, log', electors) && j != i
    requires GoodLeader(j, n, h) && GoodCandidate(nodes, j, n, h)
    ensures GoodLeader(j, n, g) && GoodCandidate(nodes, j, n, g)
  {
    assert Supporters(g, nodes, n.term, j) == Supporters(h, nodes, n.term, j);
    if n.role.Leader? {
      assert n.term != term;
      forall p | p in n.peers
        ensures Ack(g, n.term, p) == Ack(h, n.term, p)
      {
      }
    }
  }

  /** A point of `g` is a point of `h`, or the leader's own acknowledgement of its log. */
  lemma LeadsPoint(nodes: map<Id, NodeState>, h: History, g: History, i: Id, term: nat, log: seq<Entry>, log': seq<Entry>, electors: set<Id>, t: nat, k: nat, v: Id)
    requires Leads(h, g, i, term, log, log', electors) && GoodAcks(nodes, h) && Point(g, t, k, v)
    ensures (t, v) != (term, i) ==> Point(h, t, k, v)
  {
    if (t, v) != (term, i) {
      assert Ack(g, t, v) == Ack(h, t, v);
      assert (t, v) in h.acks;
    }
  }

  lemma KeptLonger(h: History, t: nat, k: nat, log: seq<Entry>, log': seq<Entry>, u: nat, u': nat)
    requires t in h.reigns && Kept(h, t, k, log, u) && Agree(log, log', |log|) && u <= u'
    ensures Kept(h, t, k, log', u')
  {
    if !Agree(h.reigns[t].log, log, k) {
      var w :| t < w < u && Lacks(h, t, k, w);
    }
  }

  lemma LeadsNodesKeep(nodes: map<Id, NodeState>, h: History, g: History, i: Id, n: NodeState, term: nat, log: seq<Entry>, log': seq<Entry>, electors: set<Id>)
    requires Leads(h, g, i, term, log, log', electors) && Crowned(nodes, i, n, term, log') && nodes[i].log == log
    requires GoodAcks(nodes, h) && NodesKeep(nodes, h) && GoodBallots(nodes, h)
    ensures NodesKeep(nodes[i := n], g)
  {
    var nodes' := nodes[i := n];
    LeadsGrows(h, g, i, term, log, log', electors);
    forall t: nat, k: nat, v: Id | Point(g, t, k, v) && v in nodes'
      ensures Kept(g, t, k, nodes'[v].log, nodes'[v].term + 1)
    {
      LeadsPoint(nodes, h, g, i, term, log, log', electors, t, k, v);
      if (t, v) != (term, i) {
        KeptGrows(h, g, t, k, nodes[v].log, nodes[v].term + 1);
        KeptLonger(g, t, k, nodes[v].log, nodes'[v].log, nodes[v].term + 1, nodes[v].term + 1);
      }
    }
  }

  lemma LeadsCandidatesKeep(nodes: map<Id, NodeState>, h: History, g: History, i: Id, n: NodeState, term: nat, log: seq<Entry>, log': seq<Entry>, electors: set<Id>)
    requires Leads(h, g, i, term, log, log', electors) && Crowned(nodes, i, n, term, log')
    requires GoodAcks(nodes, h) && CandidatesKeep(nodes, h) && GoodBallots(nodes, h)
    ensures CandidatesKeep(nodes[i := n], g)
  {
    var nodes' := nodes[i := n];
    LeadsGrows(h, g, i, term, log, log', electors);
    forall t: nat, k: nat, v: Id, u: nat | Point(g, t, k, v) && (u, v) in g.ballots && t < u && u !in g.reigns
      ensures CandidateKeeps(nodes', g, t, k, u, g.ballots[(u, v)])
    {
      LeadsPoint(nodes, h, g, i, term, log, log', electors, t, k, v);
      assert (t, v) != (term, i);
      var c := g.ballots[(u, v)];
      assert CandidateKeeps(nodes, h, t, k, u, c);
      if c != i && c in nodes && nodes[c].role.Candidate? && nodes[c].term == u {
        KeptGrows(h, g, t, k, nodes[c].log, u);
      }
    }
  }

  lemma LeadsLeadersKeep(nodes: map<Id, NodeState>, h: History, g: History, i: Id, term: nat, log: seq<Entry>, log': seq<Entry>, electors: set<Id>)
    requires Leads(h, g, i, term, log, log', electors) && i in nodes && nodes[i].term == term
    requires GoodAcks(nodes, h) && LeadersKeep(h) && GoodBallots(nodes, h) && GoodElectors(nodes, h)
    requires forall v :: v in electors ==> (term, v) in h.ballots
    requires forall t: nat, k: nat, v: Id :: Point(h, t, k, v) && v in electors && t < term ==> Kept(h, t, k, log, term)
    ensures LeadersKeep(g)
  {
    LeadsGrows(h, g, i, term, log, log', electors);
    forall t: nat, k: nat, v: Id, u: nat | Point(g, t, k, v) && u in g.reigns && v in g.reigns[u].electors && t < u
      ensures Kept(g, t, k, g.reigns[u].log, u)
    {
      assert (u, v) in h.ballots;
      assert (t, v) != (term, i);
      LeadsPoint(nodes, h, g, i, term, log, log', electors, t, k, v);
      if u == term {
        assert Kept(h, t, k, log, term);
        KeptGrows(h, g, t, k, log, u);
        KeptLonger(g, t, k, log, log', u, u);
      } else {
        KeptGrows(h, g, t, k, h.reigns[u].log, u);
      }
    }
  }

  lemma LeadsCommits(nodes: map<Id, NodeState>, h: History, g: History, i: Id, n: NodeState, term: nat, log: seq<Entry>, log': seq<Entry>, electors: set<Id>)
    requires Leads(h, g, i, term, log, log', electors) && Crowned(nodes, i, n, term, log') && nodes[i].log == log
    requires CommitsBacked(nodes, h) && GoodNodes(nodes)
    ensures CommitsBacked(nodes[i := n], g)
  {
    hide Backed;
    LeadsGrows(h, g, i, term, log, log', electors);
    var nodes' := nodes[i := n];
    assert nodes'.Keys == nodes.Keys;
    forall j | j in nodes'
      ensures Backed(g, nodes'.Keys, nodes'[j].log, nodes'[j].commit, nodes'[j].term)
    {
      BackedGrows(h, g, nodes.Keys, nodes[j].log, nodes'[j].log, nodes[j].commit, nodes[j].term, nodes[j].term);
    }
  }

  lemma LeadsNet(nodes: map<Id, NodeState>, h: History, g: History, net: set<Packet>, i: Id, n: NodeState, term: nat, log: seq<Entry>, log': seq<Entry>, electors: set<Id>)
    requires Leads(h, g, i, term, log, log', electors) && Crowned(nodes, i, n, term, log')
    requires GoodNet(nodes, h, net)
    ensures GoodNet(nodes[i := n], g, net)
  {
    hide GoodAppend;
    var nodes' := nodes[i := n];
    assert nodes'.Keys == nodes.Keys;
    LeadsGrows(h, g, i, term, log, log', electors);
    forall p | p in net
      ensures GoodPacket(nodes', g, p)
    {
      assert GoodPacket(nodes, h, p);
      if p.AppendAsk? || p.AppendReply? {
        AppendGrows(h, g, nodes.Keys, p.req);
      }
    }
  }

  lemma LeadsRoles(nodes: map<Id, NodeState>, h: History, g: History, i: Id, n: NodeState, term: nat, log: seq<Entry>, log': seq<Entry>, electors: set<Id>)
    requires Leads(h, g, i, term, log, log', electors) && i in nodes
    requires GoodRoles(nodes, h) && GoodLeader(i, n, g) && n.role.Leader?
    ensures GoodRoles(nodes[i := n], g)
  {
    hide Leads, GoodLeader;
    var nodes' := nodes[i := n];
    assert nodes'.Keys == nodes.Keys;
    forall j | j in nodes'
      ensures GoodLeader(j, nodes'[j], g) && GoodCandidate(nodes'.Keys, j, nodes'[j], g)
    {
      if j != i {
        LeadsRole(nodes.Keys, h, g, i, term, log, log', electors, j, nodes[j]);
      }
    }
  }

  /** Extending a reign, as a step of the whole system. */
  lemma LeadStep(s: System, g: History, i: Id, n: NodeState, log': seq<Entry>, electors: set<Id>)
    requires Inv(s) && i in s.nodes && s.nodes[i].term >= 1
    requires Leads(s.hist, g, i, n.term, s.nodes[i].log, log', electors)
    requires Crowned(s.nodes, i, n, n.term, log') && GoodNode(s.nodes.Keys, i, n) && GoodLeader(i, n, g)
    requires Quorum(electors, s.nodes.Keys)
    requires forall v :: v in electors ==> (n.term, v) in s.hist.ballots && s.hist.ballots[(n.term, v)] == i
    requires forall t: nat, k: nat, v: Id :: Point(s.hist, t, k, v) && v in electors && t < n.term ==>
               Kept(s.hist, t, k, s.nodes[i].log, n.term)
    ensures Inv(SetNode(s, i, n).(hist := g))
  {
    hide ReignLogs, NodeLogs, GoodBallots, GoodElectors, GoodRoles, GoodAcks, NodesKeep, CandidatesKeep, LeadersKeep,
      CommitsBacked, DeliveriesBacked, GoodNet, Leads, GoodLeader, Point, Kept, Quorum, GoodNode;
    var term, log := n.term, s.nodes[i].log;
    assert s.nodes[i := n].Keys == s.nodes.Keys;
    LeadsGrows(s.hist, g, i, term, log, log', electors);
    LeadsShape(s.hist, g, i, term, log, log', electors);
    LeadsLogs(s.nodes, s.hist, g, i, n, term, log, log', electors);
    LeadsElectors(s.nodes, s.hist, g, i, n, term, log, log', electors);
    LeadsAcks(s.nodes, s.hist, g, i, n, term, log, log', electors);
    LeadsRoles(s.nodes, s.hist, g, i, n, term, log, log', electors);
    LeadsNodesKeep(s.nodes, s.hist, g, i, n, term, log, log', electors);
    LeadsCandidatesKeep(s.nodes, s.hist, g, i, n, term, log, log', electors);
    LeadsLeadersKeep(s.nodes, s.hist, g, i, term, log, log', electors);
    LeadsCommits(s.nodes, s.hist, g, i, n, term, log, log', electors);
    LeadsNet(s.nodes, s.hist, g, s.net, i, n, term, log, log', electors);
    DeliveriesGrow(s.hist, g, s.nodes.Keys, s.delivered);
  }

  // ---- winning ----

  lemma Overlap(a: set<Id>, b: set<Id>, nodes: set<Id>) returns (v: Id)
    requires Quorum(a, nodes) && Quorum(b, nodes)
    ensures v in a && v in b
  {
    if a * b == {} {
      assert |a + b| == |a| + |b|;
      SubsetSize(a + b, nodes);
      assert false;
    }
    v :| v in a * b;
  }

  lemma ClusterSize(nodes: set<Id>, i: Id, peers: seq<Id>)
    requires i in nodes && DistinctPeers(peers) && Members(peers) == nodes - {i}
    ensures |nodes| == |peers| + 1
  {
    DistinctSize(peers);
    assert nodes == Members(peers) + {i};
  }

  lemma {:induction false} DistinctSize(peers: seq<Id>)
    requires DistinctPeers(peers)
    ensures |Members(peers)| == |peers|
  {
    if peers != [] {
      DistinctSize(peers[1..]);
      assert Members(peers) == {peers[0]} + Members(peers[1..]);
      assert peers[0] !in peers[1..];
    }
  }

  /** Nobody else can have won this term: any two quorums share a voter, who votes once. */
  lemma TermIsOpen(nodes: map<Id, NodeState>, h: History, i: Id, electors: set<Id>)
    requires i in nodes && nodes[i].role.Candidate?
    requires GoodElectors(nodes, h) && GoodCandidate(nodes.Keys, i, nodes[i], h)
    requires Quorum(electors, nodes.Keys)
    requires forall v :: v in electors ==> (nodes[i].term, v) in h.ballots && h.ballots[(nodes[i].term, v)] == i
    ensures nodes[i].term !in h.reigns
  {
    var term := nodes[i].term;
    if term in h.reigns {
      var v := Overlap(electors, h.reigns[term].electors, nodes.Keys);
      assert false;
    }
  }

  lemma EnoughSupporters(s: System, i: Id)
    requires Inv(s) && i in s.nodes && s.nodes[i].role.Candidate? && Majority(s.nodes[i].votes, s.nodes[i])
    ensures Quorum(Supporters(s.hist, s.nodes.Keys, s.nodes[i].term, i), s.nodes.Keys) && s.nodes[i].term >= 1
  {
    hide ReignLogs, NodeLogs, GoodBallots, GoodElectors, GoodAcks, NodesKeep, CandidatesKeep, LeadersKeep,
      CommitsBacked, DeliveriesBacked, GoodNet;
    var n := s.nodes[i];
    var all := Supporters(s.hist, s.nodes.Keys, n.term, i);
    SubsetSize(all - n.awaiting, all);
    ClusterSize(s.nodes.Keys, i, n.peers);
  }

  lemma SupportersKept(s: System, i: Id, electors: set<Id>)
    requires Inv(s) && i in s.nodes && s.nodes[i].role.Candidate? && s.nodes[i].term !in s.hist.reigns
    requires electors == Supporters(s.hist, s.nodes.Keys, s.nodes[i].term, i)
    ensures forall t: nat, k: nat, v: Id :: Point(s.hist, t, k, v) && v in electors && t < s.nodes[i].term ==>
              Kept(s.hist, t, k, s.nodes[i].log, s.nodes[i].term)
  {
    hide ReignLogs, NodeLogs, GoodBallots, GoodElectors, GoodAcks, NodesKeep, LeadersKeep, GoodNodes, GoodRoles,
      CommitsBacked, DeliveriesBacked, GoodNet, Kept;
    forall t: nat, k: nat, v: Id | Point(s.hist, t, k, v) && v in electors && t < s.nodes[i].term
      ensures Kept(s.hist, t, k, s.nodes[i].log, s.nodes[i].term)
    {
      assert CandidateKeeps(s.nodes, s.hist, t, k, s.nodes[i].term, s.hist.ballots[(s.nodes[i].term, v)]);
    }
  }

  lemma FilledProgress(n: NodeState)
    ensures var m := BecomeLeader(n);
            forall p :: p in n.peers ==>
              p in m.next && m.next[p] == |n.log| + 2 && p in m.matched && m.matched[p] == 0
  {
  }

  lemma WinnerIsGood(s: System, i: Id)
    requires Inv(s) && i in s.nodes && s.nodes[i].role.Candidate? && s.nodes[i].term !in s.hist.reigns
    ensures GoodNode(s.nodes.Keys, i, BecomeLeader(s.nodes[i]))
    ensures GoodLeader(i, BecomeLeader(s.nodes[i]), Win(s, i).hist)
  {
    hide ReignLogs, NodeLogs, GoodBallots, GoodElectors, NodesKeep, LeadersKeep, CandidatesKeep, GoodRoles,
      CommitsBacked, DeliveriesBacked, GoodNet, Fill, Supporters;
    assert GoodNode(s.nodes.Keys, i, s.nodes[i]);
    FilledProgress(s.nodes[i]);
    assert (s.nodes[i].term, i) !in s.hist.acks;
  }

  lemma WinKeeps(s: System, i: Id)
    requires Inv(s) && i in s.nodes && s.nodes[i].role.Candidate?
    requires Majority(s.nodes[i].votes, s.nodes[i])
    ensures Inv(Win(s, i))
  {
    hide ReignLogs, NodeLogs, GoodBallots, GoodNodes, NodesKeep, LeadersKeep, CandidatesKeep, GoodAcks,
      CommitsBacked, DeliveriesBacked, GoodNet, GoodNode, GoodLeader, GoodCandidate, Quorum, GoodElectors, Point, Kept;
    var s', n := Win(s, i), BecomeLeader(s.nodes[i]);
    var electors := Supporters(s.hist, s.nodes.Keys, n.term, i);
    assert SetNode(s, i, n).(hist := s'.hist) == s';
    EnoughSupporters(s, i);
    TermIsOpen(s.nodes, s.hist, i, electors);
    WinnerIsGood(s, i);
    SupportersKept(s, i, electors);
    LeadStep(s, s'.hist, i, n, n.log, electors);
  }

  // ---- appending ----

  lemma ExtenderIsGood(s: System, i: Id, cmd: Bytes)
    requires Inv(s) && i in s.nodes && s.nodes[i].role.Leader?
    ensures GoodNode(s.nodes.Keys, i, Extend(s, i, cmd).nodes[i])
    ensures GoodLeader(i, Extend(s, i, cmd).nodes[i], Extend(s, i, cmd).hist)
  {
    hide ReignLogs, NodeLogs, GoodBallots, GoodElectors, NodesKeep, LeadersKeep, CandidatesKeep, GoodCandidate,
      CommitsBacked, DeliveriesBacked, GoodNet;
    assert GoodLeader(i, s.nodes[i], s.hist);
  }

  lemma ElectorsStillKeep(s: System, i: Id)
    requires Inv(s) && i in s.nodes && s.nodes[i].role.Leader?
    ensures s.nodes[i].term in s.hist.reigns && s.nodes[i].term >= 1
    ensures var reign := s.hist.reigns[s.nodes[i].term];
            && reign.leader == i && reign.log == s.nodes[i].log
            && Quorum(reign.electors, s.nodes.Keys)
            && (forall v :: v in reign.electors ==>
                 (s.nodes[i].term, v) in s.hist.ballots && s.hist.ballots[(s.nodes[i].term, v)] == i)
            && (forall t: nat, k: nat, v: Id :: Point(s.hist, t, k, v) && v in reign.electors && t < s.nodes[i].term ==>
                 Kept(s.hist, t, k, reign.log, s.nodes[i].term))
  {
    hide NodeLogs, GoodBallots, NodesKeep, CandidatesKeep, GoodCandidate, GoodNodes, GoodAcks, Quorum,
      CommitsBacked, DeliveriesBacked, GoodNet, Point, Kept, Rooted, TermsAscend;
    assert GoodLeader(i, s.nodes[i], s.hist);
  }

  lemma ExtendKeeps(s: System, i: Id, cmd: Bytes)
    requires Inv(s) && i in s.nodes && s.nodes[i].role.Leader?
    ensures Inv(Extend(s, i, cmd))
  {
    hide Inv, Quorum, Point, Kept, GoodNode, GoodLeader;
    var s', n := Extend(s, i, cmd), Propose(s.nodes[i], cmd);
    ElectorsStillKeep(s, i);
    assert SetNode(s, i, n).(hist := s'.hist) == s';
    ExtenderIsGood(s, i, cmd);
    LeadStep(s, s'.hist, i, n, n.log, s.hist.reigns[n.term].electors);
  }
}
