/** A follower stores what a leader sent it. */
module RaftAccept {
  import opened RaftSpec
  import opened RaftSystem
  import opened RaftInvariant
  import opened RaftPreservation
  import opened RaftLead

  // ---- the truncate-only-on-conflict loop ----

  /** Equal terms at an index mean equal logs up to it. */
  ghost predicate TermsDecide(log: seq<Entry>, lead: seq<Entry>) {
    forall j :: 0 <= j < |log| && j < |lead| && log[j].term == lead[j].term ==> Agree(log, lead, j + 1)
  }

  ghost predicate SliceOf(lead: seq<Entry>, prev: nat, entries: seq<Entry>) {
    prev + |entries| <= |lead| && forall j :: 0 <= j < |entries| ==> entries[j] == lead[prev + j]
  }

  lemma RootedDecides(reigns: map<nat, Reign>, log: seq<Entry>, lead: seq<Entry>)
    requires Rooted(reigns, log) && Rooted(reigns, lead)
    ensures TermsDecide(log, lead)
  {
    forall j | 0 <= j < |log| && j < |lead| && log[j].term == lead[j].term
      ensures Agree(log, lead, j + 1)
    {
      assert RootedAt(reigns, log, j) && RootedAt(reigns, lead, j);
    }
  }

  /** Either everything sent was there already and nothing changes, or the result is
      exactly the leader's log up to the last entry sent. */
  lemma {:induction false} SpliceShape(log: seq<Entry>, lead: seq<Entry>, prev: nat, entries: seq<Entry>)
    requires prev <= |log| && SliceOf(lead, prev, entries) && Agree(log, lead, prev) && TermsDecide(log, lead)
    ensures var log', upTo := Splice(log, prev, entries), prev + |entries|;
            && Agree(log', lead, upTo)
            && (log' == log || (|log'| == upTo && !Agree(log, lead, upTo)))
    decreases |entries|
  {
    if entries != [] {
      assert entries[0] == lead[prev];
      if prev < |log| && log[prev].term == entries[0].term {
        assert Agree(log, lead, prev + 1);
        assert SliceOf(lead, prev + 1, entries[1..]) by { SliceRest(lead, prev, entries); }
        hide Agree, SliceOf, TermsDecide;
        SpliceShape(log, lead, prev + 1, entries[1..]);
      } else {
        assert Splice(log, prev, entries) == log[..prev] + entries;
        hide Splice, TermsDecide;
        Replaced(log, lead, prev, entries);
      }
    }
  }

  lemma SliceRest(lead: seq<Entry>, prev: nat, entries: seq<Entry>)
    requires SliceOf(lead, prev, entries) && entries != []
    ensures SliceOf(lead, prev + 1, entries[1..])
  {
  }

  /** What was agreed on, followed by what was sent. */
  lemma Replaced(log: seq<Entry>, lead: seq<Entry>, prev: nat, entries: seq<Entry>)
    requires prev <= |log| && SliceOf(lead, prev, entries) && Agree(log, lead, prev) && entries != []
    requires prev == |log| || log[prev].term != entries[0].term
    ensures Agree(log[..prev] + entries, lead, prev + |entries|) && !Agree(log, lead, prev + |entries|)
  {
    if prev < |log| { assert entries[0] == lead[prev] && log[prev] != lead[prev]; }
    forall j | 0 <= j < prev + |entries|
      ensures (log[..prev] + entries)[j] == lead[j]
    {
      assert j >= prev ==> entries[j - prev] == lead[prev + (j - prev)];
    }
  }

  /** What a follower had in common with the leader, it keeps. */
  lemma SpliceKeeps(log: seq<Entry>, lead: seq<Entry>, prev: nat, entries: seq<Entry>, part: seq<Entry>, k: nat)
    requires prev <= |log| && SliceOf(lead, prev, entries) && Agree(log, lead, prev) && TermsDecide(log, lead)
    requires Agree(part, log, k) && Agree(part, lead, k)
    ensures Agree(part, Splice(log, prev, entries), k)
  {
    SpliceShape(log, lead, prev, entries);
    assert Agree(log, lead, k);
  }

  // ---- leader completeness ----

  /** What is certified in one term is in the log of every later leader (section 5.4.3). */
  lemma {:induction false} LeaderCompleteness(nodes: map<Id, NodeState>, h: History, t: nat, k: nat, u: nat)
    requires GoodElectors(nodes, h) && LeadersKeep(h)
    requires Certified(h, nodes.Keys, t, k) && t <= u && u in h.reigns
    ensures Agree(h.reigns[t].log, h.reigns[u].log, k)
    decreases u
  {
    if t < u {
      var v := Overlap(Ackers(h, nodes.Keys, t, k), h.reigns[u].electors, nodes.Keys);
      assert Point(h, t, k, v);
      assert Kept(h, t, k, h.reigns[u].log, u);
      if !Agree(h.reigns[t].log, h.reigns[u].log, k) {
        var w :| t < w < u && Lacks(h, t, k, w);
        LeaderCompleteness(nodes, h, t, k, w);
      }
    }
  }

  // ---- the step ----

  /** `n` replaces node `i` after it took `req` from the leader of its own term. */
  ghost predicate Stores(nodes: map<Id, NodeState>, h: History, g: History, i: Id, n: NodeState, req: AppendReq) {
    && i in nodes && nodes[i].term == req.term && Consistent(nodes[i].log, req)
    && n == Accept(nodes[i], req)
    && GoodAppend(h, nodes.Keys, req)
    && g == RecordAck(h, req.term, i, req.prevIndex + |req.entries|)
  }

  lemma StoresGrows(nodes: map<Id, NodeState>, h: History, g: History, i: Id, n: NodeState, req: AppendReq)
    requires Stores(nodes, h, g, i, n, req)
    ensures Grows(h, g) && g.reigns == h.reigns && g.ballots == h.ballots
    ensures forall t: nat, v: Id :: (t, v) != (req.term, i) ==> Ack(g, t, v) == Ack(h, t, v)
  {
    hide GoodAppend, Accept;
  }

  lemma StoresReady(nodes: map<Id, NodeState>, h: History, g: History, i: Id, n: NodeState, req: AppendReq)
    requires Stores(nodes, h, g, i, n, req) && ReignLogs(h.reigns) && NodeLogs(nodes, h.reigns)
    ensures req.term in h.reigns
    ensures var log, lead := nodes[i].log, h.reigns[req.term].log;
            && n.log == Splice(log, req.prevIndex, req.entries)
            && SliceOf(lead, req.prevIndex, req.entries) && Agree(log, lead, req.prevIndex) && TermsDecide(log, lead)
  {
    hide Backed, Rooted, TermsAscend;
    RootedDecides(h.reigns, nodes[i].log, h.reigns[req.term].log);
  }

  lemma SplicedRooted(reigns: map<nat, Reign>, log: seq<Entry>, lead: seq<Entry>, log': seq<Entry>, upTo: nat, term: nat)
    requires Rooted(reigns, lead) && TermsAscend(lead, term)
    requires |log'| == upTo && Agree(log', lead, upTo)
    ensures Rooted(reigns, log') && TermsAscend(log', term)
  {
    forall j | 0 <= j < |log'|
      ensures RootedAt(reigns, log', j)
    {
      assert RootedAt(reigns, lead, j);
    }
  }

  lemma StoresLogs(nodes: map<Id, NodeState>, h: History, g: History, i: Id, n: NodeState, req: AppendReq)
    requires Stores(nodes, h, g, i, n, req) && ReignLogs(h.reigns) && NodeLogs(nodes, h.reigns)
    ensures NodeLogs(nodes[i := n], g.reigns)
  {
    hide GoodAppend, Rooted, TermsAscend;
    StoresGrows(nodes, h, g, i, n, req);
    StoresReady(nodes, h, g, i, n, req);
    var log, lead, upTo := nodes[i].log, h.reigns[req.term].log, req.prevIndex + |req.entries|;
    SpliceShape(log, lead, req.prevIndex, req.entries);
    if n.log != log {
      SplicedRooted(h.reigns, log, lead, n.log, upTo, req.term);
    }
  }

  lemma StoresRecords(nodes: map<Id, NodeState>, h: History, g: History, i: Id, n: NodeState, req: AppendReq)
    requires Stores(nodes, h, g, i, n, req)
    requires GoodBallots(nodes, h) && GoodElectors(nodes, h)
    ensures GoodBallots(nodes[i := n], g) && GoodElectors(nodes[i := n], g)
  {
    hide GoodAppend, Quorum;
    StoresGrows(nodes, h, g, i, n, req);
    assert nodes[i := n].Keys == nodes.Keys;
  }

  lemma StoresAcks(nodes: map<Id, NodeState>, h: History, g: History, i: Id, n: NodeState, req: AppendReq)
    requires Stores(nodes, h, g, i, n, req) && GoodAcks(nodes, h)
    ensures GoodAcks(nodes[i := n], g)
  {
    hide Backed;
    assert nodes[i := n].Keys == nodes.Keys;
  }

  lemma StoresRole(nodes: map<Id, NodeState>, h: History, g: History, i: Id, n: NodeState, req: AppendReq, j: Id, m: NodeState)
    requires Stores(nodes, h, g, i, n, req) && j != i
    requires GoodLeader(j, m, h) && GoodCandidate(nodes.Keys, j, m, h)
    ensures GoodLeader(j, m, g) && GoodCandidate(nodes.Keys, j, m, g)
  {
    hide GoodAppend, Accept;
    StoresGrows(nodes, h, g, i, n, req);
    assert Supporters(g, nodes.Keys, m.term, j) == Supporters(h, nodes.Keys, m.term, j);
    assert Grows(h, g);
    forall p | p in m.peers
      ensures Ack(h, m.term, p) <= Ack(g, m.term, p)
    {
    }
  }

  lemma StoresRoles(nodes: map<Id, NodeState>, h: History, g: History, i: Id, n: NodeState, req: AppendReq)
    requires Stores(nodes, h, g, i, n, req) && GoodRoles(nodes, h)
    ensures GoodRoles(nodes[i := n], g)
  {
    hide GoodAppend;
    var nodes' := nodes[i := n];
    assert nodes'.Keys == nodes.Keys;
    forall j | j in nodes'
      ensures GoodLeader(j, nodes'[j], g) && GoodCandidate(nodes'.Keys, j, nodes'[j], g)
    {
      if j != i {
        StoresRole(nodes, h, g, i, n, req, j, nodes[j]);
      }
    }
  }

  lemma StoresPoint(nodes: map<Id, NodeState>, h: History, g: History, i: Id, n: NodeState, req: AppendReq, t: nat, k: nat, v: Id)
    requires Stores(nodes, h, g, i, n, req) && Point(g, t, k, v)
    ensures Point(h, t, k, v) || (t == req.term && v == i && k <= req.prevIndex + |req.entries|)
  {
    hide GoodAppend, Accept;
    StoresGrows(nodes, h, g, i, n, req);
  }

  lemma KeptSame(h: History, g: History, t: nat, k: nat, log: seq<Entry>, u: nat)
    requires g.reigns == h.reigns && t in h.reigns && Kept(h, t, k, log, u)
    ensures Kept(g, t, k, log, u)
  {
    if !Agree(h.reigns[t].log, log, k) {
      var w :| t < w < u && Lacks(h, t, k, w);
      assert Lacks(g, t, k, w);
    }
  }

  /** The storing node's own point, old or new. */
  lemma StorerKeeps(nodes: map<Id, NodeState>, h: History, g: History, i: Id, n: NodeState, req: AppendReq, t: nat, k: nat)
    requires Stores(nodes, h, g, i, n, req) && ReignLogs(h.reigns) && NodeLogs(nodes, h.reigns)
    requires GoodAcks(nodes, h) && NodesKeep(nodes, h) && Point(g, t, k, i)
    ensures t in g.reigns && Kept(g, t, k, n.log, n.term + 1)
  {
    hide GoodAppend, Rooted, TermsAscend;
    StoresGrows(nodes, h, g, i, n, req);
    StoresReady(nodes, h, g, i, n, req);
    StoresPoint(nodes, h, g, i, n, req, t, k, i);
    var log, lead := nodes[i].log, h.reigns[req.term].log;
    if Point(h, t, k, i) {
      assert Kept(h, t, k, log, req.term + 1);
      if Agree(h.reigns[t].log, log, k) {
        if Agree(h.reigns[t].log, lead, k) {
          SpliceKeeps(log, lead, req.prevIndex, req.entries, h.reigns[t].log, k);
        } else {
          assert Lacks(g, t, k, req.term);
        }
      } else {
        var w :| t < w < req.term + 1 && Lacks(h, t, k, w);
        assert Lacks(g, t, k, w);
      }
    } else {
      SpliceShape(log, lead, req.prevIndex, req.entries);
    }
  }

  lemma StoresNodesKeep(nodes: map<Id, NodeState>, h: History, g: History, i: Id, n: NodeState, req: AppendReq)
    requires Stores(nodes, h, g, i, n, req) && ReignLogs(h.reigns) && NodeLogs(nodes, h.reigns)
    requires GoodAcks(nodes, h) && NodesKeep(nodes, h)
    ensures NodesKeep(nodes[i := n], g)
  {
    hide GoodAppend, ReignLogs, NodeLogs, Kept, GoodAcks;
    var nodes' := nodes[i := n];
    forall t: nat, k: nat, v: Id | Point(g, t, k, v) && v in nodes'
      ensures Kept(g, t, k, nodes'[v].log, nodes'[v].term + 1)
    {
      if v == i {
        StorerKeeps(nodes, h, g, i, n, req, t, k);
      } else {
        StoresGrows(nodes, h, g, i, n, req);
        StoresPoint(nodes, h, g, i, n, req, t, k, v);
        KeptSame(h, g, t, k, nodes[v].log, nodes[v].term + 1);
      }
    }
  }

  lemma StoresOthersKeep(nodes: map<Id, NodeState>, h: History, g: History, i: Id, n: NodeState, req: AppendReq)
    requires Stores(nodes, h, g, i, n, req) && GoodBallots(nodes, h) && GoodElectors(nodes, h)
    requires CandidatesKeep(nodes, h) && LeadersKeep(h)
    ensures CandidatesKeep(nodes[i := n], g) && LeadersKeep(g)
  {
    hide GoodAppend, Kept, Quorum;
    var nodes' := nodes[i := n];
    StoresGrows(nodes, h, g, i, n, req);
    forall t: nat, k: nat, v: Id, u: nat | Point(g, t, k, v) && (u, v) in g.ballots && t < u && u !in g.reigns
      ensures CandidateKeeps(nodes', g, t, k, u, g.ballots[(u, v)])
    {
      StoresPoint(nodes, h, g, i, n, req, t, k, v);
      var c := g.ballots[(u, v)];
      assert CandidateKeeps(nodes, h, t, k, u, c);
      if c != i && c in nodes && nodes[c].role.Candidate? && nodes[c].term == u {
        KeptSame(h, g, t, k, nodes[c].log, u);
      }
    }
    forall t: nat, k: nat, v: Id, u: nat | Point(g, t, k, v) && u in g.reigns && v in g.reigns[u].electors && t < u
      ensures Kept(g, t, k, g.reigns[u].log, u)
    {
      StoresPoint(nodes, h, g, i, n, req, t, k, v);
      assert (u, v) in h.ballots;
      KeptSame(h, g, t, k, h.reigns[u].log, u);
    }
  }

  /** Nothing at or below the commit index is cut: what is backed, every later leader has. */
  lemma CommittedStays(nodes: map<Id, NodeState>, h: History, g: History, i: Id, n: NodeState, req: AppendReq)
    requires Stores(nodes, h, g, i, n, req) && ReignLogs(h.reigns) && NodeLogs(nodes, h.reigns)
    requires GoodElectors(nodes, h) && LeadersKeep(h)
    requires Backed(h, nodes.Keys, nodes[i].log, nodes[i].commit, nodes[i].term) && nodes[i].commit <= |nodes[i].log|
    ensures Agree(nodes[i].log, n.log, nodes[i].commit)
  {
    hide Rooted, TermsAscend, GoodElectors, LeadersKeep, Ackers;
    StoresReady(nodes, h, g, i, n, req);
    var log, lead, c := nodes[i].log, h.reigns[req.term].log, nodes[i].commit;
    if c != 0 {
      var t: nat, m: nat :| Certified(h, nodes.Keys, t, m) && t <= req.term && c <= m && Agree(h.reigns[t].log, log, c);
      LeaderCompleteness(nodes, h, t, m, req.term);
      assert Agree(log, lead, c);
    }
    SpliceKeeps(log, lead, req.prevIndex, req.entries, log, c);
  }

  /** The commit index moves only forward, because the sender ships its whole suffix. */
  lemma CommitForward(nodes: map<Id, NodeState>, h: History, g: History, i: Id, n: NodeState, req: AppendReq)
    requires Stores(nodes, h, g, i, n, req)
    ensures n.commit == if req.leaderCommit > nodes[i].commit then req.leaderCommit else nodes[i].commit
  {
    hide Backed;
  }

  lemma StorerBacked(nodes: map<Id, NodeState>, h: History, g: History, i: Id, n: NodeState, req: AppendReq)
    requires Stores(nodes, h, g, i, n, req) && ReignLogs(h.reigns) && NodeLogs(nodes, h.reigns)
    requires GoodElectors(nodes, h) && LeadersKeep(h)
    requires Backed(h, nodes.Keys, nodes[i].log, nodes[i].commit, nodes[i].term) && nodes[i].commit <= |nodes[i].log|
    ensures Backed(g, nodes.Keys, n.log, n.commit, n.term) && n.commit <= |n.log|
  {
    hide Rooted, TermsAscend, GoodElectors, LeadersKeep, Certified, Backed;
    StoresGrows(nodes, h, g, i, n, req);
    StoresReady(nodes, h, g, i, n, req);
    CommitForward(nodes, h, g, i, n, req);
    var log, lead := nodes[i].log, h.reigns[req.term].log;
    if req.leaderCommit > nodes[i].commit {
      SpliceShape(log, lead, req.prevIndex, req.entries);
      assert Agree(lead, n.log, req.leaderCommit);
      BackedGrows(h, g, nodes.Keys, lead, n.log, req.leaderCommit, req.term, n.term);
    } else {
      CommittedStays(nodes, h, g, i, n, req);
      BackedGrows(h, g, nodes.Keys, log, n.log, n.commit, n.term, n.term);
    }
  }

  lemma StoresCommits(nodes: map<Id, NodeState>, h: History, g: History, i: Id, n: NodeState, req: AppendReq)
    requires Stores(nodes, h, g, i, n, req) && ReignLogs(h.reigns) && NodeLogs(nodes, h.reigns)
    requires GoodElectors(nodes, h) && LeadersKeep(h) && CommitsBacked(nodes, h) && GoodNodes(nodes)
    ensures CommitsBacked(nodes[i := n], g)
    ensures GoodNodes(nodes[i := n])
  {
    hide Backed, ReignLogs, NodeLogs, GoodElectors, LeadersKeep, GoodAppend;
    var nodes' := nodes[i := n];
    assert nodes'.Keys == nodes.Keys;
    StoresGrows(nodes, h, g, i, n, req);
    StorerBacked(nodes, h, g, i, n, req);
    CommitForward(nodes, h, g, i, n, req);
    forall j | j in nodes'
      ensures Backed(g, nodes'.Keys, nodes'[j].log, nodes'[j].commit, nodes'[j].term)
    {
      if j != i {
        BackedGrows(h, g, nodes.Keys, nodes[j].log, nodes[j].log, nodes[j].commit, nodes[j].term, nodes[j].term);
      }
    }
  }

  lemma StoresNet(nodes: map<Id, NodeState>, h: History, g: History, net: set<Packet>, i: Id, n: NodeState, req: AppendReq)
    requires Stores(nodes, h, g, i, n, req) && GoodNet(nodes, h, net)
    ensures GoodNet(nodes[i := n], g, net)
  {
    hide GoodAppend;
    var nodes' := nodes[i := n];
    assert nodes'.Keys == nodes.Keys;
    StoresGrows(nodes, h, g, i, n, req);
    forall p | p in net
      ensures GoodPacket(nodes', g, p)
    {
      assert GoodPacket(nodes, h, p);
      if p.AppendAsk? || p.AppendReply? {
        AppendGrows(h, g, nodes.Keys, p.req);
      }
    }
  }

  lemma StoreKeeps(s: System, i: Id, req: AppendReq)
    requires Inv(s) && i in s.nodes && s.nodes[i].term == req.term && Consistent(s.nodes[i].log, req)
    requires GoodAppend(s.hist, s.nodes.Keys, req)
    ensures Inv(Store(s, i, req))
  {
    hide ReignLogs, NodeLogs, GoodBallots, GoodElectors, GoodRoles, GoodAcks, NodesKeep, CandidatesKeep, LeadersKeep,
      CommitsBacked, DeliveriesBacked, GoodNet, GoodNodes, GoodAppend, Accept, RecordAck;
    var n, g := Accept(s.nodes[i], req), RecordAck(s.hist, req.term, i, req.prevIndex + |req.entries|);
    assert Store(s, i, req) == SetNode(s, i, n).(hist := g);
    assert s.nodes[i := n].Keys == s.nodes.Keys;
    assert Stores(s.nodes, s.hist, g, i, n, req);
    StoresGrows(s.nodes, s.hist, g, i, n, req);
    StoresLogs(s.nodes, s.hist, g, i, n, req);
    StoresRecords(s.nodes, s.hist, g, i, n, req);
    StoresAcks(s.nodes, s.hist, g, i, n, req);
    StoresRoles(s.nodes, s.hist, g, i, n, req);
    StoresNodesKeep(s.nodes, s.hist, g, i, n, req);
    StoresOthersKeep(s.nodes, s.hist, g, i, n, req);
    StoresCommits(s.nodes, s.hist, g, i, n, req);
    StoresNet(s.nodes, s.hist, g, s.net, i, n, req);
    DeliveriesGrow(s.hist, g, s.nodes.Keys, s.delivered);
  }
}
