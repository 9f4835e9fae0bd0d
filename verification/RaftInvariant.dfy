/** The inductive invariant behind Raft's safety argument (section 5.4.3 of Ongaro and
    Ousterhout, "In Search of an Understandable Consensus Algorithm"). */
module RaftInvariant {
  import opened Common
  import opened RaftSpec
  import opened RaftSystem

  /** Two logs hold the same entries at indices 1..k, and both reach k. */
  ghost predicate Agree(a: seq<Entry>, b: seq<Entry>, k: nat) {
    k <= |a| && k <= |b| && forall j :: 0 <= j < k ==> a[j] == b[j]
  }

  // ---- logs ----

  /** An entry of term t was written by the leader of term t, and the log up to it
      is a prefix of what that leader had. */
  ghost predicate RootedAt(reigns: map<nat, Reign>, log: seq<Entry>, j: nat)
    requires j < |log|
  {
    log[j].term in reigns && Agree(log, reigns[log[j].term].log, j + 1)
  }

  ghost predicate Rooted(reigns: map<nat, Reign>, log: seq<Entry>) {
    forall j :: 0 <= j < |log| ==> RootedAt(reigns, log, j)
  }

  ghost predicate TermsAscend(log: seq<Entry>, bound: nat) {
    && (forall j :: 0 <= j < |log| ==> 1 <= log[j].term <= bound)
    && (forall i, j :: 0 <= i < j < |log| ==> log[i].term <= log[j].term)
  }

  ghost predicate ReignLogs(reigns: map<nat, Reign>) {
    forall t :: t in reigns ==>
      Rooted(reigns, reigns[t].log) && TermsAscend(reigns[t].log, t) && t >= 1
  }

  ghost predicate NodeLogs(nodes: map<Id, NodeState>, reigns: map<nat, Reign>) {
    forall i :: i in nodes ==>
      Rooted(reigns, nodes[i].log) && TermsAscend(nodes[i].log, nodes[i].term)
  }

  // ---- nodes ----

  ghost predicate GoodNode(nodes: set<Id>, i: Id, n: NodeState) {
    && n.id == i
    && DistinctPeers(n.peers) && Members(n.peers) == nodes - {i}
    && n.disk == HardState(n.term, n.votedFor, n.log)
    && n.applied <= n.commit <= |n.log|
    && n.awaiting <= Members(n.peers)
  }

  ghost predicate GoodNodes(nodes: map<Id, NodeState>) {
    forall i :: i in nodes ==> GoodNode(nodes.Keys, i, nodes[i])
  }

  // ---- elections ----

  ghost predicate Quorum(q: set<Id>, nodes: set<Id>) {
    q <= nodes && |q| * 2 > |nodes|
  }

  ghost predicate GoodBallots(nodes: map<Id, NodeState>, h: History) {
    forall t, v :: (t, v) in h.ballots ==>
      && v in nodes && t <= nodes[v].term
      && (t == nodes[v].term ==> nodes[v].votedFor == Some(h.ballots[(t, v)]))
      && h.ballots[(t, v)] in nodes && t <= nodes[h.ballots[(t, v)]].term
  }

  ghost predicate GoodElectors(nodes: map<Id, NodeState>, h: History) {
    forall t :: t in h.reigns ==>
      && h.reigns[t].leader in nodes && t <= nodes[h.reigns[t].leader].term
      && Quorum(h.reigns[t].electors, nodes.Keys)
      && forall v :: v in h.reigns[t].electors ==>
           (t, v) in h.ballots && h.ballots[(t, v)] == h.reigns[t].leader
  }

  ghost predicate GoodLeader(i: Id, n: NodeState, h: History) {
    && (n.role.Leader? ==>
          && n.term in h.reigns && h.reigns[n.term].leader == i
          && h.reigns[n.term].log == n.log
          && Ack(h, n.term, i) == |n.log|
          && forall p :: p in n.peers ==>
               && p in n.matched && n.matched[p] <= Ack(h, n.term, p) && n.matched[p] <= |n.log|
               && p in n.next && 1 <= n.next[p] <= |n.log| + 1)
  }

  ghost predicate GoodCandidate(nodes: set<Id>, i: Id, n: NodeState, h: History) {
    n.role.Candidate? ==>
      && n.term >= 1
      && (n.term in h.reigns ==> h.reigns[n.term].leader != i)
      && (n.term, i) in h.ballots && h.ballots[(n.term, i)] == i
      && n.votes <= |Supporters(h, nodes, n.term, i) - n.awaiting|
  }

  ghost predicate GoodRoles(nodes: map<Id, NodeState>, h: History) {
    forall i :: i in nodes ==> GoodLeader(i, nodes[i], h) && GoodCandidate(nodes.Keys, i, nodes[i], h)
  }

  // ---- acknowledgements, and what later leaders keep of them ----

  ghost predicate GoodAcks(nodes: map<Id, NodeState>, h: History) {
    forall t, v :: (t, v) in h.acks ==>
      v in nodes && t in h.reigns && t <= nodes[v].term && h.acks[(t, v)] <= |h.reigns[t].log|
  }

  /** Node `v` acknowledged the first `k` entries of the leader of term `t`, the last
      of which that leader wrote itself. */
  ghost predicate Point(h: History, t: nat, k: nat, v: Id) {
    t in h.reigns && 1 <= k <= Ack(h, t, v) && k <= |h.reigns[t].log| && h.reigns[t].log[k - 1].term == t
  }

  ghost predicate Lacks(h: History, t: nat, k: nat, w: nat) {
    t in h.reigns && w in h.reigns && !Agree(h.reigns[t].log, h.reigns[w].log, k)
  }

  /** `log` still holds the first `k` entries of the leader of term `t`, unless some
      leader of a term strictly between `t` and `u` does not hold them. */
  ghost predicate Kept(h: History, t: nat, k: nat, log: seq<Entry>, u: nat)
    requires t in h.reigns
  {
    Agree(h.reigns[t].log, log, k) || exists w :: t < w < u && Lacks(h, t, k, w)
  }

  ghost predicate NodesKeep(nodes: map<Id, NodeState>, h: History) {
    forall t: nat, k: nat, v: Id :: Point(h, t, k, v) && v in nodes ==> Kept(h, t, k, nodes[v].log, nodes[v].term + 1)
  }

  ghost predicate CandidatesKeep(nodes: map<Id, NodeState>, h: History) {
    forall t: nat, k: nat, v: Id, u: nat :: Point(h, t, k, v) && (u, v) in h.ballots && t < u && u !in h.reigns ==>
      CandidateKeeps(nodes, h, t, k, u, h.ballots[(u, v)])
  }

  ghost predicate CandidateKeeps(nodes: map<Id, NodeState>, h: History, t: nat, k: nat, u: nat, c: Id)
    requires t in h.reigns
  {
    c in nodes && nodes[c].role.Candidate? && nodes[c].term == u ==> Kept(h, t, k, nodes[c].log, u)
  }

  ghost predicate LeadersKeep(h: History) {
    forall t: nat, k: nat, v: Id, u: nat :: Point(h, t, k, v) && u in h.reigns && v in h.reigns[u].electors && t < u ==>
      Kept(h, t, k, h.reigns[u].log, u)
  }

  // ---- commitment ----

  ghost function Ackers(h: History, nodes: set<Id>, t: nat, k: nat): set<Id> {
    set v | v in nodes && Ack(h, t, v) >= k
  }

  /** A quorum acknowledged the first `k` entries of the leader of term `t`, the last of
      them of that very term: section 5.4.2's rule. */
  ghost predicate Certified(h: History, nodes: set<Id>, t: nat, k: nat) {
    && t in h.reigns && 1 <= k <= |h.reigns[t].log| && h.reigns[t].log[k - 1].term == t
    && |Ackers(h, nodes, t, k)| * 2 > |nodes|
  }

  /** The first `k` entries of `log` are certified by a leader of a term up to `bound`. */
  ghost predicate Backed(h: History, nodes: set<Id>, log: seq<Entry>, k: nat, bound: nat) {
    k == 0 || exists t: nat, m: nat :: Certified(h, nodes, t, m) && t <= bound && k <= m && Agree(h.reigns[t].log, log, k)
  }

  ghost predicate CommitsBacked(nodes: map<Id, NodeState>, h: History) {
    forall i :: i in nodes ==> Backed(h, nodes.Keys, nodes[i].log, nodes[i].commit, nodes[i].term)
  }

  ghost predicate DeliveryBacked(h: History, nodes: set<Id>, m: ApplyMsg) {
    m.index >= 1 && exists t: nat, k: nat :: Certified(h, nodes, t, k) && m.index <= k
                                   && h.reigns[t].log[m.index - 1] == Entry(m.term, m.cmd)
  }

  ghost predicate DeliveriesBacked(nodes: set<Id>, h: History, delivered: set<(Id, ApplyMsg)>) {
    forall i, m :: (i, m) in delivered ==> DeliveryBacked(h, nodes, m)
  }

  // ---- the network ----

  ghost predicate GoodAsk(nodes: map<Id, NodeState>, req: VoteReq) {
    && req.candidate in nodes && req.term <= nodes[req.candidate].term
    && (nodes[req.candidate].role.Candidate? && nodes[req.candidate].term == req.term ==>
          req.lastIndex == |nodes[req.candidate].log| && req.lastTerm == LastTerm(nodes[req.candidate].log))
  }

  ghost predicate GoodVote(h: History, p: Packet)
    requires p.VoteReply?
  {
    p.vote.granted ==> (p.electionTerm, p.from) in h.ballots && h.ballots[(p.electionTerm, p.from)] == p.to
  }

  /** The request is a slice of its leader's log, ending no earlier than the leader's
      commit index: the sender ships its whole suffix. */
  ghost predicate GoodAppend(h: History, nodes: set<Id>, req: AppendReq) {
    && req.term in h.reigns
    && var log := h.reigns[req.term].log;
       && req.prevIndex + |req.entries| <= |log|
       && req.prevTerm == TermAt(log, req.prevIndex)
       && (forall j :: 0 <= j < |req.entries| ==> req.entries[j] == log[req.prevIndex + j])
       && req.leaderCommit <= req.prevIndex + |req.entries|
       && Backed(h, nodes, log, req.leaderCommit, req.term)
  }

  ghost predicate GoodPacket(nodes: map<Id, NodeState>, h: History, p: Packet) {
    match p
    case VoteAsk(_, ask) => GoodAsk(nodes, ask)
    case VoteReply(_, _, _, _) => GoodVote(h, p)
    case AppendAsk(to, req) => GoodAppend(h, nodes.Keys, req) && req.leader in nodes && to in nodes
    case AppendReply(from, to, req, resp) =>
      && GoodAppend(h, nodes.Keys, req) && from in nodes
      && (resp.success ==> req.prevIndex + |req.entries| <= Ack(h, req.term, from))
  }

  ghost predicate GoodNet(nodes: map<Id, NodeState>, h: History, net: set<Packet>) {
    forall p :: p in net ==> GoodPacket(nodes, h, p)
  }

  ghost predicate Inv(s: System) {
    && GoodNodes(s.nodes)
    && ReignLogs(s.hist.reigns)
    && NodeLogs(s.nodes, s.hist.reigns)
    && GoodBallots(s.nodes, s.hist)
    && GoodElectors(s.nodes, s.hist)
    && GoodRoles(s.nodes, s.hist)
    && GoodAcks(s.nodes, s.hist)
    && NodesKeep(s.nodes, s.hist)
    && CandidatesKeep(s.nodes, s.hist)
    && LeadersKeep(s.hist)
    && CommitsBacked(s.nodes, s.hist)
    && DeliveriesBacked(s.nodes.Keys, s.hist, s.delivered)
    && GoodNet(s.nodes, s.hist, s.net)
  }

  lemma InitInv(s: System)
    requires Init(s)
    ensures Inv(s)
  {
  }
}
