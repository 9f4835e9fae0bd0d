/** What every run of a cluster guarantees, told of the nodes alone. */
module RaftTheorems {
  import opened Common
  import opened RaftSpec
  import opened RaftSystem
  import opened RaftInvariant
  import opened RaftPreservation
  import opened RaftAccept
  import opened RaftSafety

  lemma {:induction false} RunInv(r: Run, k: nat)
    requires IsRun(r) && k < |r.states|
    ensures Inv(r.states[k])
  {
    hide Inv, Do, Enabled;
    if k == 0 {
      InitInv(r.states[0]);
    } else {
      RunInv(r, k - 1);
      StepKeeps(r.states[k - 1], r.steps[k - 1]);
    }
  }

  // ---- history along a run ----

  lemma GrowsTransitive(a: History, b: History, c: History)
    requires Grows(a, b) && Grows(b, c)
    ensures Grows(a, c)
  {
  }

  lemma WinGrows(s: System, i: Id)
    requires Inv(s) && i in s.nodes && s.nodes[i].role.Candidate? && Majority(s.nodes[i].votes, s.nodes[i])
    ensures Grows(s.hist, Win(s, i).hist)
  {
    hide ReignLogs, NodeLogs, GoodBallots, GoodNodes, NodesKeep, LeadersKeep, CandidatesKeep, GoodAcks,
      CommitsBacked, DeliveriesBacked, GoodNet, GoodLeader, Quorum, GoodElectors, GoodCandidate;
    RaftLead.EnoughSupporters(s, i);
    RaftLead.TermIsOpen(s.nodes, s.hist, i, Supporters(s.hist, s.nodes.Keys, s.nodes[i].term, i));
  }

  lemma ExtendGrows(s: System, i: Id, cmd: Bytes)
    requires Inv(s) && i in s.nodes && s.nodes[i].role.Leader?
    ensures Grows(s.hist, Extend(s, i, cmd).hist)
  {
    hide ReignLogs, NodeLogs, GoodBallots, GoodNodes, NodesKeep, LeadersKeep, CandidatesKeep, GoodAcks,
      CommitsBacked, DeliveriesBacked, GoodNet, Quorum, GoodElectors, GoodCandidate;
    assert GoodLeader(i, s.nodes[i], s.hist);
  }

  lemma VoteReplyGrows(s: System, p: Packet)
    requires Inv(s) && Enabled(s, RecvVoteReply(p))
    ensures Grows(s.hist, DoVoteReply(s, p).hist)
  {
    hide Inv, Win, Grows;
    GrowsReflexive(s.hist);
    var n := s.nodes[p.to];
    if p.vote.term <= n.term && n.role.Candidate? && n.term == p.electionTerm && p.vote.granted {
      var m := n.(awaiting := n.awaiting - {p.from}, votes := n.votes + 1);
      CountKeeps(s, p, m);
      if Majority(m.votes, m) {
        WinGrows(SetNode(s, p.to, m), p.to);
      }
    }
  }

  lemma TimeoutGrows(s: System, i: Id)
    requires Inv(s) && i in s.nodes && !s.nodes[i].role.Leader?
    ensures Grows(s.hist, DoTimeout(s, i).hist)
  {
    hide Inv, Win, BecomeCandidate;
    StandKeeps(s, i);
    if Majority(1, Stand(s, i).nodes[i]) {
      SoleVoter(s, i);
      WinGrows(Stand(s, i), i);
      GrowsTransitive(s.hist, Stand(s, i).hist, Win(Stand(s, i), i).hist);
    }
  }

  lemma SoleVoter(s: System, i: Id)
    requires i in s.nodes
    ensures var c := Stand(s, i).nodes[i]; c.role.Candidate? && c.votes == 1
  {
  }

  lemma StepGrows(s: System, step: Step)
    requires Inv(s) && Enabled(s, step)
    ensures Grows(s.hist, Do(s, step).hist)
    ensures Do(s, step).nodes.Keys == s.nodes.Keys
  {
    hide Inv, DoTimeout, DoVoteReply, Extend, Handled, Seen, HandleRequestVote, HandleAppendEntries, OnAppendResponse;
    StepsAreHandlers(s, step);
    match step
    case Timeout(i) => TimeoutGrows(s, i);
    case RecvVoteReply(p) => VoteReplyGrows(s, p);
    case Submit(i, cmd) => ExtendGrows(s, i, cmd);
    case _ =>
  }

  lemma {:induction false} RunGrows(r: Run, x: nat, y: nat)
    requires IsRun(r) && x <= y < |r.states|
    ensures Grows(r.states[x].hist, r.states[y].hist)
    ensures r.states[x].nodes.Keys == r.states[y].nodes.Keys
    decreases y
  {
    hide Inv, Do, Enabled, Grows;
    if x == y {
      GrowsReflexive(r.states[x].hist);
    } else {
      RunGrows(r, x, y - 1);
      RunInv(r, y - 1);
      StepGrows(r.states[y - 1], r.steps[y - 1]);
      GrowsTransitive(r.states[x].hist, r.states[y - 1].hist, r.states[y].hist);
    }
  }

  // ---- Election Safety (section 5.2) ----

  /** At most one node is ever leader of a term, at any two moments of any run. */
  lemma ElectionSafety(r: Run, x: nat, y: nat, p: Id, q: Id)
    requires IsRun(r) && x < |r.states| && y < |r.states|
    requires p in r.states[x].nodes && r.states[x].nodes[p].role.Leader?
    requires q in r.states[y].nodes && r.states[y].nodes[q].role.Leader?
    requires r.states[x].nodes[p].term == r.states[y].nodes[q].term
    ensures p == q
  {
    hide IsRun;
    LeaderReigns(r, x, p);
    LeaderReigns(r, y, q);
    if x <= y { RunGrows(r, x, y); } else { RunGrows(r, y, x); }
  }

  lemma LeaderReigns(r: Run, x: nat, p: Id)
    requires IsRun(r) && x < |r.states|
    requires p in r.states[x].nodes && r.states[x].nodes[p].role.Leader?
    ensures var n, h := r.states[x].nodes[p], r.states[x].hist;
            n.term in h.reigns && h.reigns[n.term].leader == p && h.reigns[n.term].log == n.log
  {
    hide IsRun, ReignLogs, NodeLogs, GoodBallots, GoodNodes, NodesKeep, LeadersKeep, CandidatesKeep, GoodAcks,
      CommitsBacked, DeliveriesBacked, GoodNet, GoodElectors, GoodCandidate;
    RunInv(r, x);
    assert GoodLeader(p, r.states[x].nodes[p], r.states[x].hist);
  }

  // ---- Log Matching (section 5.3) ----

  /** In every reachable state, two logs with the same term at an index are the same up
      to that index. */
  lemma LogMatching(r: Run, x: nat, p: Id, q: Id, index: nat)
    requires IsRun(r) && x < |r.states| && p in r.states[x].nodes && q in r.states[x].nodes
    requires 1 <= index <= |r.states[x].nodes[p].log| && index <= |r.states[x].nodes[q].log|
    requires r.states[x].nodes[p].log[index - 1].term == r.states[x].nodes[q].log[index - 1].term
    ensures r.states[x].nodes[p].log[..index] == r.states[x].nodes[q].log[..index]
  {
    hide IsRun, ReignLogs, GoodBallots, GoodNodes, NodesKeep, LeadersKeep, CandidatesKeep, GoodAcks, TermsAscend, Rooted,
      CommitsBacked, DeliveriesBacked, GoodNet, GoodElectors, GoodRoles;
    RunInv(r, x);
    var a, b := r.states[x].nodes[p].log, r.states[x].nodes[q].log;
    RootedDecides(r.states[x].hist.reigns, a, b);
    assert Agree(a, b, index - 1 + 1);
  }

  // ---- Leader Completeness (section 5.4.3) ----

  lemma CommitIsBacked(r: Run, x: nat, p: Id)
    requires IsRun(r) && x < |r.states| && p in r.states[x].nodes
    ensures var s := r.states[x]; var n := s.nodes[p];
            n.applied <= n.commit <= |n.log| && Backed(s.hist, s.nodes.Keys, n.log, n.commit, n.term)
  {
    hide IsRun, ReignLogs, GoodBallots, NodeLogs, NodesKeep, LeadersKeep, CandidatesKeep, GoodAcks,
      DeliveriesBacked, GoodNet, GoodElectors, GoodRoles, Backed;
    RunInv(r, x);
  }

  /** Backing outlives the state it was observed in. */
  lemma BackedLater(r: Run, x: nat, y: nat, log: seq<Entry>, k: nat, bound: nat)
    requires IsRun(r) && x <= y < |r.states| && k <= |log|
    requires Backed(r.states[x].hist, r.states[x].nodes.Keys, log, k, bound)
    ensures Backed(r.states[y].hist, r.states[y].nodes.Keys, log, k, bound)
  {
    hide IsRun, Backed;
    RunGrows(r, x, y);
    BackedGrows(r.states[x].hist, r.states[y].hist, r.states[x].nodes.Keys, log, log, k, bound, bound);
  }

  lemma BackedInReign(s: System, log: seq<Entry>, k: nat, bound: nat, u: nat)
    requires Inv(s) && k <= |log| && Backed(s.hist, s.nodes.Keys, log, k, bound)
    requires u in s.hist.reigns && bound <= u
    ensures Agree(log, s.hist.reigns[u].log, k)
  {
    hide ReignLogs, GoodBallots, NodeLogs, NodesKeep, LeadersKeep, CandidatesKeep, GoodAcks,
      DeliveriesBacked, GoodNet, GoodElectors, GoodRoles, CommitsBacked, GoodNodes;
    if k > 0 {
      var t: nat, m: nat :| Certified(s.hist, s.nodes.Keys, t, m) && t <= bound && k <= m && Agree(s.hist.reigns[t].log, log, k);
      LeaderCompleteness(s.nodes, s.hist, t, m, u);
    }
  }

  /** A leader's log, seen early, already has what its reign shares with a log of lower terms:
      what it appends later is of its own term. */
  lemma HeldFromTheStart(h: History, g: History, u: nat, log: seq<Entry>, k: nat, bound: nat)
    requires Grows(h, g) && u in h.reigns && k <= |log| && TermsAscend(log, bound) && bound < u
    requires Agree(log, g.reigns[u].log, k)
    ensures Agree(log, h.reigns[u].log, k)
  {
    var later, n := g.reigns[u].log, |h.reigns[u].log|;
    assert n < |later| ==> later[n].term == u;
    assert forall j :: 0 <= j < k ==> later[j] == log[j] && later[j].term < u;
  }

  /** What a node committed at some moment is in the log of every leader of a higher term, at
      any moment before or after, and in that of a leader of the same term from then on. */
  lemma CommittedReachesLeaders(r: Run, x: nat, y: nat, p: Id, q: Id)
    requires IsRun(r) && x < |r.states| && y < |r.states|
    requires p in r.states[x].nodes && q in r.states[y].nodes && r.states[y].nodes[q].role.Leader?
    requires r.states[x].nodes[p].term < r.states[y].nodes[q].term || (x <= y && r.states[x].nodes[p].term == r.states[y].nodes[q].term)
    ensures var n := r.states[x].nodes[p];
            n.commit <= |n.log| && n.commit <= |r.states[y].nodes[q].log|
            && r.states[y].nodes[q].log[..n.commit] == n.log[..n.commit]
  {
    hide IsRun, Backed, Inv, TermsAscend, Grows;
    var n, u := r.states[x].nodes[p], r.states[y].nodes[q].term;
    CommitIsBacked(r, x, p);
    LeaderReigns(r, y, q);
    var z := if x <= y then y else x;
    BackedLater(r, x, z, n.log, n.commit, n.term);
    RunInv(r, z);
    if x <= y {
      BackedInReign(r.states[y], n.log, n.commit, n.term, u);
    } else {
      RunGrows(r, y, x);
      GrowsHas(r.states[y].hist, r.states[x].hist, u);
      BackedInReign(r.states[x], n.log, n.commit, n.term, u);
      NodeAscends(r.states[x], p);
      HeldFromTheStart(r.states[y].hist, r.states[x].hist, u, n.log, n.commit, n.term);
    }
  }

  lemma GrowsHas(h: History, g: History, u: nat)
    requires Grows(h, g) && u in h.reigns
    ensures u in g.reigns
  {
  }

  lemma NodeAscends(s: System, i: Id)
    requires Inv(s) && i in s.nodes
    ensures TermsAscend(s.nodes[i].log, s.nodes[i].term)
  {
  }

  // ---- State Machine Safety (Figure 3) ----

  lemma BackedAgree(s: System, a: seq<Entry>, b: seq<Entry>, j: nat, k: nat, l: nat, bound: nat, bound': nat)
    requires Inv(s) && j < k <= |a| && j < l <= |b|
    requires Backed(s.hist, s.nodes.Keys, a, k, bound) && Backed(s.hist, s.nodes.Keys, b, l, bound')
    ensures a[j] == b[j]
  {
    hide ReignLogs, GoodBallots, NodeLogs, NodesKeep, LeadersKeep, CandidatesKeep, GoodAcks,
      DeliveriesBacked, GoodNet, GoodElectors, GoodRoles, CommitsBacked, GoodNodes, Ackers;
    var h, all := s.hist, s.nodes.Keys;
    var t: nat, m: nat :| Certified(h, all, t, m) && t <= bound && k <= m && Agree(h.reigns[t].log, a, k);
    var t': nat, m': nat :| Certified(h, all, t', m') && t' <= bound' && l <= m' && Agree(h.reigns[t'].log, b, l);
    if t <= t' {
      LeaderCompleteness(s.nodes, h, t, m, t');
    } else {
      LeaderCompleteness(s.nodes, h, t', m', t);
    }
    assert h.reigns[t].log[j] == a[j] && h.reigns[t'].log[j] == b[j];
  }

  /** No two nodes, at no two moments, crashes or not, commit different entries at an index. */
  lemma StateMachineSafety(r: Run, x: nat, y: nat, p: Id, q: Id, index: nat)
    requires IsRun(r) && x < |r.states| && y < |r.states| && p in r.states[x].nodes && q in r.states[y].nodes
    requires 1 <= index <= r.states[x].nodes[p].commit && index <= r.states[y].nodes[q].commit
    ensures index <= |r.states[x].nodes[p].log| && index <= |r.states[y].nodes[q].log|
    ensures r.states[x].nodes[p].log[index - 1] == r.states[y].nodes[q].log[index - 1]
  {
    hide IsRun, Backed, Inv;
    var z := if x <= y then y else x;
    var n, m := r.states[x].nodes[p], r.states[y].nodes[q];
    CommitIsBacked(r, x, p);
    CommitIsBacked(r, y, q);
    BackedLater(r, x, z, n.log, n.commit, n.term);
    BackedLater(r, y, z, m.log, m.commit, m.term);
    RunInv(r, z);
    BackedAgree(r.states[z], n.log, m.log, index - 1, n.commit, m.commit, n.term, m.term);
  }

  lemma DeliveredIsBacked(s: System, m: ApplyMsg) returns (t: nat, k: nat)
    requires DeliveryBacked(s.hist, s.nodes.Keys, m)
    ensures Certified(s.hist, s.nodes.Keys, t, k) && 1 <= m.index <= k
            && s.hist.reigns[t].log[m.index - 1] == Entry(m.term, m.cmd)
  {
    t, k :| Certified(s.hist, s.nodes.Keys, t, k) && m.index <= k
            && s.hist.reigns[t].log[m.index - 1] == Entry(m.term, m.cmd);
  }

  /** Everything ever handed to any state machine, across all incarnations, agrees. */
  lemma ApplySafety(r: Run, x: nat, p: Id, q: Id, a: ApplyMsg, b: ApplyMsg)
    requires IsRun(r) && x < |r.states|
    requires (p, a) in r.states[x].delivered && (q, b) in r.states[x].delivered && a.index == b.index
    ensures a == b
  {
    hide IsRun, ReignLogs, GoodBallots, NodeLogs, NodesKeep, LeadersKeep, CandidatesKeep, GoodAcks,
      GoodNet, GoodElectors, GoodRoles, CommitsBacked, GoodNodes, Ackers;
    RunInv(r, x);
    var s := r.states[x];
    var t, k := DeliveredIsBacked(s, a);
    var t', k' := DeliveredIsBacked(s, b);
    if t <= t' {
      LeaderCompleteness(s.nodes, s.hist, t, k, t');
    } else {
      LeaderCompleteness(s.nodes, s.hist, t', k', t);
    }
  }

  // ---- within one incarnation ----

  /** How node `n` may go on without crashing. */
  ghost predicate Forward(n: NodeState, n': NodeState) {
    n.commit <= n'.commit && n.applied <= n'.applied && Agree(n.log, n'.log, n.commit)
  }

  /** No step but a crash of `i` moves its commit or apply index back, or touches an entry
      at or below its commit index. */
  lemma CommittedPrefixStays(s: System, step: Step, i: Id)
    requires Inv(s) && Enabled(s, step) && i in s.nodes && step != Crash(i)
    ensures i in Do(s, step).nodes && Forward(s.nodes[i], Do(s, step).nodes[i])
    ensures Do(s, step).nodes[i].applied == if step == Deliver(i) then s.nodes[i].commit else s.nodes[i].applied
  {
    hide Do, Inv, Handled;
    StepsAreHandlers(s, step);
    CommitInLog(s, i);
    if Actor(step) == i {
      HandledForward(s, step);
    }
  }

  lemma CommitInLog(s: System, i: Id)
    requires Inv(s) && i in s.nodes
    ensures s.nodes[i].applied <= s.nodes[i].commit <= |s.nodes[i].log|
  {
    hide ReignLogs, GoodBallots, NodeLogs, NodesKeep, LeadersKeep, CandidatesKeep, GoodAcks,
      GoodNet, GoodElectors, GoodRoles, CommitsBacked, DeliveriesBacked;
  }

  lemma HandledForward(s: System, step: Step)
    requires Inv(s) && Enabled(s, step) && !step.Crash? && Actor(step) in s.nodes
    ensures Forward(s.nodes[Actor(step)], Handled(s, step))
    ensures Handled(s, step).applied ==
            if step.Deliver? then s.nodes[Actor(step)].commit else s.nodes[Actor(step)].applied
  {
    hide Inv, HandleAppendEntries, OnAppendResponse;
    CommitInLog(s, Actor(step));
    match step
    case RecvAppendAsk(p) => AppendKeepsCommitted(s, p);
    case RecvAppendReply(p) => AdvanceMonotone(s.nodes[p.to], p);
    case _ =>
  }

  lemma AdvanceMonotone(n: NodeState, p: Packet)
    requires p.AppendReply?
    ensures var n' := OnAppendResponse(n, p.from, p.req, p.resp);
            n.commit <= n'.commit && n'.applied == n.applied && n'.log == n.log
  {
    hide AdvanceFrom;
    var upTo := p.req.prevIndex + |p.req.entries|;
    var best := if upTo > Lookup(n.matched, p.from) then upTo else Lookup(n.matched, p.from);
    var m := n.(matched := n.matched[p.from := best], next := n.next[p.from := best + 1]);
    AdvanceFromMeans(m, |m.log|);
  }

  lemma AppendKeepsCommitted(s: System, p: Packet)
    requires Inv(s) && p in s.net && p.AppendAsk? && p.to in s.nodes
    ensures var n, n' := s.nodes[p.to], HandleAppendEntries(s.nodes[p.to], p.req).0;
            n.commit <= n'.commit && n'.applied == n.applied && n.commit <= |n.log| && Agree(n.log, n'.log, n.commit)
  {
    hide ReignLogs, GoodBallots, NodeLogs, NodesKeep, LeadersKeep, CandidatesKeep, GoodAcks, Backed, GoodAppend, Accept,
      GoodNet, GoodElectors, GoodRoles, DeliveriesBacked, Consistent, RecordAck;
    assert s.nodes[p.to].commit <= |s.nodes[p.to].log|;
    var o := Observe(s, p.to, p.req.term);
    ObserveKeeps(s, p.to, p.req.term);
    RequestInNet(o, p);
    var m, req := o.nodes[p.to], p.req;
    if req.term >= m.term && Consistent(m.log, req) {
      var g := RecordAck(o.hist, req.term, p.to, req.prevIndex + |req.entries|);
      assert Stores(o.nodes, o.hist, g, p.to, Accept(m, req), req);
      CommittedStays(o.nodes, o.hist, g, p.to, Accept(m, req), req);
      CommitForward(o.nodes, o.hist, g, p.to, Accept(m, req), req);
      AcceptApplied(m, req);
    }
  }

  lemma AcceptApplied(n: NodeState, req: AppendReq)
    requires Consistent(n.log, req)
    ensures Accept(n, req).applied == n.applied
  {
  }

  /** Node `i` does not crash between moments `x` and `y`. */
  ghost predicate Uninterrupted(r: Run, i: Id, x: nat, y: nat) {
    x <= y < |r.states| <= |r.steps| + 1 && forall k :: x <= k < y ==> r.steps[k] != Crash(i)
  }

  /** Everything node `i` hands to its state machine between moments `x` and `y`, in order. */
  ghost function Fed(r: Run, i: Id, x: nat, y: nat): seq<ApplyMsg>
    requires x <= y < |r.states| <= |r.steps| + 1
    requires IsRun(r) && i in r.states[0].nodes
    decreases y
  {
    if x == y then []
    else
      RunGrows(r, 0, y - 1);
      Fed(r, i, x, y - 1) +
      if r.steps[y - 1] == Deliver(i)
      then var n := r.states[y - 1].nodes[i]; Batch(n.log, n.applied, n.commit)
      else []
  }

  lemma BatchAt(log: seq<Entry>, from: nat, to: nat, j: nat)
    requires from <= to <= |log| && j < to - from
    ensures Batch(log, from, to)[j] == ApplyMsg(from + j + 1, log[from + j].term, log[from + j].cmd)
  {
  }

  lemma BatchJoins(log: seq<Entry>, log': seq<Entry>, from: nat, mid: nat, to: nat)
    requires from <= mid <= to <= |log| && Agree(log, log', to)
    ensures Batch(log, from, mid) + Batch(log, mid, to) == Batch(log', from, to)
  {
  }

  /** Between crashes, a state machine sees every index once, in order and without gap, and
      exactly the entries its node holds at the end. */
  lemma {:induction false} FedInOrder(r: Run, i: Id, x: nat, y: nat)
    requires IsRun(r) && i in r.states[0].nodes && Uninterrupted(r, i, x, y)
    ensures i in r.states[x].nodes && i in r.states[y].nodes
    ensures var n, n' := r.states[x].nodes[i], r.states[y].nodes[i];
            && n.applied <= n'.applied <= |n'.log|
            && Fed(r, i, x, y) == Batch(n'.log, n.applied, n'.applied)
    decreases y
  {
    hide IsRun, Inv, Do, Batch, Enabled;
    RunGrows(r, 0, x);
    RunGrows(r, 0, y);
    CommitIsBacked(r, x, i);
    CommitIsBacked(r, y, i);
    if x == y {
      EmptyBatch(r.states[y].nodes[i].log, r.states[x].nodes[i].applied);
    } else {
      FedInOrder(r, i, x, y - 1);
      FedStep(r, i, x, y);
    }
  }

  lemma EmptyBatch(log: seq<Entry>, k: nat)
    requires k <= |log|
    ensures Batch(log, k, k) == []
  {
  }

  lemma RunStep(r: Run, k: nat)
    requires IsRun(r) && k < |r.steps|
    ensures k + 1 < |r.states| && Enabled(r.states[k], r.steps[k]) && r.states[k + 1] == Do(r.states[k], r.steps[k])
  {
  }

  lemma FedStep(r: Run, i: Id, x: nat, y: nat)
    requires IsRun(r) && i in r.states[0].nodes && Uninterrupted(r, i, x, y) && x < y
    requires i in r.states[x].nodes && i in r.states[y - 1].nodes && i in r.states[y].nodes
    requires var n, m := r.states[x].nodes[i], r.states[y - 1].nodes[i];
             n.applied <= m.applied <= |m.log| && Fed(r, i, x, y - 1) == Batch(m.log, n.applied, m.applied)
    requires r.states[y].nodes[i].applied <= |r.states[y].nodes[i].log|
    ensures var n, n' := r.states[x].nodes[i], r.states[y].nodes[i];
            n.applied <= n'.applied && Fed(r, i, x, y) == Batch(n'.log, n.applied, n'.applied)
  {
    hide IsRun, Inv, Do, Batch;
    RunInv(r, y - 1);
    RunStep(r, y - 1);
    CommittedPrefixStays(r.states[y - 1], r.steps[y - 1], i);
    CommitIsBacked(r, y - 1, i);
    var n, m, n' := r.states[x].nodes[i], r.states[y - 1].nodes[i], r.states[y].nodes[i];
    BatchJoins(m.log, n'.log, n.applied, m.applied, n'.applied);
    if r.steps[y - 1] != Deliver(i) {
      EmptyBatch(m.log, m.applied);
    }
  }

  // ---- the handlers never index outside the log ----

  /** A leader can always build a request for each of its peers, and the applier never
      reads past the log: no reachable state makes a handler fail. */
  lemma HandlersStayInBounds(r: Run, x: nat, i: Id)
    requires IsRun(r) && x < |r.states| && i in r.states[x].nodes
    ensures var n := r.states[x].nodes[i];
            && n.commit <= |n.log|
            && n.disk == HardState(n.term, n.votedFor, n.log)
            && (n.role.Leader? ==> forall p :: p in n.peers ==> CanSend(n, p))
  {
    hide IsRun, ReignLogs, GoodBallots, NodeLogs, NodesKeep, LeadersKeep, CandidatesKeep, GoodAcks,
      DeliveriesBacked, GoodNet, GoodElectors, CommitsBacked, GoodCandidate;
    RunInv(r, x);
    assert GoodLeader(i, r.states[x].nodes[i], r.states[x].hist);
  }

  // ---- why the sender must ship its whole suffix ----

  /** Taken alone, the append handler may move the commit index back: exactly when the
      request claims a higher commit than the node's but ends below the node's. */
  lemma HandlerLowersCommitWhen(n: NodeState, req: AppendReq)
    requires Consistent(n.log, req)
    ensures Accept(n, req).commit < n.commit <==>
            req.prevIndex + |req.entries| < n.commit < req.leaderCommit
  {
  }

  /** A request of that shape. `SendIsGood` is why no leader ever builds one. */
  lemma HandlerCanLowerCommit() returns (n: NodeState, req: AppendReq)
    ensures Consistent(n.log, req) && n.commit <= |n.log| && Accept(n, req).commit < n.commit
  {
    var log := [Entry(1, []), Entry(1, [])];
    n := Boot(0, [1, 2], HardState(1, None, log)).(commit := 2);
    req := AppendReq(1, 1, 1, 1, [], 3);
  }
}
