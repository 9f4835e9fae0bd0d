/** The node as pkg/raft writes it: fields updated in place under one mutex, loops over
    the log and the peers. Every method is proved against the handler functions. */
module RaftNode {
  import opened Common
  import opened RaftSpec

  /** Storage kept in memory: a crash loses the node, not this object. */
  class MemoryStorage {
    var hs: HardState

    constructor ()
      ensures hs == HardState(0, None, [])
    {
      hs := HardState(0, None, []);
    }

    method Save(h: HardState)
      modifies this
      ensures hs == h
    {
      hs := h;
    }

    method Load() returns (h: HardState)
      ensures h == hs
    {
      h := hs;
    }
  }

  lemma FillNone(peers: seq<Id>, m: map<Id, nat>, v: nat)
    ensures m + Fill(peers[..0], v) == m
  {
  }

  lemma FillMore(peers: seq<Id>, m: map<Id, nat>, i: nat, v: nat)
    requires i < |peers|
    ensures m + Fill(peers[..i + 1], v) == (m + Fill(peers[..i], v))[peers[i] := v]
  {
    assert peers[..i + 1] == peers[..i] + [peers[i]];
  }

  class Node {
    const id: Id
    const peers: seq<Id>
    const storage: MemoryStorage

    var role: Role
    var term: nat
    var votedFor: Option<Id>
    var log: seq<Entry>
    var commit: nat
    var applied: nat
    var next: map<Id, nat>
    var matched: map<Id, nat>
    var votes: nat
    var awaiting: set<Id>

    ghost function State(): NodeState
      reads this, storage
    {
      NodeState(id, peers, role, term, votedFor, log, commit, applied, next, matched, votes, awaiting, storage.hs)
    }

    /** What is in memory is on disk whenever the mutex is free. */
    ghost predicate Synced()
      reads this, storage
    {
      storage.hs == HardState(term, votedFor, log)
    }

    constructor (id: Id, peers: seq<Id>, storage: MemoryStorage)
      ensures this.id == id && this.peers == peers && this.storage == storage
      ensures Synced() && State() == Boot(id, peers, storage.hs)
    {
      this.id, this.peers, this.storage := id, peers, storage;
      role, commit, applied, next, matched, votes, awaiting := Follower, 0, 0, map[], map[], 0, {};
      term, votedFor, log := storage.hs.term, storage.hs.votedFor, storage.hs.log;
    }

    method PersistLocked()
      modifies storage
      ensures State() == Persist(old(State())) && Synced()
    {
      storage.Save(HardState(term, votedFor, log));
    }

    method StepDownLocked(t: nat)
      modifies this
      ensures State() == StepDown(old(State()), t)
    {
      if t > term {
        term := t;
        votedFor := None;
      }
      role := Follower;
    }

    method BecomeLeaderLocked()
      modifies this, storage
      ensures State() == BecomeLeader(old(State())) && Synced()
    {
      hide Fill;
      role := Leader;
      log := log + [Entry(term, [])];
      PersistLocked();
      ResetProgress(|log|);
    }

    /** A new leader starts optimistic: send from the end, nothing matched yet. */
    method ResetProgress(last: nat)
      modifies this`next, this`matched
      ensures next == old(next) + Fill(peers, last + 1)
      ensures matched == old(matched) + Fill(peers, 0)
    {
      ghost var before, was := next, matched;
      FillNone(peers, before, last + 1);
      FillNone(peers, was, 0);
      for i := 0 to |peers|
        invariant next == before + Fill(peers[..i], last + 1)
        invariant matched == was + Fill(peers[..i], 0)
      {
        FillMore(peers, before, i, last + 1);
        FillMore(peers, was, i, 0);
        next := next[peers[i] := last + 1];
        matched := matched[peers[i] := 0];
      }
      assert peers[..|peers|] == peers;
    }

    method StandLocked()
      modifies this, storage
      ensures State() == BecomeCandidate(old(State())) && Synced()
    {
      role := Candidate;
      term := term + 1;
      votedFor := Some(id);
      PersistLocked();
      votes := 1;
      awaiting := set p | p in peers;
    }

    /** Returns the request to send to every peer, unless the node wins or leads already. */
    method StartElection() returns (ask: Option<VoteReq>)
      modifies this, storage
      requires Synced()
      ensures State() == RaftSpec.StartElection(old(State())) && Synced()
      ensures ask == if State().role.Candidate? then Some(VoteRequest(State())) else None
    {
      hide Fill;
      ask := None;
      if role == Leader {
        return;
      }
      StandLocked();
      if votes * 2 > |peers| + 1 {
        BecomeLeaderLocked();
        return;
      }
      ask := Some(VoteReq(term, id, |log|, TermAt(log, |log|)));
    }

    method OnVoteResponse(from: Id, electionTerm: nat, resp: VoteResp)
      modifies this, storage
      requires Synced()
      ensures State() == RaftSpec.OnVoteResponse(old(State()), from, electionTerm, resp) && Synced()
    {
      if resp.term > term {
        StepDownLocked(resp.term);
        PersistLocked();
        return;
      }
      if role != Candidate || term != electionTerm {
        return;
      }
      awaiting := awaiting - {from};
      if !resp.granted {
        return;
      }
      votes := votes + 1;
      if votes * 2 > |peers| + 1 {
        BecomeLeaderLocked();
      }
    }

    method HandleRequestVote(req: VoteReq) returns (resp: VoteResp)
      modifies this, storage
      requires Synced()
      ensures (State(), resp) == RaftSpec.HandleRequestVote(old(State()), req) && Synced()
    {
      var changed := false;
      if req.term > term {
        StepDownLocked(req.term);
        changed := true;
      }
      resp := VoteResp(term, false);
      if req.term < term {
        return;
      }
      var lastTerm := TermAt(log, |log|);
      var upToDate := req.lastTerm > lastTerm || (req.lastTerm == lastTerm && req.lastIndex >= |log|);
      if (votedFor == None || votedFor == Some(req.candidate)) && upToDate {
        votedFor := Some(req.candidate);
        resp := resp.(granted := true);
        changed := true;
      }
      if changed {
        PersistLocked();
      }
    }

    method Propose(cmd: Bytes) returns (index: nat, accepted: bool)
      modifies this, storage
      requires Synced()
      ensures State() == RaftSpec.Propose(old(State()), cmd) && Synced()
      ensures accepted == old(role).Leader?
      ensures accepted ==> index == |log| && log[index - 1] == Entry(term, cmd)
    {
      index, accepted := 0, role == Leader;
      if accepted {
        log := log + [Entry(term, cmd)];
        index := |log|;
        PersistLocked();
      }
    }

    method BuildAppend(peer: Id) returns (req: AppendReq)
      requires CanSend(State(), peer)
      ensures req == RaftSpec.BuildAppend(State(), peer)
    {
      var from := next[peer];
      var prev := from - 1;
      req := AppendReq(term, id, prev, TermAt(log, prev), log[from - 1..], commit);
    }

    method HandleAppendEntries(req: AppendReq) returns (resp: AppendResp)
      modifies this, storage
      requires Synced()
      ensures (State(), resp) == RaftSpec.HandleAppendEntries(old(State()), req) && Synced()
    {
      var changed := false;
      if req.term > term {
        StepDownLocked(req.term);
        changed := true;
      }
      resp := AppendResp(term, false);
      if req.term < term {
        return;
      }
      role := Follower;
      if req.prevIndex > |log| || TermAt(log, req.prevIndex) != req.prevTerm {
        if changed {
          PersistLocked();
        }
        return;
      }
      var spliced := StoreEntries(req.prevIndex, req.entries);
      changed := changed || spliced;
      if req.leaderCommit > commit {
        var lastNew := req.prevIndex + |req.entries|;
        commit := if req.leaderCommit < lastNew then req.leaderCommit else lastNew;
      }
      if changed {
        PersistLocked();
      }
      resp := resp.(success := true);
    }

    /** The loop of the append handler: keep what matches, cut at the first conflict. */
    method StoreEntries(prev: nat, entries: seq<Entry>) returns (changed: bool)
      modifies this`log
      requires prev <= |log|
      ensures log == Splice(old(log), prev, entries)
      ensures !changed ==> log == old(log)
    {
      changed := false;
      var i := 0;
      while i < |entries|
        invariant 0 <= i <= |entries| && prev + i <= |log|
        invariant log == old(log) && !changed
        invariant Splice(log, prev, entries) == Splice(log, prev + i, entries[i..])
      {
        var at := prev + i + 1;
        if at > |log| {
          log := log + entries[i..];
          changed := true;
          break;
        }
        if TermAt(log, at) != entries[i].term {
          log := log[..at - 1] + entries[i..];
          changed := true;
          break;
        }
        assert entries[i..][1..] == entries[i + 1..];
        i := i + 1;
      }
    }

    method OnAppendResponse(from: Id, req: AppendReq, resp: AppendResp)
      modifies this, storage
      requires Synced()
      ensures State() == RaftSpec.OnAppendResponse(old(State()), from, req, resp) && Synced()
    {
      if resp.term > term {
        StepDownLocked(resp.term);
        PersistLocked();
        return;
      }
      if role != Leader || term != req.term {
        return;
      }
      if resp.success {
        var m := req.prevIndex + |req.entries|;
        var best := Lookup(matched, from);
        if m > best {
          best := m;
        }
        matched := matched[from := best];
        next := next[from := best + 1];
        AdvanceCommitLocked();
        return;
      }
      if Lookup(next, from) > 1 {
        next := next[from := next[from] - 1];
      }
    }

    method AdvanceCommitLocked()
      modifies this`commit
      ensures State() == AdvanceCommit(old(State()))
    {
      var index := |log|;
      while index > commit
        invariant 0 <= index <= |log| && commit == old(commit)
        invariant AdvanceFrom(old(State()), |log|) == AdvanceFrom(old(State()), index)
        decreases index
      {
        if TermAt(log, index) != term {
          break;
        }
        var count := CountHolders(index);
        if count * 2 > |peers| + 1 {
          commit := index;
          break;
        }
        index := index - 1;
      }
    }

    method CountHolders(index: nat) returns (count: nat)
      ensures count == 1 + CountMatched(peers, matched, index)
    {
      count := 1;
      var i := 0;
      while i < |peers|
        invariant i <= |peers|
        invariant count + CountMatched(peers[i..], matched, index) == 1 + CountMatched(peers, matched, index)
      {
        if Lookup(matched, peers[i]) >= index {
          count := count + 1;
        }
        assert peers[i..][1..] == peers[i + 1..];
        i := i + 1;
      }
    }

    /** One round of the applier: the messages to hand over, in order. */
    method TakeBatch() returns (msgs: seq<ApplyMsg>)
      modifies this`applied
      requires applied <= commit <= |log|
      ensures State() == ApplyAll(old(State()))
      ensures msgs == Batch(log, old(applied), commit)
    {
      msgs := [];
      var i := applied;
      while i < commit
        invariant applied <= i <= commit
        invariant msgs == Batch(log, applied, i)
      {
        msgs := msgs + [ApplyMsg(i + 1, log[i].term, log[i].cmd)];
        i := i + 1;
      }
      applied := commit;
    }
  }
}
