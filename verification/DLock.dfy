/** The lease lock: a table every replica derives from the replicated log. The log index of
    an acquire is its fencing token. */
module DLock {
  import opened Common
  import opened RaftSpec
  import RaftSystem
  import RaftInvariant
  import RaftTheorems

  datatype Op = Acquire | Renew | ReleaseOp

  /** `now` is the proposer's clock, in the command so that all replicas decide alike. */
  datatype Command = Command(op: Op, key: string, owner: string, ttl: int, now: int)

  datatype Lease = Lease(owner: string, expires: int, token: nat)

  type Table = map<string, Lease>

  /** How a log entry's bytes are read; entries that are no command leave the table alone. */
  type Decoder = Bytes -> Option<Command>

  function Apply(t: Table, index: nat, c: Command): Table {
    var held := c.key in t;
    var expired := held && c.now >= t[c.key].expires;
    match c.op
    case Acquire =>
      if !held || expired || t[c.key].owner == c.owner then t[c.key := Lease(c.owner, c.now + c.ttl, index)] else t
    case Renew =>
      if held && !expired && t[c.key].owner == c.owner then t[c.key := t[c.key].(expires := c.now + c.ttl)] else t
    case ReleaseOp =>
      if held && t[c.key].owner == c.owner then t - {c.key} else t
  }

  function ApplyEntry(dec: Decoder, t: Table, index: nat, cmd: Bytes): Table {
    if dec(cmd).Some? then Apply(t, index, dec(cmd).value) else t
  }

  /** The table after the first `n` entries of a log. */
  function After(dec: Decoder, cmds: seq<Bytes>, n: nat): Table
    requires n <= |cmds|
  {
    if n == 0 then map[] else ApplyEntry(dec, After(dec, cmds, n - 1), n, cmds[n - 1])
  }

  /** One replica's state machine. */
  class Replica {
    var locks: Table
    var applied: nat

    constructor ()
      ensures locks == map[] && applied == 0
    {
      locks, applied := map[], 0;
    }

    method ApplyMessage(dec: Decoder, msg: ApplyMsg)
      modifies this
      ensures locks == ApplyEntry(dec, old(locks), msg.index, msg.cmd) && applied == msg.index
    {
      var c := dec(msg.cmd);
      if c.Some? {
        var cmd := c.value;
        var held := cmd.key in locks;
        var expired := held && cmd.now >= locks[cmd.key].expires;
        match cmd.op
        case Acquire =>
          if !held || expired || locks[cmd.key].owner == cmd.owner {
            locks := locks[cmd.key := Lease(cmd.owner, cmd.now + cmd.ttl, msg.index)];
          }
        case Renew =>
          if held && !expired && locks[cmd.key].owner == cmd.owner {
            locks := locks[cmd.key := locks[cmd.key].(expires := cmd.now + cmd.ttl)];
          }
        case ReleaseOp =>
          if held && locks[cmd.key].owner == cmd.owner {
            locks := locks - {cmd.key};
          }
      }
      applied := msg.index;
    }

    /** What an acquire answers from the table once its entry has been applied. */
    method Granted(key: string, owner: string, now: int) returns (token: Option<nat>)
      ensures token == Grant(locks, key, owner, now)
    {
      if key in locks && locks[key].owner == owner && now < locks[key].expires {
        return Some(locks[key].token);
      }
      return None;
    }
  }

  function Grant(t: Table, key: string, owner: string, now: int): Option<nat> {
    if key in t && t[key].owner == owner && now < t[key].expires then Some(t[key].token) else None
  }

  // ---- tokens ----

  ghost predicate IsAcquire(dec: Decoder, cmds: seq<Bytes>, n: nat, key: string, owner: string) {
    && 1 <= n <= |cmds| && dec(cmds[n - 1]).Some?
    && var c := dec(cmds[n - 1]).value; c.op == Acquire && c.key == key && c.owner == owner
  }

  /** A held lock's token is the place in the log of an acquire by its owner. */
  lemma {:induction false} TokenIsAcquire(dec: Decoder, cmds: seq<Bytes>, n: nat, key: string)
    requires n <= |cmds| && key in After(dec, cmds, n)
    ensures var l := After(dec, cmds, n)[key];
            l.token <= n && IsAcquire(dec, cmds, l.token, key, l.owner)
  {
    if key in After(dec, cmds, n - 1) {
      TokenIsAcquire(dec, cmds, n - 1, key);
    }
  }

  /** A lock whose token is from before some point was held with that token at that point, by
      the same owner. */
  lemma {:induction false} OldTokenWasHeld(dec: Decoder, cmds: seq<Bytes>, a: nat, b: nat, key: string)
    requires a <= b <= |cmds| && key in After(dec, cmds, b) && After(dec, cmds, b)[key].token <= a
    ensures key in After(dec, cmds, a)
    ensures After(dec, cmds, a)[key].token == After(dec, cmds, b)[key].token
    ensures After(dec, cmds, a)[key].owner == After(dec, cmds, b)[key].owner
    decreases b
  {
    if a < b {
      OldTokenWasHeld(dec, cmds, a, b - 1, key);
    }
  }

  /** Tokens of a key never fall, whatever releases, expiries and renewals lie between; a new
      owner always has a greater one. */
  lemma TokensRise(dec: Decoder, cmds: seq<Bytes>, a: nat, b: nat, key: string)
    requires a <= b <= |cmds| && key in After(dec, cmds, a) && key in After(dec, cmds, b)
    ensures After(dec, cmds, a)[key].token <= After(dec, cmds, b)[key].token
    ensures After(dec, cmds, a)[key].owner != After(dec, cmds, b)[key].owner ==>
              After(dec, cmds, a)[key].token < After(dec, cmds, b)[key].token
  {
    TokenIsAcquire(dec, cmds, a, key);
    if After(dec, cmds, b)[key].token <= a {
      OldTokenWasHeld(dec, cmds, a, b, key);
    }
  }

  /** An acquire that succeeds has a token above every token the key had before, even when the
      lock had been released or had run out. */
  lemma AcquireRaises(dec: Decoder, cmds: seq<Bytes>, a: nat, b: nat, key: string, owner: string)
    requires a < b <= |cmds| && key in After(dec, cmds, a)
    requires IsAcquire(dec, cmds, b, key, owner) && key in After(dec, cmds, b) && After(dec, cmds, b)[key].token == b
    ensures After(dec, cmds, b)[key].owner == owner && After(dec, cmds, a)[key].token < b
  {
    TokenIsAcquire(dec, cmds, a, key);
    TokenIsAcquire(dec, cmds, b, key);
  }

  // ---- leases ----

  /** No command takes a lease that has not run out from its owner: afterwards the owner has
      it still, or has given it up itself. */
  lemma LeaseNotStolen(dec: Decoder, cmds: seq<Bytes>, n: nat, key: string)
    requires n < |cmds| && key in After(dec, cmds, n)
    requires dec(cmds[n]).Some? ==> dec(cmds[n]).value.now < After(dec, cmds, n)[key].expires
    ensures var l := After(dec, cmds, n)[key];
            || (key in After(dec, cmds, n + 1) && After(dec, cmds, n + 1)[key].owner == l.owner)
            || (key !in After(dec, cmds, n + 1) && dec(cmds[n]).Some?
                && dec(cmds[n]).value.op == ReleaseOp && dec(cmds[n]).value.owner == l.owner)
  {
  }

  /** Over any stretch of the log in which its owner is silent and no command is stamped after
      its end, a lease stays exactly as it is. */
  lemma {:induction false} LeaseKept(dec: Decoder, cmds: seq<Bytes>, a: nat, b: nat, key: string)
    requires a <= b <= |cmds| && key in After(dec, cmds, a)
    requires forall i :: a <= i < b && dec(cmds[i]).Some? ==>
               dec(cmds[i]).value.now < After(dec, cmds, a)[key].expires && dec(cmds[i]).value.owner != After(dec, cmds, a)[key].owner
    ensures key in After(dec, cmds, b) && After(dec, cmds, b)[key] == After(dec, cmds, a)[key]
    decreases b
  {
    if a < b {
      LeaseKept(dec, cmds, a, b - 1, key);
    }
  }

  // ---- replicas ----

  function CmdsOf(log: seq<Entry>): (cmds: seq<Bytes>)
    ensures |cmds| == |log| && forall i :: 0 <= i < |log| ==> cmds[i] == log[i].cmd
  {
    seq(|log|, i requires 0 <= i < |log| => log[i].cmd)
  }

  lemma {:induction false} SamePrefixSameTable(dec: Decoder, a: seq<Bytes>, b: seq<Bytes>, n: nat)
    requires n <= |a| && n <= |b| && forall i :: 0 <= i < n ==> a[i] == b[i]
    ensures After(dec, a, n) == After(dec, b, n)
  {
    if n > 0 {
      SamePrefixSameTable(dec, a, b, n - 1);
    }
  }

  /** Any two replicas of a Raft cluster, at any two moments of any run, have the same table
      after the same number of entries. */
  lemma ReplicasAgree(dec: Decoder, r: RaftSystem.Run, x: nat, y: nat, p: Id, q: Id, n: nat)
    requires RaftSystem.IsRun(r) && x < |r.states| && y < |r.states| && p in r.states[x].nodes && q in r.states[y].nodes
    requires n <= r.states[x].nodes[p].applied && n <= r.states[y].nodes[q].applied
    ensures n <= |r.states[x].nodes[p].log| && n <= |r.states[y].nodes[q].log|
    ensures After(dec, CmdsOf(r.states[x].nodes[p].log), n) == After(dec, CmdsOf(r.states[y].nodes[q].log), n)
  {
    hide RaftSystem.IsRun, RaftInvariant.Inv, After;
    RaftTheorems.RunInv(r, x);
    RaftTheorems.RunInv(r, y);
    RaftTheorems.CommitInLog(r.states[x], p);
    RaftTheorems.CommitInLog(r.states[y], q);
    var a, b := r.states[x].nodes[p].log, r.states[y].nodes[q].log;
    forall i | 0 <= i < n
      ensures CmdsOf(a)[i] == CmdsOf(b)[i]
    {
      RaftTheorems.StateMachineSafety(r, x, y, p, q, i + 1);
    }
    SamePrefixSameTable(dec, CmdsOf(a), CmdsOf(b), n);
  }
}
