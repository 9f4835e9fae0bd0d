/** Moving a player between hub and arena: the transfer takes the player's lock, carries its
    token in the order to the player's session, and the session refuses orders that are older
    than what it has applied. */
module Handoff {
  import opened Common
  import opened DLock

  datatype Place = Hub | Arena(id: string, team: int)

  datatype Answer = Entered | Stale | NoSession

  /** What a session makes of an order: older tokens than its own change nothing. */
  function Answered(token: nat, place: Place, tok: nat, to: Place): (nat, Place, Answer) {
    if tok < token then (token, place, Stale) else (tok, to, Entered)
  }

  /** The session's own check of transfer orders. */
  class Session {
    var token: nat
    var place: Place

    constructor ()
      ensures token == 0 && place == Hub
    {
      token, place := 0, Hub;
    }

    method OnEnterArena(arena: string, team: int, tok: nat) returns (a: Answer)
      modifies this
      ensures (token, place, a) == Answered(old(token), old(place), tok, Arena(arena, team))
    {
      if tok < token {
        return Stale;
      }
      token := tok;
      place := Arena(arena, team);
      return Entered;
    }

    method OnEnterHub(tok: nat) returns (a: Answer)
      modifies this
      ensures (token, place, a) == Answered(old(token), old(place), tok, Hub)
    {
      if tok < token {
        return Stale;
      }
      token := tok;
      place := Hub;
      return Entered;
    }
  }

  datatype AuditType = LeftHub | EnteredArena | LeftArena | EnteredHub | HandoffFailed

  datatype Audit = Audit(typ: AuditType, place: Place, token: nat)

  /** What taking the lock came to: a token, or the lock being busy or out of reach. */
  datatype LockResult = Locked(token: nat) | Busy | NoQuorum

  class Coordinator {
    const node: string
    var count: nat
    var trail: seq<Audit>
    /** Owners whose lock has been given back. */
    var released: seq<(string, nat)>

    constructor (node: string)
      ensures this.node == node && count == 0 && trail == [] && released == []
    {
      this.node, count, trail, released := node, 0, [], [];
    }

    /** A transfer's own lock owner: the node and a number not used since the node was started. */
    method NextOwner() returns (owner: (string, nat))
      modifies this`count
      ensures count == old(count) + 1 && owner == (node, count)
    {
      count := count + 1;
      return (node, count);
    }

    /** Moves the player to `place`. `lock` is the lock service's answer for this transfer's
        owner, `session` the player's session, if there is one. */
    method Transfer(place: Place, lock: LockResult, session: Session?) returns (a: Option<Answer>)
      modifies this, session
      ensures count == old(count) + 1
      ensures a == if !lock.Locked? then None else if session == null then Some(NoSession)
                   else Some(Answered(old(session.token), old(session.place), lock.token, place).2)
      ensures session != null ==>
                (session.token, session.place) ==
                if lock.Locked? then
                  var r := Answered(old(session.token), old(session.place), lock.token, place); (r.0, r.1)
                else (old(session.token), old(session.place))
      ensures released == old(released) + if lock.Locked? then [(node, count)] else []
      ensures trail == old(trail) +
                if a == Some(Entered) then
                  [Audit(if place.Hub? then LeftArena else LeftHub, place, lock.token),
                   Audit(if place.Hub? then EnteredHub else EnteredArena, place, lock.token)]
                else [Audit(HandoffFailed, place, if lock.Locked? then lock.token else 0)]
    {
      var owner := NextOwner();
      if !lock.Locked? {
        trail := trail + [Audit(HandoffFailed, place, 0)];
        return None;
      }
      var answer := NoSession;
      if session != null {
        match place
        case Hub => answer := session.OnEnterHub(lock.token);
        case Arena(id, team) => answer := session.OnEnterArena(id, team, lock.token);
      }
      if answer == Entered {
        trail := trail + [Audit(if place.Hub? then LeftArena else LeftHub, place, lock.token),
                          Audit(if place.Hub? then EnteredHub else EnteredArena, place, lock.token)];
      } else {
        trail := trail + [Audit(HandoffFailed, place, lock.token)];
      }
      released := released + [owner];
      return Some(answer);
    }
  }

  // ---- fencing, end to end ----

  datatype Order = Order(owner: string, token: nat, place: Place)

  /** One player: the lock log, the orders given so far, where the session stands and which
      orders it has applied. */
  datatype Sys = Sys(cmds: seq<Bytes>, orders: seq<Order>, token: nat, place: Place, applied: seq<Order>)

  /** `Give` is a coordinator that reads its grant from a replica which has applied `n` entries,
      by its own clock; the order may be delivered at any later time, or never. */
  datatype Step =
    | Append(cmd: Bytes)
    | Give(owner: string, n: nat, now: int, place: Place)
    | Deliver(i: nat)

  ghost predicate Enabled(dec: Decoder, key: string, s: Sys, step: Step) {
    match step
    case Append(_) => true
    case Give(owner, n, now, _) => n <= |s.cmds| && Grant(After(dec, s.cmds, n), key, owner, now).Some?
    case Deliver(i) => i < |s.orders|
  }

  /** The session takes an order as its methods do. */
  function Accept(s: Sys, o: Order): Sys {
    var (token, place, answer) := Answered(s.token, s.place, o.token, o.place);
    s.(token := token, place := place, applied := if answer == Entered then s.applied + [o] else s.applied)
  }

  ghost function Do(dec: Decoder, key: string, s: Sys, step: Step): Sys
    requires Enabled(dec, key, s, step)
  {
    match step
    case Append(cmd) => s.(cmds := s.cmds + [cmd])
    case Give(owner, n, now, place) =>
      s.(orders := s.orders + [Order(owner, Grant(After(dec, s.cmds, n), key, owner, now).value, place)])
    case Deliver(i) => Accept(s, s.orders[i])
  }

  ghost predicate IsRun(dec: Decoder, key: string, run: seq<Sys>) {
    && run != [] && run[0] == Sys([], [], 0, Hub, [])
    && forall i :: 0 <= i < |run| - 1 ==> Follows(dec, key, run[i], run[i + 1])
  }

  ghost predicate Follows(dec: Decoder, key: string, s: Sys, t: Sys) {
    exists step :: Enabled(dec, key, s, step) && t == Do(dec, key, s, step)
  }

  /** An order carries the place of its owner's acquire. */
  ghost predicate Backed(dec: Decoder, key: string, cmds: seq<Bytes>, o: Order) {
    IsAcquire(dec, cmds, o.token, key, o.owner)
  }

  ghost predicate Inv(dec: Decoder, key: string, s: Sys) {
    && (forall i :: 0 <= i < |s.orders| ==> Backed(dec, key, s.cmds, s.orders[i]))
    && (forall i :: 0 <= i < |s.applied| ==> s.applied[i] in s.orders && s.applied[i].token <= s.token)
    && (forall i, j :: 0 <= i < j < |s.applied| ==> s.applied[i].token <= s.applied[j].token)
  }

  lemma AcquireStays(dec: Decoder, cmds: seq<Bytes>, cmd: Bytes, n: nat, key: string, owner: string)
    ensures IsAcquire(dec, cmds + [cmd], n, key, owner) <==>
              IsAcquire(dec, cmds, n, key, owner) || (n == |cmds| + 1 && dec(cmd).Some? && dec(cmd).value.op == Acquire
                                                      && dec(cmd).value.key == key && dec(cmd).value.owner == owner)
  {
  }

  lemma AppendKeeps(dec: Decoder, key: string, s: Sys, cmd: Bytes)
    requires Inv(dec, key, s)
    ensures Inv(dec, key, s.(cmds := s.cmds + [cmd]))
  {
    hide IsAcquire;
    forall i | 0 <= i < |s.orders|
      ensures Backed(dec, key, s.cmds + [cmd], s.orders[i])
    {
      assert Backed(dec, key, s.cmds, s.orders[i]);
      AcquireStays(dec, s.cmds, cmd, s.orders[i].token, key, s.orders[i].owner);
    }
  }

  lemma StepKeeps(dec: Decoder, key: string, s: Sys, step: Step)
    requires Inv(dec, key, s) && Enabled(dec, key, s, step)
    ensures Inv(dec, key, Do(dec, key, s, step))
  {
    hide IsAcquire, After;
    match step {
      case Append(cmd) => AppendKeeps(dec, key, s, cmd);
      case Give(owner, n, now, place) => TokenIsAcquire(dec, s.cmds, n, key);
      case Deliver(i) =>
    }
  }

  lemma {:induction false} RunInv(dec: Decoder, key: string, run: seq<Sys>, i: nat)
    requires IsRun(dec, key, run) && i < |run|
    ensures Inv(dec, key, run[i])
    decreases i
  {
    hide Inv, Do, Enabled;
    if i == 0 {
      StartInv(dec, key);
    } else {
      RunInv(dec, key, run, i - 1);
      assert Follows(dec, key, run[i - 1], run[i]);
      var step :| Enabled(dec, key, run[i - 1], step) && run[i] == Do(dec, key, run[i - 1], step);
      StepKeeps(dec, key, run[i - 1], step);
    }
  }

  lemma StartInv(dec: Decoder, key: string)
    ensures Inv(dec, key, Sys([], [], 0, Hub, []))
  {
  }

  /** For every lock log, every clock and every delay and repetition of orders: what a session
      applies later comes from the same or a later acquire; of two transfers, the one with the
      older acquire is never applied behind the other. */
  lemma Fenced(dec: Decoder, key: string, run: seq<Sys>, k: nat, i: nat, j: nat)
    requires IsRun(dec, key, run) && k < |run| && i < j < |run[k].applied|
    ensures var a, b := run[k].applied[i], run[k].applied[j];
            && IsAcquire(dec, run[k].cmds, a.token, key, a.owner) && IsAcquire(dec, run[k].cmds, b.token, key, b.owner)
            && a.token <= b.token && (a.owner != b.owner ==> a.token < b.token)
  {
    RunInv(dec, key, run, k);
    var a, b := run[k].applied[i], run[k].applied[j];
    assert a in run[k].orders && b in run[k].orders;
    var m :| 0 <= m < |run[k].orders| && run[k].orders[m] == a;
    var n :| 0 <= n < |run[k].orders| && run[k].orders[n] == b;
    assert Backed(dec, key, run[k].cmds, run[k].orders[m]) && Backed(dec, key, run[k].cmds, run[k].orders[n]);
  }

  /** No owner acquires the key a second time. */
  ghost predicate OneAcquireEach(dec: Decoder, key: string, cmds: seq<Bytes>) {
    forall m, n, owner :: IsAcquire(dec, cmds, m, key, owner) && IsAcquire(dec, cmds, n, key, owner) ==> m == n
  }

  /** Orders with one token have one owner. Where no owner acquires twice, orders of one owner
      have one token: a token then stands for one transfer. */
  lemma TokensTellTransfersApart(dec: Decoder, key: string, run: seq<Sys>, k: nat, i: nat, j: nat)
    requires IsRun(dec, key, run) && k < |run| && i < |run[k].orders| && j < |run[k].orders|
    ensures run[k].orders[i].token == run[k].orders[j].token ==> run[k].orders[i].owner == run[k].orders[j].owner
    ensures OneAcquireEach(dec, key, run[k].cmds) ==>
              (run[k].orders[i].token == run[k].orders[j].token <==> run[k].orders[i].owner == run[k].orders[j].owner)
  {
    RunInv(dec, key, run, k);
    assert Backed(dec, key, run[k].cmds, run[k].orders[i]) && Backed(dec, key, run[k].cmds, run[k].orders[j]);
  }
}
