/** Any number of trades at once over shared inventories, one store operation at a time: every
    read and every append is a step of its own, in any order. */
module Market {
  import opened Common
  import opened Inventory
  import opened Trade

  /** Why a trade is undone: the counterparty's answer, its reservation refused, or a settle
      step that failed. Only the last releases both sides. */
  datatype Cause = Aborted | Refused | Broken

  /** Where a trade's coordinator stands; `ready` when it has found the next move not made. */
  datatype Pc =
    | Reserve(who: Side, attempt: nat, version: Option<nat>)
    | Mark(who: Side)
    | Await
    | Settle(step: nat, ready: bool)
    | Undo(cause: Cause, step: nat, ready: bool)
    | Done
    | GivenUp

  datatype Saga = Saga(offer: Offer, pc: Pc)

  /** The inventory events of all players in the order they were stored, and the trades. */
  datatype Sys = Sys(log: seq<Entry>, sagas: map<string, Saga>)

  /** `Fail` is a store operation that returns an error: a reservation or a settle step fails
      with it, a release ignores it. `Restart` is a coordinator that dies, at any point, and
      replays its trade's events: it goes by the phase stored last, and while that waits for
      the counterparty, either answer may be the one the replay meets first. */
  datatype Step =
    | Gather(player: string, kind: string, amount: nat)
    | Propose(offer: Offer)
    | ReadForReserve(id: string)
    | AppendReserve(id: string)
    | WritePhase(id: string)
    | Decide(id: string, accept: bool)
    | ReadForMove(id: string)
    | AppendMove(id: string)
    | Fail(id: string)
    | Restart(id: string)

  function Init(): Sys { Sys([], map[]) }

  /** The next move of a settle or an undo. */
  function Coming(pc: Pc): Option<Due> {
    match pc
    case Settle(step, _) => Exchange(step)
    case Undo(_, 0, _) => Some(Due(Proposer, Released))
    case Undo(Broken, 1, _) => Some(Due(Counterparty, Released))
    case _ => None
  }

  predicate Ready(pc: Pc) {
    (pc.Settle? || pc.Undo?) && pc.ready
  }

  /** Nobody has written to the stream since the reservation read it. */
  predicate VersionHolds(log: seq<Entry>, s: Saga)
    requires s.pc.Reserve? && s.pc.version.Some?
  {
    |StreamOf(log, PlayerOf(s.offer, s.pc.who))| == s.pc.version.value
  }

  predicate Enabled(s: Sys, step: Step) {
    match step
    case Gather(_, _, _) => true
    case Propose(o) => o.id !in s.sagas && o.proposer != o.counterparty
    case ReadForReserve(id) => id in s.sagas && s.sagas[id].pc.Reserve? && s.sagas[id].pc.version == None
    case AppendReserve(id) => id in s.sagas && s.sagas[id].pc.Reserve? && s.sagas[id].pc.version.Some?
    case WritePhase(id) =>
      id in s.sagas && (s.sagas[id].pc.Mark? || ((s.sagas[id].pc.Settle? || s.sagas[id].pc.Undo?) && Coming(s.sagas[id].pc) == None))
    case Decide(id, _) => id in s.sagas && s.sagas[id].pc.Await?
    case ReadForMove(id) => id in s.sagas && Coming(s.sagas[id].pc).Some? && !Ready(s.sagas[id].pc)
    case AppendMove(id) => id in s.sagas && Coming(s.sagas[id].pc).Some? && Ready(s.sagas[id].pc)
    case Fail(id) => id in s.sagas && (s.sagas[id].pc.Reserve? || Coming(s.sagas[id].pc).Some?)
    case Restart(id) => id in s.sagas
  }

  function After(pc: Pc): Pc {
    match pc
    case Reserve(who, _, _) => Mark(who)
    case Mark(Proposer) => Await
    case Mark(Counterparty) => Settle(0, false)
    case Settle(step, _) => Settle(step + 1, false)
    case Undo(cause, step, _) => Undo(cause, step + 1, false)
    case _ => pc
  }

  /** A reservation or a settle step that failed for good, and a release that was given up. */
  function Failed(pc: Pc): Pc {
    match pc
    case Reserve(Proposer, _, _) => GivenUp
    case Reserve(Counterparty, _, _) => Undo(Refused, 0, false)
    case Settle(_, _) => Undo(Broken, 0, false)
    case _ => After(pc)
  }

  /** Where a replay enters the trade, by the phase that was stored last. */
  function Again(pc: Pc): Pc {
    match pc
    case Reserve(Proposer, _, _) => Reserve(Proposer, 0, None)
    case Mark(Proposer) => Reserve(Proposer, 0, None)
    case Settle(_, _) => Settle(0, false)
    case Undo(Broken, _, _) => Settle(0, false)
    case Done => Done
    case GivenUp => GivenUp
    case _ => Await
  }

  function ReadStep(log: seq<Entry>, s: Saga): Pc
    requires s.pc.Reserve?
  {
    var player, item := PlayerOf(s.offer, s.pc.who), ItemOf(s.offer, s.pc.who);
    if item.amount <= 0 then Failed(s.pc)
    else
      match Judge(StreamOf(log, player), player, s.offer.id, item.kind, item.amount)
      case Already => After(s.pc)
      case Refuse(_) => Failed(s.pc)
      case Expect(version) => s.pc.(version := Some(version))
  }

  function With(s: Sys, id: string, pc: Pc): Sys
    requires id in s.sagas
  {
    s.(sagas := s.sagas[id := s.sagas[id].(pc := pc)])
  }

  function Do(s: Sys, step: Step): Sys
    requires Enabled(s, step)
  {
    match step
    case Gather(player, kind, amount) => s.(log := s.log + [Entry(player, Gathered(kind, amount))])
    case Propose(o) => s.(sagas := s.sagas[o.id := Saga(o, Reserve(Proposer, 0, None))])
    case ReadForReserve(id) => With(s, id, ReadStep(s.log, s.sagas[id]))
    case AppendReserve(id) =>
      var saga := s.sagas[id];
      var pc := saga.pc;
      if VersionHolds(s.log, saga) then With(s.(log := s.log + [MoveBy(saga.offer, Due(pc.who, Reserved))]), id, After(pc))
      else if pc.attempt + 1 < MAX_RESERVE_RETRIES then With(s, id, Reserve(pc.who, pc.attempt + 1, None))
      else With(s, id, Failed(pc))
    case WritePhase(id) =>
      var pc := s.sagas[id].pc;
      With(s, id, if pc.Mark? then After(pc) else if pc.Settle? then Done else GivenUp)
    case Decide(id, accept) => With(s, id, if accept then Reserve(Counterparty, 0, None) else Undo(Aborted, 0, false))
    case ReadForMove(id) =>
      var saga := s.sagas[id];
      var d := Coming(saga.pc).value;
      With(s, id, if HasMove(StreamOf(s.log, PlayerOf(saga.offer, d.who)), id, d.typ) then After(saga.pc) else saga.pc.(ready := true))
    case AppendMove(id) =>
      var saga := s.sagas[id];
      With(s.(log := s.log + [MoveBy(saga.offer, Coming(saga.pc).value)]), id, After(saga.pc))
    case Fail(id) => With(s, id, Failed(s.sagas[id].pc))
    case Restart(id) => With(s, id, Again(s.sagas[id].pc))
  }

  // ---- runs ----

  ghost predicate IsRun(run: seq<Sys>) {
    && run != [] && run[0] == Init()
    && forall i :: 0 <= i < |run| - 1 ==> Follows(run[i], run[i + 1])
  }

  ghost predicate Follows(s: Sys, t: Sys) {
    exists step :: Enabled(s, step) && t == Do(s, step)
  }
}
