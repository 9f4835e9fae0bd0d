/** What every run of the market keeps: nothing is overspent, and nothing is lost. */
module MarketSafety {
  import opened Common
  import opened Inventory
  import opened Trade
  import opened Market

  // ---- the invariant ----

  /** Every move is one of the trade's own, and made once. */
  ghost predicate Once(o: Offer, moves: seq<Entry>) {
    moves == [] ||
    (Once(o, moves[..|moves| - 1]) && exists d: Due :: d !in Made(o, moves[..|moves| - 1]) && moves[|moves| - 1] == MoveBy(o, d))
  }

  /** What has been made comes in order, and only of amounts that could be reserved. */
  ghost predicate Ordered(o: Offer, t: set<Due>) {
    && (forall d :: d in t ==> Due(Proposer, Reserved) in t && o.give.amount > 0)
    && (Due(Counterparty, Reserved) in t ==> o.want.amount > 0)
    && (Due(Counterparty, Released) in t ==> Due(Counterparty, Reserved) in t)
    && (Due(Proposer, Committed) in t ==> Due(Counterparty, Reserved) in t)
    && (Due(Counterparty, Received) in t ==> Due(Proposer, Committed) in t)
    && (Due(Counterparty, Committed) in t ==> Due(Counterparty, Received) in t)
    && (Due(Proposer, Received) in t ==> Due(Counterparty, Committed) in t)
  }

  /** Both sides may still be asked: the proposer's goods were set aside, nothing was exchanged. */
  ghost predicate Open(t: set<Due>) {
    Due(Proposer, Reserved) in t && Due(Proposer, Committed) !in t && Due(Counterparty, Released) !in t
  }

  /** The moves of a settle that must have been made before its given step. */
  ghost predicate Exchanged(t: set<Due>, step: nat) {
    && step <= 4
    && (step >= 1 ==> Due(Proposer, Committed) in t)
    && (step >= 2 ==> Due(Counterparty, Received) in t)
    && (step >= 3 ==> Due(Counterparty, Committed) in t)
    && (step >= 4 ==> Due(Proposer, Received) in t)
  }

  /** What may have been made when the coordinator stands here. After a restart it may stand
      before moves that have been made, and behind a release. */
  ghost predicate Fits(s: Saga, t: set<Due>) {
    && Ordered(s.offer, t)
    && (Ready(s.pc) ==> Coming(s.pc).Some? && Coming(s.pc).value !in t)
    && match s.pc
       case Reserve(Proposer, _, _) => t <= {Due(Proposer, Reserved)}
       case Mark(Proposer) => t == {Due(Proposer, Reserved)}
       case Mark(Counterparty) => Open(t) && Due(Counterparty, Reserved) in t
       case Settle(step, _) => Due(Counterparty, Reserved) in t && Exchanged(t, step)
       case Undo(Broken, _, _) => Due(Counterparty, Reserved) in t
       case Done => Exchanged(t, 4)
       case GivenUp => true
       case _ => Open(t)
  }

  /** A version read for a reservation is one at which the balance covered it. */
  ghost predicate VersionFits(log: seq<Entry>, s: Saga) {
    s.pc.Reserve? && s.pc.version.Some? ==>
      var player, item, n := PlayerOf(s.offer, s.pc.who), ItemOf(s.offer, s.pc.who), s.pc.version.value;
      && n <= |StreamOf(log, player)| && item.amount > 0
      && !HasMove(StreamOf(log, player), s.offer.id, Reserved)
      && Available(StreamOf(log, player)[..n], item.kind) >= item.amount
  }

  ghost predicate SagaFits(log: seq<Entry>, id: string, s: Saga) {
    && s.offer.id == id && s.offer.proposer != s.offer.counterparty
    && Once(s.offer, TradeLog(log, id)) && Fits(s, Made(s.offer, TradeLog(log, id))) && VersionFits(log, s)
  }

  ghost predicate SagasFit(s: Sys) {
    forall id :: id in s.sagas ==> SagaFits(s.log, id, s.sagas[id])
  }

  /** Nobody has less than nothing to spend. */
  ghost predicate NoOverdraft(log: seq<Entry>) {
    forall player, kind :: Available(StreamOf(log, player), kind) >= 0
  }

  ghost predicate TradesKnown(s: Sys) {
    forall i :: 0 <= i < |s.log| && s.log[i].ev.Move? ==> s.log[i].ev.trade in s.sagas
  }

  ghost predicate Inv(s: Sys) {
    SagasFit(s) && NoOverdraft(s.log) && TradesKnown(s)
  }

  // ---- what one more event changes ----

  lemma OthersFit(log: seq<Entry>, e: Entry, id: string, s: Saga)
    requires SagaFits(log, id, s) && !(e.ev.Move? && e.ev.trade == id)
    ensures SagaFits(log + [e], id, s)
  {
    hide Fits, Made, Once, Available, HasMove, Did;
    TradeLogMore(log, e, id);
    assert TradeLog(log, id) + [] == TradeLog(log, id);
    if s.pc.Reserve? && s.pc.version.Some? {
      var player := PlayerOf(s.offer, s.pc.who);
      StreamMore(log, e, player);
      HasMoveIsDid(log, player, id, Reserved);
      HasMoveIsDid(log + [e], player, id, Reserved);
      assert StreamOf(log + [e], player)[..s.pc.version.value] == StreamOf(log, player)[..s.pc.version.value];
    }
  }

  lemma StaysInCredit(log: seq<Entry>, e: Entry)
    requires NoOverdraft(log)
    requires e.ev.Move? && e.ev.typ == Reserved ==> Available(StreamOf(log, e.player), e.ev.kind) >= e.ev.amount >= 0
    requires !(e.ev.Move? && e.ev.typ == Reserved) ==> e.ev.amount >= 0
    ensures NoOverdraft(log + [e])
  {
    hide StreamOf, Available;
    forall player, kind
      ensures Available(StreamOf(log + [e], player), kind) >= 0
    {
      StreamMore(log, e, player);
      assert StreamOf(log, player) + [] == StreamOf(log, player);
      FoldMore(StreamOf(log, player), e.ev, kind);
    }
  }

  /** A step that stores `e`, if anything, and moves one coordinator to `pc`. */
  lemma StepFits(s: Sys, id: string, saga: Saga, e: Option<Entry>, log: seq<Entry>)
    requires Inv(s) && log == s.log + (if e.Some? then [e.value] else [])
    requires e.Some? && e.value.ev.Move? ==> e.value.ev.trade == id
    requires SagaFits(log, id, saga) && NoOverdraft(log)
    ensures Inv(Sys(log, s.sagas[id := saga]))
  {
    hide SagaFits, NoOverdraft;
    var t := Sys(log, s.sagas[id := saga]);
    if e.None? { assert log == s.log; }
    forall x | x in t.sagas
      ensures SagaFits(t.log, x, t.sagas[x])
    {
      if x != id && e.Some? {
        OthersFit(s.log, e.value, x, s.sagas[x]);
      }
    }
  }

  // ---- the coordinator's own steps ----

  /** What a trade's own moves say, seen from a player's stream. */
  lemma StreamTells(log: seq<Entry>, s: Saga, d: Due)
    ensures HasMove(StreamOf(log, PlayerOf(s.offer, d.who)), s.offer.id, d.typ) <==> d in Made(s.offer, TradeLog(log, s.offer.id))
  {
    hide Did, HasMove, StreamOf, TradeLog;
    HasMoveIsDid(log, PlayerOf(s.offer, d.who), s.offer.id, d.typ);
  }

  /** The coordinator goes on without storing a move: what was made must fit where it comes to. */
  lemma QuietFits(s: Sys, id: string, pc: Pc)
    requires Inv(s) && id in s.sagas && (pc.Reserve? ==> pc.version == None)
    requires Fits(s.sagas[id].(pc := pc), Made(s.sagas[id].offer, TradeLog(s.log, id)))
    ensures Inv(With(s, id, pc))
  {
    hide Made, Fits, Once, TradeLog, StreamOf, HasMove, Available, NoOverdraft;
    assert SagaFits(s.log, id, s.sagas[id]);
    StepFits(s, id, s.sagas[id].(pc := pc), None, s.log);
  }

  /** The coordinator makes a move that was not made yet. */
  lemma MoveFits(s: Sys, id: string, d: Due, pc: Pc)
    requires Inv(s) && id in s.sagas && !pc.Reserve?
    requires var t := Made(s.sagas[id].offer, TradeLog(s.log, id)); d !in t && Fits(s.sagas[id].(pc := pc), t + {d})
    requires var e := MoveBy(s.sagas[id].offer, d);
             e.ev.amount >= 0 && (d.typ == Reserved ==> Available(StreamOf(s.log, e.player), e.ev.kind) >= e.ev.amount)
    ensures Inv(With(s.(log := s.log + [MoveBy(s.sagas[id].offer, d)]), id, pc))
  {
    var saga, e := s.sagas[id], MoveBy(s.sagas[id].offer, d);
    hide Made, Fits, Once, TradeLog, StreamOf, HasMove, Available, NoOverdraft, MoveBy;
    assert SagaFits(s.log, id, saga);
    MovesOwn(saga.offer, d);
    TradeFits(s.log, id, saga, d, pc);
    StaysInCredit(s.log, e);
    StepFits(s, id, saga.(pc := pc), Some(e), s.log + [e]);
  }

  lemma MovesOwn(o: Offer, d: Due)
    ensures var e := MoveBy(o, d);
            e.player == PlayerOf(o, d.who) && e.ev.Move? && e.ev.trade == o.id && e.ev.typ == d.typ
  {
  }

  lemma TradeFits(log: seq<Entry>, id: string, s: Saga, d: Due, pc: Pc)
    requires SagaFits(log, id, s) && !pc.Reserve?
    requires var t := Made(s.offer, TradeLog(log, id)); d !in t && Fits(s.(pc := pc), t + {d})
    ensures SagaFits(log + [MoveBy(s.offer, d)], id, s.(pc := pc))
  {
    var e, moves := MoveBy(s.offer, d), TradeLog(log, id);
    hide Made, Fits, TradeLog, StreamOf, HasMove, Available, MoveBy;
    MovesOwn(s.offer, d);
    TradeLogMore(log, e, id);
    MadeMore(s.offer, moves, d);
    assert (moves + [e])[..|moves|] == moves;
  }

  /** Where the phases, a restart, a failure and the counterparty's answer lead. */
  lemma PhaseFits(s: Saga, t: set<Due>)
    requires Fits(s, t)
    ensures s.pc.Mark? ==> Fits(s.(pc := After(s.pc)), t)
    ensures (s.pc.Settle? || s.pc.Undo?) && Coming(s.pc) == None ==> Fits(s.(pc := if s.pc.Settle? then Done else GivenUp), t)
    ensures s.pc.Await? ==> Fits(s.(pc := Reserve(Counterparty, 0, None)), t) && Fits(s.(pc := Undo(Aborted, 0, false)), t)
    ensures Fits(s.(pc := Again(s.pc)), t)
    ensures s.pc.Reserve? || Coming(s.pc).Some? ==> Fits(s.(pc := Failed(s.pc)), t)
  {
  }

  /** A move found made, or found not made. */
  lemma FoundFits(s: Saga, t: set<Due>)
    requires Fits(s, t) && Coming(s.pc).Some?
    ensures Fits(s.(pc := if Coming(s.pc).value in t then After(s.pc) else s.pc.(ready := true)), t)
  {
  }

  /** The next move, made. */
  lemma ComingFits(s: Saga, t: set<Due>)
    requires Fits(s, t) && Coming(s.pc).Some? && Ready(s.pc)
    ensures Fits(s.(pc := After(s.pc)), t + {Coming(s.pc).value}) && Coming(s.pc).value !in t
    ensures MoveBy(s.offer, Coming(s.pc).value).ev.amount > 0 && Coming(s.pc).value.typ != Reserved
  {
  }

  lemma ReservedFits(s: Saga, t: set<Due>)
    requires Fits(s, t) && s.pc.Reserve?
    ensures Due(s.pc.who, Reserved) in t ==> Fits(s.(pc := After(s.pc)), t)
    ensures ItemOf(s.offer, s.pc.who).amount > 0 ==> Fits(s.(pc := After(s.pc)), t + {Due(s.pc.who, Reserved)})
  {
  }

  lemma JudgeSays(evs: seq<InvEvent>, player: string, id: string, item: Item)
    ensures var v := Judge(evs, player, id, item.kind, item.amount);
            && (v.Already? <==> HasMove(evs, id, Reserved))
            && (v.Expect? ==> v.version == |evs| && Available(evs, item.kind) >= item.amount)
  {
    hide HasMove, Available;
  }

  lemma ReadFits(s: Sys, id: string)
    requires Inv(s) && Enabled(s, ReadForReserve(id))
    ensures Inv(Do(s, ReadForReserve(id)))
  {
    hide Made, Fits, Once, TradeLog, StreamOf, HasMove, Available, NoOverdraft, Judge;
    var saga, t := s.sagas[id], Made(s.sagas[id].offer, TradeLog(s.log, id));
    assert SagaFits(s.log, id, saga);
    var player, item := PlayerOf(saga.offer, saga.pc.who), ItemOf(saga.offer, saga.pc.who);
    var evs, pc := StreamOf(s.log, player), ReadStep(s.log, saga);
    JudgeSays(evs, player, id, item);
    StreamTells(s.log, saga, Due(saga.pc.who, Reserved));
    PhaseFits(saga, t);
    ReservedFits(saga, t);
    if pc.Reserve? {
      assert evs[..|evs|] == evs;
      SamePlace(saga, pc, t);
      StepFits(s, id, saga.(pc := pc), None, s.log);
    } else {
      QuietFits(s, id, pc);
    }
  }

  /** The attempt and the version of a reservation do not matter to what may have been made. */
  lemma SamePlace(s: Saga, pc: Pc, t: set<Due>)
    requires Fits(s, t) && s.pc.Reserve? && pc.Reserve? && pc.who == s.pc.who
    ensures Fits(s.(pc := pc), t)
  {
  }

  /** A reservation whose version still holds is covered by the balance of that moment; one whose
      version does not is tried again or given up. */
  lemma AfterReserveStep(s: Sys, id: string)
    requires Inv(s) && Enabled(s, AppendReserve(id))
    ensures Inv(Do(s, AppendReserve(id)))
    ensures var saga := s.sagas[id];
            var e := MoveBy(saga.offer, Due(saga.pc.who, Reserved));
            Do(s, AppendReserve(id)).log != s.log ==>
              Do(s, AppendReserve(id)).log == s.log + [e] && Available(StreamOf(s.log, e.player), e.ev.kind) >= e.ev.amount > 0
  {
    hide Made, Fits, Once, TradeLog, StreamOf, HasMove, Available, NoOverdraft;
    var saga, t := s.sagas[id], Made(s.sagas[id].offer, TradeLog(s.log, id));
    assert SagaFits(s.log, id, saga);
    var pc, evs := saga.pc, StreamOf(s.log, PlayerOf(saga.offer, saga.pc.who));
    if VersionHolds(s.log, saga) {
      assert evs[..|evs|] == evs;
      StreamTells(s.log, saga, Due(pc.who, Reserved));
      ReservedFits(saga, t);
      MoveFits(s, id, Due(pc.who, Reserved), After(pc));
    } else if pc.attempt + 1 < MAX_RESERVE_RETRIES {
      SamePlace(saga, Reserve(pc.who, pc.attempt + 1, None), t);
      QuietFits(s, id, Reserve(pc.who, pc.attempt + 1, None));
    } else {
      PhaseFits(saga, t);
      QuietFits(s, id, Failed(pc));
    }
  }

  /** Commits, receipts and releases are looked up and then made. */
  lemma MoveSteps(s: Sys, step: Step, id: string)
    requires Inv(s) && Enabled(s, step) && (step == ReadForMove(id) || step == AppendMove(id))
    ensures Inv(Do(s, step))
  {
    hide Made, Fits, Once, TradeLog, StreamOf, HasMove, Available, NoOverdraft;
    var saga, t := s.sagas[id], Made(s.sagas[id].offer, TradeLog(s.log, id));
    assert SagaFits(s.log, id, saga);
    var d := Coming(saga.pc).value;
    if step == ReadForMove(id) {
      StreamTells(s.log, saga, d);
      FoundFits(saga, t);
      QuietFits(s, id, Do(s, step).sagas[id].pc);
    } else {
      ComingFits(saga, t);
      MoveFits(s, id, d, After(saga.pc));
    }
  }

  /** Steps that store nothing on the inventories. */
  lemma PhaseSteps(s: Sys, step: Step, id: string)
    requires Inv(s) && Enabled(s, step)
    requires step == WritePhase(id) || step == Fail(id) || step == Restart(id) || (step.Decide? && step.id == id)
    ensures Inv(Do(s, step))
  {
    hide Made, Fits, Once, TradeLog, StreamOf, NoOverdraft, TradesKnown, VersionFits, Coming;
    assert SagaFits(s.log, id, s.sagas[id]);
    PhaseFits(s.sagas[id], Made(s.sagas[id].offer, TradeLog(s.log, id)));
    QuietFits(s, id, Do(s, step).sagas[id].pc);
  }

  lemma {:induction false} UnknownTrade(log: seq<Entry>, id: string)
    requires forall i :: 0 <= i < |log| && log[i].ev.Move? ==> log[i].ev.trade != id
    ensures TradeLog(log, id) == []
  {
    if log != [] {
      UnknownTrade(log[..|log| - 1], id);
    }
  }

  lemma OutsideSteps(s: Sys, step: Step)
    requires Inv(s) && Enabled(s, step) && (step.Gather? || step.Propose?)
    ensures Inv(Do(s, step))
  {
    hide NoOverdraft, Fits, Made, StreamOf, TradeLog, Available, HasMove;
    var t := Do(s, step);
    if step.Gather? {
      var e := Entry(step.player, Gathered(step.kind, step.amount));
      StaysInCredit(s.log, e);
      forall x | x in t.sagas
        ensures SagaFits(t.log, x, t.sagas[x])
      {
        OthersFit(s.log, e, x, s.sagas[x]);
      }
    } else {
      UnknownTrade(s.log, step.offer.id);
      FreshFits(step.offer);
    }
  }

  lemma FreshFits(o: Offer)
    ensures Fits(Saga(o, Reserve(Proposer, 0, None)), Made(o, []))
  {
  }

  /** Every step keeps the invariant. */
  lemma StepKeeps(s: Sys, step: Step)
    requires Inv(s) && Enabled(s, step)
    ensures Inv(Do(s, step))
  {
    hide Inv, Do;
    match step {
      case Gather(_, _, _) => OutsideSteps(s, step);
      case Propose(_) => OutsideSteps(s, step);
      case ReadForReserve(id) => ReadFits(s, id);
      case AppendReserve(id) => AfterReserveStep(s, id);
      case WritePhase(id) => PhaseSteps(s, step, id);
      case Decide(id, _) => PhaseSteps(s, step, id);
      case ReadForMove(id) => MoveSteps(s, step, id);
      case AppendMove(id) => MoveSteps(s, step, id);
      case Fail(id) => PhaseSteps(s, step, id);
      case Restart(id) => PhaseSteps(s, step, id);
    }
  }

  lemma {:induction false} RunInv(run: seq<Sys>, i: nat)
    requires IsRun(run) && i < |run|
    ensures Inv(run[i])
    decreases i
  {
    hide Inv, Do, Enabled;
    if i == 0 {
      InitInv();
    } else {
      RunInv(run, i - 1);
      assert Follows(run[i - 1], run[i]);
      var step :| Enabled(run[i - 1], step) && run[i] == Do(run[i - 1], step);
      StepKeeps(run[i - 1], step);
    }
  }

  lemma InitInv()
    ensures Inv(Init())
  {
  }

  // ---- adding up ----

  /** What is counted: the pieces of a kind a player has set aside, or has in all. */
  datatype Weight = HeldBy(player: string, kind: string) | Worth(kind: string)

  function Weigh(w: Weight, e: Entry): int {
    match w
    case HeldBy(player, kind) => if e.player == player then HoldDelta(e.ev, kind) else 0
    case Worth(kind) => SpendDelta(e.ev, kind) + HoldDelta(e.ev, kind)
  }

  function Total(w: Weight, log: seq<Entry>): int {
    if log == [] then 0 else Total(w, log[..|log| - 1]) + Weigh(w, log[|log| - 1])
  }

  datatype Key = PlayerKey(name: string) | TradeKey(id: string) | NoTrade

  function KeyOf(byPlayer: bool, e: Entry): Key {
    if byPlayer then PlayerKey(e.player) else if e.ev.Move? then TradeKey(e.ev.trade) else NoTrade
  }

  function Part(byPlayer: bool, log: seq<Entry>, key: Key): seq<Entry> {
    if log == [] then []
    else
      var e := log[|log| - 1];
      Part(byPlayer, log[..|log| - 1], key) + (if KeyOf(byPlayer, e) == key then [e] else [])
  }

  function SumParts(w: Weight, byPlayer: bool, log: seq<Entry>, keys: seq<Key>): int {
    if keys == [] then 0 else Total(w, Part(byPlayer, log, keys[0])) + SumParts(w, byPlayer, log, keys[1..])
  }

  lemma TotalMore(w: Weight, log: seq<Entry>, e: Entry)
    ensures Total(w, log + [e]) == Total(w, log) + Weigh(w, e)
  {
    assert (log + [e])[..|log|] == log;
  }

  lemma {:induction false} SumMore(w: Weight, byPlayer: bool, log: seq<Entry>, keys: seq<Key>)
    requires log != [] && Unique(keys)
    ensures var front, e := log[..|log| - 1], log[|log| - 1];
            SumParts(w, byPlayer, log, keys) ==
            SumParts(w, byPlayer, front, keys) + if KeyOf(byPlayer, e) in keys then Weigh(w, e) else 0
  {
    hide Weigh, KeyOf, Unique;
    if keys != [] {
      UniqueTail(keys);
      var front, e := log[..|log| - 1], log[|log| - 1];
      SumMore(w, byPlayer, log, keys[1..]);
      TotalMore(w, Part(byPlayer, front, keys[0]), e);
      assert Part(byPlayer, front, keys[0]) + [] == Part(byPlayer, front, keys[0]);
    }
  }

  /** The whole is the sum of its parts, by player as well as by trade. */
  lemma {:induction false} PartsAddUp(w: Weight, byPlayer: bool, log: seq<Entry>, keys: seq<Key>)
    requires Unique(keys) && forall i :: 0 <= i < |log| ==> KeyOf(byPlayer, log[i]) in keys
    ensures Total(w, log) == SumParts(w, byPlayer, log, keys)
  {
    hide Weigh, KeyOf;
    if log == [] {
      EmptyParts(w, byPlayer, keys);
    } else {
      PartsAddUp(w, byPlayer, log[..|log| - 1], keys);
      SumMore(w, byPlayer, log, keys);
    }
  }

  lemma {:induction false} EmptyParts(w: Weight, byPlayer: bool, keys: seq<Key>)
    ensures SumParts(w, byPlayer, [], keys) == 0
  {
    if keys != [] {
      EmptyParts(w, byPlayer, keys[1..]);
    }
  }

  /** A player's part of the log adds up to the balance the player's stream folds to. */
  lemma {:induction false} PlayerPart(log: seq<Entry>, player: string, kind: string)
    ensures Total(Worth(kind), Part(true, log, PlayerKey(player))) ==
            Available(StreamOf(log, player), kind) + Held(StreamOf(log, player), kind)
  {
    if log != [] {
      hide Available, Held, SpendDelta, HoldDelta;
      var front, e := log[..|log| - 1], log[|log| - 1];
      PlayerPart(front, player, kind);
      TotalMore(Worth(kind), Part(true, front, PlayerKey(player)), e);
      FoldMore(StreamOf(front, player), e.ev, kind);
      assert StreamOf(front, player) + [] == StreamOf(front, player);
      assert Part(true, front, PlayerKey(player)) + [] == Part(true, front, PlayerKey(player));
    }
  }

  lemma {:induction false} PlayerHolds(log: seq<Entry>, player: string, kind: string)
    ensures Total(HeldBy(player, kind), log) == Held(StreamOf(log, player), kind)
  {
    if log != [] {
      hide Available, Held, SpendDelta, HoldDelta;
      var front, e := log[..|log| - 1], log[|log| - 1];
      PlayerHolds(front, player, kind);
      FoldMore(StreamOf(front, player), e.ev, kind);
      assert StreamOf(front, player) + [] == StreamOf(front, player);
    }
  }

  lemma {:induction false} TradePart(log: seq<Entry>, id: string)
    ensures Part(false, log, TradeKey(id)) == TradeLog(log, id)
  {
    if log != [] {
      TradePart(log[..|log| - 1], id);
    }
  }
}
