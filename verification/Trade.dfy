/** A trade: what is offered, the events of its stream and the state they fold to. */
module Trade {
  import opened Common
  import opened Inventory

  datatype Item = Item(kind: string, amount: int)

  /** The proposer gives `give` and gets `want`; the counterparty does the reverse. */
  datatype Offer = Offer(id: string, proposer: string, counterparty: string, give: Item, want: Item)

  datatype Side = Proposer | Counterparty

  function PlayerOf(o: Offer, who: Side): string {
    if who == Proposer then o.proposer else o.counterparty
  }

  /** What a side puts in. */
  function ItemOf(o: Offer, who: Side): Item {
    if who == Proposer then o.give else o.want
  }

  datatype Reason =
    | ReserveFailed(who: Side, error: ReserveError)
    | RejectedByCounterparty
    | TimedOut
    | DeciderFailed
    | SettleFailed

  datatype TradeEvent =
    | Proposed(offer: Offer)
    | ProposerReserved
    | Accepted
    | Rejected
    | Expired
    | CounterpartyReserved
    | Settled
    | Cancelled(reason: Reason)

  datatype Phase = NonePhase | ProposedPhase | ProposerReservedPhase | CounterpartyReservedPhase | SettledPhase | CancelledPhase {
    predicate Terminal() { this == SettledPhase || this == CancelledPhase }
  }

  /** `offer` is absent before a proposal, `reason` unless the trade was cancelled. */
  datatype State = State(offer: Option<Offer>, phase: Phase, reason: Option<Reason>)

  function Next(st: State, e: TradeEvent): State {
    match e
    case Proposed(offer) => st.(offer := Some(offer), phase := ProposedPhase)
    case ProposerReserved => st.(phase := ProposerReservedPhase)
    case CounterpartyReserved => st.(phase := CounterpartyReservedPhase)
    case Settled => st.(phase := SettledPhase)
    case Cancelled(reason) => st.(phase := CancelledPhase, reason := Some(reason))
    case Accepted => st
    case Rejected => st
    case Expired => st
  }

  function FoldTrade(evs: seq<TradeEvent>): State {
    if evs == [] then State(None, NonePhase, None) else Next(FoldTrade(evs[..|evs| - 1]), evs[|evs| - 1])
  }

  method FoldTradeAll(evs: seq<TradeEvent>) returns (st: State)
    ensures st == FoldTrade(evs)
  {
    st := State(None, NonePhase, None);
    var i := 0;
    while i < |evs|
      invariant i <= |evs| && st == FoldTrade(evs[..i])
    {
      assert evs[..i + 1][..i] == evs[..i];
      st := Next(st, evs[i]);
      i := i + 1;
    }
    assert evs[..i] == evs;
  }

  // ---- the moves of a trade ----

  function MoveOf(o: Offer, who: Side, typ: MoveType, item: Item): Entry {
    Entry(PlayerOf(o, who), Move(typ, o.id, item.kind, item.amount))
  }

  function Other(who: Side): Side {
    if who == Proposer then Counterparty else Proposer
  }

  /** One of the eight moves a trade can make: what a side puts in is reserved, released or
      committed, and what the other side put in is received. */
  datatype Due = Due(who: Side, typ: MoveType)

  function ItemMoved(o: Offer, d: Due): Item {
    ItemOf(o, if d.typ == Received then Other(d.who) else d.who)
  }

  function MoveBy(o: Offer, d: Due): Entry {
    MoveOf(o, d.who, d.typ, ItemMoved(o, d))
  }

  /** The moves of the exchange, in order. */
  function Exchange(step: nat): Option<Due> {
    match step
    case 0 => Some(Due(Proposer, Committed))
    case 1 => Some(Due(Counterparty, Received))
    case 2 => Some(Due(Counterparty, Committed))
    case 3 => Some(Due(Proposer, Received))
    case _ => None
  }

  /** The moves one trade has made so far. */
  function TradeLog(log: seq<Entry>, id: string): seq<Entry> {
    if log == [] then []
    else
      var e := log[|log| - 1];
      TradeLog(log[..|log| - 1], id) + (if e.ev.Move? && e.ev.trade == id then [e] else [])
  }

  lemma TradeLogMore(log: seq<Entry>, e: Entry, id: string)
    ensures TradeLog(log + [e], id) == TradeLog(log, id) + (if e.ev.Move? && e.ev.trade == id then [e] else [])
  {
    assert (log + [e])[..|log|] == log;
  }

  predicate Did(moves: seq<Entry>, player: string, typ: MoveType) {
    exists i :: 0 <= i < |moves| && moves[i].player == player && moves[i].ev.Move? && moves[i].ev.typ == typ
  }

  /** Whether a player's stream has a move of a trade is seen in the trade's own moves. */
  lemma {:induction false} HasMoveIsDid(log: seq<Entry>, player: string, id: string, typ: MoveType)
    ensures HasMove(StreamOf(log, player), id, typ) <==> Did(TradeLog(log, id), player, typ)
  {
    if log != [] {
      var front, e := log[..|log| - 1], log[|log| - 1];
      assert front + [e] == log;
      HasMoveIsDid(front, player, id, typ);
      HasMoveMore(StreamOf(front, player), e.ev, id, typ);
      DidMore(TradeLog(front, id), e, player, typ);
      StreamMore(front, e, player);
      TradeLogMore(front, e, id);
      assert StreamOf(front, player) + [] == StreamOf(front, player);
      assert TradeLog(front, id) + [] == TradeLog(front, id);
    }
  }

  lemma HasMoveMore(evs: seq<InvEvent>, e: InvEvent, id: string, typ: MoveType)
    ensures HasMove(evs + [e], id, typ) <==> HasMove(evs, id, typ) || (e.Move? && e.typ == typ && e.trade == id)
  {
    if i :| 0 <= i < |evs| && evs[i].Move? && evs[i].typ == typ && evs[i].trade == id {
      assert (evs + [e])[i] == evs[i];
    }
    assert (evs + [e])[|evs|] == e;
  }

  /** Which moves a trade has made. */
  ghost function Made(o: Offer, moves: seq<Entry>): set<Due> {
    set who: Side, typ: MoveType | Did(moves, PlayerOf(o, who), typ) :: Due(who, typ)
  }

  lemma MadeMore(o: Offer, moves: seq<Entry>, d: Due)
    requires o.proposer != o.counterparty
    ensures Made(o, moves + [MoveBy(o, d)]) == Made(o, moves) + {d}
  {
    hide Did;
    forall x: Due
      ensures x in Made(o, moves + [MoveBy(o, d)]) <==> x in Made(o, moves) || x == d
    {
      DidMore(moves, MoveBy(o, d), PlayerOf(o, x.who), x.typ);
    }
  }

  lemma DidMore(moves: seq<Entry>, e: Entry, player: string, typ: MoveType)
    ensures Did(moves + [e], player, typ) <==> Did(moves, player, typ) || (e.player == player && e.ev.Move? && e.ev.typ == typ)
  {
    if i :| 0 <= i < |moves| && moves[i].player == player && moves[i].ev.Move? && moves[i].ev.typ == typ {
      assert (moves + [e])[i] == moves[i];
    }
    assert (moves + [e])[|moves|] == e;
  }
}
