/** Two ways to coordinate a trade over the same steps: an orchestrator that drives it from one
    method, and a choreographer that reacts to the events of the trade's stream. */
module Saga {
  import opened Common
  import opened Inventory
  import opened Trade

  datatype TradeEntry = TradeEntry(id: string, ev: TradeEvent)

  /** The store: the inventory streams and the trade streams, each in the order stored. */
  datatype World = World(inv: seq<Entry>, trades: seq<TradeEntry>)

  function StreamOfTrade(trades: seq<TradeEntry>, id: string): seq<TradeEvent> {
    if trades == [] then []
    else
      var e := trades[|trades| - 1];
      StreamOfTrade(trades[..|trades| - 1], id) + (if e.id == id then [e.ev] else [])
  }

  function Status(w: World, id: string): State {
    FoldTrade(StreamOfTrade(w.trades, id))
  }

  function Tell(w: World, id: string, ev: TradeEvent): World {
    w.(trades := w.trades + [TradeEntry(id, ev)])
  }

  /** Telling a trade something takes its state one event on and leaves other trades alone. */
  lemma TellStatus(w: World, id: string, ev: TradeEvent, other: string)
    ensures Status(Tell(w, id, ev), id) == Next(Status(w, id), ev)
    ensures other != id ==> Status(Tell(w, id, ev), other) == Status(w, other)
  {
    var before, after := StreamOfTrade(w.trades, id), StreamOfTrade(Tell(w, id, ev).trades, id);
    assert Tell(w, id, ev).trades[..|w.trades|] == w.trades;
    assert after == before + [ev] && after[..|before|] == before;
    assert StreamOfTrade(w.trades, other) + [] == StreamOfTrade(w.trades, other);
  }

  // ---- the steps both styles share ----

  function Alone(): (others: seq<seq<Entry>>)
    ensures |others| == MAX_RESERVE_RETRIES && forall i :: 0 <= i < |others| ==> others[i] == []
  {
    seq(MAX_RESERVE_RETRIES, _ => [])
  }

  function ReserveSide(inv: seq<Entry>, o: Offer, who: Side): Outcome {
    var item := ItemOf(o, who);
    Reserving(inv, PlayerOf(o, who), o.id, item.kind, item.amount, Alone())
  }

  function Shift(inv: seq<Entry>, o: Offer, d: Due): seq<Entry> {
    Moved(inv, PlayerOf(o, d.who), o.id, d.typ, ItemMoved(o, d).kind, ItemMoved(o, d).amount)
  }

  /** The exchange, or as much of it as is made before a store operation fails. */
  function Transfer(inv: seq<Entry>, o: Offer, makes: nat): seq<Entry> {
    if makes == 0 then inv
    else
      var before := Transfer(inv, o, makes - 1);
      if Exchange(makes - 1).Some? then Shift(before, o, Exchange(makes - 1).value) else before
  }

  function Release(inv: seq<Entry>, o: Offer, who: Side): seq<Entry> {
    Shift(inv, o, Due(who, Released))
  }

  lemma {:induction false} TransferEnds(inv: seq<Entry>, o: Offer, makes: nat)
    requires makes >= 4
    ensures Transfer(inv, o, makes) == Transfer(inv, o, 4)
  {
    if makes > 4 {
      TransferEnds(inv, o, makes - 1);
    }
  }

  /** A settle step with what undoes it; `makes` is how many of its four moves the store lets it
      make, so that below four it fails. */
  function Settling(inv: seq<Entry>, o: Offer, makes: nat): seq<Entry> {
    var moved := Transfer(inv, o, makes);
    if makes < 4 then Release(Release(moved, o, Proposer), o, Counterparty) else moved
  }

  function SettleEnd(makes: nat): TradeEvent {
    if makes < 4 then Cancelled(SettleFailed) else Settled
  }

  // ---- orchestration ----

  datatype Decision = Accept | Reject | Timeout | DeciderError

  function ReasonOf(d: Decision): Reason {
    match d
    case Reject => RejectedByCounterparty
    case Timeout => TimedOut
    case _ => DeciderFailed
  }

  /** What follows once the proposer's goods are set aside. */
  function Decided(w: World, o: Offer, d: Decision, makes: nat): World {
    if d != Accept then Tell(w.(inv := Release(w.inv, o, Proposer)), o.id, Cancelled(ReasonOf(d)))
    else
      var c := ReserveSide(w.inv, o, Counterparty);
      if c.error.Some? then
        Tell(w.(inv := Release(c.log, o, Proposer)), o.id, Cancelled(ReserveFailed(Counterparty, c.error.value)))
      else
        var w3 := Tell(w.(inv := c.log), o.id, CounterpartyReserved);
        Tell(w3.(inv := Settling(w3.inv, o, makes)), o.id, SettleEnd(makes))
  }

  /** The whole trade in one go. */
  function Executed(w: World, o: Offer, d: Decision, makes: nat): World {
    var w1 := Tell(w, o.id, Proposed(o));
    var p := ReserveSide(w1.inv, o, Proposer);
    if p.error.Some? then Tell(w1.(inv := p.log), o.id, Cancelled(ReserveFailed(Proposer, p.error.value)))
    else Decided(Tell(w1.(inv := p.log), o.id, ProposerReserved), o, d, makes)
  }

  // ---- choreography ----

  function OnProposed(w: World, id: string): World {
    var st := Status(w, id);
    if st.phase != ProposedPhase || st.offer == None then w
    else
      var r := ReserveSide(w.inv, st.offer.value, Proposer);
      var w1 := w.(inv := r.log);
      if r.error.Some? then Tell(w1, id, Cancelled(ReserveFailed(Proposer, r.error.value))) else Tell(w1, id, ProposerReserved)
  }

  function OnAccepted(w: World, id: string): World {
    var st := Status(w, id);
    if st.phase != ProposerReservedPhase || st.offer == None then w
    else
      var o := st.offer.value;
      var r := ReserveSide(w.inv, o, Counterparty);
      if r.error.Some? then
        Tell(w.(inv := Release(r.log, o, Proposer)), id, Cancelled(ReserveFailed(Counterparty, r.error.value)))
      else Tell(w.(inv := r.log), id, CounterpartyReserved)
  }

  function OnCounterpartyReserved(w: World, id: string, makes: nat): World {
    var st := Status(w, id);
    if st.phase != CounterpartyReservedPhase || st.offer == None then w
    else
      Tell(w.(inv := Settling(w.inv, st.offer.value, makes)), id, SettleEnd(makes))
  }

  function OnAbort(w: World, id: string, expired: bool): World {
    var st := Status(w, id);
    if st.phase != ProposerReservedPhase || st.offer == None then w
    else
      Tell(w.(inv := Release(w.inv, st.offer.value, Proposer)), id, Cancelled(if expired then TimedOut else RejectedByCounterparty))
  }

  /** The reaction to one event of the log. */
  function Handle(w: World, e: TradeEntry, makes: nat): World {
    match e.ev
    case Proposed(_) => OnProposed(w, e.id)
    case Accepted => OnAccepted(w, e.id)
    case CounterpartyReserved => OnCounterpartyReserved(w, e.id, makes)
    case Rejected => OnAbort(w, e.id, false)
    case Expired => OnAbort(w, e.id, true)
    case _ => w
  }

  /** How far an event can still set off others. */
  function Reach(ev: TradeEvent): nat {
    match ev
    case Accepted => 3
    case Proposed(_) => 2
    case CounterpartyReserved => 2
    case Rejected => 2
    case Expired => 2
    case _ => 1
  }

  function ReachAll(trades: seq<TradeEntry>): nat {
    if trades == [] then 0 else Reach(trades[0].ev) + ReachAll(trades[1..])
  }

  lemma {:induction false} ReachMore(trades: seq<TradeEntry>, e: TradeEntry)
    ensures ReachAll(trades + [e]) == ReachAll(trades) + Reach(e.ev)
  {
    if trades != [] {
      ReachMore(trades[1..], e);
      assert (trades + [e])[1..] == trades[1..] + [e];
    } else {
      assert trades + [e] == [e];
    }
  }

  /** A reaction adds at most one event, and one that reaches less far. */
  lemma ReactionAddsLess(w: World, e: TradeEntry, makes: nat)
    ensures var w' := Handle(w, e, makes);
            || w' == w
            || (|w'.trades| == |w.trades| + 1 && w'.trades[..|w.trades|] == w.trades
                && w'.trades[|w.trades|].id == e.id && Reach(w'.trades[|w.trades|].ev) < Reach(e.ev))
  {
    hide Status, ReserveSide, Transfer, Release;
  }

  /** Handles every event from `pos` on, those the reactions add included. */
  function React(w: World, pos: nat, makes: nat): World
    requires pos <= |w.trades|
    decreases ReachAll(w.trades[pos..])
  {
    if pos == |w.trades| then w
    else
      ReactShrinks(w, pos, makes);
      React(Handle(w, w.trades[pos], makes), pos + 1, makes)
  }

  lemma ReactShrinks(w: World, pos: nat, makes: nat)
    requires pos < |w.trades|
    ensures var w' := Handle(w, w.trades[pos], makes);
            w.trades <= w'.trades && ReachAll(w'.trades[pos + 1..]) < ReachAll(w.trades[pos..])
  {
    var w' := Handle(w, w.trades[pos], makes);
    ReactionAddsLess(w, w.trades[pos], makes);
    hide Handle, Reach;
    assert w.trades[pos..][1..] == w.trades[pos + 1..];
    if w' != w {
      var e := w'.trades[|w.trades|];
      assert w'.trades == w.trades + [e];
      assert w'.trades[pos + 1..] == w.trades[pos + 1..] + [e];
      ReachMore(w.trades[pos + 1..], e);
    }
  }

  // ---- the coordinators ----

  /** Both styles' methods over one store. */
  class Coordinator {
    const stock: Stock
    const makes: nat
    var trades: seq<TradeEntry>

    ghost function State(): World
      reads this, stock
    {
      World(stock.log, trades)
    }

    constructor (w: World, makes: nat)
      ensures fresh(stock) && State() == w && this.makes == makes
    {
      stock := new Stock(w.inv);
      trades, this.makes := w.trades, makes;
    }

    method Append(id: string, ev: TradeEvent)
      modifies this
      ensures State() == Tell(old(State()), id, ev)
    {
      trades := trades + [TradeEntry(id, ev)];
    }

    method StatusOf(id: string) returns (st: State)
      ensures st == Status(State(), id)
    {
      var evs := [];
      var i := 0;
      while i < |trades|
        invariant i <= |trades| && evs == StreamOfTrade(trades[..i], id)
      {
        assert trades[..i + 1][..i] == trades[..i];
        if trades[i].id == id {
          evs := evs + [trades[i].ev];
        }
        i := i + 1;
      }
      assert trades[..i] == trades;
      st := FoldTradeAll(evs);
    }

    method Set(o: Offer, who: Side) returns (error: Option<ReserveError>)
      modifies stock
      ensures var r := ReserveSide(old(stock.log), o, who);
              stock.log == r.log && error == r.error
    {
      var item := ItemOf(o, who);
      error := stock.Reserve(PlayerOf(o, who), o.id, item.kind, item.amount, Alone());
    }

    method Free(o: Offer, who: Side)
      modifies stock
      ensures stock.log == Release(old(stock.log), o, who)
    {
      MoveOne(o, Due(who, Released));
    }

    method MoveOne(o: Offer, d: Due)
      modifies stock
      ensures stock.log == Shift(old(stock.log), o, d)
    {
      stock.IdempotentMove(PlayerOf(o, d.who), o.id, d.typ, ItemMoved(o, d).kind, ItemMoved(o, d).amount);
    }

    /** The four moves of the exchange, as far as the store lets them be made. */
    method SettleTrade(o: Offer) returns (ok: bool)
      modifies stock
      ensures ok == (makes >= 4) && stock.log == Transfer(old(stock.log), o, makes)
    {
      hide Shift;
      if makes < 1 {
        return false;
      }
      MoveOne(o, Due(Proposer, Committed));
      assert stock.log == Transfer(old(stock.log), o, 1);
      if makes < 2 {
        return false;
      }
      MoveOne(o, Due(Counterparty, Received));
      assert stock.log == Transfer(old(stock.log), o, 2);
      if makes < 3 {
        return false;
      }
      MoveOne(o, Due(Counterparty, Committed));
      assert stock.log == Transfer(old(stock.log), o, 3);
      if makes < 4 {
        return false;
      }
      MoveOne(o, Due(Proposer, Received));
      TransferEnds(old(stock.log), o, makes);
      return true;
    }

    /** The orchestrator: every step, and beside it what undoes it. */
    method Execute(o: Offer, d: Decision)
      modifies this, stock
      ensures State() == Executed(old(State()), o, d, makes)
    {
      hide ReserveSide, Release, Transfer;
      Append(o.id, Proposed(o));
      var error := Set(o, Proposer);
      if error.Some? {
        Append(o.id, Cancelled(ReserveFailed(Proposer, error.value)));
        return;
      }
      Append(o.id, ProposerReserved);
      if d != Accept {
        Free(o, Proposer);
        Append(o.id, Cancelled(ReasonOf(d)));
        return;
      }
      error := Set(o, Counterparty);
      if error.Some? {
        Free(o, Proposer);
        Append(o.id, Cancelled(ReserveFailed(Counterparty, error.value)));
        return;
      }
      Append(o.id, CounterpartyReserved);
      var ok := SettleTrade(o);
      if !ok {
        Free(o, Proposer);
        Free(o, Counterparty);
        Append(o.id, Cancelled(SettleFailed));
        return;
      }
      Append(o.id, Settled);
    }

    /** The choreographer's reaction to one event. */
    method Apply(e: TradeEntry)
      modifies this, stock
      ensures State() == Handle(old(State()), e, makes)
    {
      hide ReserveSide, Release, Transfer, Status;
      var st := StatusOf(e.id);
      match e.ev
      case Proposed(_) =>
        if st.phase == ProposedPhase && st.offer.Some? {
          var error := Set(st.offer.value, Proposer);
          if error.Some? {
            Append(e.id, Cancelled(ReserveFailed(Proposer, error.value)));
          } else {
            Append(e.id, ProposerReserved);
          }
        }
      case Accepted =>
        if st.phase == ProposerReservedPhase && st.offer.Some? {
          var error := Set(st.offer.value, Counterparty);
          if error.Some? {
            Free(st.offer.value, Proposer);
            Append(e.id, Cancelled(ReserveFailed(Counterparty, error.value)));
          } else {
            Append(e.id, CounterpartyReserved);
          }
        }
      case CounterpartyReserved =>
        if st.phase == CounterpartyReservedPhase && st.offer.Some? {
          var ok := SettleTrade(st.offer.value);
          if ok {
            Append(e.id, Settled);
          } else {
            Free(st.offer.value, Proposer);
            Free(st.offer.value, Counterparty);
            Append(e.id, Cancelled(SettleFailed));
          }
        }
      case Rejected => Abort(e.id, st, false);
      case Expired => Abort(e.id, st, true);
      case _ =>
    }

    method Abort(id: string, st: State, expired: bool)
      requires st == Status(State(), id)
      modifies this, stock
      ensures State() == OnAbort(old(State()), id, expired)
    {
      hide Release, Status;
      if st.phase == ProposerReservedPhase && st.offer.Some? {
        Free(st.offer.value, Proposer);
        Append(id, Cancelled(if expired then TimedOut else RejectedByCounterparty));
      }
    }

    /** Follows the log from `pos` to its end. */
    method Follow(pos: nat)
      requires pos <= |trades|
      modifies this, stock
      ensures State() == React(old(State()), pos, makes)
    {
      hide Handle;
      var i: nat := pos;
      while i < |trades|
        invariant i <= |trades| && React(State(), i, makes) == React(old(State()), pos, makes)
        decreases ReachAll(trades[i..])
      {
        ReactShrinks(State(), i, makes);
        Apply(trades[i]);
        i := i + 1;
      }
    }
  }
}
