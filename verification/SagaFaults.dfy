/** Where the choreography falls short of its promises, and exactly when. */
module SagaFaults {
  import opened Common
  import opened Inventory
  import opened Trade
  import opened Saga
  import opened SagaTheorems

  // ---- when a reservation succeeds ----

  /** What a caller can look up beforehand: a reservation without interference succeeds if and
      only if the trade has one already or the spendable amount covers it. */
  lemma ReserveSucceedsWhen(inv: seq<Entry>, o: Offer, who: Side)
    ensures var evs, item := StreamOf(inv, PlayerOf(o, who)), ItemOf(o, who);
            ReserveSide(inv, o, who).error == None <==>
            item.amount > 0 && (HasMove(evs, o.id, Reserved) || Available(evs, item.kind) >= item.amount)
  {
    hide StreamOf, HasMove, Available;
    assert inv + [] == inv;
  }

  // ---- inputs that come before their trade ----

  /** An input stored before its trade is proposed does nothing when its turn comes. When the
      log is replayed after the proposal it is acted on, if and only if the proposer's goods
      could be set aside. */
  lemma EarlyInputActsOnReplay(w: World, o: Offer, ev: TradeEvent, makes: nat)
    requires StreamOfTrade(w.trades, o.id) == [] && IsInput(ev)
    ensures var w1 := Tell(w, o.id, ev);
            && React(w1, |w.trades|, makes) == w1
            && var w2 := React(Tell(w1, o.id, Proposed(o)), |w1.trades|, makes);
               && w1.trades <= w2.trades
               && (Handle(w2, TradeEntry(o.id, ev), makes) != w2 <==> ReserveSide(w.inv, o, Proposer).error == None)
  {
    hide React, ReserveSide, Handle;
    ProposedBehindInput(w, o, ev, makes);
    hide Status;
    QuietExactlyWhen(ProposedBehind(w, o, ev), TradeEntry(o.id, ev), makes);
  }

  /** What is stored of a trade proposed behind one of its inputs. */
  function ProposedBehind(w: World, o: Offer, ev: TradeEvent): World {
    var p := ReserveSide(w.inv, o, Proposer);
    var w2 := Tell(Tell(w, o.id, ev), o.id, Proposed(o)).(inv := p.log);
    Tell(w2, o.id, if p.error == None then ProposerReserved else Cancelled(ReserveFailed(Proposer, p.error.value)))
  }

  lemma ProposedBehindInput(w: World, o: Offer, ev: TradeEvent, makes: nat)
    requires StreamOfTrade(w.trades, o.id) == [] && IsInput(ev)
    ensures var w1 := Tell(w, o.id, ev);
            && React(w1, |w.trades|, makes) == w1
            && React(Tell(w1, o.id, Proposed(o)), |w1.trades|, makes) == ProposedBehind(w, o, ev)
    ensures var p := ReserveSide(w.inv, o, Proposer);
            Status(ProposedBehind(w, o, ev), o.id) ==
            if p.error == None then State(Some(o), ProposerReservedPhase, None)
            else State(Some(o), CancelledPhase, Some(ReserveFailed(Proposer, p.error.value)))
  {
    hide Status, React, ReserveSide, Handle;
    var id, w1 := o.id, Tell(w, o.id, ev);
    ProposedFirst(w, o);
    LateInput(w, id, ev, makes);
    TellStatus(w, id, ev, id);
    TellStatus(w1, id, Proposed(o), id);
    ReactToNew(w1, id, Proposed(o), makes);
    var p, w2 := ReserveSide(w.inv, o, Proposer), Tell(w1, id, Proposed(o));
    ProposalActs(w2, o, makes);
    ReactToReport(w2.(inv := p.log), id, if p.error == None then ProposerReserved else Cancelled(ReserveFailed(Proposer, p.error.value)), makes);
  }

  // ---- what a settle step leaves reserved ----

  /** What one more entry changes, as a player's stream shows it. */
  lemma OneEntry(inv: seq<Entry>, e: Entry, player: string, kind: string, id: string)
    ensures var a, b := StreamOf(inv, player), StreamOf(inv + [e], player);
            && Available(b, kind) == Available(a, kind) + (if e.player == player then SpendDelta(e.ev, kind) else 0)
            && Held(b, kind) == Held(a, kind) + (if e.player == player then HoldDelta(e.ev, kind) else 0)
            && forall typ: MoveType :: HasMove(b, id, typ) <==>
                 HasMove(a, id, typ) || (e.player == player && e.ev.Move? && e.ev.typ == typ && e.ev.trade == id)
  {
    hide Held, Available, HasMove, StreamOf, HoldDelta, SpendDelta;
    StreamMore(inv, e, player);
    assert StreamOf(inv, player) + [] == StreamOf(inv, player);
    FoldMore(StreamOf(inv, player), e.ev, kind);
    forall typ: MoveType
      ensures HasMove(StreamOf(inv, player) + [e.ev], id, typ) <==>
                HasMove(StreamOf(inv, player), id, typ) || (e.ev.Move? && e.ev.typ == typ && e.ev.trade == id)
    {
      HasMoveMore(StreamOf(inv, player), e.ev, id, typ);
    }
  }

  /** What of a trade a player's stream shows: what is reserved of what the side put in, and
      which moves were made. */
  ghost predicate Shows(inv: seq<Entry>, o: Offer, who: Side, held: int, typs: set<MoveType>) {
    var evs := StreamOf(inv, PlayerOf(o, who));
    Held(evs, ItemOf(o, who).kind) == held && forall typ: MoveType :: HasMove(evs, o.id, typ) <==> typ in typs
  }

  /** A move of the trade, made unless it has been made. */
  lemma Shifted(inv: seq<Entry>, o: Offer, d: Due, who: Side, held: int, typs: set<MoveType>)
    requires o.proposer != o.counterparty && Shows(inv, o, who, held, typs) && d.typ != Reserved
    ensures var mine := d.who == who && d.typ !in typs;
            Shows(Shift(inv, o, d), o, who,
                  if mine && d.typ != Received then held - ItemOf(o, who).amount else held, if d.who == who then typs + {d.typ} else typs)
  {
    hide Held, Available, HasMove, StreamOf;
    OneEntry(inv, MoveBy(o, d), PlayerOf(o, who), ItemOf(o, who).kind, o.id);
  }

  /** A side's moves when so many of the exchange have been made. */
  function Exchanged(typs: set<MoveType>, who: Side, makes: nat): set<MoveType> {
    if makes == 0 then typs
    else
      var before, next := Exchanged(typs, who, makes - 1), Exchange(makes - 1);
      if next.Some? && next.value.who == who then before + {next.value.typ} else before
  }

  lemma {:induction false} Transferred(inv: seq<Entry>, o: Offer, makes: nat, who: Side, held: int, typs: set<MoveType>)
    requires o.proposer != o.counterparty && Shows(inv, o, who, held, typs)
    ensures var after := Exchanged(typs, who, makes);
            && typs <= after && (Released in after <==> Released in typs)
            && Shows(Transfer(inv, o, makes), o, who, if Committed in after && Committed !in typs then held - ItemOf(o, who).amount else held, after)
  {
    hide Shows, Shift;
    if makes > 0 {
      Transferred(inv, o, makes - 1, who, held, typs);
      var before, next := Exchanged(typs, who, makes - 1), Exchange(makes - 1);
      if next.Some? {
        var h := if Committed in before && Committed !in typs then held - ItemOf(o, who).amount else held;
        Shifted(Transfer(inv, o, makes - 1), o, next.value, who, h, before);
      }
    }
  }

  lemma ExchangedWhen(typs: set<MoveType>, who: Side, makes: nat)
    ensures Committed in Exchanged(typs, who, makes) <==> Committed in typs || makes >= if who == Proposer then 1 else 3
  {
    if makes > 4 { ExchangedWhen(typs, who, makes - 1); }
  }

  lemma SettlingShows(inv: seq<Entry>, o: Offer, makes: nat, who: Side, held: int, typs: set<MoveType>)
    requires o.proposer != o.counterparty && Shows(inv, o, who, held, typs)
    ensures var after := Exchanged(typs, who, makes);
            var committed := if Committed in after && Committed !in typs then ItemOf(o, who).amount else 0;
            var released := if makes < 4 && Released !in typs then ItemOf(o, who).amount else 0;
            Shows(Settling(inv, o, makes), o, who, held - committed - released, if makes < 4 then after + {Released} else after)
  {
    hide Shows, Transfer, Shift, Exchanged;
    Transferred(inv, o, makes, who, held, typs);
    var after := Exchanged(typs, who, makes);
    var h := if Committed in after && Committed !in typs then held - ItemOf(o, who).amount else held;
    if makes < 4 {
      var moved := Transfer(inv, o, makes);
      Shifted(moved, o, Due(Proposer, Released), who, h, after);
      if who == Proposer {
        var h2 := if Released in after then h else h - ItemOf(o, who).amount;
        Shifted(Release(moved, o, Proposer), o, Due(Counterparty, Released), who, h2, after + {Released});
      } else {
        Shifted(Release(moved, o, Proposer), o, Due(Counterparty, Released), who, h, after);
      }
    }
  }

  /** A settle step that fails releases what was reserved, and does not ask whether it has been
      committed: what a side put in leaves its reserved amount once for its commit and once for
      its release, each unless it was made before. */
  lemma SettledHeld(w: World, o: Offer, makes: nat, who: Side)
    requires Status(w, o.id) == State(Some(o), CounterpartyReservedPhase, None) && o.proposer != o.counterparty
    ensures var w2, player, item := OnCounterpartyReserved(w, o.id, makes), PlayerOf(o, who), ItemOf(o, who);
            var evs, evs2 := StreamOf(w.inv, player), StreamOf(w2.inv, player);
            && (Status(w2, o.id).phase == if makes >= 4 then SettledPhase else CancelledPhase)
            && Held(evs2, item.kind) == Held(evs, item.kind)
                 - (if makes >= (if who == Proposer then 1 else 3) && !HasMove(evs, o.id, Committed) then item.amount else 0)
                 - (if makes < 4 && !HasMove(evs, o.id, Released) then item.amount else 0)
            && (HasMove(evs2, o.id, Released) <==> HasMove(evs, o.id, Released) || makes < 4)
            && (HasMove(evs2, o.id, Committed) <==> HasMove(evs, o.id, Committed) || makes >= if who == Proposer then 1 else 3)
  {
    hide Status, Held, Settling, StreamOf, Exchanged, HasMove;
    var evs := StreamOf(w.inv, PlayerOf(o, who));
    var held, typs := Held(evs, ItemOf(o, who).kind), set typ: MoveType | HasMove(evs, o.id, typ);
    assert Shows(w.inv, o, who, held, typs);
    SettlingShows(w.inv, o, makes, who, held, typs);
    ExchangedWhen(typs, who, makes);
    Transferred(w.inv, o, makes, who, held, typs);
    MovesTellNothing(w, Settling(w.inv, o, makes), o.id);
    TellStatus(w.(inv := Settling(w.inv, o, makes)), o.id, SettleEnd(makes), o.id);
  }

  /** Of a trade with both sides reserved and nothing else moved, a settle step that fails takes a
      side's goods out of what is reserved twice if and only if it fails behind that side's
      commit; with less than that reserved for other trades, the amount falls below zero. */
  lemma FailedSettleTakesTwice(w: World, o: Offer, makes: nat, who: Side)
    requires Status(w, o.id) == State(Some(o), CounterpartyReservedPhase, None) && o.proposer != o.counterparty && makes < 4
    requires var evs := StreamOf(w.inv, PlayerOf(o, who)); !HasMove(evs, o.id, Committed) && !HasMove(evs, o.id, Released)
    requires ItemOf(o, who).amount > 0
    ensures var w2 := OnCounterpartyReserved(w, o.id, makes);
            var before, after := Held(StreamOf(w.inv, PlayerOf(o, who)), ItemOf(o, who).kind), Held(StreamOf(w2.inv, PlayerOf(o, who)), ItemOf(o, who).kind);
            && Status(w2, o.id).phase == CancelledPhase
            && (after == before - 2 * ItemOf(o, who).amount <==> makes >= if who == Proposer then 1 else 3)
            && (after == before - ItemOf(o, who).amount <==> makes < if who == Proposer then 1 else 3)
  {
    hide Status, HasMove, Held, StreamOf, OnCounterpartyReserved;
    SettledHeld(w, o, makes, who);
  }

  // ---- where a handler must run to its end ----

  lemma ReserveAlone(inv: seq<Entry>, o: Offer, who: Side, player: string)
    requires PlayerOf(o, who) != player
    ensures StreamOf(ReserveSide(inv, o, who).log, player) == StreamOf(inv, player)
  {
    hide StreamOf, Judge, HasMove, Available;
    ReserveLogs(inv, o, who);
    StreamMore(inv, MoveBy(o, Due(who, Reserved)), player);
    assert StreamOf(inv, player) + [] == StreamOf(inv, player);
  }

  lemma ReserveLogs(inv: seq<Entry>, o: Offer, who: Side)
    ensures var r := ReserveSide(inv, o, who);
            r.log == if r.error == None && !HasMove(StreamOf(inv, PlayerOf(o, who)), o.id, Reserved) then inv + [MoveBy(o, Due(who, Reserved))] else inv
  {
    hide StreamOf, HasMove, Available;
    assert inv + [] == inv;
  }

  /** A handler that dies between releasing the proposer's goods and cancelling the trade leaves
      it where an accept is acted on by the replay: the same one, or one that was stored before.
      It settles what has been released if and only if the counterparty can be reserved by then
      (`ReserveSucceedsWhen` says when that is) and the settle step works, and takes the given
      amount out of what the proposer has reserved a second time as soon as it has committed. */
  lemma ResumedAfterRelease(w: World, o: Offer, makes: nat)
    requires Status(w, o.id) == State(Some(o), ProposerReservedPhase, None) && o.proposer != o.counterparty
    requires HasMove(StreamOf(w.inv, o.proposer), o.id, Released) && !HasMove(StreamOf(w.inv, o.proposer), o.id, Committed)
    ensures var w2 := OnCounterpartyReserved(OnAccepted(w, o.id), o.id, makes);
            var able := ReserveSide(w.inv, o, Counterparty).error == None;
            var before, after := Held(StreamOf(w.inv, o.proposer), o.give.kind), Held(StreamOf(w2.inv, o.proposer), o.give.kind);
            && (Status(w2, o.id).phase == SettledPhase <==> able && makes >= 4)
            && after == before - (if able && makes >= 1 then o.give.amount else 0)
            && (before >= 0 ==> (after < 0 <==> able && makes >= 1 && before < o.give.amount))
  {
    var id, c := o.id, ReserveSide(w.inv, o, Counterparty);
    hide Status, StreamOf, ReserveSide, HasMove, Held, Transfer, Settling, Release;
    ReserveAlone(w.inv, o, Counterparty, o.proposer);
    MovesTellNothing(w, c.log, id);
    if c.error == None {
      TellStatus(w.(inv := c.log), id, CounterpartyReserved, id);
      var w1 := Tell(w.(inv := c.log), id, CounterpartyReserved);
      assert OnAccepted(w, id) == w1;
      SettledHeld(w1, o, makes, Proposer);
    } else {
      ReleaseAgain(c.log, o, Proposer);
      TellStatus(w.(inv := c.log), id, Cancelled(ReserveFailed(Counterparty, c.error.value)), id);
    }
  }

  lemma ReleaseAgain(inv: seq<Entry>, o: Offer, who: Side)
    requires HasMove(StreamOf(inv, PlayerOf(o, who)), o.id, Released)
    ensures Release(inv, o, who) == inv
  {
  }

  /** The same for a handler that dies while it undoes a failed settle: the trade ends settled if
      and only if the settle step works the second time, and what has been released is taken out
      again as soon as it is committed. */
  lemma ResumedAfterFailedSettle(w: World, o: Offer, makes: nat)
    requires Status(w, o.id) == State(Some(o), CounterpartyReservedPhase, None) && o.proposer != o.counterparty
    requires HasMove(StreamOf(w.inv, o.proposer), o.id, Released) && !HasMove(StreamOf(w.inv, o.proposer), o.id, Committed)
    ensures var w2 := OnCounterpartyReserved(w, o.id, makes);
            var before, after := Held(StreamOf(w.inv, o.proposer), o.give.kind), Held(StreamOf(w2.inv, o.proposer), o.give.kind);
            && (Status(w2, o.id).phase == SettledPhase <==> makes >= 4)
            && after == before - (if makes >= 1 then o.give.amount else 0)
            && (before >= 0 ==> (after < 0 <==> makes >= 1 && before < o.give.amount))
  {
    hide Status, HasMove, Held, StreamOf, OnCounterpartyReserved;
    SettledHeld(w, o, makes, Proposer);
  }

  // ---- replays of a trade's events ----

  lemma {:induction false} QuietStretch(w: World, pos: nat, n: nat, makes: nat)
    requires pos <= n <= |w.trades| && forall i :: pos <= i < n ==> Handle(w, w.trades[i], makes) == w
    ensures React(w, pos, makes) == React(w, n, makes)
    decreases n - pos
  {
    hide Handle;
    if pos < n {
      ReactShrinks(w, pos, makes);
      QuietStretch(w, pos + 1, n, makes);
    }
  }

  /** The events of one trade, and among them an input with no other before it. */
  ghost predicate FirstInput(w: World, id: string, k: nat) {
    && k < |w.trades| && IsInput(w.trades[k].ev)
    && (forall i :: 0 <= i < |w.trades| ==> w.trades[i].id == id && w.trades[i].ev != CounterpartyReserved)
    && forall i :: 0 <= i < k ==> !IsInput(w.trades[i].ev)
  }

  /** In a trade that waits for the counterparty, a replay goes by the input stored first. */
  lemma ReplayComesTo(w: World, o: Offer, k: nat, makes: nat)
    requires Status(w, o.id) == State(Some(o), ProposerReservedPhase, None) && FirstInput(w, o.id, k)
    ensures |Handle(w, w.trades[k], makes).trades| > k && React(w, 0, makes) == React(Handle(w, w.trades[k], makes), k + 1, makes)
  {
    hide Status, Handle;
    forall i | 0 <= i < k
      ensures Handle(w, w.trades[i], makes) == w
    {
      QuietExactlyWhen(w, w.trades[i], makes);
    }
    QuietStretch(w, 0, k, makes);
    ReactShrinks(w, k, makes);
  }

  /** If that is an accept, the trade is settled. */
  lemma ReplayAccepts(w: World, o: Offer, k: nat, makes: nat)
    requires Status(w, o.id) == State(Some(o), ProposerReservedPhase, None) && FirstInput(w, o.id, k) && w.trades[k].ev == Accepted
    requires ReserveSide(w.inv, o, Counterparty).error == None
    ensures React(w, 0, makes) == OnCounterpartyReserved(OnAccepted(w, o.id), o.id, makes)
  {
    hide Status, ReserveSide, React, Settling, Release;
    var id, c := o.id, ReserveSide(w.inv, o, Counterparty);
    var w1 := Tell(w.(inv := c.log), id, CounterpartyReserved);
    ReplayComesTo(w, o, k, makes);
    assert Handle(w, w.trades[k], makes) == w1 && OnAccepted(w, id) == w1;
    MovesTellNothing(w, c.log, id);
    TellStatus(w.(inv := c.log), id, CounterpartyReserved, id);
    RestIsQuiet(w1, id, k + 1, |w.trades|, makes);
    ReactToNew(w.(inv := c.log), id, CounterpartyReserved, makes);
    ReactToReport(w1.(inv := Settling(w1.inv, o, makes)), id, SettleEnd(makes), makes);
  }

  /** If it is a reject or an expiry, the proposer's goods are released and that is all. */
  lemma ReplayAborts(w: World, o: Offer, k: nat, makes: nat)
    requires Status(w, o.id) == State(Some(o), ProposerReservedPhase, None) && FirstInput(w, o.id, k) && w.trades[k].ev != Accepted
    ensures React(w, 0, makes) == OnAbort(w, o.id, w.trades[k].ev == Expired)
    ensures Status(React(w, 0, makes), o.id).phase == CancelledPhase
  {
    hide Status, React, Release;
    var id, inv := o.id, Release(w.inv, o, Proposer);
    var why := Cancelled(if w.trades[k].ev == Expired then TimedOut else RejectedByCounterparty);
    var w1 := Tell(w.(inv := inv), id, why);
    ReplayComesTo(w, o, k, makes);
    assert Handle(w, w.trades[k], makes) == w1 && OnAbort(w, id, w.trades[k].ev == Expired) == w1;
    MovesTellNothing(w, inv, id);
    TellStatus(w.(inv := inv), id, why, id);
    RestIsQuiet(w1, id, k + 1, |w1.trades|, makes);
    NoMore(w1, makes);
  }

  lemma RestIsQuiet(w: World, id: string, pos: nat, n: nat, makes: nat)
    requires pos <= n <= |w.trades| && Status(w, id).offer.Some? && Rank(Status(w, id).phase) >= 3
    requires forall i :: pos <= i < n ==> w.trades[i].id == id && w.trades[i].ev != CounterpartyReserved
    ensures React(w, pos, makes) == React(w, n, makes)
  {
    hide Status, Handle, React;
    forall i | pos <= i < n
      ensures Handle(w, w.trades[i], makes) == w
    {
      QuietExactlyWhen(w, w.trades[i], makes);
    }
    QuietStretch(w, pos, n, makes);
  }

  // ---- stores that get there ----

  function Gathers(o: Offer, who: Side): Entry {
    Entry(PlayerOf(o, who), Gathered(ItemOf(o, who).kind, ItemOf(o, who).amount))
  }

  /** What a side can spend, and what the trade shows of it. */
  ghost predicate Sheet(inv: seq<Entry>, o: Offer, who: Side, avail: int, held: int, typs: set<MoveType>) {
    Available(StreamOf(inv, PlayerOf(o, who)), ItemOf(o, who).kind) == avail && Shows(inv, o, who, held, typs)
  }

  lemma EmptySheet(o: Offer, who: Side)
    ensures Sheet([], o, who, 0, 0, {})
  {
  }

  lemma SheetGathers(inv: seq<Entry>, o: Offer, x: Side, who: Side, avail: int, held: int, typs: set<MoveType>)
    requires o.proposer != o.counterparty && Sheet(inv, o, who, avail, held, typs)
    ensures Sheet(inv + [Gathers(o, x)], o, who, if x == who then avail + ItemOf(o, who).amount else avail, held, typs)
  {
    hide Held, Available, HasMove, StreamOf;
    OneEntry(inv, Gathers(o, x), PlayerOf(o, who), ItemOf(o, who).kind, o.id);
  }

  lemma SheetReserves(inv: seq<Entry>, o: Offer, x: Side, who: Side, avail: int, held: int, typs: set<MoveType>)
    requires o.proposer != o.counterparty && Sheet(inv, o, who, avail, held, typs)
    ensures var mine := if x == who then ItemOf(o, who).amount else 0;
            Sheet(inv + [MoveBy(o, Due(x, Reserved))], o, who, avail - mine, held + mine, if x == who then typs + {Reserved} else typs)
  {
    hide Held, Available, HasMove, StreamOf;
    OneEntry(inv, MoveBy(o, Due(x, Reserved)), PlayerOf(o, who), ItemOf(o, who).kind, o.id);
  }

  lemma SheetReleases(inv: seq<Entry>, o: Offer, who: Side, avail: int, held: int, typs: set<MoveType>)
    requires o.proposer != o.counterparty && Sheet(inv, o, who, avail, held, typs) && (who == Proposer ==> Released !in typs)
    ensures var mine := if who == Proposer then ItemOf(o, who).amount else 0;
            Sheet(Release(inv, o, Proposer), o, who, avail + mine, held - mine, if who == Proposer then typs + {Released} else typs)
  {
    hide Held, Available, HasMove, StreamOf;
    OneEntry(inv, MoveBy(o, Due(Proposer, Released)), PlayerOf(o, who), ItemOf(o, who).kind, o.id);
  }

  lemma SheetCovers(inv: seq<Entry>, o: Offer, who: Side, avail: int, held: int, typs: set<MoveType>)
    requires Sheet(inv, o, who, avail, held, typs) && Reserved !in typs && ItemOf(o, who).amount > 0
    ensures var r := ReserveSide(inv, o, who);
            && (r.error == None <==> avail >= ItemOf(o, who).amount)
            && r.log == if r.error == None then inv + [MoveBy(o, Due(who, Reserved))] else inv
  {
    hide Held, Available, HasMove, StreamOf, ReserveSide;
    ReserveSucceedsWhen(inv, o, who);
    ReserveLogs(inv, o, who);
  }

  /** The sheets of both sides when the proposer, and then the counterparty too, has gathered. */
  lemma FirstSheets(o: Offer)
    requires o.proposer != o.counterparty
    ensures var one, both := [Gathers(o, Proposer)], [Gathers(o, Proposer), Gathers(o, Counterparty)];
            && Sheet(one, o, Proposer, o.give.amount, 0, {}) && Sheet(one, o, Counterparty, 0, 0, {})
            && Sheet(both, o, Proposer, o.give.amount, 0, {}) && Sheet(both, o, Counterparty, o.want.amount, 0, {})
  {
    hide Sheet, Gathers;
    var one, both := [Gathers(o, Proposer)], [Gathers(o, Proposer), Gathers(o, Counterparty)];
    assert [] + one == one && one + [Gathers(o, Counterparty)] == both;
    EmptySheet(o, Proposer);
    EmptySheet(o, Counterparty);
    SheetGathers([], o, Proposer, Proposer, 0, 0, {});
    SheetGathers([], o, Proposer, Counterparty, 0, 0, {});
    SheetGathers(one, o, Counterparty, Proposer, o.give.amount, 0, {});
    SheetGathers(one, o, Counterparty, Counterparty, 0, 0, {});
  }

  // An accept that is refused.

  /** The proposer has gathered what it gives; the trade is proposed, handled and accepted. */
  function Offered(o: Offer): World {
    Tell(React(Tell(World([Gathers(o, Proposer)], []), o.id, Proposed(o)), 0, 4), o.id, Accepted)
  }

  /** The counterparty has nothing, and the handler of the accept dies behind its release. */
  function Abandoned(o: Offer): World {
    var w := Offered(o);
    w.(inv := Release(ReserveSide(w.inv, o, Counterparty).log, o, Proposer))
  }

  /** The counterparty gathers what it owes, and the log is replayed from its start. */
  function Replayed(o: Offer): World {
    var w := Abandoned(o);
    React(w.(inv := w.inv + [Gathers(o, Counterparty)]), 0, 4)
  }

  lemma OfferedIs(o: Offer)
    requires o.proposer != o.counterparty && o.give.amount > 0
    ensures Offered(o) == World([Gathers(o, Proposer), MoveBy(o, Due(Proposer, Reserved))],
                                [TradeEntry(o.id, Proposed(o)), TradeEntry(o.id, ProposerReserved), TradeEntry(o.id, Accepted)])
    ensures Status(Offered(o), o.id) == State(Some(o), ProposerReservedPhase, None)
    ensures Sheet(Offered(o).inv, o, Proposer, 0, o.give.amount, {Reserved}) && Sheet(Offered(o).inv, o, Counterparty, 0, 0, {})
  {
    hide React, ReserveSide, Status, Handle, Sheet, Gathers, MoveBy;
    var w := World([Gathers(o, Proposer)], []);
    var w1 := Tell(w, o.id, Proposed(o));
    FirstSheets(o);
    SheetCovers(w.inv, o, Proposer, o.give.amount, 0, {});
    SheetReserves(w.inv, o, Proposer, Proposer, o.give.amount, 0, {});
    SheetReserves(w.inv, o, Proposer, Counterparty, 0, 0, {});
    ProposedFirst(w, o);
    ProposalActs(w1, o, 4);
    ReactToNew(w, o.id, Proposed(o), 4);
    var p := ReserveSide(w.inv, o, Proposer);
    ReactToReport(w1.(inv := p.log), o.id, ProposerReserved, 4);
    TellStatus(Tell(w1.(inv := p.log), o.id, ProposerReserved), o.id, Accepted, o.id);
    assert {} + {Reserved} == {Reserved};
  }

  /** What the dying handler leaves is what the whole handler stores, without the cancel. */
  lemma AbandonedIs(o: Offer)
    requires o.proposer != o.counterparty && o.give.amount > 0 && o.want.amount > 0
    ensures exists why: Reason :: OnAccepted(Offered(o), o.id) == Tell(Abandoned(o), o.id, Cancelled(why))
  {
    hide ReserveSide, Status, Sheet, Offered, Release;
    OfferedIs(o);
    var w := Offered(o);
    SheetCovers(w.inv, o, Counterparty, 0, 0, {});
    var r := ReserveSide(w.inv, o, Counterparty);
    assert OnAccepted(w, o.id) == Tell(Abandoned(o), o.id, Cancelled(ReserveFailed(Counterparty, r.error.value)));
  }

  /** A run of the code that takes a reserved amount below zero: for any two players and any
      positive amounts, the proposer ends with minus what it gave. */
  lemma ReplayOverdraws(o: Offer)
    requires o.proposer != o.counterparty && o.give.amount > 0 && o.want.amount > 0
    ensures Status(Replayed(o), o.id).phase == SettledPhase
    ensures Held(StreamOf(Replayed(o).inv, o.proposer), o.give.kind) == -o.give.amount
  {
    hide ReserveSide, Status, Offered, Release, React, Gathers, MoveBy, Held, Available, StreamOf, HasMove;
    OfferedIs(o);
    var w, a := Offered(o), Abandoned(o);
    SheetCovers(w.inv, o, Counterparty, 0, 0, {});
    SheetReleases(w.inv, o, Proposer, 0, o.give.amount, {Reserved});
    SheetReleases(w.inv, o, Counterparty, 0, 0, {});
    SheetGathers(a.inv, o, Counterparty, Proposer, o.give.amount, 0, {Reserved, Released});
    SheetGathers(a.inv, o, Counterparty, Counterparty, 0, 0, {});
    Settles(w, a.inv + [Gathers(o, Counterparty)], o, 2);
  }

  /** A replay that settles a trade whose proposer's goods have been released. */
  lemma Settles(w: World, inv: seq<Entry>, o: Offer, k: nat)
    requires Status(w, o.id) == State(Some(o), ProposerReservedPhase, None) && FirstInput(w, o.id, k) && w.trades[k].ev == Accepted
    requires Sheet(inv, o, Proposer, o.give.amount, 0, {Reserved, Released}) && Sheet(inv, o, Counterparty, o.want.amount, 0, {})
    requires o.proposer != o.counterparty && o.want.amount > 0
    ensures var w2 := React(w.(inv := inv), 0, 4);
            Status(w2, o.id).phase == SettledPhase && Held(StreamOf(w2.inv, o.proposer), o.give.kind) == -o.give.amount
  {
    hide Status, ReserveSide, React, Held, Available, StreamOf, HasMove, OnAccepted, OnCounterpartyReserved;
    MovesTellNothing(w, inv, o.id);
    SheetCovers(inv, o, Counterparty, o.want.amount, 0, {});
    ReplayAccepts(w.(inv := inv), o, k, 4);
    ResumedAfterRelease(w.(inv := inv), o, 4);
  }

  // Inputs that contradict each other, the first of them stored before the proposal.

  /** Both sides have gathered what they put in; the one input is stored, then the trade is
      proposed and handled, and the other input is stored. */
  function Contradicted(o: Offer, first: TradeEvent, second: TradeEvent): World {
    var w := World([Gathers(o, Proposer), Gathers(o, Counterparty)], []);
    var w1 := Tell(React(Tell(w, o.id, first), 0, 4), o.id, Proposed(o));
    Tell(React(w1, 1, 4), o.id, second)
  }

  lemma ContradictedIs(o: Offer, first: TradeEvent, second: TradeEvent)
    requires o.proposer != o.counterparty && o.give.amount > 0 && IsInput(first) && IsInput(second)
    ensures var w := Contradicted(o, first, second);
            && Status(w, o.id) == State(Some(o), ProposerReservedPhase, None)
            && FirstInput(w, o.id, 0) && w.trades[0] == TradeEntry(o.id, first)
            && Sheet(w.inv, o, Proposer, 0, o.give.amount, {Reserved}) && Sheet(w.inv, o, Counterparty, o.want.amount, 0, {})
  {
    hide React, ReserveSide, Status, Handle, Sheet, Gathers, MoveBy;
    var w := World([Gathers(o, Proposer), Gathers(o, Counterparty)], []);
    FirstSheets(o);
    SheetCovers(w.inv, o, Proposer, o.give.amount, 0, {});
    SheetReserves(w.inv, o, Proposer, Proposer, o.give.amount, 0, {});
    SheetReserves(w.inv, o, Proposer, Counterparty, o.want.amount, 0, {});
    ProposedBehindInput(w, o, first, 4);
    TellStatus(ProposedBehind(w, o, first), o.id, second, o.id);
    assert {} + {Reserved} == {Reserved};
  }

  /** An accept before the proposal, then a reject whose handler dies behind its release: the
      replay goes by the accept, and takes the reserved amount below zero. */
  lemma RejectOverdraws(o: Offer)
    requires o.proposer != o.counterparty && o.give.amount > 0 && o.want.amount > 0
    ensures var w := Contradicted(o, Accepted, Rejected);
            var cut := w.(inv := Release(w.inv, o, Proposer));
            && OnAbort(w, o.id, false) == Tell(cut, o.id, Cancelled(RejectedByCounterparty))
            && Status(React(cut, 0, 4), o.id).phase == SettledPhase
            && Held(StreamOf(React(cut, 0, 4).inv, o.proposer), o.give.kind) == -o.give.amount
  {
    hide Contradicted, Release, React, Held, StreamOf, Status;
    ContradictedIs(o, Accepted, Rejected);
    var w := Contradicted(o, Accepted, Rejected);
    SheetReleases(w.inv, o, Proposer, 0, o.give.amount, {Reserved});
    SheetReleases(w.inv, o, Counterparty, o.want.amount, 0, {});
    Settles(w, Release(w.inv, o, Proposer), o, 0);
  }

  /** A reject before the proposal, then an accept whose handler dies behind its reservation: the
      replay goes by the reject, and what the counterparty has reserved stays reserved, whatever
      event of the trade comes or is replayed. */
  lemma RejectStrands(o: Offer, e: TradeEntry, makes: nat)
    requires o.proposer != o.counterparty && o.give.amount > 0 && o.want.amount > 0
    requires e.id == o.id && !e.ev.Proposed?
    ensures var w := Contradicted(o, Rejected, Accepted);
            var cut := w.(inv := ReserveSide(w.inv, o, Counterparty).log);
            var w2 := React(cut, 0, 4);
            && OnAccepted(w, o.id) == Tell(cut, o.id, CounterpartyReserved)
            && Status(w2, o.id).phase == CancelledPhase && Handle(w2, e, makes) == w2
            && Held(StreamOf(w2.inv, o.counterparty), o.want.kind) == o.want.amount
  {
    hide Contradicted, Release, React, Held, Available, HasMove, StreamOf, Status, ReserveSide, Handle;
    ContradictedIs(o, Rejected, Accepted);
    var w := Contradicted(o, Rejected, Accepted);
    SheetCovers(w.inv, o, Counterparty, o.want.amount, 0, {});
    SheetReserves(w.inv, o, Counterparty, Counterparty, o.want.amount, 0, {});
    var cut := w.(inv := ReserveSide(w.inv, o, Counterparty).log);
    SheetReleases(cut.inv, o, Counterparty, 0, o.want.amount, {} + {Reserved});
    MovesTellNothing(w, cut.inv, o.id);
    ReplayAborts(cut, o, 0, 4);
    assert React(cut, 0, 4).inv == Release(cut.inv, o, Proposer);
    SpentIsQuiet(React(cut, 0, 4), e, makes);
  }
}
