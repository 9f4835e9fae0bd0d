/** The two styles reach the same end, and no event is acted on twice. */
module SagaTheorems {
  import opened Common
  import opened Inventory
  import opened Trade
  import opened Saga

  // ---- the styles agree ----

  /** The event by which the counterparty's decision reaches the choreographer. */
  function InputOf(d: Decision): TradeEvent {
    match d
    case Accept => Accepted
    case Reject => Rejected
    case _ => Expired
  }

  /** Reacting to one more event, all earlier ones being done. */
  lemma ReactToNew(w: World, id: string, ev: TradeEvent, makes: nat)
    ensures var w1 := Tell(w, id, ev);
            React(w1, |w.trades|, makes) == React(Handle(w1, TradeEntry(id, ev), makes), |w.trades| + 1, makes)
            && |Handle(w1, TradeEntry(id, ev), makes).trades| >= |w.trades| + 1
  {
    ReactShrinks(Tell(w, id, ev), |w.trades|, makes);
  }

  /** Nothing reacts to an event that only reports. */
  lemma ReactToReport(w: World, id: string, ev: TradeEvent, makes: nat)
    requires Reach(ev) == 1
    ensures React(Tell(w, id, ev), |w.trades|, makes) == Tell(w, id, ev)
  {
    ReactToNew(w, id, ev, makes);
  }

  /** The same inventories, and the same state of a trade. */
  ghost predicate Same(a: World, b: World, id: string) {
    a.inv == b.inv && Status(a, id) == Status(b, id)
  }

  lemma TellSame(a: World, b: World, id: string, ev: TradeEvent)
    requires Same(a, b, id)
    ensures Same(Tell(a, id, ev), Tell(b, id, ev), id)
  {
    TellStatus(a, id, ev, id);
    TellStatus(b, id, ev, id);
  }

  /** Moves on the inventories tell no trade anything. */
  lemma MovesTellNothing(w: World, inv: seq<Entry>, id: string)
    ensures Status(w.(inv := inv), id) == Status(w, id)
  {
  }

  /** From both sides reserved on. */
  lemma SettleAgrees(w: World, u: World, o: Offer, makes: nat)
    requires Same(w, u, o.id) && Status(u, o.id) == State(Some(o), ProposerReservedPhase, None)
    ensures var w3 := Tell(u, o.id, CounterpartyReserved);
            Same(React(Tell(w, o.id, CounterpartyReserved), |w.trades|, makes),
                 Tell(w3.(inv := Settling(w3.inv, o, makes)), o.id, SettleEnd(makes)), o.id)
  {
    hide Status, Release, Settling, React;
    var id, v, w3 := o.id, Tell(w, o.id, CounterpartyReserved), Tell(u, o.id, CounterpartyReserved);
    ReactToNew(w, id, CounterpartyReserved, makes);
    TellStatus(w, id, CounterpartyReserved, id);
    TellSame(w, u, id, CounterpartyReserved);
    var inv, ev := Settling(v.inv, o, makes), SettleEnd(makes);
    MovesTellNothing(v, inv, id);
    MovesTellNothing(w3, inv, id);
    ReactToReport(v.(inv := inv), id, ev, makes);
    TellSame(v.(inv := inv), w3.(inv := inv), id, ev);
  }

  /** What the decision sets off in a trade that waits for it, all earlier events being done. */
  lemma DecisionAgrees(v: World, u: World, o: Offer, d: Decision, makes: nat)
    requires d != DeciderError && Same(v, u, o.id) && Status(u, o.id) == State(Some(o), ProposerReservedPhase, None)
    ensures var w := Handle(v, TradeEntry(o.id, InputOf(d)), makes);
            |w.trades| >= |v.trades| && Same(React(w, |v.trades|, makes), Decided(u, o, d, makes), o.id)
  {
    var id := o.id;
    hide Status, React, Release, Settling, ReserveSide;
    var c := ReserveSide(v.inv, o, Counterparty);
    if d == Accept && c.error == None {
      MovesTellNothing(v, c.log, id);
      MovesTellNothing(u, c.log, id);
      SettleAgrees(v.(inv := c.log), u.(inv := c.log), o, makes);
    } else {
      var inv := Release(if d == Accept then c.log else v.inv, o, Proposer);
      var why := Cancelled(if d == Accept then ReserveFailed(Counterparty, c.error.value) else ReasonOf(d));
      MovesTellNothing(v, inv, id);
      MovesTellNothing(u, inv, id);
      ReactToReport(v.(inv := inv), id, why, makes);
      TellSame(v.(inv := inv), u.(inv := inv), id, why);
    }
  }

  /** The first `n` reactions from `pos` on, and where they end. */
  function ReactSome(w: World, pos: nat, n: nat, makes: nat): (r: (World, nat))
    requires pos <= |w.trades|
    ensures r.1 <= |r.0.trades|
    decreases n
  {
    if n == 0 || pos == |w.trades| then (w, pos)
    else
      ReactShrinks(w, pos, makes);
      ReactSome(Handle(w, w.trades[pos], makes), pos + 1, n - 1, makes)
  }

  /** The choreography of one trade: the proposal and the first `n` reactions, then the decision,
      and all that is left to react to. */
  function Danced(w: World, o: Offer, d: Decision, makes: nat, n: nat): World {
    var (w1, pos) := ReactSome(Tell(w, o.id, Proposed(o)), |w.trades|, n, makes);
    React(Tell(w1, o.id, InputOf(d)), pos, makes)
  }

  /** Nothing reacts to a report, whatever stands behind it. */
  lemma ReportStep(w: World, pos: nat, makes: nat)
    requires pos < |w.trades| && Reach(w.trades[pos].ev) == 1
    ensures React(w, pos, makes) == React(w, pos + 1, makes)
  {
    ReactShrinks(w, pos, makes);
  }

  lemma ProposedFirst(w: World, o: Offer)
    requires StreamOfTrade(w.trades, o.id) == []
    ensures Status(w, o.id) == State(None, NonePhase, None)
    ensures Status(Tell(w, o.id, Proposed(o)), o.id) == State(Some(o), ProposedPhase, None)
  {
    TellStatus(w, o.id, Proposed(o), o.id);
  }

  /** The reaction to a proposal under a fresh identity, whether or not an input has come. */
  lemma ProposalActs(w: World, o: Offer, makes: nat)
    requires Status(w, o.id) == State(Some(o), ProposedPhase, None)
    ensures var p := ReserveSide(w.inv, o, Proposer);
            var ev := if p.error == None then ProposerReserved else Cancelled(ReserveFailed(Proposer, p.error.value));
            var w' := Tell(w.(inv := p.log), o.id, ev);
            && Handle(w, TradeEntry(o.id, Proposed(o)), makes) == w'
            && Status(w', o.id) == Next(Status(w, o.id), ev)
  {
    var p := ReserveSide(w.inv, o, Proposer);
    MovesTellNothing(w, p.log, o.id);
    TellStatus(w.(inv := p.log), o.id, if p.error == None then ProposerReserved else Cancelled(ReserveFailed(Proposer, p.error.value)), o.id);
    hide Status, ReserveSide;
  }

  /** Reacting to an event, to the one behind it, and past what the first reaction reports. */
  lemma ReactTwice(w: World, pos: nat, makes: nat)
    requires pos + 2 == |w.trades|
    ensures var v := Handle(w, w.trades[pos], makes);
            |v.trades| == pos + 3 && w.trades <= v.trades && Reach(v.trades[pos + 2].ev) == 1 ==>
              var w' := Handle(v, w.trades[pos + 1], makes);
              |w'.trades| >= |v.trades| && React(w, pos, makes) == React(w', |v.trades|, makes)
  {
    hide Handle, Reach;
    var v := Handle(w, w.trades[pos], makes);
    ReactShrinks(w, pos, makes);
    if |v.trades| == pos + 3 && w.trades <= v.trades && Reach(v.trades[pos + 2].ev) == 1 {
      ReactShrinks(v, pos + 1, makes);
      var w' := Handle(v, w.trades[pos + 1], makes);
      assert v.trades[pos + 1] == w.trades[pos + 1] && w'.trades[pos + 2] == v.trades[pos + 2];
      ReportStep(w', pos + 2, makes);
    }
  }

  /** The input comes before the proposal has been reacted to. */
  lemma DancedEarly(w: World, o: Offer, d: Decision, makes: nat)
    requires StreamOfTrade(w.trades, o.id) == [] && d != DeciderError
    ensures Same(Danced(w, o, d, makes, 0), Executed(w, o, d, makes), o.id)
  {
    hide Status, ReserveSide, Settling, Release, React, Handle, Decided;
    var id, w1 := o.id, Tell(w, o.id, Proposed(o));
    var v1 := Tell(w1, id, InputOf(d));
    ProposedFirst(w, o);
    TellStatus(w1, id, InputOf(d), id);
    ProposalActs(w1, o, makes);
    ProposalActs(v1, o, makes);
    var u, v := Handle(w1, TradeEntry(id, Proposed(o)), makes), Handle(v1, TradeEntry(id, Proposed(o)), makes);
    ReactTwice(v1, |w.trades|, makes);
    if ReserveSide(w.inv, o, Proposer).error == None {
      DecisionAgrees(v, u, o, d, makes);
    } else {
      LateIsQuiet(v, id, InputOf(d), makes);
      NoMore(v, makes);
    }
  }

  lemma LateIsQuiet(w: World, id: string, ev: TradeEvent, makes: nat)
    requires IsInput(ev) && Status(w, id).phase != ProposerReservedPhase
    ensures Handle(w, TradeEntry(id, ev), makes) == w
  {
    hide Status;
  }

  lemma NoMore(w: World, makes: nat)
    ensures React(w, |w.trades|, makes) == w
  {
  }

  lemma SomeReports(w: World, pos: nat, n: nat, makes: nat)
    requires pos + 1 == |w.trades| && Reach(w.trades[pos].ev) == 1
    ensures ReactSome(w, pos, n, makes) == (w, if n == 0 then pos else pos + 1)
  {
    if n > 0 {
      ReactShrinks(w, pos, makes);
      assert ReactSome(w, pos + 1, n - 1, makes) == (w, pos + 1);
    }
  }

  /** The input comes when the proposal has been reacted to. */
  lemma DancedLate(w: World, o: Offer, d: Decision, makes: nat, n: nat)
    requires StreamOfTrade(w.trades, o.id) == [] && d != DeciderError && n > 0
    ensures Same(Danced(w, o, d, makes, n), Executed(w, o, d, makes), o.id)
  {
    hide Status, ReserveSide, Settling, Release, React, Handle, Decided;
    var id, k, w1 := o.id, |w.trades|, Tell(w, o.id, Proposed(o));
    ProposedFirst(w, o);
    ProposalActs(w1, o, makes);
    var u := Handle(w1, TradeEntry(id, Proposed(o)), makes);
    var v := Tell(u, id, InputOf(d));
    assert |u.trades| == k + 2 && Reach(u.trades[k + 1].ev) == 1;
    assert ReactSome(u, k + 1, n - 1, makes) == (u, if n == 1 then k + 1 else k + 2) by { SomeReports(u, k + 1, n - 1, makes); }
    ReportStep(v, k + 1, makes);
    TellStatus(u, id, InputOf(d), id);
    ReactToNew(u, id, InputOf(d), makes);
    assert Danced(w, o, d, makes, n) == React(v, k + 2, makes);
    if ReserveSide(w.inv, o, Proposer).error == None {
      DecisionAgrees(v, u, o, d, makes);
    } else {
      LateIsQuiet(v, id, InputOf(d), makes);
      NoMore(v, makes);
    }
  }

  /** For every content of the inventories, every offer under a fresh identity, every decision
      and any moment behind the proposal at which it comes, both styles store the same inventory
      events and end in the same phase, for the same reason. */
  lemma StylesAgree(w: World, o: Offer, d: Decision, makes: nat, n: nat)
    requires StreamOfTrade(w.trades, o.id) == [] && d != DeciderError
    ensures Same(Danced(w, o, d, makes, n), Executed(w, o, d, makes), o.id)
    ensures Status(Executed(w, o, d, makes), o.id).phase.Terminal()
  {
    hide Status, Danced;
    if n == 0 { DancedEarly(w, o, d, makes); } else { DancedLate(w, o, d, makes, n); }
    ExecutedEnds(w, o, d, makes);
  }

  lemma ExecutedEnds(w: World, o: Offer, d: Decision, makes: nat)
    ensures Status(Executed(w, o, d, makes), o.id).phase.Terminal()
  {
    hide Status, ReserveSide, Decided;
    var w1, p := Tell(w, o.id, Proposed(o)), ReserveSide(w.inv, o, Proposer);
    if p.error.Some? {
      TellStatus(w1.(inv := p.log), o.id, Cancelled(ReserveFailed(Proposer, p.error.value)), o.id);
    } else {
      DecidedEnds(Tell(w1.(inv := p.log), o.id, ProposerReserved), o, d, makes);
    }
  }

  lemma DecidedEnds(w: World, o: Offer, d: Decision, makes: nat)
    ensures Status(Decided(w, o, d, makes), o.id).phase.Terminal()
  {
    hide Status, Release, Settling, ReserveSide;
    var c := ReserveSide(w.inv, o, Counterparty);
    if d != Accept {
      TellStatus(w.(inv := Release(w.inv, o, Proposer)), o.id, Cancelled(ReasonOf(d)), o.id);
    } else if c.error.Some? {
      TellStatus(w.(inv := Release(c.log, o, Proposer)), o.id, Cancelled(ReserveFailed(Counterparty, c.error.value)), o.id);
    } else {
      var w3 := Tell(w.(inv := c.log), o.id, CounterpartyReserved);
      TellStatus(w3.(inv := Settling(w3.inv, o, makes)), o.id, SettleEnd(makes), o.id);
    }
  }

  // ---- late and duplicated inputs ----

  predicate IsInput(ev: TradeEvent) {
    ev == Accepted || ev == Rejected || ev == Expired
  }

  /** An input to a trade that is not waiting for one changes nothing: no inventory event, no
      trade event, and the state stays. */
  lemma LateInput(w: World, id: string, ev: TradeEvent, makes: nat)
    requires IsInput(ev) && Status(w, id).phase != ProposerReservedPhase
    ensures React(Tell(w, id, ev), |w.trades|, makes) == Tell(w, id, ev)
    ensures Same(Tell(w, id, ev), w, id)
  {
    TellStatus(w, id, ev, id);
    ReactToNew(w, id, ev, makes);
  }

  // ---- nothing is acted on twice ----

  /** A choreographer at work: it has handled the log up to `pos`, and before a restart had
      once got to `done`. */
  datatype Chor = Chor(w: World, pos: nat, done: nat)

  datatype ChorStep =
    | Propose(offer: Offer)
    | Input(id: string, ev: TradeEvent)
    | Others(inv: seq<Entry>)
    | HandleNext(makes: nat)
    | Restart

  predicate Enabled(c: Chor, step: ChorStep) {
    match step
    case Propose(o) => StreamOfTrade(c.w.trades, o.id) == []
    case Input(id, ev) => IsInput(ev) && StreamOfTrade(c.w.trades, id) != []
    case Others(_) => true
    case HandleNext(_) => c.pos < |c.w.trades|
    case Restart => true
  }

  function Do(c: Chor, step: ChorStep): Chor
    requires Enabled(c, step)
  {
    match step
    case Propose(o) => c.(w := Tell(c.w, o.id, Proposed(o)))
    case Input(id, ev) => c.(w := Tell(c.w, id, ev))
    case Others(inv) => c.(w := c.w.(inv := c.w.inv + inv))
    case HandleNext(makes) =>
      Chor(Handle(c.w, c.w.trades[c.pos], makes), c.pos + 1, if c.pos + 1 > c.done then c.pos + 1 else c.done)
    case Restart => c.(pos := 0)
  }

  ghost predicate IsRun(run: seq<Chor>) {
    && run != [] && run[0] == Chor(World([], []), 0, 0)
    && forall i :: 0 <= i < |run| - 1 ==> Follows(run[i], run[i + 1])
  }

  ghost predicate Follows(c: Chor, d: Chor) {
    exists step :: Enabled(c, step) && d == Do(c, step)
  }

  function Rank(p: Phase): nat {
    match p
    case NonePhase => 0
    case ProposedPhase => 1
    case ProposerReservedPhase => 2
    case CounterpartyReservedPhase => 3
    case _ => 4
  }

  /** The phase in which an event is acted on. */
  function ActsIn(ev: TradeEvent): nat {
    match ev
    case Proposed(_) => 1
    case Accepted => 2
    case Rejected => 2
    case Expired => 2
    case CounterpartyReserved => 3
    case _ => 0
  }

  /** The trade is past the phase in which this event does anything. */
  ghost predicate Spent(w: World, e: TradeEntry) {
    Reach(e.ev) == 1 || Rank(Status(w, e.id).phase) > ActsIn(e.ev)
  }

  /** The trade has at least reached the phase in which the event does something; an input
      waits for the proposal to have been acted on. */
  ghost predicate Came(w: World, e: TradeEntry) {
    && (e.ev.Proposed? ==> Rank(Status(w, e.id).phase) >= 1)
    && (e.ev == CounterpartyReserved ==> Rank(Status(w, e.id).phase) >= 3)
    && Status(w, e.id).offer.Some?
  }

  /** Behind every other event of a trade there is its proposal. */
  ghost predicate Begun(trades: seq<TradeEntry>) {
    forall i :: 0 <= i < |trades| && !trades[i].ev.Proposed? ==> ProposedBefore(trades, i, trades[i].id)
  }

  ghost predicate ProposedBefore(trades: seq<TradeEntry>, i: nat, id: string) {
    exists j :: 0 <= j < i && j < |trades| && trades[j].id == id && trades[j].ev.Proposed?
  }

  ghost predicate Inv(c: Chor) {
    && c.pos <= c.done <= |c.w.trades| && Begun(c.w.trades)
    && (forall i :: 0 <= i < c.done ==> Spent(c.w, c.w.trades[i]))
    && (forall i :: 0 <= i < |c.w.trades| ==> Came(c.w, c.w.trades[i]))
  }

  lemma SpentIsQuiet(w: World, e: TradeEntry, makes: nat)
    requires Spent(w, e)
    ensures Handle(w, e, makes) == w
  {
    hide Status, ReserveSide, Settling, Release;
  }

  /** An event sets something off exactly in the phase it belongs to. */
  lemma QuietExactlyWhen(w: World, e: TradeEntry, makes: nat)
    requires Status(w, e.id).offer.Some?
    ensures Handle(w, e, makes) == w <==> Reach(e.ev) == 1 || Rank(Status(w, e.id).phase) != ActsIn(e.ev)
  {
    hide Status, ReserveSide, Settling, Release;
    HandleShape(w, e, makes);
  }

  /** A reaction is one more event of the trade, about a later phase. */
  lemma HandleShape(w: World, e: TradeEntry, makes: nat)
    ensures var w' := Handle(w, e, makes);
            w' == w || (Rank(Status(w, e.id).phase) == ActsIn(e.ev) && Status(w, e.id).offer.Some? && |w'.trades| == |w.trades| + 1
                        && var ev := w'.trades[|w.trades|].ev;
                           && w' == Tell(w.(inv := w'.inv), e.id, ev) && !ev.Proposed?
                           && Rank(Next(Status(w, e.id), ev).phase) > ActsIn(e.ev)
                           && (ev == CounterpartyReserved ==> Rank(Next(Status(w, e.id), ev).phase) >= 3))
    ensures Reach(e.ev) > 1 && Rank(Status(w, e.id).phase) == ActsIn(e.ev) && Status(w, e.id).offer.Some? ==> Handle(w, e, makes) != w
  {
    hide Status, ReserveSide, Settling, Release;
  }

  /** Acting on an event takes its trade past it, and no trade back. */
  lemma HandleAdvances(w: World, e: TradeEntry, makes: nat, id: string)
    requires Came(w, e) && (IsInput(e.ev) ==> Rank(Status(w, e.id).phase) >= 2)
    ensures var w' := Handle(w, e, makes);
            && Spent(w', e)
            && Rank(Status(w', id).phase) >= Rank(Status(w, id).phase) && (Status(w, id).offer.Some? ==> Status(w', id).offer.Some?)
            && (w' == w || (|w'.trades| == |w.trades| + 1 && w'.trades[..|w.trades|] == w.trades
                            && w'.trades[|w.trades|].id == e.id && !w'.trades[|w.trades|].ev.Proposed? && Came(w', w'.trades[|w.trades|])))
  {
    var w' := Handle(w, e, makes);
    HandleShape(w, e, makes);
    hide Status, Handle;
    if w' != w {
      var ev := w'.trades[|w.trades|].ev;
      TellStatus(w.(inv := w'.inv), e.id, ev, id);
      MovesTellNothing(w, w'.inv, id);
      MovesTellNothing(w, w'.inv, e.id);
    }
  }

  lemma ProposedIsSpent(c: Chor, i: nat)
    requires Inv(c) && i < |c.w.trades| && i <= c.done && IsInput(c.w.trades[i].ev)
    ensures Rank(Status(c.w, c.w.trades[i].id).phase) >= 2
  {
    hide Status;
    assert ProposedBefore(c.w.trades, i, c.w.trades[i].id);
    var j :| 0 <= j < i && j < |c.w.trades| && c.w.trades[j].id == c.w.trades[i].id && c.w.trades[j].ev.Proposed?;
    assert Spent(c.w, c.w.trades[j]);
  }

  lemma BegunMore(trades: seq<TradeEntry>, e: TradeEntry)
    requires Begun(trades) && (!e.ev.Proposed? ==> ProposedBefore(trades, |trades|, e.id))
    ensures Begun(trades + [e])
  {
    var more := trades + [e];
    forall i | 0 <= i < |more| && !more[i].ev.Proposed?
      ensures ProposedBefore(more, i, more[i].id)
    {
      assert ProposedBefore(trades, i, more[i].id);
      var j :| 0 <= j < i && j < |trades| && trades[j].id == more[i].id && trades[j].ev.Proposed?;
      assert more[j] == trades[j];
    }
  }

  lemma BegunHas(trades: seq<TradeEntry>, i: nat)
    requires Begun(trades) && i < |trades|
    ensures ProposedBefore(trades, |trades|, trades[i].id)
  {
    if !trades[i].ev.Proposed? {
      assert ProposedBefore(trades, i, trades[i].id);
    }
  }

  lemma HandleKeeps(c: Chor, makes: nat)
    requires Inv(c) && c.pos < |c.w.trades|
    ensures Inv(Do(c, HandleNext(makes)))
  {
    hide Status, Handle, Spent, Came, Begun;
    var e, d := c.w.trades[c.pos], Do(c, HandleNext(makes));
    if IsInput(e.ev) { ProposedIsSpent(c, c.pos); }
    HandleAdvances(c.w, e, makes, e.id);
    if d.w != c.w {
      BegunHas(c.w.trades, c.pos);
      assert d.w.trades == c.w.trades + [d.w.trades[|c.w.trades|]];
      BegunMore(c.w.trades, d.w.trades[|c.w.trades|]);
    }
    forall i | 0 <= i < |c.w.trades|
      ensures i < d.done ==> Spent(d.w, d.w.trades[i])
      ensures Came(d.w, d.w.trades[i])
    {
      HandleAdvances(c.w, e, makes, c.w.trades[i].id);
      StaysSpent(c.w, d.w, c.w.trades[i]);
      assert d.w.trades[i] == c.w.trades[i];
    }
  }

  lemma StaysSpent(w: World, w': World, e: TradeEntry)
    requires Rank(Status(w', e.id).phase) >= Rank(Status(w, e.id).phase)
    requires Status(w, e.id).offer.Some? ==> Status(w', e.id).offer.Some?
    ensures Spent(w, e) ==> Spent(w', e)
    ensures Came(w, e) ==> Came(w', e)
  {
    hide Status;
  }

  lemma {:induction false} NoEventsOf(trades: seq<TradeEntry>, id: string)
    ensures StreamOfTrade(trades, id) == [] <==> forall i :: 0 <= i < |trades| ==> trades[i].id != id
  {
    if trades != [] {
      var front := trades[..|trades| - 1];
      NoEventsOf(front, id);
      assert forall i :: 0 <= i < |front| ==> front[i] == trades[i];
    }
  }

  lemma TellKeeps(c: Chor, id: string, ev: TradeEvent)
    requires Inv(c)
    requires (ev.Proposed? && StreamOfTrade(c.w.trades, id) == []) || (IsInput(ev) && StreamOfTrade(c.w.trades, id) != [])
    ensures Inv(c.(w := Tell(c.w, id, ev)))
  {
    hide Status, Spent, Came, Begun, StreamOfTrade, Next;
    var d, e := c.(w := Tell(c.w, id, ev)), TradeEntry(id, ev);
    TellFits(c, id, ev);
    BegunMore(c.w.trades, e);
    forall i | 0 <= i < |c.w.trades|
      ensures i < d.done ==> Spent(d.w, d.w.trades[i])
      ensures Came(d.w, d.w.trades[i])
    {
      TellStatus(c.w, id, ev, c.w.trades[i].id);
      StaysSpent(c.w, d.w, c.w.trades[i]);
    }
  }

  /** A proposal or an input, told to its trade. */
  lemma TellFits(c: Chor, id: string, ev: TradeEvent)
    requires Inv(c)
    requires (ev.Proposed? && StreamOfTrade(c.w.trades, id) == []) || (IsInput(ev) && StreamOfTrade(c.w.trades, id) != [])
    ensures var w := Tell(c.w, id, ev);
            && Came(w, TradeEntry(id, ev)) && (!ev.Proposed? ==> ProposedBefore(c.w.trades, |c.w.trades|, id))
            && Rank(Status(w, id).phase) >= Rank(Status(c.w, id).phase)
            && (Status(c.w, id).offer.Some? ==> Status(w, id).offer.Some?)
  {
    NoEventsOf(c.w.trades, id);
    TellStatus(c.w, id, ev, id);
    assert ev.Proposed? ==> Status(c.w, id).phase == NonePhase;
    hide Status, Spent, Came, Begun, StreamOfTrade;
    if IsInput(ev) {
      var i :| 0 <= i < |c.w.trades| && c.w.trades[i].id == id;
      BegunHas(c.w.trades, i);
      CameHasOffer(c.w, c.w.trades[i]);
    }
    NewCame(Tell(c.w, id, ev), TradeEntry(id, ev));
  }

  lemma CameHasOffer(w: World, e: TradeEntry)
    requires Came(w, e)
    ensures Status(w, e.id).offer.Some?
  {
    hide Status;
  }

  lemma NewCame(w: World, e: TradeEntry)
    requires e.ev.Proposed? || IsInput(e.ev)
    requires Status(w, e.id).offer.Some? && (e.ev.Proposed? ==> Status(w, e.id).phase == ProposedPhase)
    ensures Came(w, e)
  {
    hide Status;
  }

  lemma StepKeeps(c: Chor, step: ChorStep)
    requires Inv(c) && Enabled(c, step)
    ensures Inv(Do(c, step))
  {
    hide StreamOfTrade, Handle, Begun;
    match step {
      case Propose(o) => TellKeeps(c, o.id, Proposed(o));
      case Input(id, ev) => TellKeeps(c, id, ev);
      case Others(inv) =>
        forall i | 0 <= i < |c.w.trades|
          ensures Status(Do(c, step).w, c.w.trades[i].id) == Status(c.w, c.w.trades[i].id)
        {
          MovesTellNothing(c.w, c.w.inv + inv, c.w.trades[i].id);
        }
      case HandleNext(makes) => HandleKeeps(c, makes);
      case Restart =>
    }
  }

  lemma {:induction false} RunInv(run: seq<Chor>, i: nat)
    requires IsRun(run) && i < |run|
    ensures Inv(run[i])
    decreases i
  {
    hide Inv, Do, Enabled;
    if i == 0 {
      assert Inv(run[0]) by { StartInv(); }
    } else {
      RunInv(run, i - 1);
      assert Follows(run[i - 1], run[i]);
      var step :| Enabled(run[i - 1], step) && run[i] == Do(run[i - 1], step);
      StepKeeps(run[i - 1], step);
    }
  }

  lemma StartInv()
    ensures Inv(Chor(World([], []), 0, 0))
  {
  }

  /** In every run, with any number of trades, inputs that come early, late or more than once,
      and restarts that replay the log from its start: an event that has been handled once is
      never acted on again. */
  lemma ReplayAppendsNothing(run: seq<Chor>, i: nat, k: nat, makes: nat)
    requires IsRun(run) && i < |run| && k < run[i].done
    ensures k < |run[i].w.trades| && Handle(run[i].w, run[i].w.trades[k], makes) == run[i].w
  {
    hide Spent, Came, Begun;
    RunInv(run, i);
    SpentIsQuiet(run[i].w, run[i].w.trades[k], makes);
  }
}
