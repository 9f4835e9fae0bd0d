/** No overspending, and conservation of goods, in every reachable state of the market. */
module MarketTheorems {
  import opened Common
  import opened Inventory
  import opened Trade
  import opened Market
  import opened MarketSafety

  // ---- what a trade's moves add up to ----

  function Amount(item: Item, kind: string): int {
    if item.kind == kind then item.amount else 0
  }

  /** What a side put in is set aside: reserved, and neither taken out nor given back. */
  ghost predicate Standing(t: set<Due>, who: Side) {
    Due(who, Reserved) in t && Due(who, Committed) !in t && Due(who, Released) !in t
  }

  /** What a side put in once has been taken out twice: committed, and released too. */
  ghost predicate TwiceOut(t: set<Due>, who: Side) {
    Due(who, Committed) in t && Due(who, Released) in t
  }

  /** What a side put in has left its inventory and not reached the other. */
  ghost predicate OnTheWay(t: set<Due>, who: Side) {
    Due(who, Committed) in t && Due(Other(who), Received) !in t
  }

  /** What of a trade is counted: the pieces of a kind it has set aside for a player, those it
      has taken from the player twice, and those on their way between its two sides. */
  datatype Measure = SetAside(player: string, kind: string) | Overdrawn(player: string, kind: string) | InTransit(kind: string)

  ghost predicate Counts(m: Measure, o: Offer, t: set<Due>, who: Side) {
    match m
    case SetAside(player, _) => PlayerOf(o, who) == player && Standing(t, who)
    case Overdrawn(player, _) => PlayerOf(o, who) == player && TwiceOut(t, who)
    case InTransit(_) => OnTheWay(t, who)
  }

  ghost function Measured(m: Measure, o: Offer, t: set<Due>): int {
    (if Counts(m, o, t, Proposer) then Amount(o.give, m.kind) else 0)
    + (if Counts(m, o, t, Counterparty) then Amount(o.want, m.kind) else 0)
  }

  function If(c: bool, amount: int): int {
    if c then amount else 0
  }

  /** What a side's moves have put into its reserved amount and not taken out. */
  ghost function Share(o: Offer, t: set<Due>, who: Side, player: string, kind: string): int {
    var a := if PlayerOf(o, who) == player then Amount(ItemOf(o, who), kind) else 0;
    If(Due(who, Reserved) in t, a) - If(Due(who, Committed) in t, a) - If(Due(who, Released) in t, a)
  }

  /** What a side has given, less what the other has got of it. */
  ghost function Lost(o: Offer, t: set<Due>, who: Side, kind: string): int {
    var a := Amount(ItemOf(o, who), kind);
    If(Due(who, Committed) in t, a) - If(Due(Other(who), Received) in t, a)
  }

  lemma OneMore(o: Offer, t: set<Due>, d: Due, player: string, kind: string)
    requires d !in t
    ensures Share(o, t + {d}, Proposer, player, kind) + Share(o, t + {d}, Counterparty, player, kind) ==
            Share(o, t, Proposer, player, kind) + Share(o, t, Counterparty, player, kind) + Weigh(HeldBy(player, kind), MoveBy(o, d))
    ensures Lost(o, t + {d}, Proposer, kind) + Lost(o, t + {d}, Counterparty, kind) ==
            Lost(o, t, Proposer, kind) + Lost(o, t, Counterparty, kind) - Weigh(Worth(kind), MoveBy(o, d))
  {
    ShareMore(o, t, d, Proposer, player, kind);
    ShareMore(o, t, d, Counterparty, player, kind);
    hide Share, Lost, Weigh, MoveBy;
  }

  lemma ShareMore(o: Offer, t: set<Due>, d: Due, who: Side, player: string, kind: string)
    requires d !in t
    ensures Share(o, t + {d}, who, player, kind) == Share(o, t, who, player, kind) + If(d.who == who, Weigh(HeldBy(player, kind), MoveBy(o, d)))
    ensures Lost(o, t + {d}, who, kind) == Lost(o, t, who, kind) - If((d.who == who) != (d.typ == Received), Weigh(Worth(kind), MoveBy(o, d)))
  {
  }

  /** The moves a trade has made add up to what they are, whatever their order. */
  lemma {:induction false} MadeAddUp(o: Offer, moves: seq<Entry>, player: string, kind: string)
    requires Once(o, moves) && o.proposer != o.counterparty
    ensures var t := Made(o, moves);
            && Total(HeldBy(player, kind), moves) == Share(o, t, Proposer, player, kind) + Share(o, t, Counterparty, player, kind)
            && Total(Worth(kind), moves) == -(Lost(o, t, Proposer, kind) + Lost(o, t, Counterparty, kind))
  {
    hide Made, Weigh, Share, Lost, Amount;
    if moves == [] {
      NothingMade(o, player, kind);
    } else {
      var front := moves[..|moves| - 1];
      var d: Due :| d !in Made(o, front) && moves[|moves| - 1] == MoveBy(o, d);
      assert moves == front + [MoveBy(o, d)];
      MadeAddUp(o, front, player, kind);
      MadeMore(o, front, d);
      OneMore(o, Made(o, front), d, player, kind);
    }
  }

  lemma NothingMade(o: Offer, player: string, kind: string)
    ensures var t := Made(o, []);
            && Share(o, t, Proposer, player, kind) == 0 && Share(o, t, Counterparty, player, kind) == 0
            && Lost(o, t, Proposer, kind) == 0 && Lost(o, t, Counterparty, kind) == 0
  {
  }

  /** In terms of what is set aside, taken out twice and on its way. */
  lemma OrderedAddUp(o: Offer, t: set<Due>, player: string, kind: string)
    requires Ordered(o, t)
    ensures Share(o, t, Proposer, player, kind) + Share(o, t, Counterparty, player, kind) ==
            Measured(SetAside(player, kind), o, t) - Measured(Overdrawn(player, kind), o, t)
    ensures Lost(o, t, Proposer, kind) + Lost(o, t, Counterparty, kind) == Measured(InTransit(kind), o, t)
    ensures forall m: Measure :: Measured(m, o, t) >= 0
  {
    InOrder(o, t, Proposer);
    InOrder(o, t, Counterparty);
    hide Ordered;
  }

  lemma InOrder(o: Offer, t: set<Due>, who: Side)
    requires Ordered(o, t)
    ensures Due(who, Committed) in t || Due(who, Released) in t ==> Due(who, Reserved) in t
    ensures Due(Other(who), Received) in t ==> Due(who, Committed) in t
    ensures Due(who, Reserved) in t ==> ItemOf(o, who).amount > 0
  {
  }

  // ---- no player ever has less than nothing ----

  function TradeKeys(ids: seq<string>): (ks: seq<Key>)
    ensures |ks| == |ids| && forall i :: 0 <= i < |ids| ==> ks[i] == TradeKey(ids[i])
  {
    seq(|ids|, i requires 0 <= i < |ids| => TradeKey(ids[i]))
  }

  function PlayerKeys(names: seq<string>): (ks: seq<Key>)
    ensures |ks| == |names| && forall i :: 0 <= i < |names| ==> ks[i] == PlayerKey(names[i])
  {
    seq(|names|, i requires 0 <= i < |names| => PlayerKey(names[i]))
  }

  /** A list of all of a set, each once. */
  ghost predicate Lists(ids: seq<string>, all: set<string>) {
    Unique(ids) && forall id :: id in ids <==> id in all
  }

  lemma {:induction false} ListExists(all: set<string>) returns (ids: seq<string>)
    ensures Lists(ids, all)
    decreases |all|
  {
    if all == {} {
      ids := [];
    } else {
      var id :| id in all;
      ids := ListExists(all - {id});
      ids := ids + [id];
    }
  }

  /** The moves a trade has made so far. */
  ghost function MadeIn(s: Sys, id: string): set<Due>
    requires id in s.sagas
  {
    Made(s.sagas[id].offer, TradeLog(s.log, id))
  }

  ghost function SumOf(m: Measure, s: Sys, ids: seq<string>): int {
    if ids == [] then 0
    else (if ids[0] in s.sagas then Measured(m, s.sagas[ids[0]].offer, MadeIn(s, ids[0])) else 0) + SumOf(m, s, ids[1..])
  }

  lemma TradeAddsUp(s: Sys, id: string, player: string, kind: string)
    requires Inv(s) && id in s.sagas
    ensures var o, t := s.sagas[id].offer, MadeIn(s, id);
            && Total(HeldBy(player, kind), TradeLog(s.log, id)) == Measured(SetAside(player, kind), o, t) - Measured(Overdrawn(player, kind), o, t)
            && Total(Worth(kind), TradeLog(s.log, id)) == -Measured(InTransit(kind), o, t)
            && (forall m: Measure :: Measured(m, o, t) >= 0) && Ordered(o, t)
  {
    hide Made, NoOverdraft, TradesKnown, VersionFits, Total, TradeLog, Measured, Share, Lost, Once, Ordered, Amount;
    assert SagaFits(s.log, id, s.sagas[id]);
    MadeAddUp(s.sagas[id].offer, TradeLog(s.log, id), player, kind);
    OrderedAddUp(s.sagas[id].offer, MadeIn(s, id), player, kind);
  }

  lemma {:induction false} TradesAddUp(s: Sys, ids: seq<string>, player: string, kind: string)
    requires Inv(s) && forall id :: id in ids ==> id in s.sagas
    ensures SumParts(HeldBy(player, kind), false, s.log, TradeKeys(ids)) == SumOf(SetAside(player, kind), s, ids) - SumOf(Overdrawn(player, kind), s, ids)
    ensures SumParts(Worth(kind), false, s.log, TradeKeys(ids)) == -SumOf(InTransit(kind), s, ids)
  {
    hide Inv, Total, TradeLog, Measured, MadeIn, Ordered;
    if ids != [] {
      TradesAddUp(s, ids[1..], player, kind);
      TradePart(s.log, ids[0]);
      TradeAddsUp(s, ids[0], player, kind);
      assert TradeKeys(ids)[1..] == TradeKeys(ids[1..]);
    }
  }

  function GatheredTotal(log: seq<Entry>, kind: string): int {
    if log == [] then 0
    else
      var e := log[|log| - 1].ev;
      GatheredTotal(log[..|log| - 1], kind) + (if e.Gathered? && e.kind == kind then e.amount else 0)
  }

  lemma {:induction false} GathersPart(log: seq<Entry>, player: string, kind: string)
    ensures Total(HeldBy(player, kind), Part(false, log, NoTrade)) == 0
    ensures Total(Worth(kind), Part(false, log, NoTrade)) == GatheredTotal(log, kind)
  {
    if log != [] {
      var front, e := log[..|log| - 1], log[|log| - 1];
      GathersPart(front, player, kind);
      TotalMore(HeldBy(player, kind), Part(false, front, NoTrade), e);
      TotalMore(Worth(kind), Part(false, front, NoTrade), e);
      assert Part(false, front, NoTrade) + [] == Part(false, front, NoTrade);
    }
  }

  /** The log, split into gathers and trades. */
  lemma SplitByTrade(s: Sys, ids: seq<string>, player: string, kind: string)
    requires Inv(s) && Lists(ids, s.sagas.Keys)
    ensures Total(HeldBy(player, kind), s.log) == SumOf(SetAside(player, kind), s, ids) - SumOf(Overdrawn(player, kind), s, ids)
    ensures Total(Worth(kind), s.log) == GatheredTotal(s.log, kind) - SumOf(InTransit(kind), s, ids)
  {
    hide Total, SagasFit, NoOverdraft, SumOf;
    var keys := [NoTrade] + TradeKeys(ids);
    forall i | 0 <= i < |s.log|
      ensures KeyOf(false, s.log[i]) in keys
    {
      if s.log[i].ev.Move? {
        assert s.log[i].ev.trade in ids;
        var j :| 0 <= j < |ids| && ids[j] == s.log[i].ev.trade;
        assert keys[j + 1] == TradeKey(ids[j]);
      } else {
        assert keys[0] == NoTrade;
      }
    }
    assert Unique(keys);
    assert keys[1..] == TradeKeys(ids);
    PartsAddUp(HeldBy(player, kind), false, s.log, keys);
    PartsAddUp(Worth(kind), false, s.log, keys);
    GathersPart(s.log, player, kind);
    TradesAddUp(s, ids, player, kind);
  }

  /** In every reachable state, whatever trades, reservations with their retries, failing store
      operations, restarts and gathers run at once: no player has less than nothing to spend, and
      the reserved amount is what trades have set aside, less what they have taken out twice. */
  lemma NoOverspend(run: seq<Sys>, i: nat, ids: seq<string>, player: string, kind: string)
    requires IsRun(run) && i < |run| && Lists(ids, run[i].sagas.Keys)
    ensures Available(StreamOf(run[i].log, player), kind) >= 0
    ensures Held(StreamOf(run[i].log, player), kind) ==
            SumOf(SetAside(player, kind), run[i], ids) - SumOf(Overdrawn(player, kind), run[i], ids)
  {
    hide Total, Available, Held, SagasFit, TradesKnown, SumOf;
    RunInv(run, i);
    SplitByTrade(run[i], ids, player, kind);
    PlayerHolds(run[i].log, player, kind);
  }

  lemma {:induction false} SumSign(m: Measure, s: Sys, ids: seq<string>)
    requires Inv(s)
    ensures SumOf(m, s, ids) >= 0
    ensures SumOf(m, s, ids) == 0 <==> forall id :: id in ids && id in s.sagas ==> Measured(m, s.sagas[id].offer, MadeIn(s, id)) == 0
  {
    hide Inv, Measured, MadeIn, Ordered;
    if ids != [] {
      SumSign(m, s, ids[1..]);
      if ids[0] in s.sagas { TradeAddsUp(s, ids[0], "", ""); }
      assert ids == [ids[0]] + ids[1..];
    }
  }

  /** What is reserved falls below nothing only where a trade takes from the player twice. */
  lemma NeverBelow(run: seq<Sys>, i: nat, player: string, kind: string)
    requires IsRun(run) && i < |run|
    requires forall id, who: Side :: id in run[i].sagas && PlayerOf(run[i].sagas[id].offer, who) == player ==> !TwiceOut(MadeIn(run[i], id), who)
    ensures Held(StreamOf(run[i].log, player), kind) >= 0
  {
    hide Inv, Held, Available, SumOf, MadeIn, TwiceOut;
    var ids := ListExists(run[i].sagas.Keys);
    NoOverspend(run, i, ids, player, kind);
    RunInv(run, i);
    SumSign(SetAside(player, kind), run[i], ids);
    SumSign(Overdrawn(player, kind), run[i], ids);
  }

  // ---- when a trade takes out twice ----

  /** A commit of what was released, or a release of what was committed. */
  ghost predicate TakesAgain(s: Sys, step: Step, id: string, who: Side)
    requires Enabled(s, step) && id in s.sagas
  {
    && step == AppendMove(id) && Coming(s.sagas[id].pc).value.who == who
    && var d, t := Coming(s.sagas[id].pc).value, MadeIn(s, id);
       (d.typ == Committed && Due(who, Released) in t) || (d.typ == Released && Due(who, Committed) in t)
  }

  lemma MadeGrows(s: Sys, step: Step, id: string)
    requires Inv(s) && Enabled(s, step) && id in s.sagas
    ensures var t := Do(s, step);
            && id in t.sagas && t.sagas[id].offer == s.sagas[id].offer
            && (MadeIn(t, id) == MadeIn(s, id)
                || (step == AppendMove(id) && MadeIn(t, id) == MadeIn(s, id) + {Coming(s.sagas[id].pc).value})
                || (step == AppendReserve(id) && MadeIn(t, id) == MadeIn(s, id) + {Due(s.sagas[id].pc.who, Reserved)}))
    ensures step == AppendMove(id) ==> MadeIn(Do(s, step), id) == MadeIn(s, id) + {Coming(s.sagas[id].pc).value}
  {
    hide Made, TradeLog, Once, Fits, VersionFits, NoOverdraft, TradesKnown, MoveBy, StreamOf, HasMove, ReadStep;
    var o, moves := s.sagas[id].offer, TradeLog(s.log, id);
    assert SagaFits(s.log, id, s.sagas[id]);
    if Do(s, step).log != s.log {
      var e := Do(s, step).log[|s.log|];
      assert Do(s, step).log == s.log + [e];
      TradeLogMore(s.log, e, id);
      assert moves + [] == moves;
      if step.AppendMove? || step.AppendReserve? {
        var saga := s.sagas[step.id];
        assert SagaFits(s.log, step.id, saga);
        var d := if step.AppendMove? then Coming(saga.pc).value else Due(saga.pc.who, Reserved);
        MovesOwn(saga.offer, d);
        MadeMore(o, moves, d);
      }
    }
  }

  /** A step makes a trade take out twice exactly when it stores a commit behind a release of the
      same goods, or a release behind a commit. */
  lemma TwiceOutWhen(run: seq<Sys>, i: nat, step: Step, id: string, who: Side)
    requires IsRun(run) && i < |run| && Enabled(run[i], step) && id in run[i].sagas
    ensures id in Do(run[i], step).sagas
    ensures TwiceOut(MadeIn(Do(run[i], step), id), who) && !TwiceOut(MadeIn(run[i], id), who) <==> TakesAgain(run[i], step, id, who)
    ensures TwiceOut(MadeIn(run[i], id), who) ==> TwiceOut(MadeIn(Do(run[i], step), id), who)
  {
    hide MadeIn, Do, Inv;
    RunInv(run, i);
    MadeGrows(run[i], step, id);
    if step == AppendMove(id) { ComingIsNew(run[i], step, id); }
  }

  lemma ComingIsNew(s: Sys, step: Step, id: string)
    requires Inv(s) && Enabled(s, step) && id in s.sagas && step == AppendMove(id)
    ensures Coming(s.sagas[id].pc).value !in MadeIn(s, id)
  {
    hide Made, TradeLog, Once, VersionFits, NoOverdraft, TradesKnown;
    assert SagaFits(s.log, id, s.sagas[id]);
  }

  // ---- runs in which nothing is undone half ----

  /** A coordinator does not start over behind a release, and a settle step that has committed
      something does not fail. */
  ghost predicate Calm(s: Sys, step: Step)
    requires Enabled(s, step)
  {
    match step
    case Restart(id) => Due(Proposer, Released) !in MadeIn(s, id) && Due(Counterparty, Released) !in MadeIn(s, id)
    case Fail(id) => s.sagas[id].pc.Settle? ==> Due(Proposer, Committed) !in MadeIn(s, id)
    case _ => true
  }

  ghost predicate IsCalmRun(run: seq<Sys>) {
    && run != [] && run[0] == Init()
    && forall i :: 0 <= i < |run| - 1 ==> FollowsCalmly(run[i], run[i + 1])
  }

  ghost predicate FollowsCalmly(s: Sys, t: Sys) {
    exists step :: Enabled(s, step) && Calm(s, step) && t == Do(s, step)
  }

  /** A trade that has released is being given up, one that has committed goes through. */
  ghost predicate Clean(s: Sys) {
    forall id :: id in s.sagas ==> CleanAt(s.sagas[id].pc, MadeIn(s, id))
  }

  ghost predicate CleanAt(pc: Pc, t: set<Due>) {
    && (Due(Proposer, Released) in t || Due(Counterparty, Released) in t ==> pc.Undo? || pc.GivenUp?)
    && (Due(Proposer, Committed) in t ==> pc.Settle? || pc.Done?)
  }

  lemma CleanStays(s: Sys, step: Step)
    requires Inv(s) && Clean(s) && Enabled(s, step) && Calm(s, step)
    ensures Clean(Do(s, step))
  {
    hide Inv, MadeIn, ReadStep;
    forall id | id in Do(s, step).sagas
      ensures CleanAt(Do(s, step).sagas[id].pc, MadeIn(Do(s, step), id))
    {
      if id in s.sagas {
        MadeGrows(s, step, id);
        SagaFitsAt(s, id);
        ReadGoes(s.log, s.sagas[id]);
      } else {
        NewMade(s, step.offer);
      }
    }
  }

  lemma SagaFitsAt(s: Sys, id: string)
    requires Inv(s) && id in s.sagas
    ensures Fits(s.sagas[id], MadeIn(s, id))
  {
    hide Fits, Once, Made;
    assert SagaFits(s.log, id, s.sagas[id]);
  }

  lemma ReadGoes(log: seq<Entry>, s: Saga)
    ensures s.pc.Reserve? ==> var pc := ReadStep(log, s);
              pc == After(s.pc) || pc == Failed(s.pc) || pc.Reserve?
  {
    hide Judge, After, Failed;
  }

  lemma NewMade(s: Sys, o: Offer)
    requires Inv(s) && Enabled(s, Propose(o))
    ensures MadeIn(Do(s, Propose(o)), o.id) == {}
  {
    hide SagasFit, NoOverdraft, TradeLog;
    UnknownTrade(s.log, o.id);
    assert forall who: Side, typ: MoveType :: !Did([], PlayerOf(o, who), typ);
  }

  lemma {:induction false} CalmRunIsClean(run: seq<Sys>, i: nat)
    requires IsCalmRun(run) && i < |run|
    ensures Inv(run[i]) && Clean(run[i])
    decreases i
  {
    hide Inv, Clean, Do, Enabled, Calm;
    if i == 0 {
      InitInv();
      assert Clean(Init()) by { CleanInit(); }
    } else {
      CalmRunIsClean(run, i - 1);
      assert FollowsCalmly(run[i - 1], run[i]);
      var step :| Enabled(run[i - 1], step) && Calm(run[i - 1], step) && run[i] == Do(run[i - 1], step);
      StepKeeps(run[i - 1], step);
      CleanStays(run[i - 1], step);
    }
  }

  lemma CleanInit()
    ensures Clean(Init())
  {
  }

  /** In such a run no player's reserved amount is below nothing, and goods are on their way only
      while their trade is being settled. */
  lemma CalmRunsKeepAll(run: seq<Sys>, i: nat, player: string, kind: string)
    requires IsCalmRun(run) && i < |run|
    ensures Held(StreamOf(run[i].log, player), kind) >= 0
    ensures forall id, who: Side :: id in run[i].sagas && OnTheWay(MadeIn(run[i], id), who) ==> run[i].sagas[id].pc.Settle?
  {
    hide Inv, Held, MadeIn, Do, SumOf, Enabled, Calm;
    CalmRunIsClean(run, i);
    assert IsRun(run) by {
      forall j | 0 <= j < |run| - 1
        ensures Follows(run[j], run[j + 1])
      {
        assert FollowsCalmly(run[j], run[j + 1]);
      }
    }
    forall id, who: Side | id in run[i].sagas
      ensures !TwiceOut(MadeIn(run[i], id), who) && (OnTheWay(MadeIn(run[i], id), who) ==> run[i].sagas[id].pc.Settle?)
    {
      SagaFitsAt(run[i], id);
      CleanIsSound(run[i].sagas[id], MadeIn(run[i], id), who);
    }
    NeverBelow(run, i, player, kind);
  }

  lemma CleanIsSound(s: Saga, t: set<Due>, who: Side)
    requires Fits(s, t) && CleanAt(s.pc, t)
    ensures !TwiceOut(t, who) && (OnTheWay(t, who) ==> s.pc.Settle?)
  {
  }

  // ---- nothing is lost ----

  /** Everything some players have of a kind, spendable and reserved. */
  function Holdings(log: seq<Entry>, players: seq<string>, kind: string): int {
    if players == [] then 0
    else Available(StreamOf(log, players[0]), kind) + Held(StreamOf(log, players[0]), kind) + Holdings(log, players[1..], kind)
  }

  lemma {:induction false} HoldingsAddUp(log: seq<Entry>, players: seq<string>, kind: string)
    ensures Holdings(log, players, kind) == SumParts(Worth(kind), true, log, PlayerKeys(players))
  {
    hide Available, Held, Total, Part, StreamOf;
    if players != [] {
      HoldingsAddUp(log, players[1..], kind);
      PlayerPart(log, players[0], kind);
      assert PlayerKeys(players)[1..] == PlayerKeys(players[1..]);
    }
  }

  /** In every reachable state, what all players hold of a kind, with what is on its way between
      the two sides of a trade, is what was ever gathered of it. */
  lemma GoodsConserved(run: seq<Sys>, i: nat, players: seq<string>, all: set<string>, ids: seq<string>, kind: string)
    requires IsRun(run) && i < |run| && Lists(players, all) && Lists(ids, run[i].sagas.Keys)
    requires forall j :: 0 <= j < |run[i].log| ==> run[i].log[j].player in all
    ensures Holdings(run[i].log, players, kind) + SumOf(InTransit(kind), run[i], ids) == GatheredTotal(run[i].log, kind)
  {
    hide Total, Available, Held, SagasFit, TradesKnown, NoOverdraft, SumOf;
    var s := run[i];
    RunInv(run, i);
    SplitByTrade(s, ids, "", kind);
    HoldingsAddUp(s.log, players, kind);
    var keys := PlayerKeys(players);
    forall j | 0 <= j < |s.log|
      ensures KeyOf(true, s.log[j]) in keys
    {
      var n :| 0 <= n < |players| && players[n] == s.log[j].player;
      assert keys[n] == PlayerKey(players[n]);
    }
    PartsAddUp(Worth(kind), true, s.log, keys);
  }

  /** The players hold exactly what was gathered, if and only if no trade is between a commit and
      its receipt; a trade there is being settled, or was given up by a settle step that failed. */
  lemma NothingInTransit(run: seq<Sys>, i: nat, ids: seq<string>)
    requires IsRun(run) && i < |run| && Lists(ids, run[i].sagas.Keys)
    ensures (forall kind :: SumOf(InTransit(kind), run[i], ids) == 0) <==>
            (forall id, who: Side :: id in run[i].sagas ==> !OnTheWay(MadeIn(run[i], id), who))
    ensures forall id, who: Side :: id in run[i].sagas && OnTheWay(MadeIn(run[i], id), who) ==>
              var pc := run[i].sagas[id].pc;
              pc.Settle? || pc.GivenUp? || (pc.Undo? && pc.cause == Broken)
  {
    hide Inv, SumOf, MadeIn, OnTheWay, Measured;
    RunInv(run, i);
    var s := run[i];
    forall kind
      ensures SumOf(InTransit(kind), s, ids) == 0 <==> forall id :: id in s.sagas ==> Measured(InTransit(kind), s.sagas[id].offer, MadeIn(s, id)) == 0
    {
      SumSign(InTransit(kind), s, ids);
    }
    forall id | id in s.sagas
      ensures (forall kind :: Measured(InTransit(kind), s.sagas[id].offer, MadeIn(s, id)) == 0) <==> (forall who: Side :: !OnTheWay(MadeIn(s, id), who))
      ensures forall who: Side :: OnTheWay(MadeIn(s, id), who) ==>
                var pc := s.sagas[id].pc; pc.Settle? || pc.GivenUp? || (pc.Undo? && pc.cause == Broken)
    {
      SagaFitsAt(s, id);
      WayMeasured(s.sagas[id], MadeIn(s, id));
    }
  }

  lemma WayMeasured(s: Saga, t: set<Due>)
    requires Fits(s, t)
    ensures (forall kind :: Measured(InTransit(kind), s.offer, t) == 0) <==> (forall who: Side :: !OnTheWay(t, who))
    ensures forall who: Side :: OnTheWay(t, who) ==> s.pc.Settle? || s.pc.GivenUp? || (s.pc.Undo? && s.pc.cause == Broken)
  {
    forall who: Side | OnTheWay(t, who)
      ensures Measured(InTransit(ItemOf(s.offer, who).kind), s.offer, t) > 0
    {
      assert !(OnTheWay(t, Proposer) && OnTheWay(t, Counterparty));
    }
  }

  /** A trade that went through has nothing left set aside, and nothing on its way. */
  lemma DoneIsDone(run: seq<Sys>, i: nat, id: string, who: Side)
    requires IsRun(run) && i < |run| && id in run[i].sagas && run[i].sagas[id].pc.Done?
    ensures !Standing(MadeIn(run[i], id), who) && !OnTheWay(MadeIn(run[i], id), who)
    ensures forall typ: MoveType :: typ != Released ==> Due(who, typ) in MadeIn(run[i], id)
  {
    hide Inv, MadeIn;
    RunInv(run, i);
    SagaFitsAt(run[i], id);
  }
}
