/** Inventories: the events of a player's stream, the balance they fold to, and the moves a
    trade makes on them. */
module Inventory {
  import opened Common

  datatype MoveType = Reserved | Released | Committed | Received

  datatype InvEvent =
    | Gathered(kind: string, amount: int)
    | Move(typ: MoveType, trade: string, kind: string, amount: int)

  /** An event in the stream of a player's inventory. */
  datatype Entry = Entry(player: string, ev: InvEvent)

  /** Zero counts are not kept. */
  datatype Balance = Balance(available: map<string, int>, reserved: map<string, int>)

  function Count(m: map<string, int>, kind: string): int {
    if kind in m then m[kind] else 0
  }

  function Adj(m: map<string, int>, kind: string, delta: int): (r: map<string, int>)
    ensures forall k :: Count(r, k) == Count(m, k) + (if k == kind then delta else 0)
    ensures (forall k :: k in m ==> m[k] != 0) ==> forall k :: k in r ==> r[k] != 0
  {
    var n := Count(m, kind) + delta;
    if n == 0 then m - {kind} else m[kind := n]
  }

  function ApplyTo(b: Balance, e: InvEvent): Balance {
    match e
    case Gathered(kind, amount) => b.(available := Adj(b.available, kind, amount))
    case Move(Reserved, _, kind, amount) =>
      Balance(Adj(b.available, kind, -amount), Adj(b.reserved, kind, amount))
    case Move(Released, _, kind, amount) =>
      Balance(Adj(b.available, kind, amount), Adj(b.reserved, kind, -amount))
    case Move(Committed, _, kind, amount) => b.(reserved := Adj(b.reserved, kind, -amount))
    case Move(Received, _, kind, amount) => b.(available := Adj(b.available, kind, amount))
  }

  function Fold(evs: seq<InvEvent>): Balance {
    if evs == [] then Balance(map[], map[]) else ApplyTo(Fold(evs[..|evs| - 1]), evs[|evs| - 1])
  }

  method FoldAll(evs: seq<InvEvent>) returns (b: Balance)
    ensures b == Fold(evs)
  {
    b := Balance(map[], map[]);
    var i := 0;
    while i < |evs|
      invariant i <= |evs| && b == Fold(evs[..i])
    {
      assert evs[..i + 1][..i] == evs[..i];
      b := ApplyTo(b, evs[i]);
      i := i + 1;
    }
    assert evs[..i] == evs;
  }

  function Available(evs: seq<InvEvent>, kind: string): int {
    Count(Fold(evs).available, kind)
  }

  function Held(evs: seq<InvEvent>, kind: string): int {
    Count(Fold(evs).reserved, kind)
  }

  /** What one event adds to what a player can spend, and to what is set aside. */
  function SpendDelta(e: InvEvent, kind: string): int {
    if e.kind != kind then 0
    else
      match e
      case Gathered(_, amount) => amount
      case Move(typ, _, _, amount) =>
        if typ == Reserved then -amount else if typ == Committed then 0 else amount
  }

  function HoldDelta(e: InvEvent, kind: string): int {
    if e.kind != kind || e.Gathered? then 0
    else if e.typ == Reserved then e.amount
    else if e.typ == Received then 0 else -e.amount
  }

  lemma FoldMore(evs: seq<InvEvent>, e: InvEvent, kind: string)
    ensures Available(evs + [e], kind) == Available(evs, kind) + SpendDelta(e, kind)
    ensures Held(evs + [e], kind) == Held(evs, kind) + HoldDelta(e, kind)
  {
    assert (evs + [e])[..|evs|] == evs;
    hide ApplyTo, SpendDelta, HoldDelta;
    ApplyMore(Fold(evs), e, kind);
  }

  lemma ApplyMore(b: Balance, e: InvEvent, kind: string)
    ensures Count(ApplyTo(b, e).available, kind) == Count(b.available, kind) + SpendDelta(e, kind)
    ensures Count(ApplyTo(b, e).reserved, kind) == Count(b.reserved, kind) + HoldDelta(e, kind)
  {
    hide Count, Adj;
  }

  /** The maps hold exactly the kinds of which there is something. */
  lemma {:induction false} FoldKeepsNoZero(evs: seq<InvEvent>)
    ensures forall k :: k in Fold(evs).available ==> Fold(evs).available[k] != 0
    ensures forall k :: k in Fold(evs).reserved ==> Fold(evs).reserved[k] != 0
  {
    if evs != [] {
      FoldKeepsNoZero(evs[..|evs| - 1]);
    }
  }

  // ---- moves, once per trade ----

  predicate HasMove(evs: seq<InvEvent>, trade: string, typ: MoveType) {
    exists i :: 0 <= i < |evs| && evs[i].Move? && evs[i].typ == typ && evs[i].trade == trade
  }

  method FindMove(evs: seq<InvEvent>, trade: string, typ: MoveType) returns (found: bool)
    ensures found == HasMove(evs, trade, typ)
  {
    var i := 0;
    while i < |evs|
      invariant i <= |evs| && !HasMove(evs[..i], trade, typ)
    {
      if evs[i].Move? && evs[i].typ == typ && evs[i].trade == trade {
        return true;
      }
      i := i + 1;
    }
    assert evs[..i] == evs;
    return false;
  }

  datatype ReserveError =
    | NotPositive(amount: int)
    | Insufficient(player: string, have: int, kind: string, need: int)
    | Exhausted(player: string)

  const MAX_RESERVE_RETRIES: nat := 8

  /** What a reservation decides on the stream it has read. */
  datatype Verdict = Already | Refuse(error: ReserveError) | Expect(version: nat)

  function Judge(evs: seq<InvEvent>, player: string, trade: string, kind: string, amount: int): Verdict {
    if HasMove(evs, trade, Reserved) then Already
    else if Available(evs, kind) < amount then Refuse(Insufficient(player, Available(evs, kind), kind, amount))
    else Expect(|evs|)
  }

  /** The stream of one player in the log of all. */
  function StreamOf(log: seq<Entry>, player: string): (evs: seq<InvEvent>)
    ensures |evs| <= |log|
  {
    if log == [] then []
    else
      var e := log[|log| - 1];
      StreamOf(log[..|log| - 1], player) + (if e.player == player then [e.ev] else [])
  }

  /** The inventory events of a log that holds others too. */
  function Entries(evs: seq<Option<Entry>>): seq<Entry> {
    if evs == [] then []
    else Entries(evs[..|evs| - 1]) + (if evs[|evs| - 1].Some? then [evs[|evs| - 1].value] else [])
  }

  lemma StreamMore(log: seq<Entry>, e: Entry, player: string)
    ensures StreamOf(log + [e], player) == StreamOf(log, player) + (if e.player == player then [e.ev] else [])
  {
    assert (log + [e])[..|log|] == log;
  }

  lemma {:induction false} StreamJoins(log: seq<Entry>, more: seq<Entry>, player: string)
    ensures StreamOf(log, player) <= StreamOf(log + more, player)
    decreases |more|
  {
    if more == [] {
      assert log + more == log;
    } else {
      var n := |more| - 1;
      StreamJoins(log, more[..n], player);
      StreamMore(log + more[..n], more[n], player);
      assert log + more == log + more[..n] + [more[n]];
    }
  }

  /** What a reservation comes to; `wrote` tells whether it appended its event. */
  datatype Outcome = Outcome(log: seq<Entry>, error: Option<ReserveError>, wrote: bool)

  /** A reservation, when others append `others[i]` between the read and the append of its
      i-th attempt: a changed version makes the append fail and the next attempt start. */
  function ReserveFrom(log: seq<Entry>, player: string, trade: string, kind: string, amount: int,
                       others: seq<seq<Entry>>, attempt: nat): (r: Outcome)
    requires |others| == MAX_RESERVE_RETRIES
    decreases MAX_RESERVE_RETRIES - attempt
  {
    if attempt >= MAX_RESERVE_RETRIES then Outcome(log, Some(Exhausted(player)), false)
    else
      match Judge(StreamOf(log, player), player, trade, kind, amount)
      case Already => Outcome(log, None, false)
      case Refuse(error) => Outcome(log, Some(error), false)
      case Expect(version) =>
        var now := log + others[attempt];
        if |StreamOf(now, player)| == version then Outcome(now + [Entry(player, Move(Reserved, trade, kind, amount))], None, true)
        else ReserveFrom(now, player, trade, kind, amount, others, attempt + 1)
  }

  function Reserving(log: seq<Entry>, player: string, trade: string, kind: string, amount: int, others: seq<seq<Entry>>): Outcome
    requires |others| == MAX_RESERVE_RETRIES
  {
    if amount <= 0 then Outcome(log, Some(NotPositive(amount)), false)
    else ReserveFrom(log, player, trade, kind, amount, others, 0)
  }

  /** The event is appended only where, at that very moment, the balance covers it and the
      trade has none yet. */
  ghost predicate Covered(r: Outcome, player: string, trade: string, kind: string, amount: int) {
    && (r.wrote ==>
          && r.log != [] && r.log[|r.log| - 1] == Entry(player, Move(Reserved, trade, kind, amount))
          && var before := StreamOf(r.log[..|r.log| - 1], player);
             Available(before, kind) >= amount && !HasMove(before, trade, Reserved))
    && (!r.wrote && r.error == None ==> HasMove(StreamOf(r.log, player), trade, Reserved))
    && (r.error.Some? && r.error.value.Insufficient? ==>
          r.error.value.have < amount && Available(StreamOf(r.log, player), kind) == r.error.value.have)
  }

  /** However others interfere, a reservation never overdraws. */
  lemma {:induction false} ReserveIsCovered(log: seq<Entry>, player: string, trade: string, kind: string, amount: int,
                                            others: seq<seq<Entry>>, attempt: nat)
    requires |others| == MAX_RESERVE_RETRIES
    ensures Covered(ReserveFrom(log, player, trade, kind, amount, others, attempt), player, trade, kind, amount)
    decreases MAX_RESERVE_RETRIES - attempt
  {
    hide StreamOf, HasMove, Available;
    if attempt < MAX_RESERVE_RETRIES {
      var v := Judge(StreamOf(log, player), player, trade, kind, amount);
      if v.Expect? {
        var now := log + others[attempt];
        if |StreamOf(now, player)| == v.version {
          StreamJoins(log, others[attempt], player);
          assert StreamOf(now, player) == StreamOf(log, player);
          assert (now + [Entry(player, Move(Reserved, trade, kind, amount))])[..|now|] == now;
        } else {
          ReserveIsCovered(now, player, trade, kind, amount, others, attempt + 1);
        }
      }
    }
  }

  function Moved(log: seq<Entry>, player: string, trade: string, typ: MoveType, kind: string, amount: int): seq<Entry> {
    if HasMove(StreamOf(log, player), trade, typ) then log else log + [Entry(player, Move(typ, trade, kind, amount))]
  }

  /** Doing a move again does nothing. */
  lemma MovedTwice(log: seq<Entry>, player: string, trade: string, typ: MoveType, kind: string, amount: int)
    ensures var once := Moved(log, player, trade, typ, kind, amount);
            Moved(once, player, trade, typ, kind, amount) == once
  {
    var e := Entry(player, Move(typ, trade, kind, amount));
    StreamMore(log, e, player);
    assert StreamOf(log + [e], player)[|StreamOf(log, player)|] == e.ev;
  }

  /** The inventory streams of a store, and the operations on them. */
  class Stock {
    var log: seq<Entry>

    constructor (log: seq<Entry>)
      ensures this.log == log
    {
      this.log := log;
    }

    method ReadStream(player: string) returns (evs: seq<InvEvent>)
      ensures evs == StreamOf(log, player)
    {
      evs := [];
      var i := 0;
      while i < |log|
        invariant i <= |log| && evs == StreamOf(log[..i], player)
      {
        assert log[..i + 1] == log[..i] + [log[i]];
        StreamMore(log[..i], log[i], player);
        if log[i].player == player {
          evs := evs + [log[i].ev];
        }
        i := i + 1;
      }
      assert log[..i] == log;
    }

    /** Appends at the version expected, if one is. */
    method Append(player: string, ev: InvEvent, expected: Option<nat>) returns (ok: bool)
      modifies this
      ensures ok <==> expected == None || expected.value == |StreamOf(old(log), player)|
      ensures log == if ok then old(log) + [Entry(player, ev)] else old(log)
    {
      var evs := ReadStream(player);
      ok := expected == None || expected.value == |evs|;
      if ok {
        log := log + [Entry(player, ev)];
      }
    }

    method Reserve(player: string, trade: string, kind: string, amount: int, others: seq<seq<Entry>>)
      returns (error: Option<ReserveError>)
      requires |others| == MAX_RESERVE_RETRIES
      modifies this
      ensures var r := Reserving(old(log), player, trade, kind, amount, others);
              log == r.log && error == r.error
    {
      hide StreamOf, Fold, HasMove;
      if amount <= 0 {
        return Some(NotPositive(amount));
      }
      var attempt := 0;
      while attempt < MAX_RESERVE_RETRIES
        invariant 0 <= attempt <= MAX_RESERVE_RETRIES
        invariant ReserveFrom(old(log), player, trade, kind, amount, others, 0) ==
                  ReserveFrom(log, player, trade, kind, amount, others, attempt)
      {
        var evs := ReadStream(player);
        var done := FindMove(evs, trade, Reserved);
        if done {
          return None;
        }
        var bal := FoldAll(evs);
        if Count(bal.available, kind) < amount {
          return Some(Insufficient(player, Count(bal.available, kind), kind, amount));
        }
        log := log + others[attempt];
        var ok := Append(player, Move(Reserved, trade, kind, amount), Some(|evs|));
        if ok {
          return None;
        }
        attempt := attempt + 1;
      }
      return Some(Exhausted(player));
    }

    /** Release, Commit and Receive. */
    method IdempotentMove(player: string, trade: string, typ: MoveType, kind: string, amount: int)
      modifies this
      ensures log == Moved(old(log), player, trade, typ, kind, amount)
    {
      var evs := ReadStream(player);
      var done := FindMove(evs, trade, typ);
      if !done {
        var _ := Append(player, Move(typ, trade, kind, amount), None);
      }
    }
  }
}
