/** The inventory streams as they are kept in the event store. */
module InventoryStore {
  import opened Common
  import opened Inventory
  import ES = EventStore

  /** How an inventory event is written as an event of the store. */
  datatype Coding = Coding(enc: InvEvent -> ES.EventData, dec: (string, Bytes) -> Option<InvEvent>)

  ghost predicate Faithful(c: Coding) {
    forall e :: c.dec(c.enc(e).typ, c.enc(e).data) == Some(e)
  }

  function NameOf(player: string): string { "inv-" + player }

  /** The inventory event an event of the store stands for, if its stream is an inventory's. */
  function EntryOf(c: Coding, e: ES.Event): Option<Entry> {
    if |e.stream| < 4 || e.stream[..4] != "inv-" then None
    else
      match c.dec(e.typ, e.data)
      case None => None
      case Some(ev) => Some(Entry(e.stream[4..], ev))
  }

  function Taken(c: Coding, log: seq<ES.Event>): (evs: seq<Option<Entry>>)
    ensures |evs| == |log| && forall i :: 0 <= i < |evs| ==> evs[i] == EntryOf(c, log[i])
  {
    seq(|log|, i requires 0 <= i < |log| => EntryOf(c, log[i]))
  }

  /** All inventories, as the store's log has them. */
  function View(c: Coding, log: seq<ES.Event>): seq<Entry> {
    Entries(Taken(c, log))
  }

  /** Every event in an inventory's stream is an inventory event. */
  ghost predicate AllRead(c: Coding, log: seq<ES.Event>) {
    forall i :: 0 <= i < |log| && |log[i].stream| >= 4 && log[i].stream[..4] == "inv-" ==> EntryOf(c, log[i]).Some?
  }

  lemma ViewMore(c: Coding, log: seq<ES.Event>, e: ES.Event)
    ensures View(c, log + [e]) == View(c, log) + (if EntryOf(c, e).Some? then [EntryOf(c, e).value] else [])
  {
    assert Taken(c, log + [e])[..|log|] == Taken(c, log);
  }

  lemma NameTells(stream: string, player: string)
    ensures stream == NameOf(player) <==> |stream| >= 4 && stream[..4] == "inv-" && stream[4..] == player
  {
    assert NameOf(player)[..4] == "inv-" && NameOf(player)[4..] == player;
    assert |stream| >= 4 ==> stream == stream[..4] + stream[4..];
  }

  /** A player's stream in the store, decoded, is the player's stream in the view; the version
      the store checks is therefore the length the reservation has read. */
  lemma {:induction false} StreamsAgree(c: Coding, log: seq<ES.Event>, player: string)
    requires AllRead(c, log)
    ensures var mine := ES.StreamOf(log, NameOf(player));
            && |mine| == |StreamOf(View(c, log), player)|
            && forall i :: 0 <= i < |mine| ==> EntryOf(c, mine[i]) == Some(Entry(player, StreamOf(View(c, log), player)[i]))
  {
    if log != [] {
      hide EntryOf, View, NameOf;
      var front, e := log[..|log| - 1], log[|log| - 1];
      assert log == front + [e];
      StreamsAgree(c, front, player);
      ViewMore(c, front, e);
      NameTells(e.stream, player);
      OwnEntry(c, e);
      assert View(c, front) + [] == View(c, front) && ES.StreamOf(front, NameOf(player)) + [] == ES.StreamOf(front, NameOf(player));
      assert e.stream == NameOf(player) ==> EntryOf(c, log[|log| - 1]).Some?;
      if EntryOf(c, e).Some? { StreamMore(View(c, front), EntryOf(c, e).value, player); }
    } else {
      assert View(c, log) == [];
    }
  }

  lemma OwnEntry(c: Coding, e: ES.Event)
    ensures EntryOf(c, e).Some? ==> |e.stream| >= 4 && e.stream[..4] == "inv-" && EntryOf(c, e).value.player == e.stream[4..]
  {
  }

  /** An append to a player's stream of the store: it fails exactly where the version is not the
      length of the player's stream, and otherwise adds this one entry. */
  lemma AppendAgrees(c: Coding, log: seq<ES.Event>, player: string, ev: InvEvent, expected: Option<nat>, now: int)
    requires Faithful(c) && AllRead(c, log)
    ensures var r := ES.Attempt(log, NameOf(player), if expected.Some? then expected.value else ES.ANY_VERSION, [c.enc(ev)], now);
            && (r.Appended? <==> expected == None || expected.value == |StreamOf(View(c, log), player)|)
            && var log2 := log + if r.Appended? then r.events else [];
               && AllRead(c, log2)
               && View(c, log2) == View(c, log) + if r.Appended? then [Entry(player, ev)] else []
  {
    StreamsAgree(c, log, player);
    var r := ES.Attempt(log, NameOf(player), if expected.Some? then expected.value else ES.ANY_VERSION, [c.enc(ev)], now);
    assert NameOf(player) != "";
    if r.Appended? {
      var e := r.events[0];
      assert r.events == [e] && e.stream == NameOf(player) && e.typ == c.enc(ev).typ && e.data == c.enc(ev).data;
      NameTells(e.stream, player);
      assert EntryOf(c, e) == Some(Entry(player, ev));
      ViewMore(c, log, e);
    } else {
      assert log + [] == log;
    }
  }

  // ---- what the inventory asks of the store ----

  /** Reads a player's stream and decodes it. */
  method ReadStream(s: ES.Store, c: Coding, player: string) returns (evs: seq<InvEvent>)
    requires s.Valid() && AllRead(c, s.Log())
    ensures evs == StreamOf(View(c, s.Log()), player)
  {
    hide EntryOf, ES.StreamOf, NameOf;
    var es := s.ReadStream(NameOf(player), 0, 0);
    StreamsAgree(c, s.Log(), player);
    evs := [];
    var i := 0;
    while i < |es|
      invariant i <= |es| && evs == StreamOf(View(c, s.Log()), player)[..i]
    {
      evs := evs + [EntryOf(c, es[i]).value.ev];
      i := i + 1;
    }
  }

  /** Appends one event to a player's stream, at the version expected if one is. */
  method Append(s: ES.Store, c: Coding, player: string, ev: InvEvent, expected: Option<nat>, now: int) returns (ok: bool)
    requires s.Valid() && Faithful(c) && AllRead(c, s.Log())
    modifies s
    ensures s.Valid() && AllRead(c, s.Log())
    ensures ok <==> expected == None || expected.value == |StreamOf(old(View(c, s.Log())), player)|
    ensures View(c, s.Log()) == if ok then old(View(c, s.Log())) + [Entry(player, ev)] else old(View(c, s.Log()))
  {
    hide View, NameOf, ES.StreamOf, ES.Attempt;
    AppendAgrees(c, s.Log(), player, ev, expected, now);
    var r := s.Append(NameOf(player), if expected.Some? then expected.value else ES.ANY_VERSION, [c.enc(ev)], now);
    ok := r.Appended?;
  }
}
