/** The outbox: a relay that publishes the event log to a bus from a stored checkpoint, at
    least once, and consumers that apply each event exactly once. An event is known here by its
    global number, its place in the log. */
module Outbox {
  import opened Common
  import opened Inventory

  const BATCH: nat := 256

  /** What a publish came to: whether the bus has the message, and whether it said so. */
  datatype Publish = Publish(stored: bool, ok: bool)

  /** A batch being published: the next number and the last. */
  datatype Batch = Batch(next: nat, end: nat)

  /** `saved` is the checkpoint on disk, `checkpoint` the relay's own. `bus` holds the numbers
      of the messages in the order stored. A consumer has its place in the bus, the number it
      has last applied, and what it has applied. */
  datatype Sys<E> = Sys(
    log: seq<E>,
    saved: nat, checkpoint: nat, batch: Option<Batch>,
    bus: seq<nat>,
    place: nat, last: nat, applied: seq<E>)

  /** `Emit` publishes the next event of the batch, `Save` stores the checkpoint behind a whole
      batch; both may fail after having had their effect. `Receive` hands over the message at
      the consumer's place, again and again until it is acknowledged. */
  datatype Step<E> =
    | Append(e: E)
    | Read
    | Emit(p: Publish)
    | Save(p: Publish)
    | CrashRelay
    | Receive(acked: bool)
    | RestartConsumer

  /** A bus that answers for a message it did not store now has it from before. */
  predicate Enabled<E>(s: Sys<E>, step: Step<E>) {
    match step
    case Append(_) => true
    case Read => s.batch == None && s.checkpoint < |s.log|
    case Emit(p) => s.batch.Some? && s.batch.value.next <= s.batch.value.end && (p.ok ==> p.stored || s.batch.value.next in s.bus)
    case Save(p) => s.batch.Some? && s.batch.value.next == s.batch.value.end + 1 && (p.ok ==> p.stored)
    case CrashRelay => true
    case Receive(_) => s.place < |s.bus| && 1 <= s.bus[s.place] <= |s.log|
    case RestartConsumer => true
  }

  function Do<E>(s: Sys<E>, step: Step<E>): Sys<E>
    requires Enabled(s, step)
  {
    match step
    case Append(e) => s.(log := s.log + [e])
    case Read => s.(batch := Some(Batch(s.checkpoint + 1, Min(s.checkpoint + BATCH, |s.log|))))
    case Emit(p) =>
      var b := s.batch.value;
      s.(bus := if p.stored then s.bus + [b.next] else s.bus, batch := if p.ok then Some(b.(next := b.next + 1)) else None)
    case Save(p) =>
      var end := s.batch.value.end;
      s.(saved := if p.stored then end else s.saved, checkpoint := if p.ok then end else s.checkpoint, batch := None)
    case CrashRelay => s.(batch := None, checkpoint := s.saved)
    case Receive(acked) =>
      var (last, applied) := Consumed(s.log, s.last, s.applied, s.bus[s.place]);
      s.(last := last, applied := applied, place := if acked then s.place + 1 else s.place)
    case RestartConsumer => s.(place := 0, last := 0, applied := [])
  }

  /** A message already applied is dropped. */
  function Consumed<E>(log: seq<E>, last: nat, applied: seq<E>, g: nat): (nat, seq<E>)
    requires 1 <= g <= |log|
  {
    if g <= last then (last, applied) else (g, applied + [log[g - 1]])
  }

  ghost predicate IsRun<E(!new)>(run: seq<Sys<E>>) {
    && run != [] && run[0] == Sys([], 0, 0, None, [], 0, 0, [])
    && forall i :: 0 <= i < |run| - 1 ==> Follows(run[i], run[i + 1])
  }

  ghost predicate Follows<E(!new)>(s: Sys<E>, t: Sys<E>) {
    exists step :: Enabled(s, step) && t == Do(s, step)
  }

  // ---- the invariant ----

  /** The bus has every number up to `n`. */
  ghost predicate Has(bus: seq<nat>, n: nat) {
    forall g: nat :: 1 <= g <= n ==> g in bus
  }

  /** No message comes before the first copies of all lower ones. */
  ghost predicate GapFree(bus: seq<nat>) {
    forall p :: 0 <= p < |bus| ==> bus[p] >= 1 && Has(bus[..p], bus[p] - 1)
  }

  ghost predicate Inv<E(!new)>(s: Sys<E>) {
    && GapFree(s.bus) && (forall p :: 0 <= p < |s.bus| ==> s.bus[p] <= |s.log|)
    && s.checkpoint <= s.saved <= |s.log| && Has(s.bus, s.saved)
    && (s.batch.Some? ==>
          var b := s.batch.value;
          s.checkpoint < b.next <= b.end + 1 && b.end <= |s.log| && Has(s.bus, b.next - 1))
    && s.place <= |s.bus| && s.last <= |s.log| && s.applied == s.log[..s.last]
    && (forall p :: 0 <= p < s.place ==> s.bus[p] <= s.last)
  }

  lemma HasMore(bus: seq<nat>, g: nat, n: nat)
    requires Has(bus, n)
    ensures Has(bus + [g], n) && (g == n + 1 ==> Has(bus + [g], g))
  {
    forall x: nat | 1 <= x <= n
      ensures x in bus + [g]
    {
      assert x in bus;
    }
  }

  lemma GapFreeMore(bus: seq<nat>, g: nat)
    requires GapFree(bus) && g >= 1 && Has(bus, g - 1)
    ensures GapFree(bus + [g])
  {
    var more := bus + [g];
    forall p | 0 <= p < |more|
      ensures more[p] >= 1 && Has(more[..p], more[p] - 1)
    {
      assert more[..p] == bus[..p];
      assert p == |bus| ==> bus[..p] == bus;
    }
  }

  lemma EmitKeeps<E(!new)>(s: Sys<E>, p: Publish)
    requires Inv(s) && Enabled(s, Emit(p))
    ensures Inv(Do(s, Emit(p)))
  {
    hide Has, GapFree;
    var g := s.batch.value.next;
    HasMore(s.bus, g, g - 1);
    HasMore(s.bus, g, s.saved);
    GapFreeMore(s.bus, g);
    HasOneMore(s.bus, g - 1);
  }

  lemma HasOneMore(bus: seq<nat>, n: nat)
    requires Has(bus, n)
    ensures n + 1 in bus ==> Has(bus, n + 1)
  {
  }

  lemma HasLess(bus: seq<nat>, n: nat, m: nat)
    requires Has(bus, n) && m <= n
    ensures Has(bus, m)
  {
  }

  /** A message at the consumer's place is one it has applied, or the very next event. */
  lemma NextInLine(bus: seq<nat>, place: nat, last: nat)
    requires GapFree(bus) && place < |bus| && forall p :: 0 <= p < place ==> bus[p] <= last
    ensures bus[place] <= last + 1
  {
    assert Has(bus[..place], bus[place] - 1);
    var g: nat := bus[place] - 1;
    if g >= 1 {
      assert g in bus[..place];
    }
  }

  lemma StepKeeps<E(!new)>(s: Sys<E>, step: Step<E>)
    requires Inv(s) && Enabled(s, step)
    ensures Inv(Do(s, step))
  {
    hide Has, GapFree;
    match step {
      case Append(e) =>
      case Read => HasLess(s.bus, s.saved, s.checkpoint);
      case Emit(p) => EmitKeeps(s, p);
      case Save(p) =>
        HasLess(s.bus, s.saved, s.checkpoint);
      case CrashRelay =>
      case Receive(acked) => NextInLine(s.bus, s.place, s.last);
      case RestartConsumer =>
    }
  }

  lemma {:induction false} RunInv<E(!new)>(run: seq<Sys<E>>, i: nat)
    requires IsRun(run) && i < |run|
    ensures Inv(run[i])
    decreases i
  {
    hide Inv, Do, Enabled;
    if i == 0 {
      StartInv<E>();
    } else {
      RunInv(run, i - 1);
      assert Follows(run[i - 1], run[i]);
      var step :| Enabled(run[i - 1], step) && run[i] == Do(run[i - 1], step);
      StepKeeps(run[i - 1], step);
    }
  }

  lemma StartInv<E(!new)>()
    ensures Inv<E>(Sys([], 0, 0, None, [], 0, 0, []))
  {
  }

  /** In every run of failing publishes, crashes in the middle of a batch, redeliveries and
      restarts, a consumer has applied exactly the first events of the log, each once and in
      order. */
  lemma ExactlyOnce<E(!new)>(run: seq<Sys<E>>, i: nat)
    requires IsRun(run) && i < |run|
    ensures run[i].last <= |run[i].log| && run[i].applied == run[i].log[..run[i].last]
  {
    RunInv(run, i);
  }

  /** Nothing is left out: once the relay has saved the end of the log and the consumer has
      come to the end of the bus, everything has been applied. */
  lemma CaughtUp<E(!new)>(run: seq<Sys<E>>, i: nat)
    requires IsRun(run) && i < |run|
    requires run[i].saved == |run[i].log| && run[i].place == |run[i].bus|
    ensures run[i].applied == run[i].log
  {
    RunInv(run, i);
    var s := run[i];
    if |s.log| >= 1 {
      assert |s.log| in s.bus;
      var p :| 0 <= p < |s.bus| && s.bus[p] == |s.log|;
    }
  }

  // ---- the inventory read model ----

  /** Balances by player. */
  class ReadModel {
    var bals: map<string, Balance>

    constructor ()
      ensures bals == map[]
    {
      bals := map[];
    }

    /** Takes in one event of the log; `None` is an event of some other stream. */
    method Apply(e: Option<Entry>)
      modifies this
      ensures bals == Modelled(old(bals), e)
    {
      if e.Some? {
        var b := if e.value.player in bals then bals[e.value.player] else Balance(map[], map[]);
        bals := bals[e.value.player := ApplyTo(b, e.value.ev)];
      }
    }

    method Available(player: string, kind: string) returns (n: int)
      ensures n == Count(BalanceIn(bals, player).available, kind)
    {
      if player in bals {
        return Count(bals[player].available, kind);
      }
      return 0;
    }
  }

  function BalanceIn(bals: map<string, Balance>, player: string): Balance {
    if player in bals then bals[player] else Balance(map[], map[])
  }

  function Modelled(bals: map<string, Balance>, e: Option<Entry>): map<string, Balance> {
    if e.None? then bals else bals[e.value.player := ApplyTo(BalanceIn(bals, e.value.player), e.value.ev)]
  }

  function ModelOf(evs: seq<Option<Entry>>): map<string, Balance> {
    if evs == [] then map[] else Modelled(ModelOf(evs[..|evs| - 1]), evs[|evs| - 1])
  }

  lemma {:induction false} ModelIsFold(evs: seq<Option<Entry>>, player: string)
    ensures BalanceIn(ModelOf(evs), player) == Fold(StreamOf(Entries(evs), player))
  {
    if evs != [] {
      var front, e := evs[..|evs| - 1], evs[|evs| - 1];
      ModelIsFold(front, player);
      if e.Some? {
        StreamMore(Entries(front), e.value, player);
        assert (StreamOf(Entries(front), player) + [e.value.ev])[..|StreamOf(Entries(front), player)|] == StreamOf(Entries(front), player);
        assert StreamOf(Entries(front), player) + [] == StreamOf(Entries(front), player);
      } else {
        assert Entries(front) + [] == Entries(front);
      }
    }
  }

  /** The read model built from what has been applied is, for every player, the balance that
      the player's events in a prefix of the store fold to. */
  lemma ReadModelIsFold(run: seq<Sys<Option<Entry>>>, i: nat, player: string)
    requires IsRun(run) && i < |run|
    ensures run[i].last <= |run[i].log|
    ensures BalanceIn(ModelOf(run[i].applied), player) == Fold(StreamOf(Entries(run[i].log[..run[i].last]), player))
  {
    ExactlyOnce(run, i);
    ModelIsFold(run[i].applied, player);
  }

  // ---- relay and consumer ----

  /** The relay's side of a system, batch by batch. */
  class Relay {
    var bus: seq<nat>
    var saved: nat
    var checkpoint: nat

    constructor (saved: nat)
      ensures bus == [] && this.saved == saved == checkpoint
    {
      bus, this.saved, checkpoint := [], saved, saved;
    }

    /** Publishes the numbers up to `end` one by one and then saves the checkpoint; stops at the
        first failure, and the batch will be read again. `fates` says what becomes of each. */
    method PublishBatch(end: nat, fates: seq<Publish>, save: Publish) returns (ok: bool)
      requires checkpoint < end && |fates| == end - checkpoint
      modifies this
      ensures bus == old(bus) + Sent(old(checkpoint) + 1, fates)
      ensures ok <==> AllOk(fates) && save.ok
      ensures checkpoint == if ok then end else old(checkpoint)
      ensures saved == if AllOk(fates) && save.stored then end else old(saved)
    {
      hide Sent, AllOk;
      assert AllOk(fates[..0]) by { AllOkStep(fates, 0); }
      var first, i := checkpoint + 1, 0;
      ghost var sent: seq<nat> := [];
      assert fates[0..] == fates;
      while i < |fates|
        invariant i <= |fates| && checkpoint == old(checkpoint) && saved == old(saved)
        invariant bus == old(bus) + sent && sent + Sent(first + i, fates[i..]) == Sent(first, fates)
        invariant AllOk(fates[..i])
      {
        AllOkStep(fates, i);
        SentStep(sent, first + i, fates[i..]);
        assert fates[i..][1..] == fates[i + 1..] && fates[i..][0] == fates[i];
        if fates[i].stored {
          bus, sent := bus + [first + i], sent + [first + i];
        }
        if !fates[i].ok {
          return false;
        }
        i := i + 1;
      }
      SentNone(first + i);
      assert fates[..i] == fates && fates[i..] == [];
      if save.stored {
        saved := end;
      }
      if !save.ok {
        return false;
      }
      checkpoint := end;
      return true;
    }
  }

  /** What a batch puts on the bus: the stored ones, up to the first failure. */
  function Sent(first: nat, fates: seq<Publish>): seq<nat>
    decreases |fates|
  {
    if fates == [] then []
    else (if fates[0].stored then [first] else []) + (if fates[0].ok then Sent(first + 1, fates[1..]) else [])
  }

  predicate AllOk(fates: seq<Publish>) {
    forall i :: 0 <= i < |fates| ==> fates[i].ok
  }

  lemma AllOkStep(fates: seq<Publish>, i: nat)
    requires i <= |fates|
    ensures i == 0 ==> AllOk(fates[..i])
    ensures i < |fates| && AllOk(fates[..i]) && fates[i].ok ==> AllOk(fates[..i + 1])
    ensures i < |fates| && !fates[i].ok ==> !AllOk(fates)
  {
  }

  lemma SentNone(first: nat)
    ensures Sent(first, []) == []
  {
  }

  lemma SentStep(sent: seq<nat>, first: nat, fates: seq<Publish>)
    requires fates != []
    ensures var more := sent + (if fates[0].stored then [first] else []);
            sent + Sent(first, fates) == more + if fates[0].ok then Sent(first + 1, fates[1..]) else []
  {
  }

  /** A consumer in front of the inventory read model. */
  class Consumer {
    const model: ReadModel
    var lastApplied: nat
    /** The events given to the read model. */
    ghost var applied: seq<Option<Entry>>

    ghost predicate Valid()
      reads this, model
    {
      model.bals == ModelOf(applied)
    }

    constructor ()
      ensures Valid() && lastApplied == 0 && applied == [] && fresh(model)
    {
      lastApplied, applied := 0, [];
      model := new ReadModel();
    }

    /** A message with event number `g` of the log: the step a consumer makes. */
    method OnMessage(g: nat, e: Option<Entry>, ghost log: seq<Option<Entry>>)
      requires Valid() && 1 <= g <= |log| && log[g - 1] == e
      modifies this, model
      ensures Valid() && (lastApplied, applied) == Consumed(log, old(lastApplied), old(applied), g)
    {
      if g <= lastApplied {
        return;
      }
      model.Apply(e);
      assert (applied + [e])[..|applied|] == applied;
      applied := applied + [e];
      if g > lastApplied {
        lastApplied := g;
      }
    }
  }

  // ---- a batch, step by step ----

  ghost predicate Chain<E(!new)>(run: seq<Sys<E>>) {
    run != [] && forall i :: 0 <= i < |run| - 1 ==> Follows(run[i], run[i + 1])
  }

  /** The bus only answers for what it stores or has. */
  ghost predicate Plausible(bus: seq<nat>, first: nat, fates: seq<Publish>) {
    forall i :: 0 <= i < |fates| && fates[i].ok ==> fates[i].stored || first + i in bus
  }

  lemma ChainFrom<E(!new)>(s: Sys<E>, step: Step<E>, more: seq<Sys<E>>)
    requires Enabled(s, step) && Chain(more) && more[0] == Do(s, step)
    ensures Chain([s] + more) && ([s] + more)[|more|] == more[|more| - 1]
  {
    hide Enabled, Do;
    var run := [s] + more;
    assert Follows(s, more[0]);
    forall i | 0 <= i < |run| - 1
      ensures Follows(run[i], run[i + 1])
    {
      assert i > 0 ==> run[i] == more[i - 1];
      assert run[i + 1] == more[i];
    }
  }

  /** The system once the messages of its batch have met their fates. */
  function Emitted<E>(s: Sys<E>, fates: seq<Publish>): Sys<E>
    requires s.batch.Some?
  {
    var b := s.batch.value;
    s.(bus := s.bus + Sent(b.next, fates), batch := if AllOk(fates) then Some(Batch(b.next + |fates|, b.end)) else None)
  }

  lemma EmittedOne<E>(s: Sys<E>, fates: seq<Publish>)
    requires s.batch.Some? && fates != [] && Enabled(s, Emit(fates[0]))
    ensures var t := Do(s, Emit(fates[0]));
            if fates[0].ok then t.batch.Some? && Emitted(t, fates[1..]) == Emitted(s, fates) else t == Emitted(s, fates)
  {
    hide Sent, AllOk;
    var t := Do(s, Emit(fates[0]));
    SentStep(s.bus, s.batch.value.next, fates);
    AllOkFirst(fates);
    assert t.bus + [] == t.bus;
  }

  lemma AllOkFirst(fates: seq<Publish>)
    requires fates != []
    ensures AllOk(fates) <==> fates[0].ok && AllOk(fates[1..])
  {
    assert forall i :: 0 < i < |fates| ==> fates[i] == fates[1..][i - 1];
  }

  lemma EmittedNone<E>(s: Sys<E>)
    requires s.batch.Some?
    ensures Emitted(s, []) == s
  {
    assert s.bus + Sent(s.batch.value.next, []) == s.bus;
  }

  lemma {:induction false} EmitSteps<E(!new)>(s: Sys<E>, fates: seq<Publish>) returns (run: seq<Sys<E>>)
    requires s.batch.Some? && s.batch.value.next + |fates| == s.batch.value.end + 1
    requires Plausible(s.bus, s.batch.value.next, fates)
    ensures Chain(run) && run[0] == s && run[|run| - 1] == Emitted(s, fates)
    decreases |fates|
  {
    if fates == [] {
      run := [s];
      EmittedNone(s);
    } else {
      var step: Step<E> := Emit(fates[0]);
      var t := Do(s, step);
      EmittedOne(s, fates);
      if fates[0].ok {
        PlausibleRest(s.bus, t.bus, s.batch.value.next, fates);
        hide Emitted, Chain, Plausible;
        run := EmitSteps(t, fates[1..]);
        ChainFrom(s, step, run);
        run := [s] + run;
      } else {
        hide Emitted, Plausible;
        assert Follows(s, t);
        run := [s, t];
      }
    }
  }

  lemma PlausibleRest(bus: seq<nat>, more: seq<nat>, first: nat, fates: seq<Publish>)
    requires fates != [] && Plausible(bus, first, fates) && bus <= more
    ensures Plausible(more, first + 1, fates[1..])
  {
    forall i | 0 <= i < |fates[1..]| && fates[1..][i].ok
      ensures fates[1..][i].stored || first + 1 + i in more
    {
      assert fates[1..][i] == fates[i + 1];
      assert !fates[i + 1].stored ==> first + (i + 1) in bus;
    }
  }

  /** What the relay's method does to bus and checkpoints is a run of the system's steps: the
      batch read, its messages published, the checkpoint saved. */
  lemma BatchIsSteps<E(!new)>(s: Sys<E>, fates: seq<Publish>, save: Publish) returns (run: seq<Sys<E>>)
    requires s.batch == None && s.checkpoint < |s.log| && |fates| == Min(s.checkpoint + BATCH, |s.log|) - s.checkpoint
    requires Plausible(s.bus, s.checkpoint + 1, fates) && (save.ok ==> save.stored)
    ensures Chain(run) && run[0] == s
    ensures var end := s.checkpoint + |fates|;
            run[|run| - 1] == s.(bus := s.bus + Sent(s.checkpoint + 1, fates),
                                 saved := if AllOk(fates) && save.stored then end else s.saved,
                                 checkpoint := if AllOk(fates) && save.ok then end else s.checkpoint)
  {
    var load: Step<E> := Read;
    var t := Do(s, load);
    run := EmitSteps(t, fates);
    hide Chain, Sent, AllOk, Plausible;
    if AllOk(fates) {
      var saves: Step<E> := Save(save);
      run := Extended(run, saves);
    }
    ChainFrom(s, load, run);
    run := [s] + run;
  }

  lemma Extended<E(!new)>(run: seq<Sys<E>>, step: Step<E>) returns (more: seq<Sys<E>>)
    requires Chain(run) && Enabled(run[|run| - 1], step)
    ensures Chain(more) && more[0] == run[0] && more[|more| - 1] == Do(run[|run| - 1], step)
  {
    hide Enabled, Do;
    var t := Do(run[|run| - 1], step);
    assert Follows(run[|run| - 1], t);
    more := run + [t];
  }
}
