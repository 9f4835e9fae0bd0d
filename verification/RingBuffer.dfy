/** The lock-free multi-producer, single-consumer queue of pkg/ringbuf, one atomic
    operation per step, any number of producers. Positions are mathematical integers. */
module RingBuffer {
  import opened Common

  /** `val` is None where the source stores the zero value. */
  datatype Slot<T> = Slot(seqNo: nat, val: Option<T>)

  /** Where a producer stands inside TryPush. `Decide` also remembers how many tickets were
      outstanding when the slot's sequence number was read. */
  datatype Producer<T> =
    | Idle
    | LoadEnq(v: T)
    | LoadSeq(v: T, pos: nat)
    | Decide(v: T, pos: nat, seqNo: nat, outstanding: nat)
    | WriteVal(v: T, pos: nat)
    | Publish(v: T, pos: nat)

  /** Where the consumer stands inside TryPop. */
  datatype Consumer<T> =
    | Resting
    | LoadHead(pos: nat)
    | Check(pos: nat, seqNo: nat)
    | ReadVal(pos: nat)
    | ZeroVal(pos: nat, v: Option<T>)
    | FreeSlot(pos: nat, v: Option<T>)
    | Advance(pos: nat, v: Option<T>)

  /** `tickets` and `popped` record history: the value of every claimed position, and what
      TryPop has returned. */
  datatype Queue<T> = Queue(
    slots: seq<Slot<T>>,
    enq: nat,
    deq: nat,
    producers: map<nat, Producer<T>>,
    consumer: Consumer<T>,
    tickets: seq<T>,
    popped: seq<Option<T>>)

  datatype Step<T> =
    | Call(p: nat, v: T)   // TryPush(v) is called
    | Push(p: nat)         // producer p makes its next atomic move
    | Pop                  // the consumer makes its next atomic move

  predicate Enabled<T>(s: Queue<T>, step: Step<T>) {
    match step
    case Call(p, _) => p in s.producers ==> s.producers[p].Idle?
    case Push(p) => p in s.producers && !s.producers[p].Idle?
    case Pop => true
  }

  function At(pos: nat, capacity: nat): nat
    requires capacity > 0
  {
    pos % capacity
  }

  /** Positions whose slot the consumer has opened for the next round. */
  function Freed<T>(s: Queue<T>): nat {
    if s.consumer.Advance? then s.deq + 1 else s.deq
  }

  function SetProducer<T>(s: Queue<T>, p: nat, pc: Producer<T>): Queue<T> {
    s.(producers := s.producers[p := pc])
  }

  function DoPush<T>(s: Queue<T>, p: nat): Queue<T>
    requires p in s.producers && !s.producers[p].Idle? && |s.slots| > 0
  {
    var n := |s.slots|;
    match s.producers[p]
    case LoadEnq(v) => SetProducer(s, p, LoadSeq(v, s.enq))
    case LoadSeq(v, pos) =>
      var outstanding := if s.enq >= Freed(s) then s.enq - Freed(s) else 0;
      SetProducer(s, p, Decide(v, pos, s.slots[At(pos, n)].seqNo, outstanding))
    case Decide(v, pos, seqNo, _) =>
      if seqNo == pos then
        if s.enq == pos  // compare and swap
        then SetProducer(s, p, WriteVal(v, pos)).(enq := pos + 1, tickets := s.tickets + [v])
        else SetProducer(s, p, LoadEnq(v))
      else if seqNo < pos then SetProducer(s, p, Idle)  // returns false
      else SetProducer(s, p, LoadEnq(v))
    case WriteVal(v, pos) =>
      SetProducer(s, p, Publish(v, pos)).(slots := s.slots[At(pos, n) := s.slots[At(pos, n)].(val := Some(v))])
    case Publish(v, pos) =>
      SetProducer(s, p, Idle).(slots := s.slots[At(pos, n) := s.slots[At(pos, n)].(seqNo := pos + 1)])
  }

  function DoPop<T>(s: Queue<T>): Queue<T>
    requires |s.slots| > 0
  {
    var n := |s.slots|;
    match s.consumer
    case Resting => s.(consumer := LoadHead(s.deq))
    case LoadHead(pos) => s.(consumer := Check(pos, s.slots[At(pos, n)].seqNo))
    case Check(pos, seqNo) => s.(consumer := if seqNo < pos + 1 then Resting else ReadVal(pos))
    case ReadVal(pos) => s.(consumer := ZeroVal(pos, s.slots[At(pos, n)].val))
    case ZeroVal(pos, v) =>
      s.(consumer := FreeSlot(pos, v), slots := s.slots[At(pos, n) := s.slots[At(pos, n)].(val := None)])
    case FreeSlot(pos, v) =>
      s.(consumer := Advance(pos, v), slots := s.slots[At(pos, n) := s.slots[At(pos, n)].(seqNo := pos + n)])
    case Advance(pos, v) =>
      s.(consumer := Resting, deq := pos + 1, popped := s.popped + [v])
  }

  function Do<T>(s: Queue<T>, step: Step<T>): Queue<T>
    requires Enabled(s, step) && |s.slots| > 0
  {
    match step
    case Call(p, v) => SetProducer(s, p, LoadEnq(v))
    case Push(p) => DoPush(s, p)
    case Pop => DoPop(s)
  }

  /** An empty queue of the given capacity: slot i carries sequence number i. */
  function Empty<T>(capacity: nat): Queue<T> {
    Queue(seq(capacity, i requires 0 <= i < capacity => Slot(i, None)), 0, 0, map[], Resting, [], [])
  }

  ghost predicate IsRun<T>(states: seq<Queue<T>>, steps: seq<Step<T>>, capacity: nat) {
    && capacity > 0 && |states| == |steps| + 1 && states[0] == Empty(capacity)
    && forall k :: 0 <= k < |steps| ==>
         Enabled(states[k], steps[k]) && |states[k].slots| > 0 && states[k + 1] == Do(states[k], steps[k])
  }

  // ---- the invariant ----

  ghost predicate Holds<T>(pc: Producer<T>, pos: nat) {
    (pc.WriteVal? || pc.Publish?) && pc.pos == pos
  }

  /** The slot of a claimed position: published, or still in the hands of its producer. */
  ghost predicate ClaimedSlot<T>(s: Queue<T>, pos: nat, slot: Slot<T>) {
    || (slot.seqNo == pos + 1
        && pos < |s.tickets| && (slot.val == Some(s.tickets[pos]) || (s.consumer.FreeSlot? && pos == s.deq)))
    || (slot.seqNo == pos && exists p :: p in s.producers && Holds(s.producers[p], pos))
  }

  ghost predicate GoodSlots<T>(s: Queue<T>)
    requires |s.slots| > 0
  {
    forall pos :: Freed(s) <= pos < Freed(s) + |s.slots| ==>
      var slot := s.slots[At(pos, |s.slots|)];
      if pos < s.enq then ClaimedSlot(s, pos, slot) else slot.seqNo == pos
  }

  ghost predicate GoodProducer<T>(s: Queue<T>, pc: Producer<T>)
    requires |s.slots| > 0 && |s.tickets| == s.enq
  {
    match pc
    case LoadSeq(_, pos) => pos <= s.enq
    case Decide(_, pos, seqNo, outstanding) =>
      && pos <= s.enq
      && (seqNo == pos ==> pos < Freed(s) + |s.slots|)
      && (seqNo < pos ==> outstanding == |s.slots|)
    case WriteVal(v, pos) =>
      && Freed(s) <= pos < s.enq && s.tickets[pos] == v
      && s.slots[At(pos, |s.slots|)].seqNo == pos
    case Publish(v, pos) =>
      && Freed(s) <= pos < s.enq && s.tickets[pos] == v
      && s.slots[At(pos, |s.slots|)] == Slot(pos, Some(v))
    case _ => true
  }

  ghost predicate GoodProducers<T>(s: Queue<T>)
    requires |s.slots| > 0 && |s.tickets| == s.enq
  {
    && (forall p :: p in s.producers ==> GoodProducer(s, s.producers[p]))
    && (forall p, q, pos :: p in s.producers && q in s.producers && Holds(s.producers[p], pos) && Holds(s.producers[q], pos)
          ==> p == q)
  }

  /** The head of the queue is published. */
  ghost predicate Ready<T>(s: Queue<T>)
    requires |s.slots| > 0
  {
    s.deq < s.enq && s.slots[At(s.deq, |s.slots|)].seqNo == s.deq + 1
  }

  ghost predicate GoodConsumer<T>(s: Queue<T>)
    requires |s.slots| > 0 && |s.tickets| == s.enq
  {
    match s.consumer
    case Resting => true
    case LoadHead(pos) => pos == s.deq
    case Check(pos, seqNo) => pos == s.deq && (seqNo > pos ==> Ready(s))
    case ReadVal(pos) => pos == s.deq && Ready(s)
    case ZeroVal(pos, v) => pos == s.deq && Ready(s) && v == Some(s.tickets[pos])
    case FreeSlot(pos, v) => pos == s.deq && Ready(s) && v == Some(s.tickets[pos])
    case Advance(pos, v) => pos == s.deq < s.enq && v == Some(s.tickets[pos])
  }

  ghost predicate GoodHistory<T>(s: Queue<T>) {
    && Freed(s) <= s.enq <= Freed(s) + |s.slots|
    && |s.tickets| == s.enq && |s.popped| == s.deq
    && forall k :: 0 <= k < s.deq && k < |s.tickets| ==> s.popped[k] == Some(s.tickets[k])
  }

  ghost predicate Inv<T>(s: Queue<T>) {
    && |s.slots| >= 2
    && GoodHistory(s) && GoodProducers(s) && GoodConsumer(s) && GoodSlots(s)
  }

  // ---- slots and positions ----

  lemma MultipleBounds(n: int, k: int)
    requires n > 0
    ensures k >= 1 ==> n * k >= n
    ensures k <= -1 ==> n * k <= -n
  {
    if k >= 1 {
      assert n * k == n * (k - 1) + n;
    } else {
      assert n * k == n * (k + 1) - n;
    }
  }

  lemma SmallMultiple(n: int, k: int)
    requires n > 0 && -n < n * k < n
    ensures k == 0
  {
    MultipleBounds(n, k);
  }

  lemma Remainder(a: nat, q: int, r: int, n: nat)
    requires n > 0 && a == n * q + r && 0 <= r < n
    ensures At(a, n) == r
  {
    var k := a / n - q;
    assert a == n * (a / n) + a % n;
    assert n * k == n * (a / n) - n * q == r - a % n;
    SmallMultiple(n, k);
  }

  lemma SameSlot(a: nat, n: nat)
    requires n > 0
    ensures At(a + n, n) == At(a, n)
  {
    assert n * (a / n + 1) == n * (a / n) + n;
    Remainder(a + n, a / n + 1, a % n, n);
  }

  /** Positions within one round occupy different slots. */
  lemma DistinctSlots(a: nat, b: nat, n: nat)
    requires n > 0 && a < b < a + n
    ensures At(a, n) != At(b, n)
  {
    var k := b / n - a / n;
    assert n * k == n * (b / n) - n * (a / n) == (b - a) - (b % n - a % n);
    if At(a, n) == At(b, n) {
      SmallMultiple(n, k);
    }
  }

  lemma WindowDistinct(from: nat, n: nat)
    requires n > 0
    ensures forall a, b :: from <= a < from + n && from <= b < from + n && a != b ==> At(a, n) != At(b, n)
  {
    forall a: nat, b: nat | from <= a < from + n && from <= b < from + n && a != b
      ensures At(a, n) != At(b, n)
    {
      if a < b { DistinctSlots(a, b, n); } else { DistinctSlots(b, a, n); }
    }
  }

  /** A position left behind shares its slot with a later one of the current round. */
  lemma {:induction false} Successor(pos: nat, from: nat, n: nat) returns (later: nat)
    requires n > 0 && pos < from
    ensures from <= later < from + n && At(later, n) == At(pos, n) && later >= pos + n
    decreases from - pos
  {
    SameSlot(pos, n);
    if pos + n >= from {
      later := pos + n;
    } else {
      later := Successor(pos + n, from, n);
    }
  }

  // ---- what a producer may conclude from a sequence number ----

  /** The sequence number at a position a producer read from `enq`: equal means the slot is
      free for it, smaller means every slot is outstanding. Capacity one breaks the first. */
  lemma ReadingSeq<T>(s: Queue<T>, pos: nat)
    requires Inv(s) && pos <= s.enq
    ensures var seqNo := s.slots[At(pos, |s.slots|)].seqNo;
            && (seqNo == pos ==> pos < Freed(s) + |s.slots|)
            && (seqNo < pos ==> s.enq == Freed(s) + |s.slots|)
  {
    var n, f := |s.slots|, Freed(s);
    if pos < f {
      var later := Successor(pos, f, n);
      assert s.slots[At(later, n)].seqNo >= later;
    } else if pos >= f + n {
      SameSlot(f, n);
      assert s.slots[At(f, n)].seqNo <= f + 1;
    }
  }

  // ---- every step keeps the invariant ----

  lemma InitInv<T>(capacity: nat)
    requires capacity >= 2
    ensures Inv(Empty<T>(capacity))
  {
    var s := Empty<T>(capacity);
    forall pos: nat | pos < capacity
      ensures s.slots[At(pos, capacity)].seqNo == pos
    {
      Remainder(pos, 0, pos, capacity);
    }
  }

  /** A producer that holds no slot, before and after, changes only its own line. */
  lemma QuietKeeps<T>(s: Queue<T>, p: nat, pc: Producer<T>)
    requires Inv(s) && GoodProducer(s, pc) && !pc.WriteVal? && !pc.Publish?
    requires p in s.producers ==> !s.producers[p].WriteVal? && !s.producers[p].Publish?
    ensures Inv(SetProducer(s, p, pc))
  {
    var s' := SetProducer(s, p, pc);
    forall pos | Freed(s') <= pos < Freed(s') + |s'.slots|
      ensures var slot := s'.slots[At(pos, |s'.slots|)];
              if pos < s'.enq then ClaimedSlot(s', pos, slot) else slot.seqNo == pos
    {
      var slot := s.slots[At(pos, |s.slots|)];
      if pos < s.enq && slot.seqNo == pos {
        var q :| q in s.producers && Holds(s.producers[q], pos);
        assert q in s'.producers && Holds(s'.producers[q], pos);
      }
    }
    forall q | q in s'.producers
      ensures GoodProducer(s', s'.producers[q])
    {
      if q != p { assert GoodProducer(s, s.producers[q]); }
    }
  }

  lemma ClaimKeeps<T>(s: Queue<T>, p: nat, v: T)
    requires Inv(s) && p in s.producers && s.producers[p].Decide? && s.producers[p].v == v
    requires s.producers[p].pos == s.producers[p].seqNo == s.enq
    ensures Inv(DoPush(s, p))
  {
    ClaimProducers(s, p, v);
    ClaimSlots(s, p, v);
  }

  lemma ClaimSlots<T>(s: Queue<T>, p: nat, v: T)
    requires Inv(s) && p in s.producers && s.producers[p].Decide? && s.producers[p].v == v
    requires s.producers[p].pos == s.producers[p].seqNo == s.enq
    ensures GoodSlots(DoPush(s, p))
  {
    hide GoodProducer, GoodConsumer;
    var s', pos, n := DoPush(s, p), s.enq, |s.slots|;
    assert Holds(s'.producers[p], pos);
    forall a | Freed(s') <= a < Freed(s') + n && a < s'.enq
      ensures ClaimedSlot(s', a, s'.slots[At(a, n)])
    {
      if a < pos {
        assert ClaimedSlot(s, a, s.slots[At(a, n)]);
        if s.slots[At(a, n)].seqNo == a {
          var q :| q in s.producers && Holds(s.producers[q], a);
          assert q in s'.producers && Holds(s'.producers[q], a);
        }
      }
    }
  }

  lemma ClaimProducers<T>(s: Queue<T>, p: nat, v: T)
    requires Inv(s) && p in s.producers && s.producers[p].Decide? && s.producers[p].v == v
    requires s.producers[p].pos == s.producers[p].seqNo == s.enq
    ensures s.enq < Freed(s) + |s.slots|
    ensures GoodProducers(DoPush(s, p))
  {
    hide GoodConsumer;
    var s', pos := DoPush(s, p), s.enq;
    assert GoodProducer(s, s.producers[p]);
    forall q | q in s'.producers
      ensures GoodProducer(s', s'.producers[q])
    {
      if q != p { assert GoodProducer(s, s.producers[q]); }
    }
    forall x, y, a | x in s'.producers && y in s'.producers && Holds(s'.producers[x], a) && Holds(s'.producers[y], a)
      ensures x == y
    {
      assert x != p ==> GoodProducer(s, s.producers[x]);
      assert y != p ==> GoodProducer(s, s.producers[y]);
    }
  }

  /** Slots other than the one at `pos` look the same to every position but `pos`. */
  ghost predicate TouchesOnly<T>(s: Queue<T>, s': Queue<T>, pos: nat)
    requires |s.slots| > 0
  {
    && |s'.slots| == |s.slots|
    && forall i :: 0 <= i < |s.slots| && i != At(pos, |s.slots|) ==> s'.slots[i] == s.slots[i]
  }

  /** A producer holding `pos` writes its own slot. */
  lemma HolderKeeps<T>(s: Queue<T>, p: nat)
    requires Inv(s) && p in s.producers && (s.producers[p].WriteVal? || s.producers[p].Publish?)
    ensures Inv(DoPush(s, p))
  {
    var s', pos, n, f := DoPush(s, p), s.producers[p].pos, |s.slots|, Freed(s);
    assert GoodProducer(s, s.producers[p]);
    WindowDistinct(f, n);
    assert TouchesOnly(s, s', pos);
    HolderSlots(s, p);
    forall q | q in s'.producers
      ensures GoodProducer(s', s'.producers[q])
    {
      if q != p {
        assert GoodProducer(s, s.producers[q]);
        assert !Holds(s.producers[q], pos) by { assert Holds(s.producers[p], pos); }
      }
    }
    HolderConsumer(s, p);
  }

  lemma HolderConsumer<T>(s: Queue<T>, p: nat)
    requires Inv(s) && p in s.producers && (s.producers[p].WriteVal? || s.producers[p].Publish?)
    ensures GoodConsumer(DoPush(s, p))
  {
    var s', pos, n := DoPush(s, p), s.producers[p].pos, |s.slots|;
    assert GoodProducer(s, s.producers[p]);
    if Ready(s) && Freed(s) == s.deq {
      assert pos != s.deq;
      WindowDistinct(s.deq, n);
      assert Ready(s');
    }
  }

  lemma HolderSlots<T>(s: Queue<T>, p: nat)
    requires Inv(s) && p in s.producers && (s.producers[p].WriteVal? || s.producers[p].Publish?)
    ensures GoodSlots(DoPush(s, p))
  {
    var s', pos, n, f := DoPush(s, p), s.producers[p].pos, |s.slots|, Freed(s);
    assert GoodProducer(s, s.producers[p]);
    WindowDistinct(f, n);
    forall a | f <= a < f + n
      ensures var slot := s'.slots[At(a, n)];
              if a < s'.enq then ClaimedSlot(s', a, slot) else slot.seqNo == a
    {
      if a == pos {
        assert s.producers[p].WriteVal? ==> Holds(s'.producers[p], pos);
      } else if a < s.enq && s.slots[At(a, n)].seqNo == a {
        var q :| q in s.producers && Holds(s.producers[q], a);
        assert q in s'.producers && Holds(s'.producers[q], a);
      }
    }
  }

  lemma PushKeeps<T>(s: Queue<T>, p: nat)
    requires Inv(s) && p in s.producers && !s.producers[p].Idle?
    ensures Inv(DoPush(s, p))
  {
    hide GoodSlots, GoodConsumer;
    var pc := s.producers[p];
    assert GoodProducer(s, pc);
    match pc
    case LoadEnq(v) => QuietKeeps(s, p, LoadSeq(v, s.enq));
    case LoadSeq(v, pos) =>
      ReadingSeq(s, pos);
      QuietKeeps(s, p, Decide(v, pos, s.slots[At(pos, |s.slots|)].seqNo, s.enq - Freed(s)));
    case Decide(v, pos, seqNo, _) =>
      if seqNo == pos == s.enq {
        ClaimKeeps(s, p, v);
      } else if seqNo < pos {
        QuietKeeps(s, p, Idle);
      } else {
        QuietKeeps(s, p, LoadEnq(v));
      }
    case _ => HolderKeeps(s, p);
  }

  lemma PopKeeps<T>(s: Queue<T>)
    requires Inv(s)
    ensures Inv(DoPop(s))
  {
    hide GoodSlots;
    PopProducers(s);
    PopConsumer(s);
    PopSlots(s);
  }

  lemma PopProducers<T>(s: Queue<T>)
    requires Inv(s)
    ensures GoodHistory(DoPop(s)) && GoodProducers(DoPop(s))
  {
    hide GoodSlots;
    var s', n := DoPop(s), |s.slots|;
    WindowDistinct(s.deq, n);
    forall q | q in s.producers
      ensures GoodProducer(s', s.producers[q])
    {
      assert GoodProducer(s, s.producers[q]);
    }
  }

  lemma PopConsumer<T>(s: Queue<T>)
    requires Inv(s)
    ensures |DoPop(s).tickets| == DoPop(s).enq && |DoPop(s).slots| > 0 && GoodConsumer(DoPop(s))
  {
    hide GoodProducers;
    if s.deq < s.enq && Freed(s) == s.deq {
      assert ClaimedSlot(s, s.deq, s.slots[At(s.deq, |s.slots|)]);
    }
  }

  lemma PopSlots<T>(s: Queue<T>)
    requires Inv(s)
    ensures GoodSlots(DoPop(s))
  {
    var s', n := DoPop(s), |s.slots|;
    WindowDistinct(s.deq, n);
    SameSlot(s.deq, n);
    forall a | Freed(s') <= a < Freed(s') + n
      ensures var slot := s'.slots[At(a, n)];
              if a < s'.enq then ClaimedSlot(s', a, slot) else slot.seqNo == a
    {
      if a < s.deq + n && a >= Freed(s) {
        assert a < s.enq ==> ClaimedSlot(s, a, s.slots[At(a, n)]);
        if a < s.enq && s.slots[At(a, n)].seqNo == a {
          var q :| q in s.producers && Holds(s.producers[q], a);
          assert q in s'.producers && Holds(s'.producers[q], a);
        }
      }
    }
  }

  lemma StepKeeps<T>(s: Queue<T>, step: Step<T>)
    requires Inv(s) && Enabled(s, step)
    ensures Inv(Do(s, step)) && |Do(s, step).slots| == |s.slots|
  {
    match step
    case Call(p, v) => QuietKeeps(s, p, LoadEnq(v));
    case Push(p) => PushKeeps(s, p);
    case Pop => PopKeeps(s);
  }

  lemma {:induction false} RunInv<T>(states: seq<Queue<T>>, steps: seq<Step<T>>, capacity: nat, k: nat)
    requires IsRun(states, steps, capacity) && capacity >= 2 && k < |states|
    ensures Inv(states[k]) && |states[k].slots| == capacity
  {
    hide Inv, Do, Enabled;
    if k == 0 {
      InitInv<T>(capacity);
    } else {
      RunInv(states, steps, capacity, k - 1);
      StepKeeps(states[k - 1], steps[k - 1]);
    }
  }

  // ---- what every interleaving guarantees ----

  /** TryPop returns the pushed values in the order their positions were claimed. */
  ghost predicate InOrder<T>(s: Queue<T>) {
    |s.popped| <= |s.tickets| && forall k :: 0 <= k < |s.popped| ==> s.popped[k] == Some(s.tickets[k])
  }

  /** A claimed position not popped yet: its value is in its slot, published, or with
      exactly one producer. */
  ghost predicate Accounted<T>(s: Queue<T>, pos: nat)
    requires |s.slots| > 0 && pos < |s.tickets|
  {
    var slot := s.slots[At(pos, |s.slots|)];
    || (slot == Slot(pos + 1, Some(s.tickets[pos])))
    || (exists p :: p in s.producers && Holds(s.producers[p], pos) && s.producers[p].v == s.tickets[pos])
    || (pos == s.deq && (s.consumer.FreeSlot? || s.consumer.Advance?) && s.consumer.v == Some(s.tickets[pos]))
  }

  /** Nothing is lost, duplicated or read before it is published. */
  lemma Fifo<T>(states: seq<Queue<T>>, steps: seq<Step<T>>, capacity: nat, k: nat)
    requires IsRun(states, steps, capacity) && capacity >= 2 && k < |states|
    ensures InOrder(states[k])
    ensures var s := states[k];
            && |s.slots| == capacity && |s.tickets| == s.enq && |s.popped| == s.deq
            && forall pos :: s.deq <= pos < s.enq ==> Accounted(s, pos)
  {
    RunInv(states, steps, capacity, k);
    var s := states[k];
    forall pos | s.deq <= pos < s.enq
      ensures Accounted(s, pos)
    {
      if pos >= Freed(s) {
        assert ClaimedSlot(s, pos, s.slots[At(pos, |s.slots|)]);
        if s.slots[At(pos, |s.slots|)].seqNo == pos {
          var p :| p in s.producers && Holds(s.producers[p], pos);
          assert GoodProducer(s, s.producers[p]);
        }
      }
    }
  }

  /** The next move of producer `p` touches the value of its slot. */
  ghost predicate WritesVal<T>(s: Queue<T>, p: nat) {
    p in s.producers && s.producers[p].WriteVal?
  }

  ghost predicate ConsumerTouchesVal<T>(s: Queue<T>) {
    s.consumer.ReadVal? || s.consumer.ZeroVal?
  }

  /** Two threads never stand before plain accesses to the same slot value: the atomic
      sequence numbers order them all. */
  lemma NoDataRace<T>(states: seq<Queue<T>>, steps: seq<Step<T>>, capacity: nat, k: nat, p: nat, q: nat)
    requires IsRun(states, steps, capacity) && capacity >= 2 && k < |states| && WritesVal(states[k], p)
    ensures |states[k].slots| == capacity
    ensures ConsumerTouchesVal(states[k]) ==>
              At(states[k].producers[p].pos, capacity) != At(states[k].consumer.pos, capacity)
    ensures WritesVal(states[k], q) && p != q ==>
              At(states[k].producers[p].pos, capacity) != At(states[k].producers[q].pos, capacity)
  {
    RunInv(states, steps, capacity, k);
    var s := states[k];
    WindowDistinct(Freed(s), capacity);
    assert GoodProducer(s, s.producers[p]);
    if WritesVal(s, q) && p != q {
      assert GoodProducer(s, s.producers[q]);
      assert Holds(s.producers[p], s.producers[p].pos) && Holds(s.producers[q], s.producers[q].pos);
    }
  }

  /** If TryPush is about to return false, then when it read the slot's sequence number
      every one of the slots was outstanding. */
  lemma RejectMeansFull<T>(states: seq<Queue<T>>, steps: seq<Step<T>>, capacity: nat, k: nat, p: nat)
    requires IsRun(states, steps, capacity) && capacity >= 2 && k < |states| && p in states[k].producers
    requires states[k].producers[p].Decide? && states[k].producers[p].seqNo < states[k].producers[p].pos
    ensures states[k].producers[p].outstanding == capacity
    ensures exists j :: 0 <= j < k && steps[j] == Push(p) && p in states[j].producers && states[j].producers[p].LoadSeq?
                        && states[j].enq == Freed(states[j]) + capacity
  {
    hide IsRun;
    RunInv(states, steps, capacity, k);
    assert GoodProducer(states[k], states[k].producers[p]);
    var j := LastLoad(states, steps, capacity, k, p);
    RunInv(states, steps, capacity, j);
  }

  lemma RunStep<T>(states: seq<Queue<T>>, steps: seq<Step<T>>, capacity: nat, k: nat)
    requires IsRun(states, steps, capacity) && k < |steps|
    ensures Enabled(states[k], steps[k]) && |states[k].slots| > 0 && states[k + 1] == Do(states[k], steps[k])
    ensures states[0].producers == map[] && |states| == |steps| + 1
  {
  }

  /** The step that read the sequence number a producer now decides on. */
  lemma {:induction false} LastLoad<T>(states: seq<Queue<T>>, steps: seq<Step<T>>, capacity: nat, k: nat, p: nat) returns (j: nat)
    requires IsRun(states, steps, capacity) && capacity >= 2 && k < |states|
    requires p in states[k].producers && states[k].producers[p].Decide?
    ensures j < k && k <= |steps| && steps[j] == Push(p) && p in states[j].producers && states[j].producers[p].LoadSeq?
    ensures states[k].producers[p].outstanding == states[j].enq - Freed(states[j])
    decreases k
  {
    hide IsRun, Inv;
    if k == 0 {
      RunStart(states, steps, capacity);
    } else {
      RunLength(states, steps, capacity);
      RunStep(states, steps, capacity, k - 1);
      RunInv(states, steps, capacity, k - 1);
      if steps[k - 1] == Push(p) {
        FreedBelow(states[k - 1]);
        j := k - 1;
      } else {
        j := LastLoad(states, steps, capacity, k - 1, p);
      }
    }
  }

  lemma FreedBelow<T>(s: Queue<T>)
    requires Inv(s)
    ensures Freed(s) <= s.enq
  {
  }

  lemma RunLength<T>(states: seq<Queue<T>>, steps: seq<Step<T>>, capacity: nat)
    requires IsRun(states, steps, capacity)
    ensures |states| == |steps| + 1
  {
  }

  lemma RunStart<T>(states: seq<Queue<T>>, steps: seq<Step<T>>, capacity: nat)
    requires IsRun(states, steps, capacity)
    ensures states[0].producers == map[]
  {
  }

  /** TryPop returns false only when the head position is unclaimed, or claimed but not
      published yet. */
  lemma EmptyMeansUnpublished<T>(states: seq<Queue<T>>, steps: seq<Step<T>>, capacity: nat, k: nat)
    requires IsRun(states, steps, capacity) && capacity >= 2 && k < |states| && states[k].consumer.LoadHead?
    ensures |states[k].slots| == capacity
    ensures var s := states[k];
            s.slots[At(s.consumer.pos, capacity)].seqNo < s.consumer.pos + 1 <==>
            (s.deq == s.enq || exists p :: p in s.producers && Holds(s.producers[p], s.deq))
  {
    RunInv(states, steps, capacity, k);
    var s := states[k];
    if p :| p in s.producers && Holds(s.producers[p], s.deq) {
      assert GoodProducer(s, s.producers[p]);
    }
    assert s.deq < s.enq ==> ClaimedSlot(s, s.deq, s.slots[At(s.deq, capacity)]);
  }

  // ---- refinement: a bounded FIFO queue ----

  /** What is claimed and not yet freed, oldest first. */
  ghost function Abstract<T>(s: Queue<T>): seq<T>
    requires Inv(s)
  {
    s.tickets[Freed(s)..]
  }

  /** Every atomic operation is an enqueue below capacity, a dequeue of the head, or
      invisible: the claiming compare-and-swap and the freeing store are the moments
      at which TryPush and TryPop take effect. */
  lemma StepRefines<T>(s: Queue<T>, step: Step<T>)
    requires Inv(s) && Enabled(s, step)
    ensures Inv(Do(s, step))
    ensures var a, b := Abstract(s), Abstract(Do(s, step));
            || b == a
            || (|a| < |s.slots| && step.Push? && s.producers[step.p].Decide? && b == a + [s.producers[step.p].v])
            || (a != [] && step.Pop? && s.consumer.FreeSlot? && s.consumer.v == Some(a[0]) && b == a[1..])
  {
    StepKeeps(s, step);
    Moves(s, step);
  }

  lemma Moves<T>(s: Queue<T>, step: Step<T>)
    requires Inv(s) && Enabled(s, step)
    ensures var t := Do(s, step);
            || (t.tickets == s.tickets && Freed(t) == Freed(s))
            || (s.enq - Freed(s) < |s.slots| && step.Push? && s.producers[step.p].Decide?
                && t.tickets == s.tickets + [s.producers[step.p].v] && Freed(t) == Freed(s))
            || (Freed(s) < |s.tickets| && step.Pop? && s.consumer.FreeSlot? && s.consumer.v == Some(s.tickets[Freed(s)])
                && t.tickets == s.tickets && Freed(t) == Freed(s) + 1)
  {
    if step.Push? {
      assert GoodProducer(s, s.producers[step.p]);
    }
  }

  /** What Len makes of the two counters it has loaded. */
  function Len(enq: nat, deq: nat, capacity: nat): nat {
    if enq <= deq then 0 else if enq - deq > capacity then capacity else enq - deq
  }

  /** No operation takes a counter back. */
  lemma {:induction false} CountersRise<T>(states: seq<Queue<T>>, steps: seq<Step<T>>, capacity: nat, i: nat, j: nat)
    requires IsRun(states, steps, capacity) && capacity >= 2 && i <= j < |states|
    ensures states[i].enq <= states[j].enq && states[i].deq <= states[j].deq
    decreases j
  {
    hide IsRun, Inv, Do, Enabled;
    if i < j {
      CountersRise(states, steps, capacity, i, j - 1);
      RunInv(states, steps, capacity, j - 1);
      RunLength(states, steps, capacity);
      RunStep(states, steps, capacity, j - 1);
      StepCounts(states[j - 1], steps[j - 1]);
    }
  }

  lemma StepCounts<T>(s: Queue<T>, step: Step<T>)
    requires Inv(s) && Enabled(s, step)
    ensures s.enq <= Do(s, step).enq && s.deq <= Do(s, step).deq
  {
    hide GoodSlots, GoodHistory, GoodProducers;
  }

  lemma InTheQueue<T>(s: Queue<T>)
    requires Inv(s)
    ensures |Abstract(s)| == s.enq - s.deq - (if s.consumer.Advance? then 1 else 0)
    ensures |s.popped| == s.deq && |Abstract(s)| <= |s.slots|
  {
  }

  /** Len loads the enqueue counter at one moment and the dequeue counter at a later one. What
      it reports is never above capacity, at most one above the number of values at either
      moment, and short of the number at the first by no more than was popped in between. */
  lemma LenIsClose<T>(states: seq<Queue<T>>, steps: seq<Step<T>>, capacity: nat, i: nat, j: nat)
    requires IsRun(states, steps, capacity) && capacity >= 2 && i <= j < |states|
    ensures Inv(states[i]) && Inv(states[j])
    ensures var n, first, last := Len(states[i].enq, states[j].deq, capacity), |Abstract(states[i])|, |Abstract(states[j])|;
            && n <= capacity && n <= first + 1 && n <= last + 1
            && |states[i].popped| <= |states[j].popped| && n + (|states[j].popped| - |states[i].popped|) >= first
  {
    hide IsRun, Inv, Abstract;
    RunInv(states, steps, capacity, i);
    RunInv(states, steps, capacity, j);
    CountersRise(states, steps, capacity, i, j);
    InTheQueue(states[i]);
    InTheQueue(states[j]);
  }

  // ---- capacity one ----

  /** What a list of steps leads to, each one enabled in its turn. */
  function After<T>(s: Queue<T>, steps: seq<Step<T>>): Option<Queue<T>>
    decreases |steps|
  {
    if steps == [] then Some(s)
    else if Enabled(s, steps[0]) && |s.slots| > 0 then After(Do(s, steps[0]), steps[1..])
    else None
  }

  lemma {:induction false} AfterIsRun<T>(s: Queue<T>, steps: seq<Step<T>>) returns (states: seq<Queue<T>>)
    requires After(s, steps).Some?
    ensures |states| == |steps| + 1 && states[0] == s && states[|steps|] == After(s, steps).value
    ensures forall k :: 0 <= k < |steps| ==>
              Enabled(states[k], steps[k]) && |states[k].slots| > 0 && states[k + 1] == Do(states[k], steps[k])
    decreases |steps|
  {
    if steps == [] {
      states := [s];
    } else {
      var rest := AfterIsRun(Do(s, steps[0]), steps[1..]);
      states := [s] + rest;
      forall k | 0 <= k < |steps|
        ensures Enabled(states[k], steps[k]) && |states[k].slots| > 0 && states[k + 1] == Do(states[k], steps[k])
      {
        if k > 0 {
          assert steps[1..][k - 1] == steps[k];
          assert Enabled(rest[k - 1], steps[1..][k - 1]);
        }
      }
    }
  }

  /** One undisturbed TryPush by producer 0, on a queue of one slot whose sequence number
      is the enqueue position: it always finds the slot "free". */
  lemma OneSlotPush<T>(s: Queue<T>, v: T) returns (r: Queue<T>)
    requires |s.slots| == 1 && s.slots[0].seqNo == s.enq && (0 in s.producers ==> s.producers[0].Idle?)
    ensures After(s, [Call(0, v), Push(0), Push(0), Push(0), Push(0), Push(0)]) == Some(r)
    ensures r.enq == s.enq + 1 && r.slots == [Slot(s.enq + 1, Some(v))] && r.tickets == s.tickets + [v]
    ensures r.deq == s.deq && r.consumer == s.consumer && r.popped == s.popped && 0 in r.producers && r.producers[0].Idle?
  {
    var s1 := Do(s, Call(0, v));
    var s2 := Do(s1, Push(0));
    var s3 := Do(s2, Push(0));
    var s4 := Do(s3, Push(0));
    var s5 := Do(s4, Push(0));
    r := Do(s5, Push(0));
    assert After(s5, [Push(0)]) == Some(r);
    assert After(s4, [Push(0), Push(0)]) == Some(r);
    assert After(s3, [Push(0), Push(0), Push(0)]) == Some(r);
    assert After(s2, [Push(0), Push(0), Push(0), Push(0)]) == Some(r);
    assert After(s1, [Push(0), Push(0), Push(0), Push(0), Push(0)]) == Some(r);
  }

  /** Up to the value, and from there to the end of the pop. */
  lemma OneSlotTake<T>(s: Queue<T>) returns (r: Queue<T>)
    requires |s.slots| == 1 && s.slots[0].seqNo > s.deq && s.consumer.Resting?
    ensures After(s, [Pop, Pop, Pop, Pop]) == Some(r)
    ensures r == s.(consumer := ZeroVal(s.deq, s.slots[0].val))
  {
    var s1 := Do(s, Pop);
    var s2 := Do(s1, Pop);
    var s3 := Do(s2, Pop);
    r := Do(s3, Pop);
    assert After(s3, [Pop]) == Some(r);
    assert After(s2, [Pop, Pop]) == Some(r);
    assert After(s1, [Pop, Pop, Pop]) == Some(r);
  }

  lemma OneSlotFree<T>(s: Queue<T>) returns (r: Queue<T>)
    requires |s.slots| == 1 && s.consumer.ZeroVal?
    ensures After(s, [Pop, Pop, Pop]) == Some(r)
    ensures r.popped == s.popped + [s.consumer.v] && r.tickets == s.tickets
  {
    var s1 := Do(s, Pop);
    var s2 := Do(s1, Pop);
    r := Do(s2, Pop);
    assert After(s2, [Pop]) == Some(r);
    assert After(s1, [Pop, Pop]) == Some(r);
  }

  lemma OneSlotPop<T>(s: Queue<T>) returns (r: Queue<T>)
    requires |s.slots| == 1 && s.slots[0].seqNo > s.deq && s.consumer.Resting?
    ensures After(s, [Pop, Pop, Pop, Pop, Pop, Pop, Pop]) == Some(r)
    ensures r.popped == s.popped + [s.slots[0].val] && r.tickets == s.tickets
  {
    hide After, Do;
    var taken := OneSlotTake(s);
    r := OneSlotFree(taken);
    var a: seq<Step<T>>, b: seq<Step<T>> := [Pop, Pop, Pop, Pop], [Pop, Pop, Pop];
    AfterJoins(s, a, b);
    assert a + b == [Pop, Pop, Pop, Pop, Pop, Pop, Pop];
  }

  lemma {:induction false} AfterJoins<T>(s: Queue<T>, a: seq<Step<T>>, b: seq<Step<T>>)
    requires After(s, a).Some?
    ensures After(s, a + b) == After(After(s, a).value, b)
    decreases |a|
  {
    if a == [] {
      assert a + b == b;
    } else {
      AfterJoins(Do(s, a[0]), a[1..], b);
      assert (a + b)[1..] == a[1..] + b;
    }
  }

  /** With a single slot, "published" and "freed for the next round" are the same number:
      the second push overwrites the first, and the first value is gone. */
  lemma OneSlotLosesAValue<T>(first: T, second: T) returns (states: seq<Queue<T>>, steps: seq<Step<T>>)
    requires first != second
    ensures IsRun(states, steps, 1) && !InOrder(states[|steps|])
  {
    var s0 := Empty<T>(1);
    var s1 := OneSlotPush(s0, first);
    var s2 := OneSlotPush(s1, second);
    var s3 := OneSlotPop(s2);
    var a := [Call(0, first), Push(0), Push(0), Push(0), Push(0), Push(0)];
    var b := [Call(0, second), Push(0), Push(0), Push(0), Push(0), Push(0)];
    var c := [Pop, Pop, Pop, Pop, Pop, Pop, Pop];
    AfterJoins(s0, a, b);
    AfterJoins(s0, a + b, c);
    steps := a + b + c;
    states := AfterIsRun(s0, steps);
    assert states[|steps|] == s3 && s3.popped == [Some(second)] && s3.tickets == [first, second];
    assert s3.popped[0] != Some(s3.tickets[0]);
  }

  ghost predicate AlwaysInOrder<T(!new)>(capacity: nat) {
    forall states: seq<Queue<T>>, steps: seq<Step<T>>, k: nat ::
      IsRun(states, steps, capacity) && k < |states| ==> InOrder(states[k])
  }

  /** Two slots is exactly the capacity the protocol needs, for any two distinct values. */
  lemma CapacityTwoIsExact<T(!new)>(capacity: nat, first: T, second: T)
    requires capacity >= 1 && first != second
    ensures AlwaysInOrder<T>(capacity) <==> capacity >= 2
  {
    if capacity >= 2 {
      forall states: seq<Queue<T>>, steps: seq<Step<T>>, k: nat | IsRun(states, steps, capacity) && k < |states|
        ensures InOrder(states[k])
      {
        Fifo(states, steps, capacity, k);
      }
    } else {
      var states, steps := OneSlotLosesAValue(first, second);
      assert !InOrder(states[|steps|]);
    }
  }

  // ---- the object ----

  predicate PowerOfTwo(n: nat) {
    n == 1 || (n > 1 && n % 2 == 0 && PowerOfTwo(n / 2))
  }

  /** The capacity a queue really gets: the least power of two that is at least 2 and at
      least what was asked for. */
  method RoundUp(capacity: nat) returns (n: nat)
    requires capacity >= 1
    ensures PowerOfTwo(n) && n >= 2 && n >= capacity
    ensures n == 2 || n < 2 * capacity
  {
    n := 2;
    while n < capacity
      invariant PowerOfTwo(n) && n >= 2
      invariant n == 2 || n < 2 * capacity
    {
      assert (2 * n) % 2 == 0 && (2 * n) / 2 == n;
      n := 2 * n;
    }
  }

  /** The queue as an object, its methods run to completion one at a time. */
  class MPSC<T> {
    const seqNos: array<nat>
    const vals: array<Option<T>>
    var enq: nat
    var deq: nat
    ghost var tickets: seq<T>
    ghost var popped: seq<Option<T>>

    ghost function State(): Queue<T>
      reads this, seqNos, vals
    {
      var n := if seqNos.Length <= vals.Length then seqNos.Length else vals.Length;
      Queue(seq(n, i requires 0 <= i < n reads this, seqNos, vals => Slot(seqNos[i], vals[i])),
            enq, deq, map[], Resting, tickets, popped)
    }

    ghost predicate Valid()
      reads this, seqNos, vals
    {
      seqNos.Length == vals.Length && Inv(State())
    }

    ghost function Contents(): seq<T>
      reads this, seqNos, vals
      requires Valid()
    {
      Abstract(State())
    }

    constructor (capacity: nat)
      requires capacity >= 1
      ensures Valid() && fresh(seqNos) && fresh(vals) && Contents() == []
      ensures PowerOfTwo(seqNos.Length) && seqNos.Length >= capacity
    {
      var n := RoundUp(capacity);
      seqNos := new nat[n](i => i);
      vals := new Option<T>[n](_ => None);
      enq, deq, tickets, popped := 0, 0, [], [];
      new;
      InitInv<T>(n);
      assert State() == Empty(n);
    }

    /** Alone, the first round of the loop already decides. */
    method TryPush(v: T) returns (ok: bool)
      requires Valid()
      modifies this`enq, this`tickets, seqNos, vals
      ensures Valid() && ok == (|old(Contents())| < seqNos.Length)
      ensures Contents() == if ok then old(Contents()) + [v] else old(Contents())
    {
      var pos := enq;
      ghost var s := State();
      var i := pos % seqNos.Length;
      hide Inv;
      AloneReads(s);
      if seqNos[i] < pos {
        return false;
      }
      enq := pos + 1;
      tickets := tickets + [v];
      vals[i] := Some(v);
      seqNos[i] := pos + 1;
      ok := true;
      AlonePush(s, State(), v);
    }

    method TryPop() returns (v: Option<T>)
      requires Valid()
      modifies this`deq, this`popped, seqNos, vals
      ensures Valid()
      ensures if old(Contents()) == [] then v == None && Contents() == []
              else v == Some(old(Contents())[0]) && Contents() == old(Contents())[1..]
    {
      var pos := deq;
      var i := pos % seqNos.Length;
      ghost var s := State();
      AloneReady(s);
      if seqNos[i] < pos + 1 {
        return None;
      }
      v := vals[i];
      vals[i] := None;
      seqNos[i] := pos + seqNos.Length;
      deq := pos + 1;
      popped := popped + [v];
      AlonePop(s, State());
    }
  }

  /** What a producer that runs alone learns from its slot. */
  lemma AloneReads<T>(s: Queue<T>)
    requires Inv(s) && s.consumer.Resting?
    ensures var slot := s.slots[At(s.enq, |s.slots|)];
            if s.enq < s.deq + |s.slots| then slot.seqNo == s.enq else slot.seqNo < s.enq
    ensures |Abstract(s)| == s.enq - s.deq
  {
    if s.enq == s.deq + |s.slots| {
      SameSlot(s.deq, |s.slots|);
      assert ClaimedSlot(s, s.deq, s.slots[At(s.deq, |s.slots|)]);
    }
  }

  lemma AloneReady<T>(s: Queue<T>)
    requires Inv(s) && s.producers == map[] && s.consumer.Resting?
    ensures var slot := s.slots[At(s.deq, |s.slots|)];
            if s.deq < s.enq then slot == Slot(s.deq + 1, Some(s.tickets[s.deq])) else slot.seqNo == s.deq
  {
    assert s.deq < s.enq ==> ClaimedSlot(s, s.deq, s.slots[At(s.deq, |s.slots|)]);
  }

  lemma AlonePush<T>(s: Queue<T>, r: Queue<T>, v: T)
    requires Inv(s) && s.producers == map[] && s.consumer.Resting? && s.enq < s.deq + |s.slots|
    requires r == s.(enq := s.enq + 1, tickets := s.tickets + [v],
                     slots := s.slots[At(s.enq, |s.slots|) := Slot(s.enq + 1, Some(v))])
    ensures Inv(r) && Abstract(r) == Abstract(s) + [v]
  {
    var n := |s.slots|;
    WindowDistinct(s.deq, n);
    forall a | s.deq <= a < s.deq + n
      ensures if a < r.enq then ClaimedSlot(r, a, r.slots[At(a, n)]) else r.slots[At(a, n)].seqNo == a
    {
      assert a < s.enq ==> ClaimedSlot(s, a, s.slots[At(a, n)]);
    }
  }

  lemma AlonePop<T>(s: Queue<T>, r: Queue<T>)
    requires Inv(s) && s.producers == map[] && s.consumer.Resting? && s.deq < s.enq
    requires r == s.(deq := s.deq + 1, popped := s.popped + [Some(s.tickets[s.deq])],
                     slots := s.slots[At(s.deq, |s.slots|) := Slot(s.deq + |s.slots|, None)])
    ensures Inv(r) && Abstract(r) == Abstract(s)[1..]
  {
    var n := |s.slots|;
    WindowDistinct(s.deq, n);
    SameSlot(s.deq, n);
    forall a | r.deq <= a < r.deq + n
      ensures if a < r.enq then ClaimedSlot(r, a, r.slots[At(a, n)]) else r.slots[At(a, n)].seqNo == a
    {
      if a < s.deq + n {
        assert a < s.enq ==> ClaimedSlot(s, a, s.slots[At(a, n)]);
      }
    }
  }
}
