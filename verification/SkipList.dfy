/** The memtable: a skip list of heap nodes, each with one forward link per level it
    belongs to. Level 0 holds every node in key order. */
module SkipList {
  import opened Common
  import opened Codec
  import opened Runs

  const MAX_HEIGHT: nat := 12

  class SkipNode {
    const key: Bytes
    var val: Bytes
    var tomb: bool
    var next: seq<SkipNode?>

    constructor (r: Rec, next: seq<SkipNode?>)
      ensures key == r.key && val == r.val && tomb == r.tomb && this.next == next
    {
      key, val, tomb, this.next := r.key, r.val, r.tomb, next;
    }

    ghost function Content(): Rec
      reads this
    {
      Rec(key, val, tomb)
    }
  }

  // ---- levels, as numbers ----

  /** The first index from `i` on whose height is above `lvl`, or the length. */
  ghost function NextAt(hs: seq<nat>, i: nat, lvl: nat): (j: nat)
    requires i <= |hs|
    ensures i <= j <= |hs| && (j < |hs| ==> hs[j] > lvl)
    ensures forall k :: i <= k < j ==> hs[k] <= lvl
    decreases |hs| - i
  {
    if i == |hs| || hs[i] > lvl then i else NextAt(hs, i + 1, lvl)
  }

  lemma NextUnique(hs: seq<nat>, i: nat, lvl: nat, j: nat)
    requires i <= j <= |hs| && (j < |hs| ==> hs[j] > lvl)
    requires forall k :: i <= k < j ==> hs[k] <= lvl
    ensures NextAt(hs, i, lvl) == j
  {
  }

  ghost function LinkTo(all: seq<SkipNode>, j: nat): SkipNode? {
    if j < |all| then all[j] else null
  }

  ghost function Heights(links: seq<seq<SkipNode?>>): (hs: seq<nat>)
    ensures |hs| == |links| && forall i :: 0 <= i < |hs| ==> hs[i] == |links[i]|
  {
    seq(|links|, i requires 0 <= i < |links| => |links[i]|)
  }

  /** Every link goes to the next node tall enough for its level. */
  ghost predicate Linked(all: seq<SkipNode>, links: seq<seq<SkipNode?>>) {
    && |links| == |all|
    && forall i, lvl :: 0 <= i < |all| && 0 <= lvl < |links[i]| ==>
         links[i][lvl] == LinkTo(all, NextAt(Heights(links), i + 1, lvl))
  }

  ghost predicate Distinct(all: seq<SkipNode>) {
    forall i, j :: 0 <= i < j < |all| ==> all[i] != all[j]
  }

  ghost predicate KeysAscend(all: seq<SkipNode>) {
    forall i, j :: 1 <= i < j < |all| ==> Less(all[i].key, all[j].key)
  }

  /** Node `i` is the head or comes before `key`. */
  ghost predicate Before(all: seq<SkipNode>, i: nat, key: Bytes)
    requires i < |all|
  {
    i == 0 || Less(all[i].key, key)
  }

  /** `i` is the last node of level `lvl` before `key`. */
  ghost predicate Predecessor(all: seq<SkipNode>, hs: seq<nat>, i: nat, lvl: nat, key: Bytes)
    requires |hs| == |all|
  {
    && i < |all| && hs[i] > lvl && Before(all, i, key)
    && forall j :: i < j < |all| && hs[j] > lvl ==> !Less(all[j].key, key)
  }

  lemma PredecessorFound(all: seq<SkipNode>, hs: seq<nat>, i: nat, lvl: nat, key: Bytes)
    requires |hs| == |all| && KeysAscend(all) && i < |all| && hs[i] > lvl && Before(all, i, key)
    requires var j := NextAt(hs, i + 1, lvl); j < |all| ==> !Less(all[j].key, key)
    ensures Predecessor(all, hs, i, lvl, key)
  {
    var n := NextAt(hs, i + 1, lvl);
    forall j | i < j < |all| && hs[j] > lvl
      ensures !Less(all[j].key, key)
    {
      if j > n && Less(all[j].key, key) {
        LessTransitive(all[n].key, all[j].key, key);
      }
    }
  }

  // ---- inserting, as values ----

  /** `ys` is `xs` with `x` put in at `pos`. */
  ghost predicate Widened<X>(xs: seq<X>, ys: seq<X>, pos: nat, x: X) {
    && pos <= |xs| && |ys| == |xs| + 1 && ys[pos] == x
    && (forall i :: 0 <= i < pos ==> ys[i] == xs[i])
    && (forall i :: pos < i < |ys| ==> ys[i] == xs[i - 1])
  }

  /** The next tall node from an index behind the new one. */
  lemma NextBehind(hs: seq<nat>, hs': seq<nat>, pos: nat, h: nat, i: nat, lvl: nat)
    requires Widened(hs, hs', pos, h) && pos <= i <= |hs|
    ensures NextAt(hs', i + 1, lvl) == NextAt(hs, i, lvl) + 1
  {
    var j := NextAt(hs, i, lvl);
    assert j < |hs| ==> hs'[j + 1] == hs[j];
    NextUnique(hs', i + 1, lvl, j + 1);
  }

  /** The next tall node from an index before the new one, found before it. */
  lemma NextAhead(hs: seq<nat>, hs': seq<nat>, pos: nat, h: nat, i: nat, lvl: nat)
    requires Widened(hs, hs', pos, h) && i <= pos && NextAt(hs, i, lvl) < pos
    ensures NextAt(hs', i, lvl) == NextAt(hs, i, lvl)
  {
    NextUnique(hs', i, lvl, NextAt(hs, i, lvl));
  }

  /** The next tall node from an index before the new one, not found before it. */
  lemma NextAcross(hs: seq<nat>, hs': seq<nat>, pos: nat, h: nat, i: nat, lvl: nat)
    requires Widened(hs, hs', pos, h) && i <= pos <= NextAt(hs, i, lvl)
    ensures NextAt(hs', i, lvl) == if h > lvl then pos else NextAt(hs, i, lvl) + 1
  {
    var j := NextAt(hs, i, lvl);
    if h > lvl {
      NextUnique(hs', i, lvl, pos);
    } else {
      assert j < |hs| ==> hs'[j + 1] == hs[j];
      forall k | i <= k < j + 1
        ensures hs'[k] <= lvl
      {
        if k > pos { assert hs'[k] == hs[k - 1]; }
      }
      NextUnique(hs', i, lvl, j + 1);
    }
  }

  /** The links of the nodes before the new one: each of its levels is redirected at the
      predecessor of that level, and nowhere else. */
  ghost predicate Redirected(old_: seq<SkipNode?>, new_: seq<SkipNode?>, i: nat, preds: seq<nat>, h: nat, node: SkipNode)
    requires h <= |preds|
  {
    |new_| == |old_| && forall lvl :: 0 <= lvl < |old_| ==>
      new_[lvl] == if lvl < h && preds[lvl] == i then node else old_[lvl]
  }

  /** Every old node redirected at its levels, and the new one given what those pointed to. */
  ghost predicate Spliced(links: seq<seq<SkipNode?>>, links': seq<seq<SkipNode?>>, own: seq<SkipNode?>, preds: seq<nat>, h: nat, node: SkipNode) {
    && |links'| == |links| && h <= |preds| && |own| == h
    && (forall l :: 0 <= l < h ==> preds[l] < |links| && l < |links[preds[l]]| && own[l] == links[preds[l]][l])
    && (forall i :: 0 <= i < |links| ==> Redirected(links[i], links'[i], i, preds, h, node))
  }

  /** Links after `node` was put at position `pos`, `preds[lvl]` being the index of the node
      before it on each of its levels. */
  ghost predicate Inserted(all: seq<SkipNode>, links: seq<seq<SkipNode?>>, all': seq<SkipNode>, links': seq<seq<SkipNode?>>,
                           node: SkipNode, pos: nat, preds: seq<nat>, h: nat)
  {
    && 1 <= pos <= |all| == |links| && h <= |preds|
    && Widened(all, all', pos, node)
    && |links'| == |all'| && |links'[pos]| == h
    && (forall lvl :: 0 <= lvl < h ==>
          && preds[lvl] < pos && lvl < |links[preds[lvl]]|
          && NextAt(Heights(links), preds[lvl] + 1, lvl) >= pos
          && links'[pos][lvl] == links[preds[lvl]][lvl])
    && (forall i :: 0 <= i < pos ==> Redirected(links[i], links'[i], i, preds, h, node))
    && (forall i :: pos < i < |all'| ==> links'[i] == links[i - 1])
  }

  ghost function Widen<X>(xs: seq<X>, pos: nat, x: X): (ys: seq<X>)
    requires pos <= |xs|
    ensures Widened(xs, ys, pos, x) && forall y :: y in ys ==> y == x || y in xs
  {
    xs[..pos] + [x] + xs[pos..]
  }

  lemma InsertedHeights(all: seq<SkipNode>, links: seq<seq<SkipNode?>>, all': seq<SkipNode>, links': seq<seq<SkipNode?>>,
                        node: SkipNode, pos: nat, preds: seq<nat>, h: nat)
    requires Inserted(all, links, all', links', node, pos, preds, h)
    ensures Widened(Heights(links), Heights(links'), pos, h)
  {
    hide NextAt;
    assert forall i :: 0 <= i < pos ==> Redirected(links[i], links'[i], i, preds, h, node);
  }

  lemma LinkOfNew(all: seq<SkipNode>, links: seq<seq<SkipNode?>>, all': seq<SkipNode>, links': seq<seq<SkipNode?>>,
                  node: SkipNode, pos: nat, preds: seq<nat>, h: nat, lvl: nat)
    requires Linked(all, links) && Inserted(all, links, all', links', node, pos, preds, h) && lvl < h
    ensures links'[pos][lvl] == LinkTo(all', NextAt(Heights(links'), pos + 1, lvl))
  {
    hide NextAt, Heights, Redirected;
    var hs, p := Heights(links), preds[lvl];
    InsertedHeights(all, links, all', links', node, pos, preds, h);
    NextUnique(hs, pos, lvl, NextAt(hs, p + 1, lvl));
    NextBehind(hs, Heights(links'), pos, h, pos, lvl);
    assert links[p][lvl] == LinkTo(all, NextAt(hs, p + 1, lvl));
  }

  lemma LinkBehind(all: seq<SkipNode>, links: seq<seq<SkipNode?>>, all': seq<SkipNode>, links': seq<seq<SkipNode?>>,
                   node: SkipNode, pos: nat, preds: seq<nat>, h: nat, i: nat, lvl: nat)
    requires Linked(all, links) && Inserted(all, links, all', links', node, pos, preds, h)
    requires pos < i < |all'| && lvl < |links'[i]|
    ensures links'[i][lvl] == LinkTo(all', NextAt(Heights(links'), i + 1, lvl))
  {
    hide NextAt, Heights, Redirected;
    InsertedHeights(all, links, all', links', node, pos, preds, h);
    NextBehind(Heights(links), Heights(links'), pos, h, i, lvl);
    assert links'[i] == links[i - 1];
    assert links[i - 1][lvl] == LinkTo(all, NextAt(Heights(links), i, lvl));
  }

  lemma LinkBefore(all: seq<SkipNode>, links: seq<seq<SkipNode?>>, all': seq<SkipNode>, links': seq<seq<SkipNode?>>,
                   node: SkipNode, pos: nat, preds: seq<nat>, h: nat, i: nat, lvl: nat)
    requires Linked(all, links) && Inserted(all, links, all', links', node, pos, preds, h)
    requires i < pos && lvl < |links[i]|
    ensures lvl < |links'[i]| && links'[i][lvl] == LinkTo(all', NextAt(Heights(links'), i + 1, lvl))
  {
    hide NextAt, Heights, Linked, Inserted, Redirected, Widened, LinkTo;
    var hs, hs' := Heights(links), Heights(links');
    InsertedHeights(all, links, all', links', node, pos, preds, h);
    InsertedBefore(all, links, all', links', node, pos, preds, h, i, lvl);
    LinkedAt(all, links, i, lvl);
    NextMoved(hs, hs', pos, h, i + 1, lvl);
    LinkMoved(all, all', pos, node, NextAt(hs, i + 1, lvl));
    if lvl < h {
      OnePredecessor(hs, pos, preds[lvl], i, lvl);
    }
  }

  /** What inserting does to one link of a node before the new one. */
  lemma InsertedBefore(all: seq<SkipNode>, links: seq<seq<SkipNode?>>, all': seq<SkipNode>, links': seq<seq<SkipNode?>>,
                       node: SkipNode, pos: nat, preds: seq<nat>, h: nat, i: nat, lvl: nat)
    requires Inserted(all, links, all', links', node, pos, preds, h) && i < pos && lvl < |links[i]|
    ensures |links| == |all| && pos <= |all| && h <= |preds| && i < |links'| && lvl < |links'[i]| && Widened(all, all', pos, node)
    ensures links'[i][lvl] == if lvl < h && preds[lvl] == i then node else links[i][lvl]
    ensures lvl < h ==> preds[lvl] < pos && Heights(links)[preds[lvl]] > lvl && NextAt(Heights(links), preds[lvl] + 1, lvl) >= pos
  {
    hide NextAt;
    assert Redirected(links[i], links'[i], i, preds, h, node);
  }

  /** The next tall node from an index before the new one. */
  lemma NextMoved(hs: seq<nat>, hs': seq<nat>, pos: nat, h: nat, i: nat, lvl: nat)
    requires Widened(hs, hs', pos, h) && i <= pos
    ensures var j := NextAt(hs, i, lvl);
            NextAt(hs', i, lvl) == if j < pos then j else if h > lvl then pos else j + 1
  {
    hide NextAt;
    if NextAt(hs, i, lvl) < pos {
      NextAhead(hs, hs', pos, h, i, lvl);
    } else {
      NextAcross(hs, hs', pos, h, i, lvl);
    }
  }

  /** Links by index, in the old list and in the new. */
  lemma LinkMoved(all: seq<SkipNode>, all': seq<SkipNode>, pos: nat, node: SkipNode, j: nat)
    requires Widened(all, all', pos, node)
    ensures LinkTo(all', pos) == node
    ensures LinkTo(all, j) == LinkTo(all', if j < pos then j else j + 1)
  {
  }

  /** Only one tall node sees `pos` or something behind it next. */
  lemma OnePredecessor(hs: seq<nat>, pos: nat, p: nat, i: nat, lvl: nat)
    requires p < pos <= |hs| && i < pos && hs[p] > lvl && hs[i] > lvl && NextAt(hs, p + 1, lvl) >= pos
    ensures NextAt(hs, i + 1, lvl) >= pos <==> i == p
  {
    var j := NextAt(hs, i + 1, lvl);
    assert i < p ==> j <= p;
  }

  /** Splicing at the predecessors keeps every level a chain of its tall nodes. */
  lemma InsertKeepsLinks(all: seq<SkipNode>, links: seq<seq<SkipNode?>>, all': seq<SkipNode>, links': seq<seq<SkipNode?>>,
                         node: SkipNode, pos: nat, preds: seq<nat>, h: nat)
    requires Linked(all, links) && Inserted(all, links, all', links', node, pos, preds, h)
    ensures Linked(all', links')
  {
    hide NextAt, Heights, Inserted;
    assert |links'| == |all'| && forall i :: 0 <= i < pos ==> |links'[i]| == |links[i]| by {
      InsertedShape(all, links, all', links', node, pos, preds, h);
    }
    forall i, lvl | 0 <= i < |all'| && 0 <= lvl < |links'[i]|
      ensures links'[i][lvl] == LinkTo(all', NextAt(Heights(links'), i + 1, lvl))
    {
      InsertedShape(all, links, all', links', node, pos, preds, h);
      if i == pos {
        LinkOfNew(all, links, all', links', node, pos, preds, h, lvl);
      } else if i > pos {
        LinkBehind(all, links, all', links', node, pos, preds, h, i, lvl);
      } else {
        LinkBefore(all, links, all', links', node, pos, preds, h, i, lvl);
      }
    }
  }

  lemma InsertedShape(all: seq<SkipNode>, links: seq<seq<SkipNode?>>, all': seq<SkipNode>, links': seq<seq<SkipNode?>>,
                      node: SkipNode, pos: nat, preds: seq<nat>, h: nat)
    requires Inserted(all, links, all', links', node, pos, preds, h)
    ensures 1 <= pos <= |all| == |links| && |links'| == |all'| == |all| + 1 && |links'[pos]| == h
    ensures forall i :: 0 <= i < pos ==> |links'[i]| == |links[i]|
  {
    hide NextAt;
    forall i | 0 <= i < pos
      ensures |links'[i]| == |links[i]|
    {
      assert Redirected(links[i], links'[i], i, preds, h, node);
    }
  }

  // ---- the structure ----

  /** The bytes a record counts for: key, value and a flat overhead. */
  function Weight(r: Rec): nat {
    |r.key| + |r.val| + 16
  }

  ghost function Weights(rs: seq<Rec>): nat {
    if rs == [] then 0 else Weight(rs[0]) + Weights(rs[1..])
  }

  ghost function LinksOf(all: seq<SkipNode>): (links: seq<seq<SkipNode?>>)
    reads all
    ensures |links| == |all| && forall i :: 0 <= i < |all| ==> links[i] == all[i].next
  {
    seq(|all|, i requires 0 <= i < |all| reads all => all[i].next)
  }

  /** The records behind the head, in order. */
  ghost function RecsOf(all: seq<SkipNode>): (rs: seq<Rec>)
    requires all != []
    reads all
    ensures |rs| == |all| - 1 && forall i :: 0 <= i < |rs| ==> rs[i] == all[i + 1].Content()
  {
    seq(|all| - 1, i requires 0 <= i < |all| - 1 reads all => all[i + 1].Content())
  }

  ghost predicate GoodLinks(all: seq<SkipNode>, links: seq<seq<SkipNode?>>) {
    && all != [] && Distinct(all) && KeysAscend(all)
    && |links| == |all| && |links[0]| == MAX_HEIGHT
    && (forall i :: 0 < i < |all| ==> 1 <= |links[i]| <= MAX_HEIGHT)
    && Linked(all, links)
  }

  ghost predicate GoodList(all: seq<SkipNode>)
    reads all
  {
    GoodLinks(all, LinksOf(all))
  }

  class Memtable {
    const head: SkipNode
    var size: int
    var n: nat
    ghost var all: seq<SkipNode>

    ghost predicate Valid()
      reads this, all
    {
      && GoodList(all) && all[0] == head
      && n == |all| - 1 && size == Weights(Recs())
    }

    ghost function Recs(): seq<Rec>
      reads this, all
      requires all != []
    {
      RecsOf(all)
    }

    constructor ()
      ensures Valid() && fresh(all) && Recs() == []
    {
      head := new SkipNode(Rec([], [], false), seq(MAX_HEIGHT, i => null));
      size, n := 0, 0;
      all := [head];
    }

    /** The walk from the top level down. `prev[lvl]` is the last node of level `lvl` before
        `key`; no link is read at a level its node does not have. */
    method Walk(key: Bytes) returns (prev: seq<SkipNode>, ghost preds: seq<nat>)
      requires Valid()
      ensures |prev| == |preds| == MAX_HEIGHT
      ensures forall lvl :: 0 <= lvl < MAX_HEIGHT ==>
                Predecessor(all, Heights(LinksOf(all)), preds[lvl], lvl, key) && prev[lvl] == all[preds[lvl]]
    {
      ghost var hs := Heights(LinksOf(all));
      var x := head;
      ghost var at: nat := 0;
      prev, preds := seq(MAX_HEIGHT, i => head), seq(MAX_HEIGHT, i => 0);
      var lvl := MAX_HEIGHT;
      while lvl > 0
        invariant 0 <= lvl <= MAX_HEIGHT && |prev| == |preds| == MAX_HEIGHT
        invariant at < |all| && all[at] == x && (lvl > 0 ==> hs[at] >= lvl) && Before(all, at, key)
        invariant forall l :: lvl <= l < MAX_HEIGHT ==>
                    Predecessor(all, hs, preds[l], l, key) && prev[l] == all[preds[l]]
      {
        lvl := lvl - 1;
        x, at := WalkLevel(x, at, lvl, key);
        prev, preds := prev[lvl := x], preds[lvl := at];
      }
    }

    method WalkLevel(start: SkipNode, ghost from: nat, lvl: nat, key: Bytes) returns (x: SkipNode, ghost at: nat)
      requires Valid() && from < |all| && all[from] == start && |start.next| > lvl && Before(all, from, key)
      ensures Predecessor(all, Heights(LinksOf(all)), at, lvl, key) && all[at] == x
    {
      ghost var links, hs := LinksOf(all), Heights(LinksOf(all));
      x, at := start, from;
      while x.next[lvl] != null && Less(x.next[lvl].key, key)
        invariant at < |all| && all[at] == x && hs[at] > lvl && Before(all, at, key)
        decreases |all| - at
      {
        assert links[at][lvl] == LinkTo(all, NextAt(hs, at + 1, lvl));
        x, at := x.next[lvl], NextAt(hs, at + 1, lvl);
      }
      assert links[at][lvl] == LinkTo(all, NextAt(hs, at + 1, lvl));
      PredecessorFound(all, hs, at, lvl, key);
    }

    /** Redirects the links at the predecessors, level by level. */
    method Splice(node: SkipNode, prev: seq<SkipNode>, ghost preds: seq<nat>, h: nat)
      requires all != [] && Distinct(all) && node !in all
      requires h <= |prev| == |preds| && |node.next| == h
      requires forall l :: 0 <= l < h ==> preds[l] < |all| && prev[l] == all[preds[l]] && l < |prev[l].next|
      modifies node`next, all`next
      ensures Spliced(old(LinksOf(all)), LinksOf(all), node.next, preds, h, node)
    {
      var lvl := 0;
      while lvl < h
        invariant lvl <= h && |node.next| == h
        invariant forall l :: 0 <= l < lvl ==> node.next[l] == old(prev[l].next[l])
        invariant forall i :: 0 <= i < |all| ==> Redirected(old(all[i].next), all[i].next, i, preds, lvl, node)
      {
        assert Redirected(old(all[preds[lvl]].next), all[preds[lvl]].next, preds[lvl], preds, lvl, node);
        node.next := node.next[lvl := prev[lvl].next[lvl]];
        prev[lvl].next := prev[lvl].next[lvl := node];
        lvl := lvl + 1;
      }
    }

    /** The same walk where only the last node before `key` matters. */
    method Descend(key: Bytes) returns (x: SkipNode, ghost at: nat)
      requires Valid()
      ensures at < |all| && x == all[at] && Sorted(Recs()) && Splits(Recs(), key, at)
      ensures |x.next| > 0 && x.next[0] == LinkTo(all, at + 1)
    {
      hide Linked, Distinct, KeysAscend, NextAt, Weights, RecsOf, Sorted, Splits, Predecessor, LinksOf;
      x, at := head, 0;
      var lvl := MAX_HEIGHT;
      while lvl > 0
        invariant 0 <= lvl <= MAX_HEIGHT
        invariant at < |all| && all[at] == x && (lvl > 0 ==> |x.next| >= lvl) && Before(all, at, key)
        invariant lvl == 0 ==> Predecessor(all, Heights(LinksOf(all)), at, 0, key)
      {
        lvl := lvl - 1;
        x, at := WalkLevel(x, at, lvl, key);
      }
      SuccessorOf(all, LinksOf(all), at, key, Recs());
    }

    /** What the memtable holds under a key. */
    method Get(key: Bytes) returns (r: Option<Rec>)
      requires Valid()
      ensures r == Find(Recs(), key)
    {
      var x, at := Descend(key);
      FindAt(Recs(), key, at);
      var cand := x.next[0];
      if cand != null && cand.key == key {
        return Some(Rec(cand.key, cand.val, cand.tomb));
      }
      return None;
    }

    /** An iterator at the first record at or after `from`. */
    method IterFrom(from: Bytes) returns (it: MemIter)
      requires Valid()
      ensures fresh(it) && it.Over(this) && it.Rest() == From(Recs(), from)
    {
      var x, at := Descend(from);
      FromAt(Recs(), from, at);
      it := new MemIter(x.next[0], this, at);
    }

    /** Adds a record, or updates in place the one of the same key. The height of a new
        node is any height the coin tosses may give. */
    method Put(r: Rec, h: nat)
      requires Valid() && 1 <= h <= MAX_HEIGHT
      modifies this, all
      ensures Valid() && forall x :: x in all ==> x in old(all) || fresh(x)
      ensures Recs() == Upsert(old(Recs()), r)
    {
      var prev, preds := Walk(r.key);
      ghost var rs, at := Recs(), preds[0];
      SuccessorOf(all, LinksOf(all), at, r.key, rs);
      UpsertAt(rs, r, at);
      var cand := prev[0].next[0];
      if cand != null && cand.key == r.key {
        Overwrite(cand, at, r);
      } else {
        Insert(r, h, prev, preds);
        WidenedRecs(rs, Recs(), at, r);
      }
    }

    method Overwrite(cand: SkipNode, ghost at: nat, r: Rec)
      requires Valid() && at + 1 < |all| && all[at + 1] == cand && cand.key == r.key
      modifies this`size, cand`val, cand`tomb
      ensures Valid() && all == old(all) && Recs() == old(Recs())[at := r]
    {
      hide Linked, KeysAscend, LinksOf, RecsOf, Weights;
      ghost var rs, links := RecsOf(all), LinksOf(all);
      Shown(all, links, rs);
      size := size + |r.val| - |cand.val|;
      cand.val, cand.tomb := r.val, r.tomb;
      WeightsUpdate(rs, at, r);
      assert forall j :: 0 <= j < |rs| && j != at ==> all[j + 1].Content() == rs[j];
      Overwritten(all, links, rs, at, r);
    }

    method Insert(r: Rec, h: nat, prev: seq<SkipNode>, ghost preds: seq<nat>)
      requires Valid() && 1 <= h <= MAX_HEIGHT && |prev| == |preds| == MAX_HEIGHT
      requires forall l :: 0 <= l < MAX_HEIGHT ==>
                 Predecessor(all, Heights(LinksOf(all)), preds[l], l, r.key) && prev[l] == all[preds[l]]
      requires preds[0] + 1 < |all| ==> all[preds[0] + 1].key != r.key
      modifies this, all
      ensures Valid() && forall x :: x in all ==> x in old(all) || fresh(x)
      ensures Widened(old(Recs()), Recs(), preds[0], r)
    {
      hide Places, Linked, Distinct, Heights, Widened, NextAt, LinksOf, RecsOf, Weights, Predecessor, KeysAscend;
      ghost var rs := Recs();
      InsertPlaces(all, Heights(LinksOf(all)), preds, r.key);
      hide GoodList, GoodLinks;
      Attach(r, h, prev, preds);
      WidenedWeights(rs, Recs(), preds[0], r);
      size := size + |r.key| + |r.val| + 16;
      n := n + 1;
    }

    /** Makes the node and links it in. */
    method Attach(r: Rec, h: nat, prev: seq<SkipNode>, ghost preds: seq<nat>)
      requires GoodList(all) && 1 <= h <= MAX_HEIGHT && |prev| == |preds| == MAX_HEIGHT
      requires Places(all, Heights(LinksOf(all)), preds, r.key)
      requires forall l :: 0 <= l < MAX_HEIGHT ==> prev[l] == all[preds[l]]
      modifies this`all, all`next
      ensures GoodList(all) && all[0] == old(all)[0] && |all| == old(|all|) + 1
      ensures forall x :: x in all ==> x in old(all) || fresh(x)
      ensures Widened(old(RecsOf(all)), RecsOf(all), preds[0], r)
    {
      hide Linked, KeysAscend, NextAt, Places, Heights, LinksOf, RecsOf, Distinct, Spliced, GoodLinks;
      ghost var links := LinksOf(all);
      assert GoodLinks(all, links);
      Levels(all, links, preds, r.key, h);
      ghost var before, rs := all, RecsOf(all);
      var node := Weave(r, prev, preds, h);
      all := Widen(before, preds[0] + 1, node);
      Absorbed(before, links, all, node, preds, h, r);
      assert RecsOf(before) == rs;
    }

    /** A new node, linked behind its predecessors. */
    method Weave(r: Rec, prev: seq<SkipNode>, ghost preds: seq<nat>, h: nat) returns (node: SkipNode)
      requires all != [] && Distinct(all) && h <= |prev| == |preds|
      requires forall l :: 0 <= l < h ==> preds[l] < |all| && prev[l] == all[preds[l]] && l < |prev[l].next|
      modifies all`next
      ensures fresh(node) && node !in all && node.Content() == r
      ensures RecsOf(all) == old(RecsOf(all))
      ensures Spliced(old(LinksOf(all)), LinksOf(all), node.next, preds, h, node)
    {
      hide Distinct, Spliced;
      node := new SkipNode(r, seq(h, _ => null));
      ghost var links := LinksOf(all);
      assert links == old(LinksOf(all));
      Splice(node, prev, preds, h);
      assert RecsOf(all) == old(RecsOf(all));
    }
  }

  /** Hands out the records of a memtable that nobody writes to meanwhile. */
  class MemIter {
    var node: SkipNode?
    ghost const table: Memtable
    ghost var at: nat

    ghost predicate Over(m: Memtable)
      reads this, m, m.all
    {
      && m == table && m.Valid() && at <= |m.Recs()|
      && node == LinkTo(m.all, at + 1)
    }

    ghost function Rest(): seq<Rec>
      reads this, table, table.all
      requires Over(table)
    {
      table.Recs()[at..]
    }

    constructor (node: SkipNode?, ghost table: Memtable, ghost at: nat)
      ensures this.node == node && this.table == table && this.at == at
    {
      this.node, this.table, this.at := node, table, at;
    }

    method Next() returns (r: Option<Rec>)
      requires Over(table)
      modifies this
      ensures Over(table) && r == if old(Rest()) == [] then None else Some(old(Rest())[0])
      ensures Rest() == if old(Rest()) == [] then [] else old(Rest())[1..]
    {
      hide GoodLinks, LinksOf, Weights;
      if node == null {
        return None;
      }
      r := Some(Rec(node.key, node.val, node.tomb));
      NextOnGround(table.all, LinksOf(table.all), at + 1);
      node, at := node.next[0], at + 1;
    }
  }

  lemma RecsSorted(m: Memtable)
    requires m.Valid()
    ensures Sorted(m.Recs())
  {
  }

  /** Everything an iterator from `from` hands out. */
  method Drain(m: Memtable, from: Bytes) returns (rs: seq<Rec>)
    requires m.Valid()
    ensures rs == From(m.Recs(), from)
  {
    hide Memtable.Valid, MemIter.Over, RecsOf, From, LinkTo;
    var it := m.IterFrom(from);
    rs := [];
    ghost var left, all := it.Rest(), it.Rest();
    while true
      invariant it.Over(m) && it.table == m && left == it.Rest() && rs + left == all
      decreases |left|
    {
      var r := it.Next();
      if r.None? {
        return;
      }
      HandOver(rs, left);
      rs, left := rs + [r.value], left[1..];
    }
  }

  /** On level 0 every node links to the one behind it. */
  lemma NextOnGround(all: seq<SkipNode>, links: seq<seq<SkipNode?>>, i: nat)
    requires GoodLinks(all, links) && i < |all|
    ensures |links[i]| > 0 && links[i][0] == LinkTo(all, i + 1)
  {
    assert links[i][0] == LinkTo(all, NextAt(Heights(links), i + 1, 0));
    NextUnique(Heights(links), i + 1, 0, i + 1);
  }

  // ---- the levels ----

  /** The nodes of a list that belong to level `lvl`. */
  ghost function OnLevel(ns: seq<SkipNode>, lvl: nat): (level: seq<SkipNode>)
    reads ns
    ensures forall x :: x in level ==> x in ns && |x.next| > lvl
  {
    if ns == [] then []
    else if |ns[0].next| > lvl then [ns[0]] + OnLevel(ns[1..], lvl)
    else OnLevel(ns[1..], lvl)
  }

  /** Following the links of level `lvl` visits exactly these nodes. */
  ghost predicate Chain(level: seq<SkipNode>, lvl: nat)
    reads level
  {
    forall k :: 0 <= k < |level| ==> |level[k].next| > lvl && level[k].next[lvl] == LinkTo(level, k + 1)
  }

  /** The first node of a level from index `i` on. */
  lemma {:induction false} LevelStarts(all: seq<SkipNode>, i: nat, lvl: nat)
    requires i <= |all|
    ensures LinkTo(OnLevel(all[i..], lvl), 0) == LinkTo(all, NextAt(Heights(LinksOf(all)), i, lvl))
    decreases |all| - i
  {
    if i < |all| {
      assert all[i..][1..] == all[i + 1..];
      LevelStarts(all, i + 1, lvl);
    }
  }

  lemma NoChain(lvl: nat)
    ensures Chain([], lvl)
  {
  }

  lemma ChainGrows(x: SkipNode, rest: seq<SkipNode>, lvl: nat)
    requires Chain(rest, lvl) && |x.next| > lvl && x.next[lvl] == LinkTo(rest, 0)
    ensures Chain([x] + rest, lvl)
  {
    var level := [x] + rest;
    forall k | 0 <= k < |level|
      ensures |level[k].next| > lvl && level[k].next[lvl] == LinkTo(level, k + 1)
    {
      assert k > 0 ==> level[k] == rest[k - 1];
    }
  }

  lemma {:induction false} LevelIsChain(all: seq<SkipNode>, i: nat, lvl: nat)
    requires i <= |all| && Linked(all, LinksOf(all))
    ensures Chain(OnLevel(all[i..], lvl), lvl)
    decreases |all| - i
  {
    hide Linked, Chain, Heights, NextAt;
    if i == |all| {
      assert Chain([], lvl) by { NoChain(lvl); }
    } else {
      var level, rest := OnLevel(all[i..], lvl), OnLevel(all[i + 1..], lvl);
      assert all[i..][1..] == all[i + 1..];
      LevelIsChain(all, i + 1, lvl);
      LevelStarts(all, i + 1, lvl);
      if |all[i].next| > lvl {
        assert level == [all[i]] + rest;
        LinkedAt(all, LinksOf(all), i, lvl);
        ChainGrows(all[i], rest, lvl);
      }
    }
  }

  lemma LinkedAt(all: seq<SkipNode>, links: seq<seq<SkipNode?>>, i: nat, lvl: nat)
    requires Linked(all, links) && i < |all| && lvl < |links[i]|
    ensures links[i][lvl] == LinkTo(all, NextAt(Heights(links), i + 1, lvl))
  {
  }

  lemma {:induction false} LevelOfLevel(ns: seq<SkipNode>, lvl: nat)
    ensures OnLevel(OnLevel(ns, lvl), lvl + 1) == OnLevel(ns, lvl + 1)
  {
    if ns != [] {
      LevelOfLevel(ns[1..], lvl);
      if |ns[0].next| > lvl {
        assert ([ns[0]] + OnLevel(ns[1..], lvl))[1..] == OnLevel(ns[1..], lvl);
      }
    }
  }

  lemma {:induction false} AllOnGround(ns: seq<SkipNode>)
    requires forall x :: x in ns ==> |x.next| > 0
    ensures OnLevel(ns, 0) == ns
  {
    if ns != [] {
      AllOnGround(ns[1..]);
      assert ns == [ns[0]] + ns[1..];
    }
  }

  /** The shape of a skip list: each level starts at the head, is exactly the chain its
      links make and a sublist of the level below, and level 0 holds every record, in
      strict key order. */
  lemma LevelsNest(m: Memtable, lvl: nat)
    requires m.Valid() && lvl < MAX_HEIGHT
    ensures Chain(OnLevel(m.all, lvl), lvl) && m.head in OnLevel(m.all, lvl) && OnLevel(m.all, lvl)[0] == m.head
    ensures OnLevel(m.all, lvl + 1) == OnLevel(OnLevel(m.all, lvl), lvl + 1)
    ensures OnLevel(m.all, 0) == m.all && RecsOf(m.all) == m.Recs() && Sorted(m.Recs())
  {
    hide Linked, Distinct;
    assert m.all[0..] == m.all;
    LevelIsChain(m.all, 0, lvl);
    LevelOfLevel(m.all, lvl);
    AllOnGround(m.all);
  }

  lemma Shown(all: seq<SkipNode>, links: seq<seq<SkipNode?>>, rs: seq<Rec>)
    requires all != [] && links == LinksOf(all) && rs == RecsOf(all)
    ensures |links| == |all| == |rs| + 1
    ensures forall i :: 0 <= i < |all| ==> links[i] == all[i].next
    ensures forall i :: 0 <= i < |rs| ==> rs[i] == all[i + 1].Content()
  {
  }

  /** The list with one record changed in place. */
  lemma Overwritten(all: seq<SkipNode>, links: seq<seq<SkipNode?>>, rs: seq<Rec>, at: nat, r: Rec)
    requires all != [] && |links| == |all| == |rs| + 1 && at < |rs|
    requires forall i :: 0 <= i < |all| ==> links[i] == all[i].next
    requires forall i :: 0 <= i < |rs| && i != at ==> all[i + 1].Content() == rs[i]
    requires all[at + 1].Content() == r
    ensures LinksOf(all) == links && RecsOf(all) == rs[at := r]
  {
  }

  /** The woven list, seen whole. */
  lemma Absorbed(before: seq<SkipNode>, links: seq<seq<SkipNode?>>, all: seq<SkipNode>, node: SkipNode, preds: seq<nat>, h: nat, r: Rec)
    requires GoodLinks(before, links) && node !in before && |preds| == MAX_HEIGHT && 1 <= h <= MAX_HEIGHT
    requires Places(before, Heights(links), preds, r.key) && node.Content() == r
    requires Spliced(links, LinksOf(before), node.next, preds, h, node)
    requires preds[0] < |before| && Widened(before, all, preds[0] + 1, node)
    ensures GoodList(all) && all[0] == before[0] && |all| == |before| + 1
    ensures Widened(RecsOf(before), RecsOf(all), preds[0], r)
  {
    hide Linked, Distinct, KeysAscend, Heights, NextAt, Inserted, Redirected, Places, Spliced;
    var pos, mid := preds[0] + 1, LinksOf(before);
    assert |mid| == |before|;
    WidenedLinks(before, all, node, pos);
    InsertedLinks(before, links, mid, node.next, all, LinksOf(all), node, preds, h, r.key);
    AttachKeepsList(before, links, all, LinksOf(all), node, preds, h);
  }

  lemma WidenedLinks(before: seq<SkipNode>, all: seq<SkipNode>, node: SkipNode, pos: nat)
    requires Widened(before, all, pos, node) && 1 <= pos && before != []
    ensures Widened(LinksOf(before), LinksOf(all), pos, node.next)
    ensures Widened(RecsOf(before), RecsOf(all), pos - 1, node.Content())
  {
  }

  lemma Levels(all: seq<SkipNode>, links: seq<seq<SkipNode?>>, preds: seq<nat>, key: Bytes, h: nat)
    requires GoodLinks(all, links) && |preds| == MAX_HEIGHT && 1 <= h <= MAX_HEIGHT && Places(all, Heights(links), preds, key)
    ensures all != [] && Distinct(all) && |links| == |all| && preds[0] < |all|
    ensures forall l :: 0 <= l < h ==> preds[l] < |all| && l < |links[preds[l]]|
  {
  }

  /** The link of the level-0 predecessor leads to the record at its place, if any. */
  lemma SuccessorOf(all: seq<SkipNode>, links: seq<seq<SkipNode?>>, at: nat, key: Bytes, rs: seq<Rec>)
    requires all != [] && KeysAscend(all) && Linked(all, links) && Predecessor(all, Heights(links), at, 0, key)
    requires forall j :: 0 < j < |all| ==> |links[j]| >= 1
    requires |rs| == |all| - 1 && forall j :: 0 <= j < |rs| ==> rs[j].key == all[j + 1].key
    ensures Sorted(rs) && Splits(rs, key, at)
    ensures links[at][0] == if at < |rs| then all[at + 1] else null
  {
    var hs := Heights(links);
    PredecessorSplits(all, hs, at, key, rs);
    assert links[at][0] == LinkTo(all, NextAt(hs, at + 1, 0));
    NextUnique(hs, at + 1, 0, at + 1);
  }

  lemma {:induction false} WeightsUpdate(rs: seq<Rec>, i: nat, r: Rec)
    requires i < |rs|
    ensures Weights(rs[i := r]) == Weights(rs) - Weight(rs[i]) + Weight(r)
  {
    if i == 0 {
      assert rs[i := r][1..] == rs[1..];
    } else {
      WeightsUpdate(rs[1..], i - 1, r);
      assert rs[i := r][1..] == rs[1..][i - 1 := r];
    }
  }

  lemma {:induction false} WeightsInsert(rs: seq<Rec>, i: nat, r: Rec)
    requires i <= |rs|
    ensures Weights(rs[..i] + [r] + rs[i..]) == Weights(rs) + Weight(r)
  {
    var more := rs[..i] + [r] + rs[i..];
    if i == 0 {
      assert more[1..] == rs;
    } else {
      WeightsInsert(rs[1..], i - 1, r);
      assert more[1..] == rs[1..][..i - 1] + [r] + rs[1..][i - 1..];
    }
  }

  lemma WidenedWeights(rs: seq<Rec>, rs': seq<Rec>, i: nat, r: Rec)
    requires Widened(rs, rs', i, r)
    ensures Weights(rs') == Weights(rs) + Weight(r)
  {
    WidenedRecs(rs, rs', i, r);
    WeightsInsert(rs, i, r);
  }

  lemma WidenedRecs(rs: seq<Rec>, rs': seq<Rec>, i: nat, r: Rec)
    requires Widened(rs, rs', i, r)
    ensures rs' == rs[..i] + [r] + rs[i..]
  {
  }

  /** Where the predecessors of a key stand, and that the key fits right behind the lowest. */
  ghost predicate Places(all: seq<SkipNode>, hs: seq<nat>, preds: seq<nat>, key: Bytes)
    requires |preds| == MAX_HEIGHT && |hs| == |all|
  {
    && preds[0] < |all|
    && (forall l :: 0 <= l < MAX_HEIGHT ==>
          preds[l] <= preds[0] && hs[preds[l]] > l && NextAt(hs, preds[l] + 1, l) > preds[0])
    && (forall i :: 1 <= i <= preds[0] ==> Less(all[i].key, key))
    && (forall i :: preds[0] < i < |all| ==> Less(key, all[i].key))
  }

  lemma InsertPlaces(all: seq<SkipNode>, hs: seq<nat>, preds: seq<nat>, key: Bytes)
    requires |preds| == MAX_HEIGHT && |hs| == |all| && KeysAscend(all)
    requires forall i :: 0 <= i < |all| ==> hs[i] >= 1
    requires forall l :: 0 <= l < MAX_HEIGHT ==> Predecessor(all, hs, preds[l], l, key)
    requires preds[0] + 1 < |all| ==> all[preds[0] + 1].key != key
    ensures Places(all, hs, preds, key)
  {
    var p := preds[0];
    assert Predecessor(all, hs, p, 0, key);
    forall i | 1 <= i <= p
      ensures Less(all[i].key, key)
    {
      if i < p { LessTransitive(all[i].key, all[p].key, key); }
    }
    forall i | p < i < |all|
      ensures Less(key, all[i].key)
    {
      LessTotal(all[p + 1].key, key);
      if i > p + 1 { LessTransitive(key, all[p + 1].key, all[i].key); }
    }
    forall l | 0 <= l < MAX_HEIGHT
      ensures preds[l] <= p && hs[preds[l]] > l && NextAt(hs, preds[l] + 1, l) > p
    {
      assert Predecessor(all, hs, preds[l], l, key);
    }
  }

  lemma InsertedLinks(all: seq<SkipNode>, links: seq<seq<SkipNode?>>, mid: seq<seq<SkipNode?>>, own: seq<SkipNode?>,
                      all': seq<SkipNode>, links': seq<seq<SkipNode?>>, node: SkipNode, preds: seq<nat>, h: nat, key: Bytes)
    requires |links| == |all| && |preds| == MAX_HEIGHT && h <= MAX_HEIGHT
    requires Places(all, Heights(links), preds, key) && Spliced(links, mid, own, preds, h, node)
    requires Widened(all, all', preds[0] + 1, node) && Widened(mid, links', preds[0] + 1, own)
    ensures Inserted(all, links, all', links', node, preds[0] + 1, preds, h)
  {
    hide NextAt;
    var pos := preds[0] + 1;
    forall i | pos < i < |all'|
      ensures links'[i] == links[i - 1]
    {
      assert links'[i] == mid[i - 1];
      assert Redirected(links[i - 1], mid[i - 1], i - 1, preds, h, node);
    }
    forall i | 0 <= i < pos
      ensures Redirected(links[i], links'[i], i, preds, h, node)
    {
      assert links'[i] == mid[i];
    }
  }

  lemma AttachKeepsList(all: seq<SkipNode>, links: seq<seq<SkipNode?>>, all': seq<SkipNode>, links': seq<seq<SkipNode?>>,
                        node: SkipNode, preds: seq<nat>, h: nat)
    requires |preds| == MAX_HEIGHT && |links| == |all|
    requires Linked(all, links) && Inserted(all, links, all', links', node, preds[0] + 1, preds, h)
    requires Distinct(all) && KeysAscend(all) && node !in all && Places(all, Heights(links), preds, node.key)
    ensures Distinct(all') && KeysAscend(all') && Linked(all', links')
    ensures forall i :: 0 <= i <= preds[0] ==> |links'[i]| == |links[i]|
    ensures |links'[preds[0] + 1]| == h
    ensures forall i :: preds[0] + 1 < i < |all'| ==> links'[i] == links[i - 1]
  {
    hide NextAt, Linked;
    InsertKeepsLinks(all, links, all', links', node, preds[0] + 1, preds, h);
    InsertedShape(all, links, all', links', node, preds[0] + 1, preds, h);
    InsertKeepsKeys(all, all', preds[0] + 1, node);
  }

  lemma InsertKeepsKeys(all: seq<SkipNode>, all': seq<SkipNode>, pos: nat, node: SkipNode)
    requires Widened(all, all', pos, node) && KeysAscend(all) && Distinct(all) && node !in all && 1 <= pos
    requires forall i :: 1 <= i < pos ==> Less(all[i].key, node.key)
    requires forall i :: pos <= i < |all| ==> Less(node.key, all[i].key)
    ensures KeysAscend(all') && Distinct(all')
  {
    forall i, j | 1 <= i < j < |all'|
      ensures Less(all'[i].key, all'[j].key)
    {
      assert i > pos ==> all'[i] == all[i - 1];
      assert j > pos ==> all'[j] == all[j - 1];
    }
    forall i, j | 0 <= i < j < |all'|
      ensures all'[i] != all'[j]
    {
      assert i > pos ==> all'[i] == all[i - 1];
      assert j > pos ==> all'[j] == all[j - 1];
    }
  }

  /** The node before `key` on level 0 splits the records. */
  lemma PredecessorSplits(all: seq<SkipNode>, hs: seq<nat>, i: nat, key: Bytes, rs: seq<Rec>)
    requires all != [] && |hs| == |all| && KeysAscend(all) && Predecessor(all, hs, i, 0, key)
    requires forall j :: 0 < j < |all| ==> hs[j] >= 1
    requires |rs| == |all| - 1 && forall j :: 0 <= j < |rs| ==> rs[j].key == all[j + 1].key
    ensures Sorted(rs) && Splits(rs, key, i)
  {
    forall j | 0 <= j < i
      ensures Less(rs[j].key, key)
    {
      if j + 1 < i { LessTransitive(all[j + 1].key, all[i].key, key); }
    }
  }
}
