/** Saving and loading the nodes of an authenticated tree, keyed by their labels. */
module AvlTrees {
  type Label(==, !new)
  type Payload(==, !new)

  datatype Tree = Leaf(payload: Payload) | Inner(payload: Payload, left: Tree, right: Tree)

  /** A node as it is stored: children are named by label. */
  datatype Packed = PackedLeaf(payload: Payload) | PackedInner(payload: Payload, left: Label, right: Label)

  type Store = map<Label, Packed>

  function Pack(h: Packed -> Label, t: Tree): Packed
    decreases t, 0
  {
    match t
    case Leaf(p) => PackedLeaf(p)
    case Inner(p, l, r) => PackedInner(p, LabelOf(h, l), LabelOf(h, r))
  }

  function LabelOf(h: Packed -> Label, t: Tree): Label
    decreases t, 1
  {
    h(Pack(h, t))
  }

  function Size(t: Tree): (n: nat)
    ensures n > 0
  {
    match t
    case Leaf(_) => 1
    case Inner(_, l, r) => 1 + Size(l) + Size(r)
  }

  /** The store holds every node of the tree under its label. */
  predicate Stored(h: Packed -> Label, store: Store, t: Tree) {
    && LabelOf(h, t) in store && store[LabelOf(h, t)] == Pack(h, t)
    && (t.Inner? ==> Stored(h, store, t.left) && Stored(h, store, t.right))
  }

  /** A label stands for at most one stored tree, whatever the hash does. */
  lemma {:induction false} StoredUnique(h: Packed -> Label, store: Store, t: Tree, u: Tree)
    requires Stored(h, store, t) && Stored(h, store, u) && LabelOf(h, t) == LabelOf(h, u)
    ensures t == u
  {
    assert Pack(h, t) == Pack(h, u);
    if t.Inner? {
      StoredUnique(h, store, t.left, u.left);
      StoredUnique(h, store, t.right, u.right);
    }
  }
}

/** Loading: stubs are replaced in place until none is left. */
module AvlLoading {
  import opened AvlTrees
  import opened Prelude

  /** A node in memory. A stub knows only its label. */
  datatype Cell =
    | StubCell(key: Label)
    | LeafCell(key: Label, payload: Payload)
    | InnerCell(key: Label, payload: Payload, left: nat, right: nat)

  type Cells = map<nat, Cell>

  /** The node `id` stands for the tree `t`, parts of which may still be in the store only. */
  ghost predicate Rep(h: Packed -> Label, store: Store, cells: Cells, id: nat, t: Tree)
    decreases t
  {
    && id in cells && cells[id].key == LabelOf(h, t)
    && match cells[id]
       case StubCell(_) => Stored(h, store, t)
       case LeafCell(_, p) => t == Leaf(p)
       case InnerCell(_, p, l, r) =>
         t.Inner? && t.payload == p && Rep(h, store, cells, l, t.left) && Rep(h, store, cells, r, t.right)
  }

  /** The node `id` is exactly the tree `t`, with no stub anywhere below. */
  ghost predicate Loaded(cells: Cells, id: nat, t: Tree)
    decreases t
  {
    && id in cells
    && match cells[id]
       case StubCell(_) => false
       case LeafCell(_, p) => t == Leaf(p)
       case InnerCell(_, p, l, r) =>
         t.Inner? && t.payload == p && Loaded(cells, l, t.left) && Loaded(cells, r, t.right)
  }

  /** No stub is reachable from `id` except through a node still on the stack. */
  ghost predicate LoadedBut(cells: Cells, id: nat, t: Tree, stack: seq<nat>)
    decreases t
  {
    || id in stack
    || (&& id in cells
        && match cells[id]
           case StubCell(_) => false
           case LeafCell(_, p) => t.Leaf?
           case InnerCell(_, p, l, r) =>
             t.Inner? && LoadedBut(cells, l, t.left, stack) && LoadedBut(cells, r, t.right, stack))
  }

  lemma {:induction false} RepUnique(h: Packed -> Label, store: Store, cells: Cells, id: nat, t: Tree, u: Tree)
    requires Rep(h, store, cells, id, t) && Rep(h, store, cells, id, u)
    ensures t == u
    decreases t
  {
    match cells[id]
    case StubCell(_) => StoredUnique(h, store, t, u);
    case LeafCell(_, p) =>
    case InnerCell(_, p, l, r) =>
      RepUnique(h, store, cells, l, t.left, u.left);
      RepUnique(h, store, cells, r, t.right, u.right);
  }

  /** A node that is loaded shows one tree only. */
  lemma {:induction false} LoadedUnique(cells: Cells, id: nat, t: Tree, u: Tree)
    requires Loaded(cells, id, t) && Loaded(cells, id, u)
    ensures t == u
    decreases t
  {
    match cells[id]
    case LeafCell(_, p) =>
    case InnerCell(_, p, l, r) =>
      LoadedUnique(cells, l, t.left, u.left);
      LoadedUnique(cells, r, t.right, u.right);
  }

  predicate Grows(cells: Cells, more: Cells) {
    forall k :: k in cells ==> k in more && more[k] == cells[k]
  }

  lemma {:induction false} RepGrows(h: Packed -> Label, store: Store, cells: Cells, more: Cells, id: nat, t: Tree)
    requires Rep(h, store, cells, id, t) && Grows(cells, more)
    ensures Rep(h, store, more, id, t)
    decreases t
  {
    if cells[id].InnerCell? {
      RepGrows(h, store, cells, more, cells[id].left, t.left);
      RepGrows(h, store, cells, more, cells[id].right, t.right);
    }
  }

  lemma {:induction false} LoadedButGrows(cells: Cells, more: Cells, id: nat, t: Tree, stack: seq<nat>)
    requires LoadedBut(cells, id, t, stack) && Grows(cells, more)
    ensures LoadedBut(more, id, t, stack)
    decreases t
  {
    if id !in stack && cells[id].InnerCell? {
      LoadedButGrows(cells, more, cells[id].left, t.left, stack);
      LoadedButGrows(cells, more, cells[id].right, t.right, stack);
    }
  }

  /** The children of node `n` may be replaced by nodes that stand for the same trees. */
  ghost predicate Relinkable(h: Packed -> Label, store: Store, cells: Cells, n: nat, t: Tree, l: nat, r: nat) {
    && n in cells && cells[n].InnerCell? && t.Inner? && Rep(h, store, cells, n, t)
    && Rep(h, store, cells, l, t.left) && Rep(h, store, cells, r, t.right)
  }

  function Relink(cells: Cells, n: nat, l: nat, r: nat): Cells
    requires n in cells && cells[n].InnerCell?
  {
    cells[n := cells[n].(left := l, right := r)]
  }

  /** Relinking changes what no node stands for. */
  lemma {:induction false} RepRelinked(
      h: Packed -> Label, store: Store, cells: Cells, n: nat, tn: Tree, l: nat, r: nat, id: nat, t: Tree)
    requires Relinkable(h, store, cells, n, tn, l, r) && Rep(h, store, cells, id, t)
    ensures Rep(h, store, Relink(cells, n, l, r), id, t)
    decreases t
  {
    if id == n {
      RepUnique(h, store, cells, n, t, tn);
      RepRelinked(h, store, cells, n, tn, l, r, l, t.left);
      RepRelinked(h, store, cells, n, tn, l, r, r, t.right);
    } else if cells[id].InnerCell? {
      RepRelinked(h, store, cells, n, tn, l, r, cells[id].left, t.left);
      RepRelinked(h, store, cells, n, tn, l, r, cells[id].right, t.right);
    }
  }

  /** Handling the popped node `n`: it is no longer pending, its new children are. */
  lemma {:induction false} LoadedButRelinked(
      h: Packed -> Label, store: Store, cells: Cells, n: nat, tn: Tree, l: nat, r: nat, id: nat, t: Tree, stack: seq<nat>)
    requires Relinkable(h, store, cells, n, tn, l, r) && Rep(h, store, cells, id, t)
    requires LoadedBut(cells, id, t, stack + [n])
    ensures LoadedBut(Relink(cells, n, l, r), id, t, stack + [l, r])
    decreases t
  {
    if id == n {
      RepUnique(h, store, cells, n, t, tn);
      assert Relink(cells, n, l, r)[n] == cells[n].(left := l, right := r);
      assert LoadedBut(Relink(cells, n, l, r), l, t.left, stack + [l, r]) && LoadedBut(Relink(cells, n, l, r), r, t.right, stack + [l, r]);
    } else if id in stack {
      assert id in stack + [l, r];
    } else {
      assert id !in stack + [n] && Relink(cells, n, l, r)[id] == cells[id];
      if cells[id].InnerCell? {
        LoadedButRelinked(h, store, cells, n, tn, l, r, cells[id].left, t.left, stack);
        LoadedButRelinked(h, store, cells, n, tn, l, r, cells[id].right, t.right, stack);
      }
      assert LoadedBut(Relink(cells, n, l, r), id, t, stack + [l, r]);
    }
  }

  /** A popped leaf needs nothing more. */
  lemma {:induction false} LoadedButPopped(
      h: Packed -> Label, store: Store, cells: Cells, n: nat, id: nat, t: Tree, stack: seq<nat>)
    requires n in cells && cells[n].LeafCell? && Rep(h, store, cells, id, t) && LoadedBut(cells, id, t, stack + [n])
    ensures LoadedBut(cells, id, t, stack)
    decreases t
  {
    if id != n && id !in stack {
      assert id !in stack + [n];
      if cells[id].InnerCell? {
        LoadedButPopped(h, store, cells, n, cells[id].left, t.left, stack);
        LoadedButPopped(h, store, cells, n, cells[id].right, t.right, stack);
      }
    }
  }

  /** Nothing pending means fully loaded. */
  lemma {:induction false} NothingPending(h: Packed -> Label, store: Store, cells: Cells, id: nat, t: Tree)
    requires Rep(h, store, cells, id, t) && LoadedBut(cells, id, t, [])
    ensures Loaded(cells, id, t)
    decreases t
  {
    if cells[id].InnerCell? {
      NothingPending(h, store, cells, cells[id].left, t.left);
      NothingPending(h, store, cells, cells[id].right, t.right);
    }
  }

  ghost function TotalSize(trees: seq<Tree>): nat {
    if trees == [] then 0 else TotalSize(trees[..|trees| - 1]) + Size(trees[|trees| - 1])
  }

  /** Replacing the last tree by its two children makes the total smaller. */
  lemma TotalShrinks(rest: seq<Tree>, t: Tree)
    ensures TotalSize(rest) < TotalSize(rest + [t])
    ensures t.Inner? ==> TotalSize(rest + [t.left, t.right]) < TotalSize(rest + [t])
  {
    assert (rest + [t])[..|rest|] == rest;
    if t.Inner? {
      assert (rest + [t.left, t.right])[..|rest| + 1] == rest + [t.left];
      assert (rest + [t.left])[..|rest|] == rest;
    }
  }

  /** Every stacked node is in memory and stands for its tree. */
  ghost predicate Stacked(h: Packed -> Label, store: Store, cells: Cells, stack: seq<nat>, trees: seq<Tree>) {
    && |stack| == |trees|
    && forall i :: 0 <= i < |stack| ==> Rep(h, store, cells, stack[i], trees[i]) && !cells[stack[i]].StubCell?
  }

  lemma StackedGrows(h: Packed -> Label, store: Store, cells: Cells, more: Cells, stack: seq<nat>, trees: seq<Tree>)
    requires Stacked(h, store, cells, stack, trees) && Grows(cells, more)
    ensures Stacked(h, store, more, stack, trees)
  {
    forall i | 0 <= i < |stack| ensures Rep(h, store, more, stack[i], trees[i]) {
      RepGrows(h, store, cells, more, stack[i], trees[i]);
    }
  }

  lemma StackedRelinked(
      h: Packed -> Label, store: Store, cells: Cells, n: nat, t: Tree, l: nat, r: nat, stack: seq<nat>, trees: seq<Tree>)
    requires Relinkable(h, store, cells, n, t, l, r) && Stacked(h, store, cells, stack, trees)
    requires !cells[l].StubCell? && !cells[r].StubCell?
    ensures Stacked(h, store, Relink(cells, n, l, r), stack + [l, r], trees + [t.left, t.right])
  {
    var more, ids, ts := Relink(cells, n, l, r), stack + [l, r], trees + [t.left, t.right];
    forall i | 0 <= i < |ids| ensures Rep(h, store, more, ids[i], ts[i]) {
      RepRelinked(h, store, cells, n, t, l, r, ids[i], ts[i]);
    }
  }

  /** The nodes in memory, shared by reference and rewritten in place. */
  class Memory {
    const h: Packed -> Label
    var cells: Cells
    var next: nat

    ghost predicate Valid()
      reads this
    {
      forall k :: k in cells ==> k < next
    }

    constructor (h: Packed -> Label)
      ensures Valid() && cells == map[] && this.h == h
    {
      this.h, cells, next := h, map[], 0;
    }

    method Allocate(c: Cell) returns (id: nat)
      requires Valid()
      modifies this
      ensures Valid() && id !in old(cells) && cells == old(cells)[id := c]
    {
      id := next;
      cells := cells[id := c];
      next := next + 1;
    }

    /** Unpacking a stored node makes its children stubs. */
    method Unpack(store: Store, packed: Packed, ghost t: Tree) returns (id: nat)
      requires Valid() && packed == Pack(h, t) && Stored(h, store, t)
      modifies this
      ensures Valid() && Grows(old(cells), cells)
      ensures Rep(h, store, cells, id, t) && !cells[id].StubCell?
    {
      match packed
      case PackedLeaf(p) =>
        id := Allocate(LeafCell(h(packed), p));
      case PackedInner(p, left, right) =>
        var l := Allocate(StubCell(left));
        var r := Allocate(StubCell(right));
        id := Allocate(InnerCell(h(packed), p, l, r));
    }

    /** A stub child is read from the store; any other child stays as it is. */
    method LoadChild(store: Store, child: nat, ghost t: Tree) returns (id: nat)
      requires Valid() && Rep(h, store, cells, child, t)
      modifies this
      ensures Valid() && Grows(old(cells), cells)
      ensures Rep(h, store, cells, id, t) && !cells[id].StubCell?
    {
      if cells[child].StubCell? {
        id := Unpack(store, store[cells[child].key], t);
      } else {
        id := child;
      }
    }

    /** Makes sure both children of the popped node `n` are in memory. */
    method Expand(store: Store, n: nat, ghost tn: Tree, ghost root: nat, ghost t: Tree, ghost stack: seq<nat>, ghost trees: seq<Tree>)
      returns (l: nat, r: nat)
      requires Valid() && Rep(h, store, cells, n, tn) && cells[n].InnerCell?
      requires Stacked(h, store, cells, stack, trees)
      requires Rep(h, store, cells, root, t) && LoadedBut(cells, root, t, stack + [n])
      modifies this
      ensures Valid() && Stacked(h, store, cells, stack + [l, r], trees + [tn.left, tn.right])
      ensures Rep(h, store, cells, root, t) && LoadedBut(cells, root, t, stack + [l, r])
    {
      ghost var before := cells;
      l := LoadChild(store, cells[n].left, tn.left);
      ghost var between := cells;
      RepGrows(h, store, before, between, before[n].right, tn.right);
      r := LoadChild(store, cells[n].right, tn.right);
      RepGrows(h, store, between, cells, l, tn.left);
      assert Grows(before, cells);
      RepGrows(h, store, before, cells, n, tn);
      RepGrows(h, store, before, cells, root, t);
      LoadedButGrows(before, cells, root, t, stack + [n]);
      StackedGrows(h, store, before, cells, stack, trees);
      RepRelinked(h, store, cells, n, tn, l, r, root, t);
      LoadedButRelinked(h, store, cells, n, tn, l, r, root, t, stack);
      StackedRelinked(h, store, cells, n, tn, l, r, stack, trees);
      cells := Relink(cells, n, l, r);
    }

    /** Loads everything below `root`: it ends as exactly the tree it stood for, free of stubs. */
    method LoadAllNodes(store: Store, root: nat, ghost t: Tree)
      requires Valid() && Rep(h, store, cells, root, t) && !cells[root].StubCell?
      modifies this
      ensures Valid() && Loaded(cells, root, t)
    {
      var stack := [root];
      ghost var trees := [t];
      while stack != []
        invariant Valid() && Stacked(h, store, cells, stack, trees)
        invariant Rep(h, store, cells, root, t) && LoadedBut(cells, root, t, stack)
        decreases TotalSize(trees)
      {
        var n := stack[|stack| - 1];
        ghost var tn := trees[|trees| - 1];
        ghost var full := stack;
        stack := stack[..|stack| - 1];
        assert full == stack + [n];
        assert trees == trees[..|trees| - 1] + [tn];
        trees := trees[..|trees| - 1];
        TotalShrinks(trees, tn);
        if cells[n].InnerCell? {
          var l, r := Expand(store, n, tn, root, t, stack, trees);
          stack := stack + [l, r];
          trees := trees + [tn.left, tn.right];
        } else {
          LoadedButPopped(h, store, cells, n, root, t, stack);
        }
      }
      NothingPending(h, store, cells, root, t);
    }

    /** Looks a key up and loads the whole tree under it. */
    method Get(store: Store, key: Label, ghost t: Tree) returns (r: Option<nat>)
      requires Valid() && (key in store ==> key == LabelOf(h, t) && Stored(h, store, t))
      modifies this
      ensures Valid() && (r.Some? <==> key in store)
      ensures r.Some? ==> Loaded(cells, r.value, t)
    {
      if key in store {
        var root := Unpack(store, store[key], t);
        LoadAllNodes(store, root, t);
        r := Some(root);
      } else {
        r := None;
      }
    }
  }
}

/** Saving: the nodes changed since the last version are written, ancestors first. */
module AvlSaving {
  import opened AvlTrees
  import opened AvlLoading
  import opened Prelude
  import Versioning

  /** A tree in memory with the marks of its new nodes; a stub stands for a tree in the store. */
  datatype Marked =
    | MStub(tree: Tree)
    | MLeaf(payload: Payload, isNew: bool)
    | MInner(payload: Payload, isNew: bool, left: Marked, right: Marked)

  function Erase(m: Marked): Tree {
    match m
    case MStub(t) => t
    case MLeaf(p, _) => Leaf(p)
    case MInner(p, _, l, r) => Inner(p, Erase(l), Erase(r))
  }

  predicate New(m: Marked) {
    !m.MStub? && m.isNew
  }

  type Entry = (Label, Packed)

  function EntryOf(h: Packed -> Label, m: Marked): Entry {
    (LabelOf(h, Erase(m)), Pack(h, Erase(m)))
  }

  function Join(a: Option<seq<Entry>>, b: Option<seq<Entry>>): Option<seq<Entry>> {
    if a.None? || b.None? then None else Some(a.value + b.value)
  }

  /** What the stack loop writes for one node; `None` is the arm the source calls unreachable. */
  function Emit(h: Packed -> Label, m: Marked, top: bool): Option<seq<Entry>> {
    match m
    case MStub(_) => None
    case MLeaf(_, _) => Some(if top || New(m) then [EntryOf(h, m)] else [])
    case MInner(_, _, l, r) =>
      if top || New(m) then Join(Some([EntryOf(h, m)]), Join(Emit(h, r, false), Emit(h, l, false))) else Some([])
  }

  // ----- the loop -----

  /** The node `id` with its marks shows the marked tree `m`. */
  ghost predicate Shows(h: Packed -> Label, cells: Cells, marks: set<nat>, id: nat, m: Marked)
    decreases m
  {
    && id in cells && cells[id].key == LabelOf(h, Erase(m))
    && match m
       case MStub(_) => cells[id].StubCell?
       case MLeaf(p, isNew) => cells[id].LeafCell? && cells[id].payload == p && (isNew <==> id in marks)
       case MInner(p, isNew, l, r) =>
         && cells[id].InnerCell? && cells[id].payload == p && (isNew <==> id in marks)
         && Shows(h, cells, marks, cells[id].left, l) && Shows(h, cells, marks, cells[id].right, r)
  }

  ghost function EmitStack(h: Packed -> Label, ms: seq<Marked>, tops: seq<bool>): Option<seq<Entry>>
    requires |ms| == |tops|
  {
    if ms == [] then Some([])
    else
      var n := |ms| - 1;
      Join(Emit(h, ms[n], tops[n]), EmitStack(h, ms[..n], tops[..n]))
  }

  ghost predicate AllShown(h: Packed -> Label, cells: Cells, marks: set<nat>, stack: seq<(nat, bool)>, ms: seq<Marked>, tops: seq<bool>) {
    && |stack| == |ms| == |tops|
    && forall i :: 0 <= i < |stack| ==> Shows(h, cells, marks, stack[i].0, ms[i]) && stack[i].1 == tops[i]
  }

  ghost function MarkedSize(m: Marked): (n: nat)
    ensures n > 0
  {
    match m
    case MStub(_) => 1
    case MLeaf(_, _) => 1
    case MInner(_, _, l, r) => 1 + MarkedSize(l) + MarkedSize(r)
  }

  ghost function TotalMarked(ms: seq<Marked>): nat {
    if ms == [] then 0 else TotalMarked(ms[..|ms| - 1]) + MarkedSize(ms[|ms| - 1])
  }

  lemma TotalMarkedShrinks(rest: seq<Marked>, m: Marked)
    ensures TotalMarked(rest) < TotalMarked(rest + [m])
    ensures m.MInner? ==> TotalMarked(rest + [m.left, m.right]) < TotalMarked(rest + [m])
  {
    assert (rest + [m])[..|rest|] == rest;
    if m.MInner? {
      assert (rest + [m.left, m.right])[..|rest| + 1] == rest + [m.left];
      assert (rest + [m.left])[..|rest|] == rest;
    }
  }

  /** One turn of the loop, seen from the output still to come. */
  lemma EmitStackPop(h: Packed -> Label, rest: seq<Marked>, tops: seq<bool>, m: Marked, top: bool)
    requires |rest| == |tops|
    ensures EmitStack(h, rest + [m], tops + [top]) == Join(Emit(h, m, top), EmitStack(h, rest, tops))
  {
    assert (rest + [m])[..|rest|] == rest && (tops + [top])[..|rest|] == tops;
  }

  lemma EmitStackChildren(h: Packed -> Label, rest: seq<Marked>, tops: seq<bool>, m: Marked)
    requires |rest| == |tops| && m.MInner?
    ensures EmitStack(h, rest + [m.left, m.right], tops + [false, false]) ==
            Join(Join(Emit(h, m.right, false), Emit(h, m.left, false)), EmitStack(h, rest, tops))
  {
    EmitStackPop(h, rest, tops, m.left, false);
    EmitStackPop(h, rest + [m.left], tops + [false], m.right, false);
    assert rest + [m.left] + [m.right] == rest + [m.left, m.right];
    assert tops + [false] + [false] == tops + [false, false];
    JoinAssociates(Emit(h, m.right, false), Emit(h, m.left, false), EmitStack(h, rest, tops));
  }

  lemma JoinAssociates(a: Option<seq<Entry>>, b: Option<seq<Entry>>, c: Option<seq<Entry>>)
    ensures Join(Join(a, b), c) == Join(a, Join(b, c))
  {
    if a.Some? && b.Some? && c.Some? {
      assert a.value + b.value + c.value == a.value + (b.value + c.value);
    }
  }

  function PackCell(cells: Cells, id: nat): Packed
    requires id in cells && !cells[id].StubCell?
    requires cells[id].InnerCell? ==> cells[id].left in cells && cells[id].right in cells
  {
    match cells[id]
    case LeafCell(_, p) => PackedLeaf(p)
    case InnerCell(_, p, l, r) => PackedInner(p, cells[l].key, cells[r].key)
  }

  /** Packing a shown node gives the entry of its tree. */
  lemma ShownPacks(h: Packed -> Label, cells: Cells, marks: set<nat>, id: nat, m: Marked)
    requires Shows(h, cells, marks, id, m) && !m.MStub?
    ensures !cells[id].StubCell? && (cells[id].InnerCell? ==> cells[id].left in cells && cells[id].right in cells)
    ensures (cells[id].key, PackCell(cells, id)) == EntryOf(h, m)
  {
  }

  lemma JoinEmpty(a: Option<seq<Entry>>)
    ensures Join(Some([]), a) == a && Join(a, Some([])) == a
  {
    if a.Some? {
      assert [] + a.value == a.value == a.value + [];
    }
  }

  /** What writing the popped node does to the output written and the output still to come. */
  lemma EmitStep(h: Packed -> Label, ms: seq<Marked>, tops: seq<bool>, m: Marked, top: bool, result: seq<Entry>)
    requires |ms| == |tops| && !m.MStub?
    ensures
      var all := Join(Some(result), EmitStack(h, ms + [m], tops + [top]));
      if !top && !New(m) then all == Join(Some(result), EmitStack(h, ms, tops))
      else if m.MInner? then
        all == Join(Some(result + [EntryOf(h, m)]), EmitStack(h, ms + [m.left, m.right], tops + [false, false]))
      else all == Join(Some(result + [EntryOf(h, m)]), EmitStack(h, ms, tops))
  {
    EmitStackPop(h, ms, tops, m, top);
    var rest := EmitStack(h, ms, tops);
    JoinEmpty(rest);
    if top || New(m) {
      var entry: Option<seq<Entry>> := Some([EntryOf(h, m)]);
      if m.MInner? {
        EmitStackChildren(h, ms, tops, m);
        var children := Join(Emit(h, m.right, false), Emit(h, m.left, false));
        JoinAssociates(entry, children, rest);
        JoinAssociates(Some(result), entry, Join(children, rest));
      } else {
        JoinAssociates(Some(result), entry, rest);
      }
    }
  }

  lemma AllShownAppend(h: Packed -> Label, cells: Cells, marks: set<nat>, stack: seq<(nat, bool)>, ms: seq<Marked>, tops: seq<bool>,
                       l: nat, r: nat, ml: Marked, mr: Marked)
    requires AllShown(h, cells, marks, stack, ms, tops) && Shows(h, cells, marks, l, ml) && Shows(h, cells, marks, r, mr)
    ensures AllShown(h, cells, marks, stack + [(l, false), (r, false)], ms + [ml, mr], tops + [false, false])
  {
  }

  lemma AllShownPop(h: Packed -> Label, cells: Cells, marks: set<nat>, stack: seq<(nat, bool)>, ms: seq<Marked>, tops: seq<bool>)
    requires AllShown(h, cells, marks, stack, ms, tops) && stack != []
    ensures
      var n := |stack| - 1;
      && AllShown(h, cells, marks, stack[..n], ms[..n], tops[..n])
      && Shows(h, cells, marks, stack[n].0, ms[n]) && stack[n].1 == tops[n]
      && ms == ms[..n] + [ms[n]] && tops == tops[..n] + [tops[n]]
  {
  }

  /** What a shown cell says about its marked tree. */
  lemma ShownKind(h: Packed -> Label, cells: Cells, marks: set<nat>, id: nat, m: Marked)
    requires Shows(h, cells, marks, id, m)
    ensures id in cells && (cells[id].StubCell? <==> m.MStub?) && (cells[id].InnerCell? <==> m.MInner?)
    ensures !m.MStub? ==> (New(m) <==> id in marks)
    ensures m.MInner? ==> Shows(h, cells, marks, cells[id].left, m.left) && Shows(h, cells, marks, cells[id].right, m.right)
  {
  }

  method SerializeVisited(h: Packed -> Label, cells: Cells, marks: set<nat>, root: nat, ghost m: Marked)
    returns (r: Option<seq<Entry>>)
    requires Shows(h, cells, marks, root, m)
    ensures r == Emit(h, m, true)
  {
    var stack := [(root, true)];
    ghost var ms, tops := [m], [true];
    var result: seq<Entry> := [];
    EmitStackPop(h, [], [], m, true);
    assert [] + [m] == [m] && [] + [true] == [true];
    JoinEmpty(Emit(h, m, true));
    while stack != []
      invariant AllShown(h, cells, marks, stack, ms, tops)
      invariant Join(Some(result), EmitStack(h, ms, tops)) == Emit(h, m, true)
      decreases TotalMarked(ms)
    {
      AllShownPop(h, cells, marks, stack, ms, tops);
      var (n, isTop) := stack[|stack| - 1];
      ghost var mn := ms[|ms| - 1];
      ghost var rest, restTops := ms[..|ms| - 1], tops[..|tops| - 1];
      stack := stack[..|stack| - 1];
      ShownKind(h, cells, marks, n, mn);
      TotalMarkedShrinks(rest, mn);
      if cells[n].StubCell? {
        EmitStackPop(h, rest, restTops, mn, isTop);
        return None;
      }
      ShownPacks(h, cells, marks, n, mn);
      EmitStep(h, rest, restTops, mn, isTop, result);
      ms, tops := rest, restTops;
      if isTop || n in marks {
        result := result + [(cells[n].key, PackCell(cells, n))];
        if cells[n].InnerCell? {
          AllShownAppend(h, cells, marks, stack, ms, tops, cells[n].left, cells[n].right, mn.left, mn.right);
          stack := stack + [(cells[n].left, false), (cells[n].right, false)];
          ms, tops := ms + [mn.left, mn.right], tops + [false, false];
        }
      }
    }
    JoinEmpty(Some(result));
    r := Some(result);
  }

  // ----- when the unreachable arm stays unreached -----

  /** No node that is written has a stub for a child, and the top is no stub. */
  predicate WritesNoStub(m: Marked, top: bool) {
    !m.MStub? && (m.MInner? && (top || m.isNew) ==> WritesNoStub(m.left, false) && WritesNoStub(m.right, false))
  }

  /** The loop runs through exactly for such trees. */
  lemma {:induction false} EmitsIff(h: Packed -> Label, m: Marked, top: bool)
    ensures Emit(h, m, top).Some? <==> WritesNoStub(m, top)
  {
    if m.MInner? && (top || m.isNew) {
      EmitsIff(h, m.left, false);
      EmitsIff(h, m.right, false);
    }
  }

  predicate StubChild(m: Marked) {
    m.MInner? && (m.left.MStub? || m.right.MStub?)
  }

  /** Nowhere in the tree a new node has a stub for a child. */
  predicate NewHaveNoStubs(m: Marked) {
    !(New(m) && StubChild(m)) && (m.MInner? ==> NewHaveNoStubs(m.left) && NewHaveNoStubs(m.right))
  }

  lemma {:induction false} OldHaveNone(m: Marked)
    requires NoNew(m)
    ensures NewHaveNoStubs(m)
  {
    if m.MInner? {
      OldHaveNone(m.left);
      OldHaveNone(m.right);
    }
  }

  /** With marks closed upwards it is enough to look at every node on its own. */
  lemma {:induction false} ClosedWritesIff(m: Marked)
    requires Closed(m)
    ensures WritesNoStub(m, false) <==> !m.MStub? && NewHaveNoStubs(m)
  {
    if m.MInner? {
      if m.isNew {
        ClosedWritesIff(m.left);
        ClosedWritesIff(m.right);
      } else {
        OldHaveNone(m);
      }
    }
  }

  // ----- every new node exactly once -----

  /** All new nodes, in the order a full traversal meets them. */
  function NewEntries(h: Packed -> Label, m: Marked): seq<Entry> {
    match m
    case MStub(_) => []
    case MLeaf(_, isNew) => if isNew then [EntryOf(h, m)] else []
    case MInner(_, isNew, l, r) => (if isNew then [EntryOf(h, m)] else []) + (NewEntries(h, r) + NewEntries(h, l))
  }

  /** Marks are closed upwards: nothing below an old node is new. */
  predicate Closed(m: Marked) {
    m.MInner? ==> Closed(m.left) && Closed(m.right) && (m.isNew || (NoNew(m.left) && NoNew(m.right)))
  }

  predicate NoNew(m: Marked) {
    !New(m) && (m.MInner? ==> NoNew(m.left) && NoNew(m.right))
  }

  lemma {:induction false} NoNewIsEmpty(h: Packed -> Label, m: Marked)
    ensures NewEntries(h, m) == [] <==> NoNew(m)
  {
    if m.MInner? {
      NoNewIsEmpty(h, m.left);
      NoNewIsEmpty(h, m.right);
      if NewEntries(h, m) == [] {
        assert |NewEntries(h, m.left)| == 0 && |NewEntries(h, m.right)| == 0;
      }
    }
  }

  lemma {:induction false} NoNewIsClosed(m: Marked)
    requires NoNew(m)
    ensures Closed(m)
  {
    if m.MInner? {
      NoNewIsClosed(m.left);
      NoNewIsClosed(m.right);
    }
  }

  lemma {:induction false} EmitsAtMostNew(h: Packed -> Label, m: Marked)
    requires WritesNoStub(m, false)
    ensures Emit(h, m, false).Some? && |Emit(h, m, false).value| <= |NewEntries(h, m)|
  {
    if m.MInner? && m.isNew {
      EmitsAtMostNew(h, m.left);
      EmitsAtMostNew(h, m.right);
    }
  }

  /** Below the top, exactly the new nodes are written, each once and in order, if and only if the marks are closed upwards. */
  lemma {:induction false} EmitsNewIffClosed(h: Packed -> Label, m: Marked)
    requires WritesNoStub(m, false)
    ensures Emit(h, m, false) == Some(NewEntries(h, m)) <==> Closed(m)
  {
    EmitsIff(h, m, false);
    if m.MInner? {
      if m.isNew {
        EmitsNewIffClosed(h, m.left);
        EmitsNewIffClosed(h, m.right);
        EmitsAtMostNew(h, m.left);
        EmitsAtMostNew(h, m.right);
        var l, r := Emit(h, m.left, false).value, Emit(h, m.right, false).value;
        var nl, nr := NewEntries(h, m.left), NewEntries(h, m.right);
        if [EntryOf(h, m)] + (r + l) == [EntryOf(h, m)] + (nr + nl) {
          ConsEqual(EntryOf(h, m), r + l, nr + nl);
          ConcatEqual(r, l, nr, nl);
        }
      } else {
        NoNewIsEmpty(h, m);
        if NoNew(m) {
          NoNewIsClosed(m);
        }
      }
    }
  }

  lemma ConsEqual(e: Entry, a: seq<Entry>, b: seq<Entry>)
    requires [e] + a == [e] + b
    ensures a == b
  {
    assert a == ([e] + a)[1..] && b == ([e] + b)[1..];
  }

  lemma ConcatEqual(a: seq<Entry>, b: seq<Entry>, c: seq<Entry>, d: seq<Entry>)
    requires a + b == c + d && |a| <= |c| && |b| <= |d|
    ensures a == c && b == d
  {
    assert |a + b| == |c + d|;
    assert a == (a + b)[..|a|] && c == (c + d)[..|a|];
    assert b == (a + b)[|a|..] && d == (c + d)[|a|..];
  }

  /** All new nodes below the top. */
  function NewBelow(h: Packed -> Label, m: Marked): seq<Entry> {
    if m.MInner? then NewEntries(h, m.right) + NewEntries(h, m.left) else []
  }

  /** A whole save writes the top node and then every new node below it exactly once. */
  lemma SaveWritesNew(h: Packed -> Label, m: Marked)
    requires WritesNoStub(m, true) && (m.MInner? ==> Closed(m.left) && Closed(m.right))
    ensures Emit(h, m, true) == Some([EntryOf(h, m)] + NewBelow(h, m))
  {
    if m.MInner? {
      EmitsNewIffClosed(h, m.left);
      EmitsNewIffClosed(h, m.right);
    } else {
      assert [EntryOf(h, m)] + [] == [EntryOf(h, m)];
    }
  }

  // ----- save, then load -----

  ghost predicate Injective(h: Packed -> Label) {
    forall a, b :: h(a) == h(b) ==> a == b
  }

  predicate WellKeyed(h: Packed -> Label, store: Store) {
    forall k :: k in store ==> h(store[k]) == k
  }

  predicate EntriesKeyed(h: Packed -> Label, es: seq<Entry>) {
    forall i :: 0 <= i < |es| ==> h(es[i].1) == es[i].0
  }

  function KeysOf(es: seq<Entry>): set<Label> {
    set e | e in es :: e.0
  }

  lemma {:induction false} EmitKeyed(h: Packed -> Label, m: Marked, top: bool)
    requires Emit(h, m, top).Some?
    ensures EntriesKeyed(h, Emit(h, m, top).value)
  {
    if m.MInner? && (top || m.isNew) {
      EmitKeyed(h, m.left, false);
      EmitKeyed(h, m.right, false);
    }
  }

  lemma {:induction false} WriteKeeps(h: Packed -> Label, store: Store, es: seq<Entry>)
    requires WellKeyed(h, store) && EntriesKeyed(h, es)
    ensures WellKeyed(h, Versioning.Write(store, es)) && Versioning.Write(store, es).Keys == store.Keys + KeysOf(es)
    decreases |es|
  {
    if es == [] {
      assert KeysOf(es) == {};
    } else {
      var next := store[es[0].0 := es[0].1];
      assert EntriesKeyed(h, es[1..]);
      WriteKeeps(h, next, es[1..]);
      assert es == [es[0]] + es[1..];
      assert KeysOf(es) == {es[0].0} + KeysOf(es[1..]);
      assert next.Keys == store.Keys + {es[0].0};
    }
  }

  // ----- which labels a tree needs -----

  function Labels(h: Packed -> Label, t: Tree): set<Label> {
    {LabelOf(h, t)} + if t.Inner? then Labels(h, t.left) + Labels(h, t.right) else {}
  }

  /** With a collision-free hash a store holds a tree exactly when it has all its labels. */
  lemma {:induction false} StoredIff(h: Packed -> Label, store: Store, t: Tree)
    requires Injective(h) && WellKeyed(h, store)
    ensures Stored(h, store, t) <==> Labels(h, t) <= store.Keys
  {
    if LabelOf(h, t) in store {
      assert h(store[LabelOf(h, t)]) == h(Pack(h, t));
    }
    if t.Inner? {
      StoredIff(h, store, t.left);
      StoredIff(h, store, t.right);
    }
  }

  /** The labels of the subtrees the loop does not write. */
  function Unwritten(h: Packed -> Label, m: Marked, top: bool): set<Label> {
    if !m.MStub? && (top || m.isNew)
    then if m.MInner? then Unwritten(h, m.left, false) + Unwritten(h, m.right, false) else {}
    else Labels(h, Erase(m))
  }

  lemma Regroup(e: set<Label>, l: set<Label>, r: set<Label>, ul: set<Label>, ur: set<Label>)
    ensures e + ((l + ul) + (r + ur)) == (e + (r + l)) + (ul + ur)
  {
  }

  lemma KeysOfJoin(a: seq<Entry>, b: seq<Entry>)
    ensures KeysOf(a + b) == KeysOf(a) + KeysOf(b)
  {
  }

  /** Written and unwritten labels make up the tree. */
  lemma {:induction false} LabelsSplit(h: Packed -> Label, m: Marked, top: bool)
    requires WritesNoStub(m, top)
    ensures Emit(h, m, top).Some? && Labels(h, Erase(m)) == KeysOf(Emit(h, m, top).value) + Unwritten(h, m, top)
  {
    if top || New(m) {
      var e := EntryOf(h, m);
      assert KeysOf([e]) == {e.0};
      if m.MInner? {
        LabelsSplit(h, m.left, false);
        LabelsSplit(h, m.right, false);
        var l, r := Emit(h, m.left, false).value, Emit(h, m.right, false).value;
        KeysOfJoin(r, l);
        KeysOfJoin([e], r + l);
        Regroup({e.0}, KeysOf(l), KeysOf(r), Unwritten(h, m.left, false), Unwritten(h, m.right, false));
      }
    } else {
      EmitsIff(h, m, top);
      assert KeysOf([]) == {};
    }
  }

  /** After a save that also removes old labels the store holds the whole tree exactly when every unwritten
      node's label was there and was not removed, or is written elsewhere in the tree. */
  lemma SaveThenStoredIff(h: Packed -> Label, store: Store, removed: seq<Label>, m: Marked)
    requires Injective(h) && WellKeyed(h, store) && WritesNoStub(m, true)
    ensures Emit(h, m, true).Some?
    ensures
      var es := Emit(h, m, true).value;
      var saved := Versioning.Changed(store, removed, es);
      && WellKeyed(h, saved) && LabelOf(h, Erase(m)) in saved && es != []
      && (Stored(h, saved, Erase(m)) <==> Unwritten(h, m, true) <= (store.Keys - Elements(removed)) + KeysOf(es))
  {
    LabelsSplit(h, m, true);
    var es := Emit(h, m, true).value;
    EmitKeyed(h, m, true);
    WriteKeeps(h, store - Elements(removed), es);
    StoredIff(h, Versioning.Changed(store, removed, es), Erase(m));
    TopWritten(h, m);
  }

  lemma TopWritten(h: Packed -> Label, m: Marked)
    requires Emit(h, m, true).Some?
    ensures LabelOf(h, Erase(m)) in KeysOf(Emit(h, m, true).value)
  {
    assert Emit(h, m, true).value[0] == EntryOf(h, m);
    assert EntryOf(h, m) in Emit(h, m, true).value;
  }
}

/** Saving followed by loading, and loading what a rollback brought back. */
module AvlRoundTrip {
  import opened AvlTrees
  import opened AvlLoading
  import opened AvlSaving
  import opened Prelude
  import Versioning
  import VersionedStore

  /** The round trip through the store: new nodes written, old labels removed, the root loaded again. */
  method SaveAndReload<T(!new)>(mem: Memory, db: VersionedStore.Store<T, Label, Packed>, version: T, cells: Cells,
                                marks: set<nat>, root: nat, removed: seq<Label>, ghost m: Marked) returns (r: Option<nat>)
    requires mem.Valid() && Shows(mem.h, cells, marks, root, m)
    requires Injective(mem.h) && WellKeyed(mem.h, db.data) && WritesNoStub(m, true)
    requires Unwritten(mem.h, m, true) <= db.data.Keys - Elements(removed)
    modifies mem, db
    ensures mem.Valid() && r.Some? && Loaded(mem.cells, r.value, Erase(m))
    ensures WellKeyed(mem.h, db.data) && Stored(mem.h, db.data, Erase(m))
    ensures
      var es := Emit(mem.h, m, true);
      es.Some? && db.View() == Versioning.Updated(db.keep, old(db.View()), version, removed, es.value)
  {
    SaveThenStoredIff(mem.h, db.data, removed, m);
    var es := SerializeVisited(mem.h, cells, marks, root, m);
    db.Update(version, removed, es.value);
    r := mem.Get(db.data, cells[root].key, Erase(m));
  }

  lemma {:induction false} StoredExtends(h: Packed -> Label, small: Store, big: Store, t: Tree)
    requires Stored(h, small, t) && Versioning.Extends(small, big)
    ensures Stored(h, big, t)
  {
    if t.Inner? {
      StoredExtends(h, small, big, t.left);
      StoredExtends(h, small, big, t.right);
    }
  }

  /** Whatever else a rollback leaves behind, a tree that a version held is loaded again. */
  method RollbackAndReload<T(!new)>(mem: Memory, db: VersionedStore.Store<T, Label, Packed>, version: T, root: Label,
                                    ghost hist: seq<Store>, ghost base: nat, ghost t: Tree) returns (ok: bool, r: Option<nat>)
    requires mem.Valid() && Versioning.Tracks(db.View(), hist, base) && root == LabelOf(mem.h, t)
    requires var ix := Versioning.IndexOf(db.bounds, version); ix.Some? && Stored(mem.h, hist[ix.value], t)
    modifies mem, db
    ensures mem.Valid()
    ensures
      var ix := Versioning.IndexOf(old(db.bounds), version).value;
      ok <==> old(db.bounds)[ix].last < old(db.bounds)[|hist| - 1].last
    ensures ok ==> r.Some? && Loaded(mem.cells, r.value, t)
  {
    Versioning.RollbackGives(db.View(), hist, base, version);
    ghost var ix := Versioning.IndexOf(db.bounds, version).value;
    ok := db.RollbackTo(version);
    r := None;
    if ok {
      Versioning.EarliestExtends(hist[ix..]);
      assert hist[ix..][0] == hist[ix];
      StoredExtends(mem.h, hist[ix], db.data, t);
      r := mem.Get(db.data, root, t);
    }
  }
}
