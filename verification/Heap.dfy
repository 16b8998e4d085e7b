/** The binary heap behind the ready queue: `heappush`, `heappop` and `heapify` on a
    sequence, with the sift loops of the array heap they are built from. */
module Heap {

  type Pid = nat

  /** A queue entry. The source stores `(-priority, order, pid)` and compares tuples. */
  datatype Entry = Entry(priority: int, order: nat, pid: Pid)

  /** Tuple comparison, up to the last component: the process id has no order of its own,
      so the source's comparison raises when priority and order both agree. */
  predicate Before(a: Entry, b: Entry) {
    a.priority > b.priority || (a.priority == b.priority && a.order < b.order)
  }

  predicate AtMost(a: Entry, b: Entry) {
    a == b || Before(a, b)
  }

  /** Distinct entries can always be compared without looking at the process id. */
  ghost predicate Comparable(s: multiset<Entry>) {
    forall a, b :: a in s && b in s && a.order == b.order ==> a == b
  }

  predicate IsChild(parent: nat, child: nat) {
    child == 2 * parent + 1 || child == 2 * parent + 2
  }

  ghost predicate OrderedFrom(h: seq<Entry>, start: nat) {
    forall i: nat, j: nat :: start <= i && j < |h| && IsChild(i, j) ==> AtMost(h[i], h[j])
  }

  ghost predicate IsHeap(h: seq<Entry>) {
    OrderedFrom(h, 0)
  }

  /** Heap order, except that the entry at `hole` may precede its parent; its children are
      then also at or after that parent. */
  ghost predicate RisesAt(h: seq<Entry>, start: nat, hole: nat) {
    && (forall i: nat, j: nat :: start <= i && j < |h| && IsChild(i, j) && j != hole ==> AtMost(h[i], h[j]))
    && (forall i: nat, j: nat :: start <= i && j < |h| && IsChild(i, hole) && IsChild(hole, j) ==> AtMost(h[i], h[j]))
  }

  /** Heap order, except that the entry at `hole` may come after its children. */
  ghost predicate SinksAt(h: seq<Entry>, start: nat, hole: nat) {
    && (forall i: nat, j: nat :: start <= i && j < |h| && IsChild(i, j) && i != hole && j != hole ==>
         AtMost(h[i], h[j]))
    && (forall i: nat, j: nat :: start <= i && j < |h| && IsChild(i, hole) && IsChild(hole, j) ==> AtMost(h[i], h[j]))
  }

  /** `pos` lies in the subtree rooted at `root`. */
  predicate Below(root: nat, pos: nat) {
    pos == root || (pos > root && Below(root, (pos - 1) / 2))
  }

  lemma {:induction false} RootIsLeast(h: seq<Entry>, i: nat)
    requires IsHeap(h) && i < |h|
    ensures AtMost(h[0], h[i])
  {
    if i > 0 {
      var parent := (i - 1) / 2;
      assert IsChild(parent, i);
      RootIsLeast(h, parent);
    }
  }

  function Swap(h: seq<Entry>, i: nat, j: nat): (r: seq<Entry>)
    requires i < |h| && j < |h|
    ensures |r| == |h| && r[i] == h[j] && r[j] == h[i]
    ensures forall k: nat :: k < |h| && k != i && k != j ==> r[k] == h[k]
    ensures multiset(r) == multiset(h)
  {
    h[i := h[j]][j := h[i]]
  }

  lemma SwapUp(h: seq<Entry>, start: nat, pos: nat, parent: nat)
    requires start <= parent && IsChild(parent, pos) && pos < |h|
    requires RisesAt(h, start, pos) && Before(h[pos], h[parent])
    ensures RisesAt(Swap(h, parent, pos), start, parent)
  {
    var r := Swap(h, parent, pos);
    forall i: nat, j: nat | start <= i && j < |r| && IsChild(i, j) && j != parent
      ensures AtMost(r[i], r[j])
    {
      if i == parent && j != pos {
        assert AtMost(h[parent], h[j]);
      } else if i == pos {
        assert AtMost(h[parent], h[j]);
      }
    }
    forall i: nat, j: nat | start <= i && j < |r| && IsChild(i, parent) && IsChild(parent, j)
      ensures AtMost(r[i], r[j])
    {
      assert AtMost(h[i], h[parent]);
      assert AtMost(h[parent], h[j]) || j == pos;
    }
  }

  lemma Risen(h: seq<Entry>, start: nat, pos: nat, parent: nat)
    requires pos < |h| && IsChild(parent, pos)
    requires RisesAt(h, start, pos) && Comparable(multiset(h)) && !Before(h[pos], h[parent])
    ensures OrderedFrom(h, start)
  {
    assert h[pos] in multiset(h) && h[parent] in multiset(h);
    forall i: nat, j: nat | start <= i && j < |h| && IsChild(i, j) ensures AtMost(h[i], h[j]) {
      if j == pos {
        assert i == parent;
      }
    }
  }

  /** Moves the entry at `pos` towards `start` past every parent it precedes. */
  method SiftDown(h: seq<Entry>, start: nat, hole: nat) returns (r: seq<Entry>)
    requires hole < |h| && Below(start, hole)
    requires Comparable(multiset(h))
    requires RisesAt(h, start, hole)
    ensures multiset(r) == multiset(h) && |r| == |h|
    ensures OrderedFrom(r, start)
    ensures forall i: nat :: i < start ==> r[i] == h[i]
  {
    var pos: nat := hole;
    r := h;
    while pos > start
      invariant pos < |r| == |h| && Below(start, pos)
      invariant multiset(r) == multiset(h)
      invariant RisesAt(r, start, pos)
      invariant forall i: nat :: i < start ==> r[i] == h[i]
    {
      var parent: nat := (pos - 1) / 2;
      if !Before(r[pos], r[parent]) {
        Risen(r, start, pos, parent);
        return;
      }
      SwapUp(r, start, pos, parent);
      r := Swap(r, parent, pos);
      pos := parent;
    }
  }

  lemma SwapDown(h: seq<Entry>, start: nat, pos: nat, child: nat)
    requires start <= pos && IsChild(pos, child) && child < |h|
    requires SinksAt(h, start, pos)
    requires forall j: nat :: j < |h| && IsChild(pos, j) ==> AtMost(h[child], h[j])
    ensures SinksAt(Swap(h, pos, child), start, child)
  {
    var r := Swap(h, pos, child);
    forall i: nat, j: nat | start <= i && j < |r| && IsChild(i, j) && i != child && j != child
      ensures AtMost(r[i], r[j])
    {
      if j == pos {
        assert AtMost(h[i], h[child]);
      }
    }
  }

  function LesserChild(h: seq<Entry>, pos: nat): (child: nat)
    requires 2 * pos + 1 < |h|
    ensures IsChild(pos, child) && child < |h|
  {
    if 2 * pos + 2 < |h| && !Before(h[2 * pos + 1], h[2 * pos + 2]) then 2 * pos + 2 else 2 * pos + 1
  }

  lemma LesserChildIsLeast(h: seq<Entry>, pos: nat)
    requires Comparable(multiset(h)) && 2 * pos + 1 < |h|
    ensures forall j: nat :: j < |h| && IsChild(pos, j) ==> AtMost(h[LesserChild(h, pos)], h[j])
  {
    assert h[2 * pos + 1] in multiset(h);
    if 2 * pos + 2 < |h| {
      assert h[2 * pos + 2] in multiset(h);
    }
  }

  lemma BelowChild(root: nat, pos: nat, child: nat)
    requires Below(root, pos) && IsChild(pos, child)
    ensures Below(root, child)
  {
    assert (child - 1) / 2 == pos;
  }

  lemma LeafRises(h: seq<Entry>, start: nat, pos: nat)
    requires pos < |h| <= 2 * pos + 1
    requires SinksAt(h, start, pos)
    ensures RisesAt(h, start, pos)
  {}

  /** Moves the entry at `start` down to a leaf along the lesser children, then back up to
      its place. */
  method SiftUp(h: seq<Entry>, start: nat) returns (r: seq<Entry>)
    requires start < |h|
    requires Comparable(multiset(h))
    requires OrderedFrom(h, start + 1)
    ensures multiset(r) == multiset(h) && |r| == |h|
    ensures OrderedFrom(r, start)
    ensures forall i: nat :: i < start ==> r[i] == h[i]
  {
    var pos: nat := start;
    r := h;
    while 2 * pos + 1 < |r|
      invariant pos < |r| == |h| && Below(start, pos)
      invariant multiset(r) == multiset(h)
      invariant SinksAt(r, start, pos)
      invariant forall i: nat :: i < start ==> r[i] == h[i]
      decreases |r| - pos
    {
      var child := LesserChild(r, pos);
      LesserChildIsLeast(r, pos);
      SwapDown(r, start, pos, child);
      BelowChild(start, pos, child);
      r := Swap(r, pos, child);
      pos := child;
    }
    LeafRises(r, start, pos);
    r := SiftDown(r, start, pos);
  }

  /** `heappush`. */
  method Push(h: seq<Entry>, e: Entry) returns (r: seq<Entry>)
    requires IsHeap(h) && Comparable(multiset(h) + multiset{e})
    ensures IsHeap(r)
    ensures multiset(r) == multiset(h) + multiset{e}
  {
    r := h + [e];
    BelowRoot(|h|);
    r := SiftDown(r, 0, |h|);
  }

  lemma {:induction false} BelowRoot(pos: nat)
    ensures Below(0, pos)
  {
    if pos > 0 {
      BelowRoot((pos - 1) / 2);
    }
  }

  lemma AllAfterRoot(h: seq<Entry>)
    requires IsHeap(h) && h != []
    ensures forall e :: e in h ==> AtMost(h[0], e)
  {
    forall e | e in h ensures AtMost(h[0], e) {
      var i :| 0 <= i < |h| && h[i] == e;
      RootIsLeast(h, i);
    }
  }

  lemma RootReplaced(h: seq<Entry>)
    requires |h| > 1
    ensures multiset(h[..|h| - 1][0 := h[|h| - 1]]) == multiset(h) - multiset{h[0]}
  {
    var last := h[|h| - 1];
    assert h == [h[0]] + h[1..|h| - 1] + [last];
    assert h[..|h| - 1][0 := last] == [last] + h[1..|h| - 1];
  }

  lemma FewerComparable(s: multiset<Entry>, t: multiset<Entry>)
    requires Comparable(s) && t <= s
    ensures Comparable(t)
  {
    assert forall a :: a in t ==> a in s;
  }

  lemma LastToRoot(h: seq<Entry>)
    requires IsHeap(h) && |h| > 1
    requires Comparable(multiset(h))
    ensures var r := h[..|h| - 1][0 := h[|h| - 1]];
      && multiset(r) == multiset(h) - multiset{h[0]}
      && Comparable(multiset(r)) && OrderedFrom(r, 1)
  {
    RootReplaced(h);
    FewerComparable(multiset(h), multiset(h) - multiset{h[0]});
  }

  /** `heappop`. */
  method Pop(h: seq<Entry>) returns (least: Entry, r: seq<Entry>)
    requires h != [] && IsHeap(h) && Comparable(multiset(h))
    ensures IsHeap(r)
    ensures least in h && multiset(r) == multiset(h) - multiset{least}
    ensures forall e :: e in h ==> AtMost(least, e)
  {
    least := h[0];
    AllAfterRoot(h);
    var last := h[|h| - 1];
    r := h[..|h| - 1];
    assert h == r + [last];
    if r != [] {
      LastToRoot(h);
      r := SiftUp(r[0 := last], 0);
    }
  }

  /** `heapify`: sifts every inner node, last to first. */
  method Heapify(h: seq<Entry>) returns (r: seq<Entry>)
    requires Comparable(multiset(h))
    ensures IsHeap(r) && multiset(r) == multiset(h)
  {
    r := h;
    var i: nat := |h| / 2;
    while i > 0
      invariant i <= |h| / 2 && |r| == |h|
      invariant multiset(r) == multiset(h)
      invariant OrderedFrom(r, i)
    {
      i := i - 1;
      r := SiftUp(r, i);
    }
  }
}
