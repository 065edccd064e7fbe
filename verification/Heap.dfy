/** A binary min-heap of deadline entries held in a sequence. */
module Heap {
  import opened Clock

  datatype Entry = Entry(at: Instant, handle: nat)

  /** Earlier deadlines first, equal deadlines in arming order. */
  predicate Before(a: Entry, b: Entry) {
    a.at < b.at || (a.at == b.at && a.handle <= b.handle)
  }

  function Parent(i: nat): nat
    requires i > 0
  {
    (i - 1) / 2
  }

  /** Entry `i` comes after its parent. */
  predicate Placed(h: seq<Entry>, i: nat)
    requires 0 < i < |h|
  {
    Before(h[Parent(i)], h[i])
  }

  predicate Ordered(h: seq<Entry>) {
    forall i :: 0 < i < |h| ==> Placed(h, i)
  }

  function Swap(h: seq<Entry>, i: nat, j: nat): (r: seq<Entry>)
    requires i < |h| && j < |h|
    ensures |r| == |h| && multiset(r) == multiset(h)
    ensures r[i] == h[j] && r[j] == h[i]
    ensures forall k :: 0 <= k < |h| && k != i && k != j ==> r[k] == h[k]
  {
    h[i := h[j]][j := h[i]]
  }

  /** The head of a heap comes before every entry. */
  lemma {:induction false} HeadIsFirst(h: seq<Entry>, i: nat)
    requires Ordered(h) && i < |h|
    ensures Before(h[0], h[i])
  {
    if i > 0 {
      assert Placed(h, i);
      HeadIsFirst(h, Parent(i));
    }
  }

  lemma HeadIsLeast(h: seq<Entry>)
    requires Ordered(h) && h != []
    ensures forall e :: e in h ==> Before(h[0], e)
  {
    forall e | e in h ensures Before(h[0], e) {
      var i :| 0 <= i < |h| && h[i] == e;
      HeadIsFirst(h, i);
    }
  }

  /** A heap but for entry `i`, which may belong higher up. */
  predicate OrderedUpTo(h: seq<Entry>, i: nat) {
    && i < |h|
    && (forall k :: 0 < k < |h| && k != i ==> Placed(h, k))
    && (i > 0 && 2 * i + 1 < |h| ==> Before(h[Parent(i)], h[2 * i + 1]))
    && (i > 0 && 2 * i + 2 < |h| ==> Before(h[Parent(i)], h[2 * i + 2]))
  }

  /** A heap but for entry `i`, which may belong lower down. */
  predicate OrderedDownFrom(h: seq<Entry>, i: nat) {
    && i < |h|
    && (forall k :: 0 < k < |h| && Parent(k) != i ==> Placed(h, k))
    && (i > 0 && 2 * i + 1 < |h| ==> Before(h[Parent(i)], h[2 * i + 1]))
    && (i > 0 && 2 * i + 2 < |h| ==> Before(h[Parent(i)], h[2 * i + 2]))
  }

  lemma UpStep(h: seq<Entry>, i: nat)
    requires OrderedUpTo(h, i) && i > 0 && !Placed(h, i)
    ensures OrderedUpTo(Swap(h, i, Parent(i)), Parent(i))
  {
    var p := Parent(i);
    var r := Swap(h, i, p);
    forall k | 0 < k < |r| && k != p ensures Placed(r, k) {
      assert k != i ==> Placed(h, k);
      assert Parent(k) == i ==> k == 2 * i + 1 || k == 2 * i + 2;
    }
    if p > 0 {
      assert Placed(h, p);
      assert 2 * p + 1 < |h| && 2 * p + 1 != i ==> Placed(h, 2 * p + 1);
      assert 2 * p + 2 < |h| && 2 * p + 2 != i ==> Placed(h, 2 * p + 2);
    }
  }

  lemma DownStep(h: seq<Entry>, i: nat, child: nat)
    requires OrderedDownFrom(h, i) && (child == 2 * i + 1 || child == 2 * i + 2) && child < |h|
    requires !Before(h[i], h[child])
    requires 2 * i + 1 < |h| ==> Before(h[child], h[2 * i + 1])
    requires 2 * i + 2 < |h| ==> Before(h[child], h[2 * i + 2])
    ensures OrderedDownFrom(Swap(h, i, child), child)
  {
    var r := Swap(h, i, child);
    forall k | 0 < k < |r| && Parent(k) != child ensures Placed(r, k) {
      assert Parent(k) != i ==> Placed(h, k);
      assert Parent(k) == i ==> k == 2 * i + 1 || k == 2 * i + 2;
    }
    assert 2 * child + 1 < |h| ==> Placed(h, 2 * child + 1);
    assert 2 * child + 2 < |h| ==> Placed(h, 2 * child + 2);
  }

  /** Moves the last entry up to its place. */
  method SiftUp(h: seq<Entry>) returns (r: seq<Entry>)
    requires h != [] && OrderedUpTo(h, |h| - 1)
    ensures Ordered(r) && multiset(r) == multiset(h)
  {
    r := h;
    var i: nat := |h| - 1;
    while i > 0 && !Before(r[Parent(i)], r[i])
      invariant OrderedUpTo(r, i) && multiset(r) == multiset(h)
    {
      UpStep(r, i);
      r := Swap(r, i, Parent(i));
      i := Parent(i);
    }
    assert i > 0 ==> Placed(r, i);
  }

  /** Moves the head down to its place. */
  method SiftDown(h: seq<Entry>) returns (r: seq<Entry>)
    requires OrderedDownFrom(h, 0)
    ensures Ordered(r) && multiset(r) == multiset(h)
  {
    r := h;
    var i := 0;
    while 2 * i + 1 < |r|
      invariant OrderedDownFrom(r, i) && |r| == |h| && multiset(r) == multiset(h)
      decreases |r| - i
    {
      var child := 2 * i + 1;
      if child + 1 < |r| && !Before(r[child], r[child + 1]) {
        child := child + 1;
      }
      if Before(r[i], r[child]) {
        SettledDown(r, i, child);
        return;
      }
      DownStep(r, i, child);
      r := Swap(r, i, child);
      i := child;
    }
  }

  lemma SettledDown(h: seq<Entry>, i: nat, child: nat)
    requires OrderedDownFrom(h, i) && child < |h| && Before(h[i], h[child])
    requires 2 * i + 1 < |h| ==> Before(h[child], h[2 * i + 1])
    requires 2 * i + 2 < |h| ==> Before(h[child], h[2 * i + 2])
    ensures Ordered(h)
  {
    forall k | 0 < k < |h| ensures Placed(h, k) {
      assert Parent(k) == i ==> k == 2 * i + 1 || k == 2 * i + 2;
    }
  }

  method Push(h: seq<Entry>, e: Entry) returns (r: seq<Entry>)
    requires Ordered(h)
    ensures Ordered(r) && multiset(r) == multiset(h) + multiset{e}
  {
    var longer := h + [e];
    forall k | 0 < k < |h| ensures Placed(longer, k) {
      assert Placed(h, k);
    }
    r := SiftUp(longer);
  }

  method Pop(h: seq<Entry>) returns (head: Entry, r: seq<Entry>)
    requires Ordered(h) && h != []
    ensures head == h[0] && forall e :: e in h ==> Before(head, e)
    ensures Ordered(r) && multiset(r) == multiset(h) - multiset{head}
  {
    head := h[0];
    HeadIsLeast(h);
    var last := |h| - 1;
    assert h == h[..last] + [h[last]];
    if last == 0 {
      r := [];
      return;
    }
    var moved := h[..last][0 := h[last]];
    assert multiset(h) == multiset(h[..last]) + multiset{h[last]};
    assert multiset(moved) == multiset(h[..last]) - multiset{h[0]} + multiset{h[last]};
    forall k | 0 < k < |moved| && Parent(k) != 0 ensures Placed(moved, k) {
      assert Placed(h, k);
    }
    r := SiftDown(moved);
  }

  /** Rebuilds a heap from the entries whose handle is kept. */
  method Retain(h: seq<Entry>, keep: set<nat>) returns (r: seq<Entry>)
    ensures Ordered(r)
    ensures forall e: Entry :: multiset(r)[e] == if e.handle in keep then multiset(h)[e] else 0
  {
    r := [];
    for i := 0 to |h|
      invariant Ordered(r)
      invariant forall e: Entry :: multiset(r)[e] == if e.handle in keep then multiset(h[..i])[e] else 0
    {
      assert h[..i + 1] == h[..i] + [h[i]];
      if h[i].handle in keep {
        r := Push(r, h[i]);
      }
    }
    assert h[..|h|] == h;
  }
}
