/** The scheduler's waiter queue: Go's container/heap sifting over the queue's own Less, Swap, Push and Pop. */
module WaiterHeap {

  /** Admission order: lower priority value first, then arrival number. */
  datatype Key = Key(priority: int, arrival: nat)

  const PRIORITY_RENEWAL := 0
  const PRIORITY_CONNECT := 1

  predicate Before(a: Key, b: Key) {
    if a.priority != b.priority then a.priority < b.priority else a.arrival < b.arrival
  }

  predicate AtMost(a: Key, b: Key) {
    !Before(b, a)
  }

  /** k is the strict minimum of a set of keys. */
  ghost predicate IsLeast(k: Key, keys: set<Key>) {
    k in keys && forall other :: other in keys && other != k ==> Before(k, other)
  }

  // ---- Heap order over the sequence of keys ----

  function Parent(j: int): (i: int)
    requires j > 0
    ensures 0 <= i < j
  {
    (j - 1) / 2
  }

  /** Every edge inside the prefix of length n that does not touch position i is in order,
      and i's parent is in order with i's children. */
  ghost predicate OrderedAround(ks: seq<Key>, i: int, n: nat)
    requires n <= |ks|
  {
    && (forall c {:trigger ks[c]} :: 0 < c < n && c != i && Parent(c) != i ==> AtMost(ks[Parent(c)], ks[c]))
    && (forall c {:trigger ks[c]} :: 0 < i && 0 < c < n && Parent(c) == i ==> AtMost(ks[Parent(i)], ks[c]))
  }

  ghost predicate ParentInOrder(ks: seq<Key>, i: int, n: nat)
    requires n <= |ks|
  {
    0 < i < n ==> AtMost(ks[Parent(i)], ks[i])
  }

  ghost predicate ChildrenInOrder(ks: seq<Key>, i: nat, n: nat)
    requires n <= |ks|
  {
    forall c {:trigger ks[c]} :: 0 < c < n && Parent(c) == i ==> AtMost(ks[i], ks[c])
  }

  ghost predicate HeapOrdered(ks: seq<Key>, n: nat)
    requires n <= |ks|
  {
    forall c {:trigger ks[c]} :: 0 < c < n ==> AtMost(ks[Parent(c)], ks[c])
  }

  function Swapped<T>(s: seq<T>, i: nat, j: nat): (r: seq<T>)
    requires i < |s| && j < |s|
    ensures |r| == |s| && r[i] == s[j] && r[j] == s[i]
    ensures forall k :: 0 <= k < |s| && k != i && k != j ==> r[k] == s[k]
  {
    s[i := s[j]][j := s[i]]
  }

  lemma SiftUpKeepsOrder(ks: seq<Key>, j: nat, n: nat)
    requires 0 < j < n <= |ks|
    requires OrderedAround(ks, j, n) && ChildrenInOrder(ks, j, n)
    requires Before(ks[j], ks[Parent(j)])
    ensures OrderedAround(Swapped(ks, Parent(j), j), Parent(j), n)
    ensures ChildrenInOrder(Swapped(ks, Parent(j), j), Parent(j), n)
  {
    var p := Parent(j);
    var ks' := Swapped(ks, p, j);
    forall c | 0 < c < n && c != p && Parent(c) != p
      ensures AtMost(ks'[Parent(c)], ks'[c])
    {
      if Parent(c) != j {
        assert AtMost(ks[Parent(c)], ks[c]);
      }
    }
    forall c | 0 < c < n && Parent(c) == p
      ensures AtMost(ks'[p], ks'[c])
      ensures 0 < p ==> AtMost(ks'[Parent(p)], ks'[c])
    {
      if c != j {
        assert AtMost(ks[p], ks[c]);
      }
      if 0 < p {
        assert AtMost(ks[Parent(p)], ks[p]);
      }
    }
  }

  /** The child the sift-down picks: no later than its sibling. */
  ghost predicate LesserChild(ks: seq<Key>, i: nat, j: nat, n: nat)
    requires n <= |ks|
  {
    && 0 < j < n && Parent(j) == i
    && forall c {:trigger ks[c]} :: 0 < c < n && Parent(c) == i ==> AtMost(ks[j], ks[c])
  }

  lemma SiftDownKeepsOrder(ks: seq<Key>, i: nat, j: nat, n: nat)
    requires n <= |ks| && LesserChild(ks, i, j, n)
    requires OrderedAround(ks, i, n)
    requires Before(ks[j], ks[i])
    ensures OrderedAround(Swapped(ks, i, j), j, n)
    ensures ParentInOrder(Swapped(ks, i, j), i, n)
    ensures ParentInOrder(Swapped(ks, i, j), j, n)
  {
    var ks' := Swapped(ks, i, j);
    forall c | 0 < c < n && c != j && Parent(c) != j
      ensures AtMost(ks'[Parent(c)], ks'[c])
    {
      if c != i && Parent(c) != i {
        assert AtMost(ks[Parent(c)], ks[c]);
      }
    }
    forall c | 0 < c < n && Parent(c) == j
      ensures AtMost(ks'[Parent(j)], ks'[c])
    {
      assert AtMost(ks[Parent(c)], ks[c]);
    }
  }

  lemma OrderedEverywhere(ks: seq<Key>, i: nat, n: nat)
    requires n <= |ks|
    requires OrderedAround(ks, i, n) && ParentInOrder(ks, i, n) && ChildrenInOrder(ks, i, n)
    ensures HeapOrdered(ks, n)
  {
    forall c | 0 < c < n
      ensures AtMost(ks[Parent(c)], ks[c])
    {
      if c != i && Parent(c) != i {
        assert AtMost(ks[Parent(c)], ks[c]);
      }
    }
  }

  /** In a heap no key comes before the root's: none has a lower priority value, nor the same one and an
      earlier arrival. */
  lemma {:induction false} RootIsLeast(ks: seq<Key>, n: nat, j: nat)
    requires j < n <= |ks| && HeapOrdered(ks, n)
    ensures AtMost(ks[0], ks[j])
    ensures ks[0].priority < ks[j].priority || (ks[0].priority == ks[j].priority && ks[0].arrival <= ks[j].arrival)
  {
    if j > 0 {
      RootIsLeast(ks, n, Parent(j));
      assert AtMost(ks[Parent(j)], ks[j]);
    }
  }

  // ---- The mutable queue ----

  class Waiter {
    const priority: int
    var arrival: nat    // 0 until the first acquire
    var ready: bool     // the ready channel has been closed
    var index: int
    var granted: bool

    constructor (priority: int)
      ensures this.priority == priority && arrival == 0 && !ready && index == -1 && !granted
    {
      this.priority := priority;
      arrival, ready, index, granted := 0, false, -1, false;
    }

    function Order(): Key
      reads this`arrival
    {
      Key(priority, arrival)
    }
  }

  ghost predicate HaveKeys(q: seq<Waiter>, ks: seq<Key>)
    reads q`arrival
  {
    |ks| == |q| && forall i :: 0 <= i < |q| ==> ks[i] == q[i].Order()
  }

  ghost function KeysOf(q: seq<Waiter>): (ks: seq<Key>)
    reads q`arrival
    ensures HaveKeys(q, ks)
  {
    if q == [] then [] else KeysOf(q[..|q| - 1]) + [q[|q| - 1].Order()]
  }

  lemma KeysAreUnique(q: seq<Waiter>, ks: seq<Key>)
    requires HaveKeys(q, ks)
    ensures KeysOf(q) == ks
  {
  }

  class WaiterQueue {
    var q: seq<Waiter>
    ghost var members: set<Waiter>

    constructor ()
      ensures Valid() && members == {}
    {
      q := [];
      members := {};
    }

    /** Back-pointers and positions are inverse to each other, so no waiter is queued twice
        and q is a permutation of members. */
    ghost predicate Indexed()
      reads this, members`index
    {
      && (forall i :: 0 <= i < |q| ==> q[i] in members && q[i].index == i)
      && (forall w :: w in members ==> 0 <= w.index < |q| && q[w.index] == w)
    }

    ghost predicate Ordered()
      reads this, q`arrival
    {
      HeapOrdered(KeysOf(q), |q|)
    }

    ghost predicate Valid()
      reads this, members`index, members`arrival, q`arrival
    {
      Indexed() && Ordered()
    }

    predicate Less(i: nat, j: nat)
      requires i < |q| && j < |q|
      reads this, q`arrival
      ensures Less(i, j) == Before(q[i].Order(), q[j].Order())
    {
      if q[i].priority != q[j].priority then q[i].priority < q[j].priority
      else q[i].arrival < q[j].arrival
    }

    method Swap(i: nat, j: nat)
      requires i < |q| && j < |q| && Indexed()
      modifies this`q, members`index
      ensures Indexed() && q == Swapped(old(q), i, j)
    {
      q := q[i := q[j]][j := q[i]];
      q[i].index := i;
      q[j].index := j;
    }

    method Push(w: Waiter)
      requires Indexed() && w !in members
      modifies this, w`index
      ensures Indexed() && q == old(q) + [w] && members == old(members) + {w}
    {
      w.index := |q|;
      q := q + [w];
      members := members + {w};
    }

    method Pop() returns (w: Waiter)
      requires Indexed() && |q| > 0
      modifies this, members`index
      ensures Indexed() && w == old(q)[|old(q)| - 1] && w.index == -1
      ensures q == old(q)[..|old(q)| - 1] && members == old(members) - {w}
    {
      var n := |q|;
      w := q[n - 1];
      w.index := -1;
      q := q[..n - 1];
      members := members - {w};
    }

    /** container/heap up, inside the prefix of length n. */
    method Up(start: nat, ghost n: nat, ghost keys: seq<Key>) returns (ghost sifted: seq<Key>)
      requires start < n <= |q| && Indexed() && HaveKeys(q, keys)
      requires OrderedAround(keys, start, n) && ChildrenInOrder(keys, start, n)
      modifies this`q, members`index
      ensures Indexed() && |q| == |old(q)| && HaveKeys(q, sifted) && HeapOrdered(sifted, n)
      ensures forall k :: n <= k < |q| ==> q[k] == old(q)[k]
    {
      hide KeysOf, HeapOrdered, OrderedAround, ChildrenInOrder, ParentInOrder, LesserChild;
      var j: nat := start;
      sifted := keys;
      while true
        invariant j < n <= |q| && |q| == |old(q)| && Indexed() && HaveKeys(q, sifted)
        invariant OrderedAround(sifted, j, n) && ChildrenInOrder(sifted, j, n)
        invariant forall k :: n <= k < |q| ==> q[k] == old(q)[k]
        decreases j
      {
        var i: nat := if j == 0 then 0 else (j - 1) / 2;
        if i == j || !Less(j, i) {
          ParentSettled(sifted, j, n);
          break;
        }
        SiftUpKeepsOrder(sifted, j, n);
        Swap(i, j);
        sifted := Swapped(sifted, i, j);
        j := i;
      }
      OrderedEverywhere(sifted, j, n);
    }

    /** container/heap down, inside the prefix of length n; reports whether the element moved. */
    method Down(start: nat, n: nat, ghost keys: seq<Key>) returns (moved: bool, ghost sifted: seq<Key>)
      requires start <= n <= |q| && Indexed() && HaveKeys(q, keys)
      requires OrderedAround(keys, start, n)
      modifies this`q, members`index
      ensures Indexed() && |q| == |old(q)| && HaveKeys(q, sifted)
      ensures forall k :: n <= k < |q| ==> q[k] == old(q)[k]
      ensures if moved then HeapOrdered(sifted, n)
              else q == old(q) && sifted == keys && ChildrenInOrder(keys, start, n)
    {
      hide KeysOf, HeapOrdered, OrderedAround, ChildrenInOrder, ParentInOrder, LesserChild;
      var i := start;
      sifted := keys;
      while true
        invariant start <= i <= n <= |q| && |q| == |old(q)| && Indexed() && HaveKeys(q, sifted)
        invariant i == start ==> q == old(q) && sifted == keys
        invariant OrderedAround(sifted, i, n)
        invariant i > start ==> ParentInOrder(sifted, i, n)
        invariant forall k :: n <= k < |q| ==> q[k] == old(q)[k]
        decreases n - i
      {
        var j1 := 2 * i + 1;
        if j1 >= n {
          NoChildren(sifted, i, n);
          break;
        }
        var j := j1;
        if j1 + 1 < n && Less(j1 + 1, j1) {
          j := j1 + 1;
        }
        ChoosesLesserChild(sifted, i, j, n);
        if !Less(j, i) {
          break;
        }
        SiftDownKeepsOrder(sifted, i, j, n);
        Swap(i, j);
        sifted := Swapped(sifted, i, j);
        i := j;
      }
      moved := i > start;
      if moved {
        OrderedEverywhere(sifted, i, n);
      }
    }

    /** heap.Push. */
    method HeapPush(w: Waiter)
      requires Valid() && w !in members
      modifies this, w`index, members`index
      ensures Valid() && members == old(members) + {w}
    {
      hide KeysOf, HeapOrdered, OrderedAround, ChildrenInOrder, ParentInOrder, LesserChild;
      ghost var before := KeysOf(q);
      Push(w);
      ghost var keys := before + [w.Order()];
      AppendLeavesOneHole(before, w.Order());
      keys := Up(|q| - 1, |q|, keys);
      KeysAreUnique(q, keys);
    }

    lemma RootFirst()
      requires Valid() && |q| > 0
      ensures forall v :: v in members ==> AtMost(q[0].Order(), v.Order())
    {
      hide HeapOrdered;
      forall v | v in members
        ensures AtMost(q[0].Order(), v.Order())
      {
        RootIsLeast(KeysOf(q), |q|, v.index);
      }
    }

    /** heap.Pop: yields a least waiter and takes out exactly that one. */
    method HeapPop() returns (w: Waiter)
      requires Valid() && |q| > 0
      modifies this, members`index
      ensures Valid() && w in old(members) && members == old(members) - {w} && w.index == -1
      ensures forall v :: v in old(members) ==> AtMost(w.Order(), v.Order())
      ensures forall v :: v in old(members) ==>
                w.priority < v.priority || (w.priority == v.priority && w.arrival <= v.arrival)
    {
      hide KeysOf, HeapOrdered, OrderedAround, ChildrenInOrder, ParentInOrder, LesserChild;
      ghost var keys := KeysOf(q);
      var n := |q| - 1;
      RootFirst();
      RemovalLeavesOneHole(keys, 0, n);
      Swap(0, n);
      keys := Swapped(keys, 0, n);
      var moved;
      moved, keys := Down(0, n, keys);
      if !moved {
        RootHasNoParent(keys, n);
        OrderedEverywhere(keys, 0, n);
      }
      w := Pop();
      KeysAreUnique(q, keys[..n]);
      HeapPrefix(keys, n);
    }

    /** heap.Remove: takes out exactly the waiter at position i. */
    method HeapRemove(i: nat) returns (w: Waiter)
      requires Valid() && i < |q|
      modifies this, members`index
      ensures Valid() && w == old(q)[i] && members == old(members) - {w} && w.index == -1
    {
      hide KeysOf, HeapOrdered, OrderedAround, ChildrenInOrder, ParentInOrder, LesserChild;
      var n := |q| - 1;
      ghost var keys := KeysOf(q);
      if n == i {
        HeapShrinks(keys, n);
      } else {
        RemovalLeavesOneHole(keys, i, n);
        Swap(i, n);
        keys := Swapped(keys, i, n);
        var moved;
        moved, keys := Down(i, n, keys);
        if !moved {
          keys := Up(i, n, keys);
        }
      }
      w := Pop();
      KeysAreUnique(q, keys[..n]);
      HeapPrefix(keys, n);
    }
  }

  lemma ParentSettled(ks: seq<Key>, j: nat, n: nat)
    requires j < n <= |ks| && (j > 0 ==> AtMost(ks[Parent(j)], ks[j]))
    ensures ParentInOrder(ks, j, n)
  {
  }

  lemma NoChildren(ks: seq<Key>, i: nat, n: nat)
    requires n <= |ks| && 2 * i + 1 >= n
    ensures ChildrenInOrder(ks, i, n)
  {
  }

  lemma ChoosesLesserChild(ks: seq<Key>, i: nat, j: nat, n: nat)
    requires n <= |ks| && 2 * i + 1 < n
    requires j == if 2 * i + 2 < n && Before(ks[2 * i + 2], ks[2 * i + 1]) then 2 * i + 2 else 2 * i + 1
    ensures LesserChild(ks, i, j, n)
    ensures !Before(ks[j], ks[i]) ==> ChildrenInOrder(ks, i, n)
  {
    forall c | 0 < c < n && Parent(c) == i
      ensures AtMost(ks[j], ks[c])
    {
      assert c == 2 * i + 1 || c == 2 * i + 2;
    }
  }

  lemma AppendLeavesOneHole(ks: seq<Key>, k: Key)
    requires HeapOrdered(ks, |ks|)
    ensures OrderedAround(ks + [k], |ks|, |ks| + 1) && ChildrenInOrder(ks + [k], |ks|, |ks| + 1)
  {
    forall c | 0 < c < |ks|
      ensures AtMost((ks + [k])[Parent(c)], (ks + [k])[c])
    {
      assert AtMost(ks[Parent(c)], ks[c]);
    }
  }

  /** Moving the last key to position i leaves order broken at most around i. */
  lemma RemovalLeavesOneHole(ks: seq<Key>, i: nat, n: nat)
    requires i <= n < |ks| && HeapOrdered(ks, n + 1)
    ensures OrderedAround(Swapped(ks, i, n), i, n)
  {
    var ks' := Swapped(ks, i, n);
    forall c | 0 < c < n && c != i && Parent(c) != i
      ensures AtMost(ks'[Parent(c)], ks'[c])
    {
      assert AtMost(ks[Parent(c)], ks[c]);
    }
    forall c | 0 < c < n && Parent(c) == i && 0 < i
      ensures AtMost(ks'[Parent(i)], ks'[c])
    {
      assert AtMost(ks[Parent(c)], ks[c]) && AtMost(ks[Parent(i)], ks[i]);
    }
  }

  lemma HeapShrinks(ks: seq<Key>, n: nat)
    requires n < |ks| && HeapOrdered(ks, n + 1)
    ensures HeapOrdered(ks, n)
  {
  }

  lemma RootHasNoParent(ks: seq<Key>, n: nat)
    requires n <= |ks|
    ensures ParentInOrder(ks, 0, n)
  {
  }

  lemma HeapPrefix(ks: seq<Key>, n: nat)
    requires n <= |ks| && HeapOrdered(ks, n)
    ensures HeapOrdered(ks[..n], n)
  {
    forall c | 0 < c < n
      ensures AtMost(ks[..n][Parent(c)], ks[..n][c])
    {
      assert AtMost(ks[Parent(c)], ks[c]);
    }
  }
}
