/**
 The singly linked list that holds a queue of header elements. Elements are compared
 by identity, so that removing the element at the front of a queue takes exactly that
 one, because no element is queued twice.
 */
module Lists {

  function Values<T>(spine: seq<Node<T>>): (values: seq<T>)
    ensures |values| == |spine|
    ensures forall i :: 0 <= i < |spine| ==> values[i] == spine[i].data
  {
    if spine == [] then [] else [spine[0].data] + Values(spine[1..])
  }

  /** The sequence without any occurrence of x. */
  function Without<T(==)>(s: seq<T>, x: T): seq<T> {
    if s == [] then []
    else if s[0] == x then Without(s[1..], x)
    else [s[0]] + Without(s[1..], x)
  }

  lemma {:induction false} WithoutSnoc<T>(s: seq<T>, last: T, x: T)
    ensures Without(s + [last], x) == Without(s, x) + (if last == x then [] else [last])
  {
    if s == [] {
      assert [last][1..] == [];
    } else {
      assert (s + [last])[1..] == s[1..] + [last];
      WithoutSnoc(s[1..], last, x);
    }
  }

  /** A list whose first i elements have been filtered. */
  ghost function PartlyWithout<T>(s: seq<T>, x: T, i: nat): seq<T>
    requires i <= |s|
  {
    Without(s[..i], x) + s[i..]
  }

  /** Visiting element i takes it out of the partly filtered list, or keeps it. */
  lemma PartlyWithoutStep<T>(s: seq<T>, x: T, i: nat)
    requires i < |s|
    ensures var k := |Without(s[..i], x)|;
            var now := PartlyWithout(s, x, i);
            && k < |now| && now[k] == s[i]
            && PartlyWithout(s, x, i + 1) == (if s[i] == x then now[..k] + now[k + 1..] else now)
            && |Without(s[..i + 1], x)| == (if s[i] == x then k else k + 1)
  {
    WithoutSnoc(s[..i], s[i], x);
    assert s[..i + 1] == s[..i] + [s[i]];
  }

  lemma {:induction false} WithoutAbsent<T>(s: seq<T>, x: T)
    requires x !in s
    ensures Without(s, x) == s
  {
    if s == [] {
    } else {
      WithoutAbsent(s[1..], x);
    }
  }

  /** In a queue of distinct elements, removing the front element leaves the tail. */
  lemma WithoutFront<T>(s: seq<T>)
    requires s != [] && s[0] !in s[1..]
    ensures Without(s, s[0]) == s[1..]
  {
    WithoutAbsent(s[1..], s[0]);
  }

  /** Taking a node out of a spine takes its element out of the values. */
  lemma ValuesWithout<T>(spine: seq<Node<T>>, k: nat)
    requires k < |spine|
    ensures Values(spine[..k] + spine[k + 1..]) == Values(spine)[..k] + Values(spine)[k + 1..]
  {
    hide Values;
    var before, rest := Values(spine), spine[..k] + spine[k + 1..];
    var after := Values(rest);
    forall i | 0 <= i < |rest|
      ensures after[i] == (before[..k] + before[k + 1..])[i]
    {
      assert rest[i] == spine[if i < k then i else i + 1];
    }
  }

  class Node<T> {
    const data: T
    var next: Node?<T>

    constructor (data: T)
      ensures this.data == data && next == null
    {
      this.data, next := data, null;
    }
  }

  /** The k-th node of a spine, or null just past its end and beyond. */
  ghost function Nth<T>(spine: seq<Node<T>>, k: nat): Node?<T> {
    if k < |spine| then spine[k] else null
  }

  class HeaderList<T(==)> {
    var first: Node?<T>
    ghost var spine: seq<Node<T>>

    ghost predicate Valid()
      reads this, spine
    {
      && (forall i, j :: 0 <= i < j < |spine| ==> spine[i] != spine[j])
      && first == Nth(spine, 0)
      && forall i :: 0 <= i < |spine| ==> spine[i].next == Nth(spine, i + 1)
    }

    ghost function Elements(): seq<T>
      reads this
    {
      Values(spine)
    }

    constructor ()
      ensures Valid() && Elements() == []
    {
      first, spine := null, [];
    }

    method Append(element: T)
      requires Valid()
      modifies this, spine
      ensures Valid() && Elements() == old(Elements()) + [element]
      ensures forall n :: n in spine ==> n in old(spine) || fresh(n)
    {
      var node := new Node(element);
      if first == null {
        first, spine := node, [node];
        return;
      }
      var p := first;
      ghost var i := 0;
      while p.next != null
        invariant Valid() && node !in spine
        invariant 0 <= i < |spine| && p == spine[i]
        decreases |spine| - i
      {
        p := p.next;
        i := i + 1;
      }
      assert i == |spine| - 1;
      ghost var nodes := spine;
      p.next := node;
      spine := spine + [node];
      assert forall k :: 0 <= k < |nodes| ==> spine[k].next == Nth(spine, k + 1);
    }

    /** Takes the k-th node out of the chain and answers the one that follows it. */
    method Unlink(prev: Node?<T>, node: Node<T>, ghost k: nat) returns (next: Node?<T>)
      requires Valid() && k < |spine| && node == spine[k]
      requires k > 0 ==> prev == spine[k - 1]
      modifies this, if k > 0 then {spine[k - 1]} else {}
      ensures Valid() && |spine| == old(|spine|) - 1
      ensures forall j :: 0 <= j < |spine| ==> spine[j] in old(spine)
      ensures k > 0 ==> spine[k - 1] == prev
      ensures next == Nth(spine, k)
      ensures Elements() == old(Elements())[..k] + old(Elements())[k + 1..]
    {
      hide Values;
      ghost var nodes := spine;
      ValuesWithout(spine, k);
      if node == first {
        first := node.next;
      } else {
        prev.next := node.next;
      }
      next := node.next;
      spine := nodes[..k] + nodes[k + 1..];
      forall i | 0 <= i < |spine|
        ensures spine[i] == nodes[if i < k then i else i + 1] && spine[i].next == Nth(spine, i + 1)
      {
        assert i != k - 1 ==> nodes[if i < k then i else i + 1] != prev || k == 0;
      }
    }

    /** The state of a removal that has visited the first i elements. */
    ghost predicate Removing(values: seq<T>, element: T, i: nat, prev: Node?<T>, next: Node?<T>)
      reads this, spine
    {
      && Valid() && i <= |values|
      && Elements() == PartlyWithout(values, element, i)
      && var k := |Without(values[..i], element)|;
      && |spine| - k == |values| - i
      && next == Nth(spine, k)
      && (k > 0 ==> prev == spine[k - 1])
    }

    /** Visits one element: unlinks it, or steps over it. */
    method Visit(element: T, prev: Node?<T>, node: Node<T>, ghost values: seq<T>, ghost i: nat)
        returns (prev': Node?<T>, next: Node?<T>)
      requires Removing(values, element, i, prev, node)
      modifies this, spine
      ensures Removing(values, element, i + 1, prev', next) && i < |values|
      ensures forall j :: 0 <= j < |spine| ==> spine[j] in old(spine)
    {
      hide Without, PartlyWithout;
      ghost var k := |Without(values[..i], element)|;
      PartlyWithoutStep(values, element, i);
      if node.data == element {
        next := Unlink(prev, node, k);
        prev' := prev;
      } else {
        prev', next := node, node.next;
      }
    }

    /** Removes every occurrence of an element. */
    method Remove(element: T)
      requires Valid()
      modifies this, spine
      ensures Valid() && Elements() == Without(old(Elements()), element)
      ensures forall j :: 0 <= j < |spine| ==> spine[j] in old(spine)
    {
      if first == null {
        return;
      }
      var prev, next := first, first;
      ghost var values := Elements();
      ghost var i := 0;
      while next != null
        invariant Removing(values, element, i, prev, next)
        invariant forall j :: 0 <= j < |spine| ==> spine[j] in old(spine)
        decreases |values| - i
      {
        prev, next := Visit(element, prev, next, values, i);
        i := i + 1;
      }
      assert values[..i] == values;
    }
  }
}
