/** The doubly linked list of challenges/doubleLinkedList.c: nodes with a content and
    `next`/`prev` links, and `append_to`, which inserts a new node right behind a parent.

    `malloc` leaves a node's fields indeterminate. The ghost field `nextSet` records whether
    `next` has been written since the node was allocated; reading `next` while it is unset
    is reading an indeterminate pointer. */
module LinkedList {
  class Node {
    var content: int
    var next: Node?
    var prev: Node?
    ghost var nextSet: bool

    /** `malloc(sizeof(node))` followed by `content = v`: `next` and `prev` are not set. */
    constructor Allocate(v: int)
      ensures content == v && !nextSet
    {
      content := v;
      next := null;
      prev := null;
      nextSet := false;
    }
  }

  /** `list` is a chain of distinct nodes, each one's `next` the following node and each
      following node's `prev` the one before it; the last node's `next` is a written NULL. */
  ghost predicate Linked(list: seq<Node>)
    reads list
  {
    (forall i, j :: 0 <= i < j < |list| ==> list[i] != list[j])
    && (forall i :: 0 <= i < |list| - 1 ==> list[i].nextSet && list[i].next == list[i + 1])
    && (forall i :: 1 <= i < |list| ==> list[i].prev == list[i - 1])
    && (|list| > 0 ==> list[|list| - 1].nextSet && list[|list| - 1].next == null)
  }

  /** The contents along a chain. */
  ghost function Contents(list: seq<Node>): (s: seq<int>)
    reads list
    ensures |s| == |list| && forall i :: 0 <= i < |list| ==> s[i] == list[i].content
  {
    if list == [] then [] else Contents(list[..|list| - 1]) + [list[|list| - 1].content]
  }

  /** `append_to` as written: the new node links back to the parent and becomes its
      successor; a former successor follows the new node. When the parent had no successor
      the new node's `next` is never written. */
  method AppendToAsWritten(parent: Node, val: int)
    requires parent.nextSet
    modifies parent, parent.next
    ensures parent.nextSet && parent.next != null && fresh(parent.next)
    ensures parent.next.content == val && parent.next.prev == parent
    ensures old(parent.next) == null ==> !parent.next.nextSet
    ensures old(parent.next) != null ==>
      parent.next.nextSet && parent.next.next == old(parent.next) && old(parent.next).prev == parent.next
    ensures parent.content == old(parent.content)
    ensures old(parent.next) != parent ==> parent.prev == old(parent.prev)
  {
    var child := new Node.Allocate(val);
    child.prev := parent;
    if parent.next == null {
      parent.next := child;
    } else {
      var parentNext := parent.next;
      parent.next := child;
      child.next := parentNext;
      child.nextSet := true;
      parentNext.prev := child;
    }
  }

  /** `append_to` with the new node's `next` set to NULL when the parent has no successor:
      the node is inserted into the chain right after the parent, and the chain stays
      linked. Only the parent, the new node and the former successor change. */
  method AppendTo(parent: Node, val: int, ghost list: seq<Node>, ghost k: nat) returns (ghost result: seq<Node>)
    requires k < |list| && list[k] == parent && Linked(list)
    modifies parent, parent.next
    ensures parent.next != null && fresh(parent.next) && parent.next.content == val
    ensures result == list[..k + 1] + [parent.next] + list[k + 1..]
    ensures Linked(result)
    ensures Contents(result) == old(Contents(list))[..k + 1] + [val] + old(Contents(list))[k + 1..]
  {
    ghost var succ := parent.next;
    assert k + 1 < |list| ==> succ == list[k + 1];
    assert k + 1 == |list| ==> succ == null;
    ghost var before := Contents(list);
    var child := new Node.Allocate(val);
    child.prev := parent;
    child.next := null;
    child.nextSet := true;
    if parent.next == null {
      parent.next := child;
    } else {
      var parentNext := parent.next;
      parent.next := child;
      child.next := parentNext;
      parentNext.prev := child;
    }
    result := list[..k + 1] + [child] + list[k + 1..];
    forall i | 0 <= i < |list| && i != k
      ensures list[i].next == old(list[i].next) && list[i].nextSet == old(list[i].nextSet)
    {
      assert list[i] != parent;
    }
    forall i | 0 <= i < |list| && i != k + 1
      ensures list[i].prev == old(list[i].prev)
    {
      assert k + 1 < |list| ==> list[i] != list[k + 1];
    }
    LinkedInsertion(list, k, child, result);
    assert forall i :: 0 <= i < |list| ==> list[i].content == before[i];
    ContentsOfInsertion(list, k, child, result, before);
  }

  /** The contents of a chain with a node inserted after position k: that node's content
      inserted after position k of the chain's contents. */
  lemma ContentsOfInsertion(list: seq<Node>, k: nat, child: Node, result: seq<Node>, before: seq<int>)
    requires k < |list| && |before| == |list|
    requires forall i :: 0 <= i < |list| ==> list[i].content == before[i]
    requires result == list[..k + 1] + [child] + list[k + 1..]
    ensures Contents(result) == before[..k + 1] + [child.content] + before[k + 1..]
  {
    var after := Contents(result);
    var expected := before[..k + 1] + [child.content] + before[k + 1..];
    forall i | 0 <= i < |result|
      ensures after[i] == expected[i]
    {
      if i <= k {
        assert result[i] == list[i];
      } else if i > k + 1 {
        assert result[i] == list[i - 1];
      }
    }
  }

  /** Inserting a node after position k of a chain, with the links the insertion writes,
      gives a chain. */
  lemma LinkedInsertion(list: seq<Node>, k: nat, child: Node, result: seq<Node>)
    requires k < |list| && child !in list
    requires forall i, j :: 0 <= i < j < |list| ==> list[i] != list[j]
    requires forall i :: 0 <= i < |list| - 1 && i != k ==> list[i].nextSet && list[i].next == list[i + 1]
    requires forall i :: 1 <= i < |list| && i != k + 1 ==> list[i].prev == list[i - 1]
    requires list[k].nextSet && list[k].next == child && child.prev == list[k] && child.nextSet
    requires k + 1 < |list| ==> child.next == list[k + 1] && list[k + 1].prev == child
    requires k + 1 < |list| ==> list[|list| - 1].nextSet && list[|list| - 1].next == null
    requires k + 1 == |list| ==> child.next == null
    requires result == list[..k + 1] + [child] + list[k + 1..]
    ensures Linked(result)
  {
    assert forall i :: 0 <= i <= k ==> result[i] == list[i];
    assert result[k + 1] == child;
    assert forall i :: k + 2 <= i < |result| ==> result[i] == list[i - 1];
  }

  /** `main` with head's `next` written NULL before the first append: 2, then 4 appended
      after the head, then 3 appended after the head, gives the chain 2, 3, 4. */
  method MainAppendsInOrder() returns (head: Node, ghost chain: seq<Node>)
    ensures |chain| == 3 && chain[0] == head
    ensures Linked(chain) && Contents(chain) == [2, 3, 4]
  {
    head := new Node.Allocate(2);
    head.next := null;
    head.nextSet := true;
    ghost var one := [head];
    assert Contents(one) == [2];
    ghost var two := AppendTo(head, 4, one, 0);
    assert [2][..1] + [4] + [2][1..] == [2, 4];
    chain := AppendTo(head, 3, two, 0);
    assert [2, 4][..1] + [3] + [2, 4][1..] == [2, 3, 4];
  }

  /** `main` as written: the head comes straight from `malloc`, so the first `append_to`
      reads an indeterminate `next`. */
  method MallocedHead() returns (head: Node)
    ensures head.content == 2 && !head.nextSet
  {
    head := new Node.Allocate(2);
  }
}
