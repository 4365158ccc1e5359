/** The singly linked queue of source/sio/intrusive_queue.hpp: every operation refines the operation
    on the sequence of its items. */
module IntrusiveQueue {
  import opened Sequences

  class Item<T> {
    var next: Item?<T>
    const value: T

    constructor (value: T)
      ensures this.value == value
    {
      this.value := value;
    }
  }

  /** The items from `first` on, linked by next and ended by null. */
  ghost predicate Linked<T>(first: Item?<T>, items: seq<Item<T>>)
    reads items
  {
    && (items == [] <==> first == null)
    && (items != [] ==> first == items[0] && items[|items| - 1].next == null)
    && (forall i | 0 <= i < |items| - 1 :: items[i].next == items[i + 1])
  }

  lemma LinkedTail<T>(first: Item?<T>, items: seq<Item<T>>)
    requires Linked(first, items) && items != []
    ensures Linked(items[0].next, items[1..])
  {
    forall i | 0 <= i < |items[1..]| - 1 ensures items[1..][i].next == items[1..][i + 1] {
      assert items[1..][i] == items[i + 1] && items[1..][i + 1] == items[i + 2];
    }
    if |items| > 1 { assert items[0].next == items[1] && items[1..][|items| - 2] == items[|items| - 1]; }
  }

  lemma LinkedCons<T>(item: Item<T>, items: seq<Item<T>>)
    requires Linked(item.next, items)
    ensures Linked(item, [item] + items)
  {
    var all := [item] + items;
    forall i | 0 <= i < |all| - 1 ensures all[i].next == all[i + 1] {
      if i > 0 { assert all[i] == items[i - 1] && all[i + 1] == items[i]; }
    }
  }

  /** Two chains become one when the last item of the first leads to the second. */
  lemma LinkedConcat<T>(first: Item?<T>, a: seq<Item<T>>, b: seq<Item<T>>)
    requires a != [] && first == a[0] && (forall i | 0 <= i < |a| - 1 :: a[i].next == a[i + 1])
    requires Linked(a[|a| - 1].next, b)
    ensures Linked(first, a + b)
  {
    var all := a + b;
    forall i | 0 <= i < |all| - 1 ensures all[i].next == all[i + 1] {
      if i >= |a| { assert all[i] == b[i - |a|] && all[i + 1] == b[i - |a| + 1]; }
    }
  }

  class Queue<T> {
    var head: Item?<T>
    var tail: Item?<T>
    ghost var items: seq<Item<T>>

    ghost predicate Valid()
      reads this, items
    {
      && Distinct(items)
      && Linked(head, items)
      && (items == [] <==> tail == null)
      && (items != [] ==> tail == items[|items| - 1])
    }

    constructor ()
      ensures Valid() && items == []
    {
      head, tail, items := null, null, [];
    }

    constructor Adopt(head: Item?<T>, tail: Item?<T>, ghost items: seq<Item<T>>)
      requires Distinct(items) && Linked(head, items)
      requires if items == [] then tail == null else tail == items[|items| - 1]
      ensures Valid() && this.items == items
    {
      this.head, this.tail, this.items := head, tail, items;
    }

    /** Turns the links of the list that starts at `list` around, in place. */
    static method ReverseLinks(list: Item?<T>, ghost linked: seq<Item<T>>) returns (newHead: Item?<T>)
      requires Linked(list, linked) && Distinct(linked)
      modifies linked
      ensures Linked(newHead, Reverse(linked))
    {
      newHead := null;
      var rest := list;
      ghost var done: seq<Item<T>>, todo := [], linked;
      while rest != null
        invariant Reverse(linked) == Reverse(todo) + done
        invariant Linked(rest, todo) && Linked(newHead, done)
        invariant |todo| <= |linked| && todo == linked[|linked| - |todo|..]
        invariant forall i, j | 0 <= i < |todo| && 0 <= j < |done| :: todo[i] != done[j]
        decreases |todo|
      {
        LinkedTail(rest, todo);
        ReverseShift(todo, done);
        var next := rest.next;
        rest.next := newHead;
        LinkedCons(rest, done);
        newHead := rest;
        rest := next;
        done, todo := [todo[0]] + done, todo[1..];
      }
      assert Reverse(todo) + done == done;
    }

    /** Reverses the list that starts at `list` in place and makes it the contents of a queue. */
    static method MakeReversed(list: Item?<T>, ghost linked: seq<Item<T>>) returns (q: Queue<T>)
      requires Linked(list, linked) && Distinct(linked)
      modifies linked
      ensures fresh(q) && q.Valid() && q.items == Reverse(linked)
      ensures multiset(q.items) == multiset(linked)
    {
      var newHead := ReverseLinks(list, linked);
      ReverseReverse(linked);
      ReverseDistinct(linked);
      q := new Queue<T>.Adopt(newHead, list, Reverse(linked));
    }

    method PopFront() returns (item: Item<T>)
      requires Valid() && items != []
      modifies this
      ensures Valid() && item == old(items)[0] && items == old(items)[1..]
    {
      LinkedTail(head, items);
      item := head;
      head := head.next;
      if item.next == null {
        tail := null;
      }
      items := items[1..];
    }

    method PushFront(item: Item<T>)
      requires Valid() && item !in items
      modifies this, item
      ensures Valid() && items == [item] + old(items)
    {
      item.next := head;
      head := item;
      if tail == null {
        tail := item;
      }
      items := [item] + items;
    }

    method PushBack(item: Item<T>)
      requires Valid() && item !in items
      modifies this, item, items
      ensures Valid() && items == old(items) + [item]
    {
      item.next := null;
      if tail == null {
        head := item;
      } else {
        tail.next := item;
      }
      tail := item;
      items := items + [item];
    }

    /** Takes all items of `other` behind its own; `other` is left empty. */
    method Append(other: Queue<T>)
      requires Valid() && other.Valid() && other != this
      requires forall i, j | 0 <= i < |items| && 0 <= j < |other.items| :: items[i] != other.items[j]
      modifies this, other, items
      ensures Valid() && items == old(items) + old(other.items)
      ensures other.Valid() && other.items == []
    {
      if other.head == null {
        return;
      }
      if head == null {
        head := other.head;
      } else {
        tail.next := other.head;
        LinkedConcat(head, items, other.items);
      }
      tail := other.tail;
      items := items + other.items;
      other.head, other.tail, other.items := null, null, [];
    }

    /** Takes all items of `other` before its own; `other` is left empty. */
    method Prepend(other: Queue<T>)
      requires Valid() && other.Valid() && other != this
      requires forall i, j | 0 <= i < |items| && 0 <= j < |other.items| :: items[i] != other.items[j]
      modifies this, other, other.items
      ensures Valid() && items == old(other.items) + old(items)
      ensures other.Valid() && other.items == []
    {
      if other.head == null {
        return;
      }
      other.tail.next := head;
      LinkedConcat(other.head, other.items, items);
      head := other.head;
      if tail == null {
        tail := other.tail;
      }
      items := other.items + items;
      other.head, other.tail, other.items := null, null, [];
    }
  }

  /** In a valid queue next leads through the items and nowhere back: walking k links from the head
      reaches item k, and null after the last. */
  ghost function Walk<T>(first: Item?<T>, k: nat): Item?<T>
    reads *
  {
    if k == 0 || first == null then first else Walk(first.next, k - 1)
  }

  lemma {:induction false} WalkFollowsItems<T>(first: Item?<T>, items: seq<Item<T>>, k: nat)
    requires Linked(first, items) && k <= |items|
    ensures Walk(first, k) == if k < |items| then items[k] else null
    decreases k
  {
    if k > 0 && items != [] {
      LinkedTail(first, items);
      WalkFollowsItems(first.next, items[1..], k - 1);
    }
  }
}
