/** The doubly linked list of source/sio/intrusive_list.hpp.  push_back, pop_front and erase refine
    append, drop-first and removal on the sequence of items, from the empty list on. */
module IntrusiveList {
  import opened Sequences

  class Item<T> {
    var next: Item?<T>
    var prev: Item?<T>
    const value: T

    constructor (value: T)
      ensures this.value == value
    {
      this.value := value;
    }
  }

  class List<T> {
    var head: Item?<T>
    var tail: Item?<T>
    ghost var items: seq<Item<T>>

    /** next and prev are inverse to one another and follow the items; head and tail are the ends. */
    ghost predicate Valid()
      reads this, items
    {
      && Distinct(items)
      && (items == [] ==> head == null && tail == null)
      && (items != [] ==>
            head == items[0] && tail == items[|items| - 1] && items[0].prev == null && items[|items| - 1].next == null)
      && (forall i {:trigger items[i].next} | 0 <= i < |items| - 1 :: items[i].next == items[i + 1])
      && (forall i {:trigger items[i].prev} | 0 < i < |items| :: items[i].prev == items[i - 1])
    }

    constructor ()
      ensures Valid() && items == []
    {
      head, tail, items := null, null, [];
    }

    method Empty() returns (r: bool)
      requires Valid()
      ensures r <==> items == []
    {
      r := head == null;
    }

    method PopFront() returns (item: Item<T>)
      requires Valid() && items != []
      modifies this, items
      ensures Valid() && item == old(items)[0] && items == old(items)[1..]
      ensures item.prev == null && item.next == head
    {
      item := head;
      head := head.next;
      if item.next == null {
        tail := null;
      } else {
        item.next.prev := null;
      }
      items := items[1..];
    }

    method PushBack(item: Item<T>)
      requires Valid() && item !in items
      modifies this, item, items
      ensures Valid() && items == old(items) + [item]
    {
      item.next := null;
      item.prev := tail;
      if tail == null {
        head := item;
      } else {
        tail.next := item;
      }
      tail := item;
      items := items + [item];
    }

    /** Unlinks an item at any position k. */
    method Erase(item: Item<T>, ghost k: nat)
      requires Valid() && k < |items| && items[k] == item
      modifies this, items
      ensures Valid() && items == Without(old(items), k)
    {
      if item.prev == null {
        head := item.next;
      } else {
        item.prev.next := item.next;
      }
      if item.next == null {
        tail := item.prev;
      } else {
        item.next.prev := item.prev;
      }
      ghost var was := items;
      items := Without(items, k);
      forall i | 0 <= i < |items| - 1 ensures items[i].next == items[i + 1] {
        assert items[i] == was[if i < k then i else i + 1] && items[i + 1] == was[if i + 1 < k then i + 1 else i + 2];
      }
      forall i | 0 < i < |items| ensures items[i].prev == items[i - 1] {
        assert items[i] == was[if i < k then i else i + 1] && items[i - 1] == was[if i - 1 < k then i - 1 else i];
      }
    }

    /** erase of an item that has left the list by pop_front and still carries the links it left with, no
        prev and the next it had: the list survives if and only if its first item is still that next, or
        there was none and the list is empty.  If there was none, a list that has grown since is emptied. */
    method ErasePopped(item: Item<T>)
      requires Valid() && item !in items && item.prev == null
      modifies this, items, if item.next == null then {} else {item.next}
      ensures items == old(items)
      ensures Valid() <==> old(item.next) == old(head)
      ensures old(item.next) == null ==> head == null && tail == null
    {
      head := item.next;
      if item.next == null {
        tail := item.prev;
      } else {
        item.next.prev := item.prev;
      }
    }
  }

  /** A list is valid as long as nobody writes to it and its items. */
  twostate lemma StaysValid<T>(list: List<T>)
    requires old(list.Valid()) && unchanged(list)
    requires forall x | x in list.items :: x.next == old(x.next) && x.prev == old(x.prev)
    ensures list.Valid()
  {
    var items := list.items;
    forall i | 0 <= i < |items| ensures items[i].next == old(items[i].next) && items[i].prev == old(items[i].prev) {
      assert items[i] in list.items;
    }
  }

  /** Erasing the item that was pushed last undoes the push. */
  method PushThenErase<T>(list: List<T>, item: Item<T>)
    requires list.Valid() && item !in list.items
    modifies list, list.items, item
    ensures list.Valid() && list.items == old(list.items)
  {
    ghost var k := |list.items|;
    list.PushBack(item);
    list.Erase(item, k);
  }

  /** Links lead both ways: from an item to its successor and back. */
  lemma NextAndPrevAreInverse<T>(list: List<T>, item: Item<T>)
    requires list.Valid() && item in list.items
    ensures item.next != null ==> item.next in list.items && item.next.prev == item
    ensures item.prev != null ==> item.prev in list.items && item.prev.next == item
    ensures item.next == null <==> item == list.tail
    ensures item.prev == null <==> item == list.head
  {
    var i :| 0 <= i < |list.items| && list.items[i] == item;
    if i + 1 < |list.items| { assert list.items[i + 1].prev == list.items[i]; }
    if i > 0 { assert list.items[i - 1].next == list.items[i]; }
  }
}
