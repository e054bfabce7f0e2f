/** The drag-reorder engine (src/hooks/useDragAndDrop.ts): it remembers the
    item whose drag started and, on a drop, moves that item to the drop
    index in a copy of the list and hands the copy to the caller. */
module DragAndDrop {
  import opened Wrappers

  /** `Array.prototype.findIndex` on identity: the first index whose item's
      key is `id`, or -1 when there is none. */
  function IndexOfKey<T>(items: seq<T>, key: T -> string, id: string): (r: int)
    ensures -1 <= r < |items|
    ensures r == -1 <==> forall i :: 0 <= i < |items| ==> key(items[i]) != id
    ensures r != -1 ==> key(items[r]) == id
    ensures forall i :: 0 <= i < r ==> key(items[i]) != id
  {
    if |items| == 0 then -1
    else if key(items[0]) == id then 0
    else
      var k := IndexOfKey(items[1..], key, id);
      if k == -1 then -1 else k + 1
  }

  /** `s.splice(i, 1)`: `s` without its element at `i`. */
  function Remove<T>(s: seq<T>, i: nat): (r: seq<T>)
    requires i < |s|
    ensures |r| == |s| - 1
    ensures forall k :: 0 <= k < i ==> r[k] == s[k]
    ensures forall k :: i <= k < |r| ==> r[k] == s[k + 1]
  {
    s[..i] + s[i + 1..]
  }

  /** `s.splice(i, 0, x)`: `s` with `x` inserted so that it sits at `i`. */
  function Insert<T>(s: seq<T>, i: nat, x: T): (r: seq<T>)
    requires i <= |s|
    ensures |r| == |s| + 1
    ensures r[i] == x
    ensures forall k :: 0 <= k < i ==> r[k] == s[k]
    ensures forall k :: i < k < |r| ==> r[k] == s[k - 1]
  {
    s[..i] + [x] + s[i..]
  }

  /** Where `splice` starts for a start argument `start` on a list of
      length `len`: a negative start counts from the end, and the result
      is clamped to `0..len`. */
  function SpliceStart(start: int, len: nat): (r: nat)
    ensures r <= len
    ensures 0 <= start <= len ==> r == start
    ensures start > len ==> r == len
    ensures start < 0 ==> r == (if len + start < 0 then 0 else len + start)
  {
    if start < 0 then (if len + start < 0 then 0 else len + start)
    else if start > len then len
    else start
  }

  /** What a drop of `dragged` at `target` emits, or `None` when the drop
      is ignored: the item is found by key and moved, and the item that is
      put back is `dragged` itself, as the drag recorded it. */
  function Reorder<T>(items: seq<T>, key: T -> string, dragged: T, target: int): (r: Option<seq<T>>)
    ensures var cur := IndexOfKey(items, key, key(dragged));
      r.None? <==> cur == -1 || cur == target
    ensures r.Some? ==> |r.value| == |items|
  {
    var cur := IndexOfKey(items, key, key(dragged));
    if cur == -1 || cur == target then None
    else
      var rest := Remove(items, cur);
      Some(Insert(rest, SpliceStart(target, |rest|), dragged))
  }

  /** A successful drop at a card index puts the dragged item at that index. */
  lemma ReorderPlacesDragged<T>(items: seq<T>, key: T -> string, dragged: T, target: int)
    requires 0 <= target < |items|
    requires Reorder(items, key, dragged, target).Some?
    ensures Reorder(items, key, dragged, target).value[target] == dragged
  {
  }

  /** Taking the dragged item back out of the emitted list gives the input
      list without the item that had its key: every other item keeps its
      relative order. */
  lemma ReorderKeepsOthers<T>(items: seq<T>, key: T -> string, dragged: T, target: int)
    requires 0 <= target < |items|
    requires Reorder(items, key, dragged, target).Some?
    ensures var cur := IndexOfKey(items, key, key(dragged));
      0 <= cur && Remove(Reorder(items, key, dragged, target).value, target) == Remove(items, cur)
  {
  }

  /** The emitted list position by position: outside the span between the
      old and the new index nothing moves, inside it the others shift one
      place towards the old index. */
  lemma ReorderShifts<T>(items: seq<T>, key: T -> string, dragged: T, target: int, k: int)
    requires 0 <= target < |items|
    requires Reorder(items, key, dragged, target).Some?
    requires 0 <= k < |items| && k != target
    ensures var cur := IndexOfKey(items, key, key(dragged));
      var r := Reorder(items, key, dragged, target).value;
      && (k < cur && k < target ==> r[k] == items[k])
      && (k > cur && k > target ==> r[k] == items[k])
      && (cur < target && cur <= k < target ==> r[k] == items[k + 1])
      && (target < cur && target < k <= cur ==> r[k] == items[k - 1])
  {
  }

  /** Inserting adds exactly one occurrence of the inserted item. */
  lemma InsertMultiset<T>(s: seq<T>, i: nat, x: T)
    requires i <= |s|
    ensures multiset(Insert(s, i, x)) == multiset(s) + multiset{x}
  {
    assert s == s[..i] + s[i..];
    assert Insert(s, i, x) == s[..i] + ([x] + s[i..]);
  }

  /** Removing takes away exactly one occurrence of the removed item. */
  lemma RemoveMultiset<T>(s: seq<T>, i: nat)
    requires i < |s|
    ensures multiset(Remove(s, i)) + multiset{s[i]} == multiset(s)
  {
    assert s == s[..i] + ([s[i]] + s[i + 1..]);
    assert Remove(s, i) == s[..i] + s[i + 1..];
  }

  /** When the recorded item is the list's item with that key, the emitted
      list is a permutation of the input. */
  lemma ReorderPermutes<T>(items: seq<T>, key: T -> string, dragged: T, target: int)
    requires Reorder(items, key, dragged, target).Some?
    requires items[IndexOfKey(items, key, key(dragged))] == dragged
    ensures multiset(Reorder(items, key, dragged, target).value) == multiset(items)
  {
    var cur := IndexOfKey(items, key, key(dragged));
    var rest := Remove(items, cur);
    RemoveMultiset(items, cur);
    InsertMultiset(rest, SpliceStart(target, |rest|), dragged);
  }

  /** Dropping the first of three cards on the last index moves it to the end. */
  lemma ReorderExample(key: string -> string)
    requires forall s :: key(s) == s
    ensures Reorder(["A", "B", "C"], key, "A", 2) == Some(["B", "C", "A"])
  {
    var items := ["A", "B", "C"];
    assert key(items[0]) == "A";
    assert IndexOfKey(items, key, key("A")) == 0;
    assert Remove(items, 0) == ["B", "C"];
    assert SpliceStart(2, 2) == 2;
    assert Insert(["B", "C"], 2, "A") == ["B", "C", "A"];
  }

  /** The hook's state: the item whose drag started, if any. The list and
      the reorder callback are the caller's; a drop receives the list and
      returns what it would pass to `onReorder`. */
  class DragAndDropState<T> {
    var draggedItem: Option<T>
    /** The identity of an item, its `id` field. */
    const key: T -> string

    constructor (key: T -> string)
      ensures draggedItem == None
      ensures this.key == key
    {
      draggedItem := None;
      this.key := key;
    }

    /** Remembers `item` as the item being dragged. */
    method HandleDragStart(item: T)
      modifies this`draggedItem
      ensures draggedItem == Some(item)
    {
      draggedItem := Some(item);
    }

    /** Only allows the drop (the platform's default is suppressed): no
        state changes. */
    method HandleDragOver(index: int)
      ensures draggedItem == old(draggedItem)
    {
    }

    /** A drop on card `targetIndex`. Without a recorded drag nothing
        happens. When the recorded item's key is not in the list, or it
        already sits at `targetIndex`, nothing is emitted and the record
        stays. Otherwise the reordered copy is emitted and the record is
        cleared. `items` itself is only read. */
    method HandleDrop(items: array<T>, targetIndex: int) returns (reordered: Option<seq<T>>)
      modifies this`draggedItem
      ensures old(draggedItem).None? ==> reordered.None?
      ensures old(draggedItem).Some? ==>
        reordered == Reorder(items[..], key, old(draggedItem).value, targetIndex)
      ensures draggedItem == if reordered.Some? then None else old(draggedItem)
    {
      if draggedItem.None? {
        return None;
      }
      var dragged := draggedItem.value;
      var currentIndex := IndexOfKey(items[..], key, key(dragged));
      if currentIndex == -1 || currentIndex == targetIndex {
        return None;
      }
      var newItems := items[..];
      newItems := Remove(newItems, currentIndex);
      newItems := Insert(newItems, SpliceStart(targetIndex, |newItems|), dragged);
      reordered := Some(newItems);
      draggedItem := None;
    }
  }
}
