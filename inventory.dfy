/** The inventory hook (src/hooks/useInventory.ts): a fixed number of slots,
    each empty or holding an item; an item goes into the lowest empty slot,
    and a slot is emptied by index. */
module Inventory {
  import opened Types

  type Slot = Option<InventoryItem>

  /** The slot count when the hook is given none. */
  const DefaultMaxSize: nat := 5

  /** `slots.findIndex(slot => slot === null)`: the lowest index of an empty
      slot, or -1 when every slot holds an item. */
  function FirstEmpty(slots: seq<Slot>): (i: int)
    ensures i == -1 <==> forall k :: 0 <= k < |slots| ==> slots[k].Some?
    ensures i != -1 ==> 0 <= i < |slots| && slots[i].None? && forall k :: 0 <= k < i ==> slots[k].Some?
    decreases |slots|
  {
    if slots == [] then -1
    else if slots[0].None? then 0
    else
      var r := FirstEmpty(slots[1..]);
      if r == -1 then -1 else r + 1
  }

  /** The slots after `addItem(item)`: the slot count is kept; with an empty
      slot the item goes into the lowest empty slot and every other slot is
      kept; with none nothing changes. */
  function Added(slots: seq<Slot>, item: InventoryItem): (r: seq<Slot>)
    ensures |r| == |slots|
    ensures FirstEmpty(slots) == -1 ==> r == slots
    ensures FirstEmpty(slots) != -1 ==>
              var i := FirstEmpty(slots);
              slots[i].None? && (forall k :: 0 <= k < i ==> slots[k].Some?) && r[i] == Some(item) &&
              forall k :: 0 <= k < |slots| && k != i ==> r[k] == slots[k]
  {
    var i := FirstEmpty(slots);
    if i == -1 then slots else slots[i := Some(item)]
  }

  /** The slots after `removeItem(index)`: the slot count is kept; an index in
      range empties that slot only, any other index changes nothing. */
  function Removed(slots: seq<Slot>, index: int): (r: seq<Slot>)
    ensures |r| == |slots|
    ensures 0 <= index < |slots| ==> r[index] == None && forall k :: 0 <= k < |slots| && k != index ==> r[k] == slots[k]
    ensures !(0 <= index < |slots|) ==> r == slots
  {
    if 0 <= index < |slots| then slots[index := None] else slots
  }

  /** The number of slots that hold an item. */
  function Occupied(slots: seq<Slot>): nat
    decreases |slots|
  {
    if slots == [] then 0 else (if slots[0].Some? then 1 else 0) + Occupied(slots[1..])
  }

  /** Removing the slot an add has just filled gives back the slots as they
      were before the add. */
  lemma RemoveUndoesAdd(slots: seq<Slot>, item: InventoryItem)
    requires FirstEmpty(slots) != -1
    ensures Removed(Added(slots, item), FirstEmpty(slots)) == slots
  {
    var i := FirstEmpty(slots);
    assert slots[i] == None;
    assert Added(slots, item)[i := None] == slots[i := None];
  }

  /** Writing one slot changes the item count by what leaves and what enters it. */
  lemma {:induction false} OccupiedAfterUpdate(slots: seq<Slot>, i: int, v: Slot)
    requires 0 <= i < |slots|
    ensures Occupied(slots[i := v]) ==
            Occupied(slots) - (if slots[i].Some? then 1 else 0) + (if v.Some? then 1 else 0)
    decreases |slots|
  {
    if i > 0 {
      OccupiedAfterUpdate(slots[1..], i - 1, v);
      assert slots[i := v][1..] == slots[1..][i - 1 := v];
    } else {
      assert slots[i := v][1..] == slots[1..];
    }
  }

  /** A successful add holds one item more; removing an occupied slot one item less. */
  lemma ItemCount(slots: seq<Slot>, item: InventoryItem, index: int)
    ensures FirstEmpty(slots) != -1 ==> Occupied(Added(slots, item)) == Occupied(slots) + 1
    ensures FirstEmpty(slots) == -1 ==> Occupied(slots) == |slots|
    ensures 0 <= index < |slots| && slots[index].Some? ==>
              Occupied(Removed(slots, index)) == Occupied(slots) - 1
  {
    if FirstEmpty(slots) != -1 {
      OccupiedAfterUpdate(slots, FirstEmpty(slots), Some(item));
    } else {
      FullCount(slots);
    }
    if 0 <= index < |slots| {
      OccupiedAfterUpdate(slots, index, None);
    }
  }

  lemma {:induction false} FullCount(slots: seq<Slot>)
    requires forall k :: 0 <= k < |slots| ==> slots[k].Some?
    ensures Occupied(slots) == |slots|
    decreases |slots|
  {
    if slots != [] {
      FullCount(slots[1..]);
    }
  }

  /** The hook's `items` state. Each update replaces the array with a fresh
      copy in which one slot is written. */
  class Slots {
    var items: array<Slot>

    /** `Array(maxSize).fill(null)` */
    constructor (maxSize: nat)
      ensures fresh(items)
      ensures items.Length == maxSize && forall k :: 0 <= k < maxSize ==> items[k] == None
    {
      items := new Slot[maxSize](_ => None);
    }

    /** `useInventory()` with the default argument: `DefaultMaxSize` empty slots. */
    constructor Default()
      ensures fresh(items)
      ensures items.Length == DefaultMaxSize && forall k :: 0 <= k < DefaultMaxSize ==> items[k] == None
    {
      items := new Slot[DefaultMaxSize](_ => None);
    }

    /** `addItem(item)`: true, with the item in the lowest empty slot of a new
        array, when there is an empty slot; false and no change otherwise. */
    method AddItem(item: InventoryItem) returns (added: bool)
      modifies this
      ensures added <==> FirstEmpty(old(items[..])) != -1
      ensures items[..] == Added(old(items[..]), item)
      ensures added ==> fresh(items)
      ensures !added ==> items == old(items)
    {
      var emptySlot := FirstEmpty(items[..]);
      if emptySlot != -1 {
        var current := items;
        var newItems := new Slot[current.Length](k requires 0 <= k < current.Length reads current => current[k]);
        newItems[emptySlot] := Some(item);
        items := newItems;
        return true;
      }
      return false;
    }

    /** `removeItem(index)`: an index in range empties that slot in a new
        array; any other index changes nothing. */
    method RemoveItem(index: int)
      modifies this
      ensures items[..] == Removed(old(items[..]), index)
      ensures 0 <= index < old(items.Length) ==> fresh(items)
      ensures !(0 <= index < old(items.Length)) ==> items == old(items)
    {
      if index >= 0 && index < items.Length {
        var current := items;
        var newItems := new Slot[current.Length](k requires 0 <= k < current.Length reads current => current[k]);
        newItems[index] := None;
        items := newItems;
      }
    }
  }
}
