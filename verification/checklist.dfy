/**
 * The checklist page's local state: ticking, editing and deleting items, the
 * guard in front of a drag-and-drop reorder, and the progress figures.
 */
module Checklist {
  import opened Wrappers
  import opened Seqs

  datatype Item = Item(id: string, title: string, done: bool, assigneeRole: string, dueDate: Option<int>)

  /**
   * `toggleItem(itemId, currentDone)` after a successful store update: every
   * item with that id gets `done := !currentDone`.
   */
  function ToggleItem(items: seq<Item>, itemId: string, currentDone: bool): (r: seq<Item>)
    ensures |r| == |items|
    ensures forall i :: 0 <= i < |r| && items[i].id != itemId ==> r[i] == items[i]
    ensures forall i :: 0 <= i < |r| && items[i].id == itemId ==> r[i] == items[i].(done := !currentDone)
  {
    seq(|items|, i requires 0 <= i < |items| =>
          if items[i].id == itemId then items[i].(done := !currentDone) else items[i])
  }

  /** Every item with id `itemId` is ticked exactly when `done` says so. */
  predicate DoneIs(items: seq<Item>, itemId: string, done: bool) {
    forall i :: 0 <= i < |items| && items[i].id == itemId ==> items[i].done == done
  }

  /** Clicking an item's checkbox twice (each time passing its shown state) restores the list. */
  lemma ToggleTwiceRestores(items: seq<Item>, itemId: string, done: bool)
    requires DoneIs(items, itemId, done)
    ensures DoneIs(ToggleItem(items, itemId, done), itemId, !done)
    ensures ToggleItem(ToggleItem(items, itemId, done), itemId, !done) == items
  {
    var twice := ToggleItem(ToggleItem(items, itemId, done), itemId, !done);
    assert forall i :: 0 <= i < |items| ==> twice[i] == items[i];
  }

  /**
   * The local update `handleSaveEdit` intends after a successful save: the item
   * with the edited id is replaced by the edit. The store the page calls does
   * not define `updateChecklistItem`, so as written the handler fails before
   * reaching this update.
   */
  function ReplaceItem(items: seq<Item>, edited: Item): (r: seq<Item>)
    ensures |r| == |items|
    ensures forall i :: 0 <= i < |r| ==> r[i] == (if items[i].id == edited.id then edited else items[i])
  {
    seq(|items|, i requires 0 <= i < |items| => if items[i].id == edited.id then edited else items[i])
  }

  /** Saving the same edit twice is the same as saving it once; the edit is present iff its id was. */
  lemma ReplaceIdempotent(items: seq<Item>, edited: Item)
    ensures ReplaceItem(ReplaceItem(items, edited), edited) == ReplaceItem(items, edited)
    ensures edited in ReplaceItem(items, edited) <==> edited in items || exists i :: 0 <= i < |items| && items[i].id == edited.id
  {
    var r := ReplaceItem(items, edited);
    if edited in items {
      var k :| 0 <= k < |items| && items[k] == edited;
      assert r[k] == edited;
    }
    if edited in r {
      var k :| 0 <= k < |r| && r[k] == edited;
      assert items[k].id == edited.id || items[k] == edited;
    }
  }

  function IdIsNot(itemId: string): Item -> bool {
    (item: Item) => item.id != itemId
  }

  /**
   * The local update `handleDeleteItem` intends after a successful delete:
   * `items.filter(i => i.id !== itemId)`. The store the page calls does not
   * define `deleteChecklistItem`, so as written the handler fails before
   * reaching this update.
   */
  function DeleteItem(items: seq<Item>, itemId: string): (r: seq<Item>)
    ensures forall i :: 0 <= i < |r| ==> r[i].id != itemId
    ensures forall x :: x in r <==> x in items && x.id != itemId
    ensures IsSubsequence(r, items)
    ensures |r| == |items| - Count(items, (item: Item) => item.id == itemId)
  {
    FilterIsSubsequence(items, IdIsNot(itemId));
    DeleteCount(items, itemId);
    Filter(items, IdIsNot(itemId))
  }

  lemma {:induction false} DeleteCount(items: seq<Item>, itemId: string)
    ensures |Filter(items, IdIsNot(itemId))| == |items| - Count(items, (item: Item) => item.id == itemId)
  {
    if |items| > 0 {
      DeleteCount(items[1..], itemId);
    }
  }

  /** Deleting an id that is not in the list changes nothing; deleting twice is deleting once. */
  lemma DeleteAbsentOrTwice(items: seq<Item>, itemId: string)
    ensures (forall i :: 0 <= i < |items| ==> items[i].id != itemId) ==> DeleteItem(items, itemId) == items
    ensures DeleteItem(DeleteItem(items, itemId), itemId) == DeleteItem(items, itemId)
  {
    var once := DeleteItem(items, itemId);
    assert forall i :: 0 <= i < |once| ==> IdIsNot(itemId)(once[i]);
  }

  /**
   * `handleDragEnd`'s guard: a drop outside any item or onto the dragged item
   * itself does nothing; otherwise the pair (dragged, target) goes to the reorder.
   */
  function DragRequest(activeId: string, overId: Option<string>): (r: Option<(string, string)>)
    ensures r.None? <==> overId.None? || overId.value == activeId
    ensures r.Some? ==> r.value.0 == activeId && r.value.1 == overId.value && r.value.0 != r.value.1
  {
    match overId
    case None => None
    case Some(target) => if target == activeId then None else Some((activeId, target))
  }

  function IsDone(item: Item): bool { item.done }

  /** `items.filter(i => i.done).length`. */
  function CompletedCount(items: seq<Item>): (n: nat)
    ensures n <= |items|
    ensures n == |items| <==> forall i :: 0 <= i < |items| ==> items[i].done
    ensures n == 0 <==> forall i :: 0 <= i < |items| ==> !items[i].done
  {
    CountExtremes(items, IsDone);
    Count(items, IsDone)
  }

  /** The percentage shown in the progress bar, before rounding. */
  function Progress(items: seq<Item>): (p: real)
    ensures 0.0 <= p <= 100.0
    ensures |items| == 0 ==> p == 0.0
    ensures |items| > 0 ==> (p == 100.0 <==> CompletedCount(items) == |items|)
  {
    if |items| > 0 then
      var c := CompletedCount(items) as real;
      var n := |items| as real;
      RatioBounds(c, n);
      (c / n) * 100.0
    else 0.0
  }

  lemma RatioBounds(c: real, n: real)
    requires 0.0 <= c <= n && n > 0.0
    ensures 0.0 <= c / n <= 1.0
    ensures c / n == 1.0 <==> c == n
  {
    var q := c / n;
    assert q * n == c;
    assert (1.0 - q) * n == n - c;
    assert (1.0 - q) * n >= 0.0;
    assert q <= 1.0;
    if q == 1.0 {
      assert c == 1.0 * n;
    }
    if c == n {
      assert (q - 1.0) * n == 0.0;
    }
  }

  /** Ticking one unticked item with a unique id raises the completed count by one. */
  lemma {:induction false} ToggleRaisesCount(items: seq<Item>, k: nat)
    requires k < |items| && !items[k].done
    requires forall i :: 0 <= i < |items| && i != k ==> items[i].id != items[k].id
    ensures CompletedCount(ToggleItem(items, items[k].id, false)) == CompletedCount(items) + 1
  {
    var r := ToggleItem(items, items[k].id, false);
    CountSplit(items, k, IsDone);
    CountSplit(r, k, IsDone);
    assert r[..k] == items[..k];
    assert r[k + 1..] == items[k + 1..];
  }

}
