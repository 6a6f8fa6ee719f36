/** The pre-filing checklist: items toggled by id, a completed counter and a
    "complete" flag that holds when every item is checked. */
module Checklist {
  import opened Seqs
  import opened JobModel

  /** `items.map(item => item.id === id ? {...item, checked: !item.checked} : item)`. */
  function Toggled(items: seq<ChecklistItem>, id: string): (r: seq<ChecklistItem>)
    ensures |r| == |items|
    ensures forall i :: 0 <= i < |items| ==> r[i].id == items[i].id && r[i].labelText == items[i].labelText
    ensures forall i :: 0 <= i < |items| ==> r[i].checked == (if items[i].id == id then !items[i].checked else items[i].checked)
  {
    seq(|items|, i requires 0 <= i < |items| =>
      if items[i].id == id then items[i].(checked := !items[i].checked) else items[i])
  }

  /** Toggling the same id twice gives back the original list. */
  lemma ToggleTwice(items: seq<ChecklistItem>, id: string)
    ensures Toggled(Toggled(items, id), id) == items
  {
    var r := Toggled(Toggled(items, id), id);
    assert forall i :: 0 <= i < |items| ==> r[i] == items[i];
  }

  /** Toggling an id no item has changes nothing. */
  lemma ToggleUnknownId(items: seq<ChecklistItem>, id: string)
    requires forall i :: 0 <= i < |items| ==> items[i].id != id
    ensures Toggled(items, id) == items
  {
    var r := Toggled(items, id);
    assert forall i :: 0 <= i < |items| ==> r[i] == items[i];
  }

  predicate IsChecked(item: ChecklistItem) { item.checked }

  function CompletedCount(items: seq<ChecklistItem>): nat
  {
    |Filter(items, IsChecked)|
  }

  predicate IsComplete(items: seq<ChecklistItem>)
  {
    CompletedCount(items) == |items|
  }

  /** The counter never exceeds the total; the list is complete exactly when every
      item is checked, so an empty list is complete. */
  lemma CompletionSpec(items: seq<ChecklistItem>)
    ensures CompletedCount(items) <= |items|
    ensures IsComplete(items) <==> forall i :: 0 <= i < |items| ==> items[i].checked
    ensures IsComplete([])
  {
    if forall i :: 0 <= i < |items| ==> items[i].checked {
      FilterAllPass(items, IsChecked);
    } else {
      var k :| 0 <= k < |items| && !items[k].checked;
      FilterShorterWhenOneFails(items, IsChecked, k);
    }
  }

  class ChecklistCard {
    var items: seq<ChecklistItem>

    constructor (initialItems: seq<ChecklistItem>)
      ensures items == initialItems
    {
      items := initialItems;
    }

    method HandleToggle(id: string)
      modifies this
      ensures items == Toggled(old(items), id)
    {
      items := Toggled(items, id);
    }

    function Badge(): string
      reads this
    {
      if IsComplete(items) then "status-cleared" else "status-pending"
    }
  }
}
