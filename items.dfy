/** The line-item operations of the quote builder: add or update from the item form, delete by id,
    and clone to the tail. Fresh ids (`Math.random().toString(36)` in the page) are supplied by the caller. */
module Items {
  import opened Wrappers
  import opened Types
  import opened Totals

  /** The item form (a partial item). An emptied quantity or rate input reads as 0; the unit may be unset. */
  datatype ItemDraft = ItemDraft(description: string, quantity: real, unit: Option<Unit>, rate: real)

  /** The form as it is first shown and after every submission. */
  const EmptyDraft := ItemDraft("", 1.0, Some(Sqft), 0.0)

  /** Editing an item loads all of its fields into the form. */
  function DraftOf(item: QuoteItem): (r: ItemDraft)
    ensures r.description == item.description && r.quantity == item.quantity
    ensures r.unit == Some(item.unit) && r.rate == item.rate
  {
    ItemDraft(item.description, item.quantity, Some(item.unit), item.rate)
  }

  /** The submit guard: a description and a non-zero rate are required. */
  predicate CanSubmit(draft: ItemDraft)
  {
    draft.description != "" && draft.rate != 0.0
  }

  /** The item a submission stores: quantity 0 becomes 1, an unset unit becomes sqft, and the total is
      quantity times rate. */
  function BuildItem(draft: ItemDraft, id: string): (r: QuoteItem)
    ensures r.id == id && r.description == draft.description && r.rate == draft.rate
    ensures r.total == r.quantity * r.rate
    ensures r.quantity == if draft.quantity == 0.0 then 1.0 else draft.quantity
    ensures r.unit == if draft.unit.Some? then draft.unit.value else Sqft
  {
    var quantity := if draft.quantity == 0.0 then 1.0 else draft.quantity;
    var unit := if draft.unit.Some? then draft.unit.value else Sqft;
    // the guard has already excluded a zero rate, so `rate || 0` is the rate itself
    QuoteItem(id, draft.description, quantity, unit, draft.rate, quantity * draft.rate)
  }

  /** The id of a submitted item: the edited item's id unless that is empty, otherwise a fresh one. */
  function SubmittedId(editing: Option<QuoteItem>, freshId: string): (r: string)
    ensures editing.Some? && editing.value.id != "" ==> r == editing.value.id
    ensures editing.None? || editing.value.id == "" ==> r == freshId
  {
    if editing.Some? && editing.value.id != "" then editing.value.id else freshId
  }

  /** Every item whose id is `id` replaced by `item`; all other positions keep their item. */
  function ReplaceById(items: seq<QuoteItem>, id: string, item: QuoteItem): (r: seq<QuoteItem>)
    ensures |r| == |items|
    ensures forall k :: 0 <= k < |r| ==> r[k] == if items[k].id == id then item else items[k]
  {
    if items == [] then []
    else [if items[0].id == id then item else items[0]] + ReplaceById(items[1..], id, item)
  }

  /** The items whose id differs from `id`, in their original order. */
  function DeleteById(items: seq<QuoteItem>, id: string): seq<QuoteItem>
  {
    if items == [] then []
    else (if items[0].id == id then [] else [items[0]]) + DeleteById(items[1..], id)
  }

  /** An item survives a delete exactly when it was there and carries another id. */
  lemma {:induction false} DeleteKeepsOthers(items: seq<QuoteItem>, id: string)
    ensures |DeleteById(items, id)| <= |items|
    ensures forall it :: it in DeleteById(items, id) <==> it in items && it.id != id
    decreases |items|
  {
    if items != [] {
      DeleteKeepsOthers(items[1..], id);
      assert items == [items[0]] + items[1..];
      forall it ensures it in items <==> it == items[0] || it in items[1..] {
      }
    }
  }

  /** The copy a clone appends: a fresh id and " (Copy)" after the description; every other field,
      the stored total included, is the source's. */
  function CloneOf(source: QuoteItem, freshId: string): (r: QuoteItem)
    ensures r.id == freshId && r.description == source.description + " (Copy)"
    ensures r.(id := source.id, description := source.description) == source
  {
    source.(id := freshId, description := source.description + " (Copy)")
  }

  /** The item list after the item form is submitted: unchanged when the guard fails; otherwise the
      built item replaces the edited one, or is appended when nothing is being edited. */
  function SubmitItems(items: seq<QuoteItem>, draft: ItemDraft, editing: Option<QuoteItem>,
                       freshId: string): seq<QuoteItem>
  {
    if !CanSubmit(draft) then items
    else
      var item := BuildItem(draft, SubmittedId(editing, freshId));
      if editing.Some? then ReplaceById(items, editing.value.id, item) else items + [item]
  }

  /** The item list after a clone: the copy goes to the tail, wherever the source stands. */
  function CloneItems(items: seq<QuoteItem>, source: QuoteItem, freshId: string): seq<QuoteItem>
  {
    items + [CloneOf(source, freshId)]
  }

  function Ids(items: seq<QuoteItem>): set<string>
  {
    set k | 0 <= k < |items| :: items[k].id
  }

  predicate UniqueIds(items: seq<QuoteItem>)
  {
    forall i, j :: 0 <= i < j < |items| ==> items[i].id != items[j].id
  }

  /** The item's stored total equals its quantity times its rate. */
  predicate CachedTotal(item: QuoteItem)
  {
    item.total == item.quantity * item.rate
  }

  /** Every stored total equals quantity times rate. */
  predicate TotalsCached(items: seq<QuoteItem>)
  {
    forall k :: 0 <= k < |items| ==> CachedTotal(items[k])
  }

  // ---------------------------------------------------------------- add and update

  /** A submission that fails the guard changes nothing. */
  lemma SubmitRefused(items: seq<QuoteItem>, draft: ItemDraft, editing: Option<QuoteItem>, freshId: string)
    requires draft.description == "" || draft.rate == 0.0
    ensures SubmitItems(items, draft, editing, freshId) == items
  {
  }

  /** Adding appends exactly one item at the tail, leaves the others where they were and raises the
      subtotal by quantity times rate. */
  lemma SubmitAdds(items: seq<QuoteItem>, draft: ItemDraft, freshId: string)
    requires CanSubmit(draft)
    ensures var r := SubmitItems(items, draft, None, freshId);
      && |r| == |items| + 1 && r[..|items|] == items
      && r[|items|] == BuildItem(draft, freshId)
      && Subtotal(r) == Subtotal(items) + r[|items|].quantity * draft.rate
  {
    var item := BuildItem(draft, freshId);
    assert SubmitItems(items, draft, None, freshId) == items + [item];
    SubtotalAppend(items, [item]);
    assert Subtotal([item]) == Subtotal([item][..0]) + item.total;
  }

  /** Updating replaces exactly the items carrying the edited id, keeps the length and every other
      position, and (for a non-empty id) keeps the id of every position. */
  lemma SubmitEdits(items: seq<QuoteItem>, draft: ItemDraft, edited: QuoteItem, freshId: string)
    requires CanSubmit(draft)
    ensures var r := SubmitItems(items, draft, Some(edited), freshId);
      && |r| == |items|
      && (forall k :: 0 <= k < |r| && items[k].id != edited.id ==> r[k] == items[k])
      && (forall k :: 0 <= k < |r| && items[k].id == edited.id ==>
            r[k] == BuildItem(draft, SubmittedId(Some(edited), freshId)))
      && (edited.id != "" ==> forall k :: 0 <= k < |r| ==> r[k].id == items[k].id)
  {
  }

  /** Adding 10 units at 100 to an empty quotation with 18% tax: the stored item totals 1000, and the
      recomputed quotation has tax 180 and grand total 1180. */
  lemma AddThenTaxScenario(d: QuoteData, description: string, unit: Option<Unit>, freshId: string)
    requires description != "" && d.items == []
    requires d.gst == 18.0 && d.showGST && !d.showDiscount && d.advance == 0.0
    ensures var added := SubmitItems(d.items, ItemDraft(description, 10.0, unit, 100.0), None, freshId);
      && |added| == 1 && added[0].quantity == 10.0 && added[0].rate == 100.0 && added[0].total == 1000.0
      && var r := Recompute(d.(items := added));
         r.subtotal == 1000.0 && r.taxAmount == 180.0 && r.grandTotal == 1180.0 && r.balance == 1180.0
  {
    var draft := ItemDraft(description, 10.0, unit, 100.0);
    var item := BuildItem(draft, freshId);
    assert SubmitItems(d.items, draft, None, freshId) == [item];
    TaxOnlyScenario(d.(items := [item]), item);
  }

  /** Submitting keeps ids unique when the fresh id is new (for an add, or for an edited item whose id
      is empty) and keeps every stored total equal to quantity times rate. */
  lemma SubmitKeepsInvariants(items: seq<QuoteItem>, draft: ItemDraft, editing: Option<QuoteItem>,
                              freshId: string)
    requires UniqueIds(items) && TotalsCached(items)
    requires (editing.Some? && editing.value.id != "") || freshId !in Ids(items)
    ensures UniqueIds(SubmitItems(items, draft, editing, freshId))
    ensures TotalsCached(SubmitItems(items, draft, editing, freshId))
  {
    if CanSubmit(draft) {
      var item := BuildItem(draft, SubmittedId(editing, freshId));
      assert CachedTotal(item);
      if editing.None? {
        AppendFreshKeepsUnique(items, item);
        ExtendKeepsCached(items, item);
      } else {
        assert item.id == editing.value.id || item.id !in Ids(items);
        ReplaceKeepsUnique(items, editing.value.id, item);
        ReplaceKeepsCached(items, editing.value.id, item);
      }
    }
  }

  lemma ExtendKeepsCached(items: seq<QuoteItem>, item: QuoteItem)
    requires TotalsCached(items) && CachedTotal(item)
    ensures TotalsCached(items + [item])
  {
  }

  lemma ReplaceKeepsCached(items: seq<QuoteItem>, id: string, item: QuoteItem)
    requires TotalsCached(items) && CachedTotal(item)
    ensures TotalsCached(ReplaceById(items, id, item))
  {
    var r := ReplaceById(items, id, item);
    forall k | 0 <= k < |r| ensures CachedTotal(r[k]) {
      if items[k].id == id {
        assert r[k] == item;
      } else {
        assert r[k] == items[k];
      }
    }
  }

  /** Replacing by id keeps ids unique when the new item carries the replaced id or a new one. */
  lemma ReplaceKeepsUnique(items: seq<QuoteItem>, id: string, item: QuoteItem)
    requires UniqueIds(items) && (item.id == id || item.id !in Ids(items))
    ensures UniqueIds(ReplaceById(items, id, item))
  {
    var r := ReplaceById(items, id, item);
    forall i, j | 0 <= i < j < |r| ensures r[i].id != r[j].id {
      if items[i].id == id && items[j].id == id {
        assert false;
      } else if items[i].id == id || items[j].id == id {
        assert items[i].id in Ids(items) && items[j].id in Ids(items);
      }
    }
  }

  lemma AppendFreshKeepsUnique(items: seq<QuoteItem>, item: QuoteItem)
    requires UniqueIds(items) && item.id !in Ids(items)
    ensures UniqueIds(items + [item])
  {
    var r := items + [item];
    forall i, j | 0 <= i < j < |r| ensures r[i].id != r[j].id {
      if j == |items| {
        assert r[i].id == items[i].id && items[i].id in Ids(items);
      }
    }
  }

  // --------------------------------------------------------------------- delete

  /** Deleting commutes with concatenation: what survives keeps its relative order. */
  lemma {:induction false} DeleteAppend(a: seq<QuoteItem>, b: seq<QuoteItem>, id: string)
    ensures DeleteById(a + b, id) == DeleteById(a, id) + DeleteById(b, id)
    decreases |a|
  {
    if a == [] {
      assert a + b == b;
    } else {
      assert (a + b)[0] == a[0] && (a + b)[1..] == a[1..] + b;
      DeleteAppend(a[1..], b, id);
    }
  }

  /** Deleting an id no item carries is a no-op. */
  lemma {:induction false} DeleteUnknownIsNoop(items: seq<QuoteItem>, id: string)
    requires id !in Ids(items)
    ensures DeleteById(items, id) == items
    decreases |items|
  {
    if items != [] {
      assert items[0].id in Ids(items);
      assert Ids(items[1..]) <= Ids(items) by {
        forall x | x in Ids(items[1..]) ensures x in Ids(items) {
          var k :| 0 <= k < |items[1..]| && items[1..][k].id == x;
          assert items[k + 1].id == x;
        }
      }
      DeleteUnknownIsNoop(items[1..], id);
      assert [items[0]] + items[1..] == items;
    }
  }

  /** With unique ids, deleting the id of the item at position k removes exactly that item and keeps
      the rest in order. */
  lemma DeleteRemovesOne(items: seq<QuoteItem>, k: nat)
    requires UniqueIds(items) && k < |items|
    ensures DeleteById(items, items[k].id) == items[..k] + items[k + 1..]
  {
    IdOnlyAt(items, k);
    SplitAt(items, k);
    DeleteAround(items[..k], items[k], items[k + 1..]);
  }

  /** Deleting the id of an item that is the only one carrying it removes just that item. */
  lemma DeleteAround(before: seq<QuoteItem>, item: QuoteItem, after: seq<QuoteItem>)
    requires item.id !in Ids(before) && item.id !in Ids(after)
    ensures DeleteById(before + [item] + after, item.id) == before + after
  {
    var id := item.id;
    calc {
      DeleteById(before + [item] + after, id);
      == { DeleteAppend(before + [item], after, id); }
      DeleteById(before + [item], id) + DeleteById(after, id);
      == { DeleteAppend(before, [item], id); }
      DeleteById(before, id) + DeleteById([item], id) + DeleteById(after, id);
      == { DeleteUnknownIsNoop(before, id); DeleteUnknownIsNoop(after, id); DeleteOfMatching(item); }
      before + [] + after;
    }
    assert before + [] == before;
  }

  /** A single item is deleted by its own id. */
  lemma DeleteOfMatching(item: QuoteItem)
    ensures DeleteById([item], item.id) == []
  {
    assert [item][1..] == [];
  }

  lemma SplitAt(items: seq<QuoteItem>, k: nat)
    requires k < |items|
    ensures items == (items[..k] + [items[k]]) + items[k + 1..]
  {
  }

  /** Deleting that item lowers the subtotal by its total. */
  lemma DeleteLowersSubtotal(items: seq<QuoteItem>, k: nat)
    requires UniqueIds(items) && k < |items|
    ensures Subtotal(DeleteById(items, items[k].id)) == Subtotal(items) - items[k].total
  {
    var before, x, after := items[..k], items[k], items[k + 1..];
    calc {
      Subtotal(DeleteById(items, x.id));
      == { DeleteRemovesOne(items, k); }
      Subtotal(before + after);
      == { SubtotalAppend(before, after); }
      Subtotal(before) + Subtotal(after);
      == { SubtotalAround(before, x, after); }
      Subtotal(before + [x] + after) - x.total;
      == { SplitAt(items, k); }
      Subtotal(items) - x.total;
    }
  }

  /** An item in the middle contributes its total to the subtotal. */
  lemma SubtotalAround(before: seq<QuoteItem>, x: QuoteItem, after: seq<QuoteItem>)
    ensures Subtotal(before + [x] + after) == Subtotal(before) + x.total + Subtotal(after)
  {
    SubtotalAppend(before + [x], after);
    SubtotalAppend(before, [x]);
    assert Subtotal([x]) == Subtotal([x][..0]) + x.total;
  }

  lemma IdOnlyAt(items: seq<QuoteItem>, k: nat)
    requires UniqueIds(items) && k < |items|
    ensures items[k].id !in Ids(items[..k]) && items[k].id !in Ids(items[k + 1..])
  {
  }

  /** Deleting keeps ids unique and stored totals consistent. */
  lemma DeleteKeepsInvariants(items: seq<QuoteItem>, id: string)
    requires UniqueIds(items) && TotalsCached(items)
    ensures UniqueIds(DeleteById(items, id)) && TotalsCached(DeleteById(items, id))
  {
    if id in Ids(items) {
      var k :| 0 <= k < |items| && items[k].id == id;
      DeleteRemovesOne(items, k);
      RemoveAtKeepsInvariants(items, k);
    } else {
      DeleteUnknownIsNoop(items, id);
    }
  }

  lemma RemoveAtKeepsInvariants(items: seq<QuoteItem>, k: nat)
    requires UniqueIds(items) && TotalsCached(items) && k < |items|
    ensures UniqueIds(items[..k] + items[k + 1..]) && TotalsCached(items[..k] + items[k + 1..])
  {
    var r := items[..k] + items[k + 1..];
    assert forall i :: 0 <= i < |r| ==> r[i] == items[if i < k then i else i + 1];
  }

  // ---------------------------------------------------------------------- clone

  /** Cloning adds exactly one item, last, with the fresh id, the " (Copy)" description and the
      source's other fields; the subtotal grows by the source's total. */
  lemma CloneAppendsCopy(items: seq<QuoteItem>, source: QuoteItem, freshId: string)
    ensures var r := CloneItems(items, source, freshId);
      && |r| == |items| + 1 && r[..|items|] == items
      && r[|items|].id == freshId && r[|items|].description == source.description + " (Copy)"
      && r[|items|].quantity == source.quantity && r[|items|].unit == source.unit
      && r[|items|].rate == source.rate && r[|items|].total == source.total
      && Subtotal(r) == Subtotal(items) + source.total
  {
    var c := CloneOf(source, freshId);
    SubtotalAppend(items, [c]);
    assert Subtotal([c]) == Subtotal([c][..0]) + c.total;
  }

  /** A clone never collides with an existing id when the fresh id is new, and it copies a consistent
      total when the source's was. */
  lemma CloneKeepsInvariants(items: seq<QuoteItem>, source: QuoteItem, freshId: string)
    requires UniqueIds(items) && TotalsCached(items) && freshId !in Ids(items)
    requires CachedTotal(source)
    ensures UniqueIds(CloneItems(items, source, freshId)) && TotalsCached(CloneItems(items, source, freshId))
    ensures freshId in Ids(CloneItems(items, source, freshId))
  {
    var r := CloneItems(items, source, freshId);
    AppendFreshKeepsUnique(items, CloneOf(source, freshId));
    assert r[|items|].id == freshId;
  }
}
