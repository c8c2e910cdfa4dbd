/** Editing an existing purchase order: line quantities and unit prices,
    the recomputed total, and the factory name. */
module PurchaseEdit {
  import opened Wrappers
  import opened Ledger

  /** A requested change to the line with id `id`; an absent field keeps its value. */
  datatype ItemEdit = ItemEdit(id: int, quantity: Option<int>, unitPrice: Option<real>)

  /** The request body of an edit; both parts are optional. */
  datatype EditRequest = EditRequest(items: Option<seq<ItemEdit>>, factoryName: Option<string>)

  /** The position of the first line with id `id` (`items.find`). */
  function FindLine(items: seq<PurchaseItem>, id: int): (r: Option<nat>)
    ensures r.Some? ==> r.value < |items| && items[r.value].id == id
                        && forall j :: 0 <= j < r.value ==> items[j].id != id
    ensures r.None? ==> forall j :: 0 <= j < |items| ==> items[j].id != id
  {
    if |items| == 0 then None
    else if items[0].id == id then Some(0)
    else match FindLine(items[1..], id)
      case None => None
      case Some(i) => Some(i + 1)
  }

  /** The line after one edit: absent fields keep their old value and the
      line total is recomputed. */
  function EditLine(it: PurchaseItem, e: ItemEdit): PurchaseItem
  {
    var quantity := e.quantity.GetOr(it.quantity);
    var unitPrice := e.unitPrice.GetOr(it.unitPrice);
    it.(quantity := quantity, unitPrice := unitPrice, totalPrice := unitPrice * (quantity as real))
  }

  datatype EditDraft = EditDraft(items: seq<PurchaseItem>, total: real)

  /** The line's total is its unit price times its quantity. */
  predicate Repriced(it: PurchaseItem)
  {
    it.totalPrice == it.unitPrice * (it.quantity as real)
  }

  /** The loop over the edits: each edit changes the first line carrying its
      id, and that line's new total is added to the new order total. Edits
      that match no line are ignored. */
  function ApplyEdits(items: seq<PurchaseItem>, edits: seq<ItemEdit>): (r: EditDraft)
    ensures |r.items| == |items|
    decreases |edits|
  {
    if |edits| == 0 then EditDraft(items, 0.0)
    else match FindLine(items, edits[0].id)
      case None => ApplyEdits(items, edits[1..])
      case Some(i) =>
        var edited := EditLine(items[i], edits[0]);
        var rest := ApplyEdits(items[i := edited], edits[1..]);
        EditDraft(rest.items, edited.totalPrice + rest.total)
  }

  /** The ids the edits name. */
  function EditIds(edits: seq<ItemEdit>): set<int>
  {
    set k | 0 <= k < |edits| :: edits[k].id
  }

  predicate DistinctLineIds(items: seq<PurchaseItem>)
  {
    forall i, j :: 0 <= i < j < |items| ==> items[i].id != items[j].id
  }

  predicate DistinctEditIds(edits: seq<ItemEdit>)
  {
    forall i, j :: 0 <= i < j < |edits| ==> edits[i].id != edits[j].id
  }

  /** The same lines in the same places with the same identity: id, product
      and SKU. */
  predicate SameLines(a: seq<PurchaseItem>, b: seq<PurchaseItem>)
  {
    && |a| == |b|
    && forall i :: 0 <= i < |a| ==>
         a[i].id == b[i].id && a[i].productId == b[i].productId && a[i].productSku == b[i].productSku
  }

  /** The sum of the totals of the lines whose id is in `ids`. */
  function MatchedTotal(items: seq<PurchaseItem>, ids: set<int>): real
  {
    if |items| == 0 then 0.0
    else (if items[0].id in ids then items[0].totalPrice else 0.0) + MatchedTotal(items[1..], ids)
  }

  lemma EditIdsCons(edits: seq<ItemEdit>)
    requires |edits| > 0
    ensures EditIds(edits) == {edits[0].id} + EditIds(edits[1..])
  {
    forall k | 0 <= k < |edits[1..]| ensures edits[1..][k] == edits[k + 1] { }
  }

  /** Edits keep the lines' identities, leave every line no edit names as it
      was, and leave every line they change priced at unit price times quantity. */
  lemma {:induction false} ApplyEditsFrame(items: seq<PurchaseItem>, edits: seq<ItemEdit>)
    ensures SameLines(items, ApplyEdits(items, edits).items)
    ensures forall i :: 0 <= i < |items| && items[i].id !in EditIds(edits) ==>
              ApplyEdits(items, edits).items[i] == items[i]
    ensures forall i :: 0 <= i < |items| ==>
              || ApplyEdits(items, edits).items[i] == items[i]
              || Repriced(ApplyEdits(items, edits).items[i])
  {
    ApplyEditsSameLines(items, edits);
    ApplyEditsUntouched(items, edits);
    ApplyEditsPriced(items, edits);
  }

  lemma {:induction false} ApplyEditsSameLines(items: seq<PurchaseItem>, edits: seq<ItemEdit>)
    ensures SameLines(items, ApplyEdits(items, edits).items)
    decreases |edits|
  {
    if |edits| > 0 {
      match FindLine(items, edits[0].id)
      case None =>
        ApplyEditsSameLines(items, edits[1..]);
      case Some(i) =>
        var next := items[i := EditLine(items[i], edits[0])];
        ApplyEditsSameLines(next, edits[1..]);
    }
  }

  lemma {:induction false} ApplyEditsUntouched(items: seq<PurchaseItem>, edits: seq<ItemEdit>)
    ensures forall i :: 0 <= i < |items| && items[i].id !in EditIds(edits) ==>
              ApplyEdits(items, edits).items[i] == items[i]
    decreases |edits|
  {
    if |edits| > 0 {
      EditIdsCons(edits);
      ApplyEditsSameLines(items, edits);
      match FindLine(items, edits[0].id)
      case None =>
        ApplyEditsUntouched(items, edits[1..]);
      case Some(i) =>
        var next := items[i := EditLine(items[i], edits[0])];
        ApplyEditsUntouched(next, edits[1..]);
    }
  }

  lemma {:induction false} ApplyEditsPriced(items: seq<PurchaseItem>, edits: seq<ItemEdit>)
    ensures forall i :: 0 <= i < |items| ==>
              || ApplyEdits(items, edits).items[i] == items[i]
              || Repriced(ApplyEdits(items, edits).items[i])
    decreases |edits|
  {
    ApplyEditsSameLines(items, edits);
    if |edits| > 0 {
      match FindLine(items, edits[0].id)
      case None =>
        ApplyEditsPriced(items, edits[1..]);
      case Some(i) =>
        var edited := EditLine(items[i], edits[0]);
        var next := items[i := edited];
        ApplyEditsPriced(next, edits[1..]);
        ApplyEditsSameLines(next, edits[1..]);
        var out := ApplyEdits(items, edits).items;
        assert out == ApplyEdits(next, edits[1..]).items;
        forall j | 0 <= j < |items|
          ensures out[j] == items[j]
                  || Repriced(out[j])
        {
          if j == i && out[j] != items[j] && out[j] == next[j] {
            assert out[j] == edited;
          }
        }
    }
  }

  /** With one edit per line id and unique line ids, each named line takes
      the edit's fields, and the new order total is the sum of the named
      lines' new totals. */
  lemma {:induction false} ApplyEditsDistinct(items: seq<PurchaseItem>, edits: seq<ItemEdit>)
    requires DistinctLineIds(items) && DistinctEditIds(edits)
    ensures SameLines(items, ApplyEdits(items, edits).items)
    ensures forall i, k :: 0 <= i < |items| && 0 <= k < |edits| && edits[k].id == items[i].id ==>
              ApplyEdits(items, edits).items[i] == EditLine(items[i], edits[k])
    ensures ApplyEdits(items, edits).total == MatchedTotal(ApplyEdits(items, edits).items, EditIds(edits))
    decreases |edits|
  {
    var out := ApplyEdits(items, edits);
    ApplyEditsFrame(items, edits);
    if |edits| == 0 {
      assert EditIds(edits) == {};
      MatchedTotalNone(items, {});
    } else {
      var rest := edits[1..];
      assert DistinctEditIds(rest) by {
        forall i, j | 0 <= i < j < |rest| ensures rest[i].id != rest[j].id {
          assert rest[i] == edits[i + 1] && rest[j] == edits[j + 1];
        }
      }
      assert EditIds(edits) == {edits[0].id} + EditIds(rest) by {
        forall k | 0 <= k < |rest| ensures rest[k] == edits[k + 1] { }
      }
      assert edits[0].id !in EditIds(rest) by {
        forall k | 0 <= k < |rest| ensures rest[k].id != edits[0].id {
          assert rest[k] == edits[k + 1];
        }
      }
      match FindLine(items, edits[0].id)
      case None =>
        ApplyEditsDistinct(items, rest);
        forall i, k | 0 <= i < |items| && 0 <= k < |edits| && edits[k].id == items[i].id
          ensures out.items[i] == EditLine(items[i], edits[k])
        {
          assert k > 0 && rest[k - 1] == edits[k];
        }
        assert out == ApplyEdits(items, rest);
        assert EditIds(edits) == EditIds(rest) + {edits[0].id};
        MatchedTotalAbsent(out.items, EditIds(rest), edits[0].id);
      case Some(i0) =>
        var edited := EditLine(items[i0], edits[0]);
        var next := items[i0 := edited];
        assert DistinctLineIds(next) by {
          forall a, b | 0 <= a < b < |next| ensures next[a].id != next[b].id {
            assert next[a].id == items[a].id && next[b].id == items[b].id;
          }
        }
        ApplyEditsDistinct(next, rest);
        ApplyEditsFrame(next, rest);
        assert out.items == ApplyEdits(next, rest).items;
        assert out.items[i0] == edited by {
          assert next[i0].id == edits[0].id;
        }
        forall i, k | 0 <= i < |items| && 0 <= k < |edits| && edits[k].id == items[i].id
          ensures out.items[i] == EditLine(items[i], edits[k])
        {
          if k == 0 {
            assert i == i0;
          } else {
            assert rest[k - 1] == edits[k];
            assert i != i0;
            assert next[i] == items[i];
          }
        }
        SameLinesDistinct(items, out.items);
        MatchedTotalAdd(out.items, EditIds(rest), i0);
    }
  }

  lemma SameLinesDistinct(a: seq<PurchaseItem>, b: seq<PurchaseItem>)
    requires SameLines(a, b) && DistinctLineIds(a)
    ensures DistinctLineIds(b)
  {
    forall i, j | 0 <= i < j < |b| ensures b[i].id != b[j].id {
      assert a[i].id == b[i].id && a[j].id == b[j].id;
    }
  }

  lemma {:induction false} MatchedTotalNone(items: seq<PurchaseItem>, ids: set<int>)
    requires ids == {}
    ensures MatchedTotal(items, ids) == 0.0
  {
    if |items| > 0 {
      MatchedTotalNone(items[1..], ids);
    }
  }

  /** Naming an id no line carries does not change the matched total. */
  lemma {:induction false} MatchedTotalAbsent(items: seq<PurchaseItem>, ids: set<int>, x: int)
    requires forall i :: 0 <= i < |items| ==> items[i].id != x
    ensures MatchedTotal(items, ids + {x}) == MatchedTotal(items, ids)
  {
    if |items| > 0 {
      MatchedTotalAbsent(items[1..], ids, x);
    }
  }

  /** Naming the id of one more line adds exactly that line's total. */
  lemma {:induction false} MatchedTotalAdd(items: seq<PurchaseItem>, ids: set<int>, i0: int)
    requires DistinctLineIds(items) && 0 <= i0 < |items| && items[i0].id !in ids
    ensures MatchedTotal(items, {items[i0].id} + ids) == items[i0].totalPrice + MatchedTotal(items, ids)
  {
    var x := items[i0].id;
    assert {x} + ids == ids + {x};
    if i0 == 0 {
      MatchedTotalAbsent(items[1..], ids, x);
    } else {
      assert DistinctLineIds(items[1..]) by {
        forall a, b | 0 <= a < b < |items[1..]| ensures items[1..][a].id != items[1..][b].id {
          assert items[1..][a] == items[a + 1] && items[1..][b] == items[b + 1];
        }
      }
      assert items[1..][i0 - 1] == items[i0];
      assert items[0].id != x;
      MatchedTotalAdd(items[1..], ids, i0 - 1);
    }
  }

  /** The purchase with its lines edited and its total replaced by the edits' total. */
  function WithEdits(p: Purchase, edits: seq<ItemEdit>): Purchase
  {
    var d := ApplyEdits(p.items, edits);
    p.(items := d.items, totalAmount := d.total)
  }

  /** Apply an edit to the purchase with id `id`. Only the purchase row and
      its lines change: no status, stock or balance moves, even though the
      order total may. */
  function EditPurchase(st: State, id: PurchaseId, req: EditRequest): (r: Txn<Purchase>)
    ensures RolledBackOnError(st, r)
    ensures r.result.Failure? <==> id !in st.purchases
    ensures r.result.Failure? ==> r.result.error == PurchaseNotFound(id)
    ensures r.result.Success? ==>
              var before := st.purchases[id];
              var after := r.result.value;
              && r.state == st.(purchases := st.purchases[id := after])
              && after.status == before.status
              && after.factoryName == (if req.factoryName.Some? && req.factoryName.value != "" then req.factoryName.value else before.factoryName)
              && SameLines(before.items, after.items)
              && (req.items.None? ==> after.items == before.items && after.totalAmount == before.totalAmount)
              && (req.items.Some? ==>
                    && (forall i :: 0 <= i < |before.items| && before.items[i].id !in EditIds(req.items.value) ==>
                          after.items[i] == before.items[i])
                    && (forall i :: 0 <= i < |before.items| ==>
                          after.items[i] == before.items[i]
                          || Repriced(after.items[i])))
  {
    if id !in st.purchases then Txn(st, Failure(PurchaseNotFound(id)))
    else
      var p := st.purchases[id];
      var withItems := if req.items.None? then p else WithEdits(p, req.items.value);
      assert req.items.Some? ==> SameLines(p.items, withItems.items) by {
        if req.items.Some? { ApplyEditsFrame(p.items, req.items.value); }
      }
      assert req.items.Some? ==> forall i :: 0 <= i < |p.items| && p.items[i].id !in EditIds(req.items.value) ==>
                                   withItems.items[i] == p.items[i] by {
        if req.items.Some? { ApplyEditsFrame(p.items, req.items.value); }
      }
      assert req.items.Some? ==> forall i :: 0 <= i < |p.items| ==>
                                   || withItems.items[i] == p.items[i]
                                   || Repriced(withItems.items[i]) by {
        if req.items.Some? { ApplyEditsFrame(p.items, req.items.value); }
      }
      var edited :=
        if req.factoryName.Some? && req.factoryName.value != "" then withItems.(factoryName := req.factoryName.value)
        else withItems;
      Txn(st.(purchases := st.purchases[id := edited]), Success(edited))
  }

  /** Two edits naming the same line each add that line's new total: the
      order total counts the line twice, so it is not the matched lines' sum. */
  lemma RepeatedEditCountsTwice()
    ensures var items := [PurchaseItem(7, 1, "SKU-1", 1, 10.0, 10.0)];
            var edits := [ItemEdit(7, Some(2), Some(10.0)), ItemEdit(7, Some(3), Some(10.0))];
            && ApplyEdits(items, edits).total == 50.0
            && ApplyEdits(items, edits).items[0].totalPrice == 30.0
            && MatchedTotal(ApplyEdits(items, edits).items, EditIds(edits)) == 30.0
  {
    var items := [PurchaseItem(7, 1, "SKU-1", 1, 10.0, 10.0)];
    var edits := [ItemEdit(7, Some(2), Some(10.0)), ItemEdit(7, Some(3), Some(10.0))];
    var once := items[0 := EditLine(items[0], edits[0])];
    assert edits[1..][1..] == [];
    assert ApplyEdits(once, edits[1..]).total == 30.0;
    assert 7 in EditIds(edits);
  }

  /** With unique line ids and one edit per id, the new order total is the sum
      of the edited lines' new totals; lines no edit names do not count. */
  lemma EditTotalIsMatchedLines(st: State, id: PurchaseId, edits: seq<ItemEdit>, name: Option<string>)
    requires id in st.purchases && DistinctLineIds(st.purchases[id].items) && DistinctEditIds(edits)
    ensures var after := EditPurchase(st, id, EditRequest(Some(edits), name)).result.value;
            && after.totalAmount == MatchedTotal(after.items, EditIds(edits))
            && forall i, k :: 0 <= i < |after.items| && 0 <= k < |edits| && edits[k].id == after.items[i].id ==>
                 && after.items[i].quantity == edits[k].quantity.GetOr(st.purchases[id].items[i].quantity)
                 && after.items[i].unitPrice == edits[k].unitPrice.GetOr(st.purchases[id].items[i].unitPrice)
  {
    var p := st.purchases[id];
    ApplyEditsDistinct(p.items, edits);
    ApplyEditsFrame(p.items, edits);
  }
}
