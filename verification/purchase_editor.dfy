/** The new-purchase form: editing order rows, the running total, and the
    request it submits to the purchases service. */
module PurchaseEditor {
  import opened Wrappers
  import opened Seqs
  import opened Ledger
  import opened Purchases

  /** One editable order row. Product id 0 means no product chosen yet. */
  datatype Row = Row(productId: ProductId, quantity: int, unitPrice: real)

  /** A product the chosen supplier offers, as the form lists it. */
  datatype Offer = Offer(id: ProductId, price: real)

  /** A supplier as the form lists it. */
  datatype SupplierOption = SupplierOption(id: SupplierId, name: string)

  /** One edit of a row's field. */
  datatype RowChange = SetProduct(productId: ProductId) | SetQuantity(quantity: int) | SetUnitPrice(unitPrice: real)

  /** The factory name sent when no supplier is selected. */
  const UnknownFactory: string := "Bilinmiyor"

  /** The row the add button appends. */
  const BlankRow: Row := Row(0, 1, 0.0)

  function AddRow(rows: seq<Row>): (r: seq<Row>)
    ensures |r| == |rows| + 1 && r[..|rows|] == rows && r[|rows|] == BlankRow
  {
    rows + [BlankRow]
  }

  /** Drop the row at `index`; an index outside the rows drops nothing. */
  function RemoveRow(rows: seq<Row>, index: int): (r: seq<Row>)
    ensures 0 <= index < |rows| ==> |r| == |rows| - 1
    ensures 0 <= index < |rows| ==> forall i :: 0 <= i < |r| ==> r[i] == rows[if i < index then i else i + 1]
    ensures !(0 <= index < |rows|) ==> r == rows
  {
    if 0 <= index < |rows| then rows[..index] + rows[index + 1..] else rows
  }

  function OfferId(o: Offer): int { o.id }

  function SupplierKey(s: SupplierOption): int { s.id }

  /** The first element whose key is `id`, as `Array.find` returns it. */
  function FindById<T(==)>(xs: seq<T>, id: int, key: T -> int): (r: Option<T>)
    ensures r.None? <==> forall i :: 0 <= i < |xs| ==> key(xs[i]) != id
    ensures r.Some? ==> exists k :: 0 <= k < |xs| && xs[k] == r.value && key(xs[k]) == id
                          && forall j :: 0 <= j < k ==> key(xs[j]) != id
  {
    if |xs| == 0 then None
    else if key(xs[0]) == id then Some(xs[0])
    else
      var r := FindById(xs[1..], id, key);
      assert r.Some? ==> exists k :: 0 <= k < |xs[1..]| && xs[1..][k] == r.value && key(xs[1..][k]) == id
                          && forall j :: 0 <= j < k ==> key(xs[1..][j]) != id;
      if r.Some? then
        var k :| 0 <= k < |xs[1..]| && xs[1..][k] == r.value && key(xs[1..][k]) == id
                 && forall j :: 0 <= j < k ==> key(xs[1..][j]) != id;
        assert xs[k + 1] == r.value && forall j :: 0 <= j < k + 1 ==> key(xs[j]) != id;
        r
      else r
  }

  /** The edited row: choosing a product also prices the row at 70 % of the
      product's list price, or 0 when the supplier does not offer it. */
  function ChangedRow(row: Row, change: RowChange, offers: seq<Offer>): Row
  {
    match change
    case SetProduct(pid) =>
      var price := match FindById(offers, pid, OfferId) case Some(o) => EstimateCost(o.price) case None => 0.0;
      row.(productId := pid, unitPrice := price)
    case SetQuantity(q) => row.(quantity := q)
    case SetUnitPrice(u) => row.(unitPrice := u)
  }

  /** Apply `change` to the row at `index`; every other row is unchanged. */
  function ChangeRow(rows: seq<Row>, index: int, change: RowChange, offers: seq<Offer>): (r: seq<Row>)
    requires 0 <= index < |rows|
    ensures |r| == |rows|
    ensures forall i :: 0 <= i < |rows| && i != index ==> r[i] == rows[i]
    ensures change.SetProduct? ==>
              && r[index].productId == change.productId
              && r[index].quantity == rows[index].quantity
              && r[index].unitPrice == (if exists i :: 0 <= i < |offers| && offers[i].id == change.productId
                                        then EstimateCost(FindById(offers, change.productId, OfferId).value.price) else 0.0)
    ensures change.SetQuantity? ==> r[index] == rows[index].(quantity := change.quantity)
    ensures change.SetUnitPrice? ==> r[index] == rows[index].(unitPrice := change.unitPrice)
  {
    rows[index := ChangedRow(rows[index], change, offers)]
  }

  function RowValue(row: Row): real
  {
    (row.quantity as real) * row.unitPrice
  }

  /** Quantity times unit price, summed over the rows. */
  function Total(rows: seq<Row>): real
  {
    if |rows| == 0 then 0.0 else RowValue(rows[0]) + Total(rows[1..])
  }

  lemma {:induction false} TotalAppend(a: seq<Row>, b: seq<Row>)
    ensures Total(a + b) == Total(a) + Total(b)
  {
    if |a| > 0 {
      assert (a + b)[1..] == a[1..] + b;
      TotalAppend(a[1..], b);
    } else {
      assert a + b == b;
    }
  }

  /** The total splits around any row. */
  lemma TotalAround(rows: seq<Row>, index: int)
    requires 0 <= index < |rows|
    ensures Total(rows) == Total(rows[..index]) + RowValue(rows[index]) + Total(rows[index + 1..])
  {
    var tail := rows[index..];
    assert rows == rows[..index] + tail;
    TotalAppend(rows[..index], tail);
    assert tail[0] == rows[index] && tail[1..] == rows[index + 1..];
  }

  /** A blank row adds nothing to the total. */
  lemma AddRowTotal(rows: seq<Row>)
    ensures Total(AddRow(rows)) == Total(rows)
  {
    TotalAppend(rows, [BlankRow]);
  }

  /** Removing a row takes exactly its value off the total. */
  lemma RemoveRowTotal(rows: seq<Row>, index: int)
    requires 0 <= index < |rows|
    ensures Total(RemoveRow(rows, index)) == Total(rows) - RowValue(rows[index])
  {
    TotalAround(rows, index);
    TotalAppend(rows[..index], rows[index + 1..]);
  }

  /** Editing a row changes the total by the difference of that row's values. */
  lemma ChangeRowTotal(rows: seq<Row>, index: int, change: RowChange, offers: seq<Offer>)
    requires 0 <= index < |rows|
    ensures var r := ChangeRow(rows, index, change, offers);
            Total(r) == Total(rows) - RowValue(rows[index]) + RowValue(r[index])
  {
    var r := ChangeRow(rows, index, change, offers);
    TotalAround(rows, index);
    TotalAround(r, index);
    assert r[..index] == rows[..index];
    assert r[index + 1..] == rows[index + 1..];
  }

  /** A row is sent when it names a product and orders a positive quantity. */
  predicate Orderable(row: Row)
  {
    row.productId != 0 && row.quantity > 0
  }

  /** The request lines: each row with its unit price given explicitly. */
  function ToLines(rows: seq<Row>): (r: seq<PurchaseLine>)
    ensures |r| == |rows|
    ensures forall i :: 0 <= i < |rows| ==> r[i] == PurchaseLine(rows[i].productId, rows[i].quantity, Some(rows[i].unitPrice))
  {
    if |rows| == 0 then [] else [PurchaseLine(rows[0].productId, rows[0].quantity, Some(rows[0].unitPrice))] + ToLines(rows[1..])
  }

  /** The factory name sent: the selected supplier's name when it has a
      non-empty one, otherwise the placeholder. */
  function FactoryName(suppliers: seq<SupplierOption>, selected: SupplierId): (r: string)
    ensures r == UnknownFactory || exists i :: 0 <= i < |suppliers| && suppliers[i].id == selected && suppliers[i].name == r
    ensures var s := FindById(suppliers, selected, SupplierKey);
            && (s.Some? && s.value.name != "" ==> r == s.value.name)
            && (s.None? || s.value.name == "" ==> r == UnknownFactory)
  {
    match FindById(suppliers, selected, SupplierKey)
    case Some(s) => if s.name != "" then s.name else UnknownFactory
    case None => UnknownFactory
  }

  /** Submit the form: keep the orderable rows in order; with none left
      nothing is sent. */
  function Submit(rows: seq<Row>, suppliers: seq<SupplierOption>, selected: SupplierId): (r: Option<PurchaseRequest>)
    ensures r.None? <==> forall i :: 0 <= i < |rows| ==> !Orderable(rows[i])
    ensures r.Some? ==> r.value.factoryName == FactoryName(suppliers, selected)
    ensures r.Some? ==> forall l :: l in r.value.items <==>
              exists i :: 0 <= i < |rows| && Orderable(rows[i]) && l == PurchaseLine(rows[i].productId, rows[i].quantity, Some(rows[i].unitPrice))
  {
    var valid := Filter(rows, Orderable);
    FilterMembers(rows, Orderable);
    LinesMembers(rows);
    if |valid| == 0 then
      assert forall i :: 0 <= i < |rows| ==> rows[i] !in valid;
      None
    else
      assert valid[0] in rows;
      Some(PurchaseRequest(FactoryName(suppliers, selected), ToLines(valid)))
  }

  lemma LinesMembers(rows: seq<Row>)
    ensures forall l :: l in ToLines(Filter(rows, Orderable)) <==>
              exists i :: 0 <= i < |rows| && Orderable(rows[i]) && l == PurchaseLine(rows[i].productId, rows[i].quantity, Some(rows[i].unitPrice))
  {
    var valid := Filter(rows, Orderable);
    var lines := ToLines(valid);
    FilterMembers(rows, Orderable);
    forall l ensures l in lines <==>
              exists i :: 0 <= i < |rows| && Orderable(rows[i]) && l == PurchaseLine(rows[i].productId, rows[i].quantity, Some(rows[i].unitPrice))
    {
      if l in lines {
        var j :| 0 <= j < |lines| && lines[j] == l;
        assert valid[j] in rows;
        var i :| 0 <= i < |rows| && rows[i] == valid[j];
        assert Orderable(rows[i]);
      }
      if exists i :: 0 <= i < |rows| && Orderable(rows[i]) && l == PurchaseLine(rows[i].productId, rows[i].quantity, Some(rows[i].unitPrice)) {
        var i :| 0 <= i < |rows| && Orderable(rows[i]) && l == PurchaseLine(rows[i].productId, rows[i].quantity, Some(rows[i].unitPrice));
        assert rows[i] in valid;
        var j :| 0 <= j < |valid| && valid[j] == rows[i];
        assert lines[j] == l;
      }
    }
  }

  /** The request keeps the orderable rows exactly, in their order. */
  lemma SubmitLines(rows: seq<Row>, suppliers: seq<SupplierOption>, selected: SupplierId)
    requires Submit(rows, suppliers, selected).Some?
    ensures var items := Submit(rows, suppliers, selected).value.items;
            var sent := Filter(rows, Orderable);
            && |items| == |sent|
            && (forall j :: 0 <= j < |sent| ==>
                  Orderable(sent[j]) && items[j] == PurchaseLine(sent[j].productId, sent[j].quantity, Some(sent[j].unitPrice)))
            && (forall i :: 0 <= i < |rows| && Orderable(rows[i]) ==> rows[i] in sent)
            && Subsequence(sent, rows)
  {
    var sent := Filter(rows, Orderable);
    FilterSubsequence(rows, Orderable);
    FilterMembers(rows, Orderable);
    forall j | 0 <= j < |sent| ensures Orderable(sent[j]) {
      assert sent[j] in sent;
    }
  }

  lemma {:induction false} TotalSplit(rows: seq<Row>)
    ensures Total(rows) == Total(Filter(rows, Orderable)) + Total(Filter(rows, Unorderable))
  {
    if |rows| > 0 {
      TotalSplit(rows[1..]);
      var a := Filter(rows[1..], Orderable);
      var b := Filter(rows[1..], Unorderable);
      if Orderable(rows[0]) {
        assert Filter(rows, Orderable) == [rows[0]] + a;
        assert Filter(rows, Unorderable) == b;
        assert ([rows[0]] + a)[1..] == a;
      } else {
        assert Filter(rows, Orderable) == a;
        assert Filter(rows, Unorderable) == [rows[0]] + b;
        assert ([rows[0]] + b)[1..] == b;
      }
    }
  }

  predicate Unorderable(row: Row)
  {
    !Orderable(row)
  }

  lemma {:induction false} LinesCost(products: map<ProductId, Product>, rows: seq<Row>)
    requires AllKnown(products, ToLines(rows))
    ensures RequestCost(products, ToLines(rows)) == Total(rows)
  {
    if |rows| > 0 {
      assert ToLines(rows)[1..] == ToLines(rows[1..]);
      LinesCost(products, rows[1..]);
    }
  }

  /** When every chosen product exists, the submitted order is created and
      its total is the form's total less the rows that were not sent. */
  lemma {:induction false} SubmittedTotal(st: State, id: PurchaseId, rows: seq<Row>, suppliers: seq<SupplierOption>, selected: SupplierId)
    requires id !in st.purchases
    requires Submit(rows, suppliers, selected).Some?
    requires forall i :: 0 <= i < |rows| && Orderable(rows[i]) ==> rows[i].productId in st.products
    ensures var r := CreatePurchase(st, id, Submit(rows, suppliers, selected).value);
            && r.result.Success?
            && r.result.value.factoryName == FactoryName(suppliers, selected)
            && r.result.value.totalAmount == Total(rows) - Total(Filter(rows, Unorderable))
  {
    SubmitLines(rows, suppliers, selected);
    OrderableKnown(st.products, rows);
    LinesCost(st.products, Filter(rows, Orderable));
    TotalSplit(rows);
  }

  /** When the form lists the ledger's suppliers under their own names and no
      two suppliers share a name, submitting credits exactly the selected
      supplier, by the order's total. */
  lemma SubmitCreditsSelected(st: State, id: PurchaseId, rows: seq<Row>, suppliers: seq<SupplierOption>, selected: SupplierId)
    requires id !in st.purchases
    requires Submit(rows, suppliers, selected).Some?
    requires forall i :: 0 <= i < |rows| && Orderable(rows[i]) ==> rows[i].productId in st.products
    requires forall i :: 0 <= i < |suppliers| ==>
               suppliers[i].id in st.suppliers && st.suppliers[suppliers[i].id].name == suppliers[i].name
    requires forall a, b :: a in st.suppliers && b in st.suppliers && st.suppliers[a].name == st.suppliers[b].name ==> a == b
    requires exists i :: 0 <= i < |suppliers| && suppliers[i].id == selected
    requires st.suppliers[selected].name != ""
    ensures var r := CreatePurchase(st, id, Submit(rows, suppliers, selected).value);
            && r.result.Success?
            && r.result.value.factoryName == st.suppliers[selected].name
            && r.state.suppliers == st.suppliers[selected := st.suppliers[selected].(balance := st.suppliers[selected].balance + r.result.value.totalAmount)]
  {
    SubmittedTotal(st, id, rows, suppliers, selected);
    var found := FindById(suppliers, selected, SupplierKey);
    var k :| 0 <= k < |suppliers| && suppliers[k] == found.value && SupplierKey(suppliers[k]) == selected
             && forall j :: 0 <= j < k ==> SupplierKey(suppliers[j]) != selected;
    var name := st.suppliers[selected].name;
    assert FactoryName(suppliers, selected) == name;
    assert SupplierNamed(st.suppliers, name) == Some(selected);
  }

  lemma OrderableKnown(products: map<ProductId, Product>, rows: seq<Row>)
    requires forall i :: 0 <= i < |rows| && Orderable(rows[i]) ==> rows[i].productId in products
    ensures AllKnown(products, ToLines(Filter(rows, Orderable)))
  {
    var valid := Filter(rows, Orderable);
    FilterMembers(rows, Orderable);
    assert forall x :: x in valid ==> x.productId in products;
    assert forall k :: 0 <= k < |valid| ==> valid[k] in valid;
  }
}
