/** Purchase creation, receipt and status transitions (the purchases service). */
module Purchases {
  import opened Wrappers
  import opened Keys
  import opened Ledger

  /** One requested line; `unitPrice` is optional. */
  datatype PurchaseLine = PurchaseLine(productId: ProductId, quantity: int, unitPrice: Option<real>)

  /** The request body of a new purchase. */
  datatype PurchaseRequest = PurchaseRequest(factoryName: string, items: seq<PurchaseLine>)

  /** The placeholder buying price: 70 % of the list price. */
  function EstimateCost(listPrice: real): real
  {
    listPrice * 0.7
  }

  /** The unit price a line is bought at: the price the caller gave, if any,
      otherwise the estimate from the product's list price. */
  function UnitPriceFor(products: map<ProductId, Product>, line: PurchaseLine): real
    requires line.productId in products
  {
    match line.unitPrice
    case Some(u) => u
    case None => EstimateCost(products[line.productId].price)
  }

  /** Every line names an existing product. */
  predicate AllKnown(products: map<ProductId, Product>, lines: seq<PurchaseLine>)
  {
    forall k :: 0 <= k < |lines| ==> lines[k].productId in products
  }

  /** What the lines cost at their unit prices. */
  function RequestCost(products: map<ProductId, Product>, lines: seq<PurchaseLine>): real
    requires AllKnown(products, lines)
  {
    if |lines| == 0 then 0.0
    else UnitPriceFor(products, lines[0]) * (lines[0].quantity as real) + RequestCost(products, lines[1..])
  }

  /** The sum of the lines' totals. */
  function LinesTotal(items: seq<PurchaseItem>): real
  {
    if |items| == 0 then 0.0 else items[0].totalPrice + LinesTotal(items[1..])
  }

  /** Line `i` of the order copies request line `i`: a new serial id, the
      product, its SKU, the quantity and the unit price, priced at unit price
      times quantity. */
  predicate Drafted(products: map<ProductId, Product>, lines: seq<PurchaseLine>, firstId: int, items: seq<PurchaseItem>)
  {
    && |items| == |lines|
    && forall i :: 0 <= i < |items| ==>
         && lines[i].productId in products
         && items[i].id == firstId + i
         && items[i].productId == lines[i].productId
         && items[i].productSku == products[lines[i].productId].sku
         && items[i].quantity == lines[i].quantity
         && items[i].unitPrice == UnitPriceFor(products, lines[i])
         && items[i].totalPrice == items[i].unitPrice * (items[i].quantity as real)
  }

  datatype PurchaseDraft = PurchaseDraft(items: seq<PurchaseItem>, total: real)

  /** The loop over the request's lines: look up the product, price the line
      and add its total. The first unknown product aborts. */
  function BuildItems(products: map<ProductId, Product>, lines: seq<PurchaseLine>, nextId: int): Result<PurchaseDraft, LedgerError>
    decreases |lines|
  {
    if |lines| == 0 then Success(PurchaseDraft([], 0.0))
    else
      var line := lines[0];
      if line.productId !in products then Failure(ProductNotFound(line.productId))
      else
        var unitPrice := UnitPriceFor(products, line);
        var item := PurchaseItem(nextId, line.productId, products[line.productId].sku, line.quantity,
                                 unitPrice, unitPrice * (line.quantity as real));
        match BuildItems(products, lines[1..], nextId + 1)
        case Failure(e) => Failure(e)
        case Success(d) => Success(PurchaseDraft([item] + d.items, item.totalPrice + d.total))
  }

  /** The order can be built exactly when every line names a known product. */
  lemma {:induction false} BuildItemsSucceeds(products: map<ProductId, Product>, lines: seq<PurchaseLine>, nextId: int)
    ensures BuildItems(products, lines, nextId).Success? <==> AllKnown(products, lines)
    decreases |lines|
  {
    if |lines| > 0 {
      BuildItemsSucceeds(products, lines[1..], nextId + 1);
      assert AllKnown(products, lines) <==> lines[0].productId in products && AllKnown(products, lines[1..]) by {
        forall j | 0 <= j < |lines[1..]| ensures lines[1..][j] == lines[j + 1] { }
      }
    }
  }

  /** A refused order reports its first unknown product. */
  lemma {:induction false} BuildItemsFailure(products: map<ProductId, Product>, lines: seq<PurchaseLine>, nextId: int)
    requires BuildItems(products, lines, nextId).Failure?
    ensures exists k :: 0 <= k < |lines| && lines[k].productId !in products
              && BuildItems(products, lines, nextId).error == ProductNotFound(lines[k].productId)
              && forall j :: 0 <= j < k ==> lines[j].productId in products
    decreases |lines|
  {
    if lines[0].productId in products {
      var e := BuildItems(products, lines, nextId).error;
      BuildItemsFailure(products, lines[1..], nextId + 1);
      var k :| 0 <= k < |lines[1..]| && lines[1..][k].productId !in products
               && e == ProductNotFound(lines[1..][k].productId)
               && forall j :: 0 <= j < k ==> lines[1..][j].productId in products;
      assert lines[k + 1] == lines[1..][k];
      forall j | 0 <= j < k + 1 ensures lines[j].productId in products {
        if j > 0 { assert lines[j] == lines[1..][j - 1]; }
      }
    }
  }

  /** A built order copies and prices every line, and its total is the sum of
      the line totals and the cost of the request. */
  lemma {:induction false} BuildItemsSuccess(products: map<ProductId, Product>, lines: seq<PurchaseLine>, nextId: int)
    requires BuildItems(products, lines, nextId).Success?
    ensures var d := BuildItems(products, lines, nextId).value;
            && Drafted(products, lines, nextId, d.items)
            && d.total == LinesTotal(d.items)
    decreases |lines|
  {
    if |lines| > 0 {
      var line := lines[0];
      assert line.productId in products;
      assert BuildItems(products, lines[1..], nextId + 1).Success?;
      BuildItemsSuccess(products, lines[1..], nextId + 1);
      var unitPrice := UnitPriceFor(products, line);
      var item := PurchaseItem(nextId, line.productId, products[line.productId].sku, line.quantity,
                               unitPrice, unitPrice * (line.quantity as real));
      var rest := BuildItems(products, lines[1..], nextId + 1).value;
      var d := BuildItems(products, lines, nextId).value;
      assert d.items[0] == item;
      assert d.items[1..] == rest.items;
      assert d.items == [item] + rest.items;
      DraftedCons(products, lines, nextId, item, rest.items);
      assert ([item] + rest.items)[1..] == rest.items;
    }
  }

  /** Drafting the first line in front of the drafted rest drafts them all. */
  lemma DraftedCons(products: map<ProductId, Product>, lines: seq<PurchaseLine>, firstId: int, item: PurchaseItem, items: seq<PurchaseItem>)
    requires |lines| > 0 && lines[0].productId in products
    requires item.id == firstId && item.productId == lines[0].productId
    requires item.productSku == products[lines[0].productId].sku && item.quantity == lines[0].quantity
    requires item.unitPrice == UnitPriceFor(products, lines[0])
    requires item.totalPrice == item.unitPrice * (item.quantity as real)
    requires Drafted(products, lines[1..], firstId + 1, items)
    ensures Drafted(products, lines, firstId, [item] + items)
  {
    var all := [item] + items;
    forall i | 1 <= i < |all|
      ensures all[i] == items[i - 1] && lines[i] == lines[1..][i - 1]
    {
    }
  }

  /** The built total is the cost of the request at its unit prices. */
  lemma {:induction false} BuildItemsCost(products: map<ProductId, Product>, lines: seq<PurchaseLine>, nextId: int)
    requires BuildItems(products, lines, nextId).Success?
    ensures AllKnown(products, lines)
    ensures BuildItems(products, lines, nextId).value.total == RequestCost(products, lines)
    decreases |lines|
  {
    BuildItemsSucceeds(products, lines, nextId);
    if |lines| > 0 {
      BuildItemsCost(products, lines[1..], nextId + 1);
    }
  }

  /** The supplier whose name equals `name`; with several, the one with the
      least id. */
  function SupplierNamed(suppliers: map<SupplierId, Supplier>, name: string): (r: Option<SupplierId>)
    ensures r.None? <==> forall id :: id in suppliers ==> suppliers[id].name != name
    ensures r.Some? ==> r.value in suppliers && suppliers[r.value].name == name
    ensures r.Some? ==> forall id :: id in suppliers && suppliers[id].name == name ==> r.value <= id
  {
    var ids := set id | id in suppliers && suppliers[id].name == name;
    assert forall id :: id in suppliers && suppliers[id].name == name ==> id in ids;
    if ids == {} then None
    else
      var m := MinKey(ids);
      assert m in ids;
      Some(m)
  }

  /** The supplier named `name`, if there is one, is owed `amount` more;
      no other supplier changes. */
  predicate Credited(before: map<SupplierId, Supplier>, after: map<SupplierId, Supplier>, name: string, amount: real)
  {
    match SupplierNamed(before, name)
    case Some(id) => after == before[id := before[id].(balance := before[id].balance + amount)]
    case None => after == before
  }

  /** Create a purchase order under the fresh id `id`, in status Ordered, and
      credit the supplier that carries the factory's name. */
  function CreatePurchase(st: State, id: PurchaseId, req: PurchaseRequest): (r: Txn<Purchase>)
    requires id !in st.purchases
    ensures RolledBackOnError(st, r)
    ensures r.result.Success? <==> AllKnown(st.products, req.items)
    ensures r.result.Failure? ==>
              exists k :: 0 <= k < |req.items| && req.items[k].productId !in st.products
                && r.result.error == ProductNotFound(req.items[k].productId)
                && forall j :: 0 <= j < k ==> req.items[j].productId in st.products
    ensures r.result.Success? ==>
              var p := r.result.value;
              && p.factoryName == req.factoryName
              && p.status == Ordered
              && Drafted(st.products, req.items, st.nextItemId, p.items)
              && p.totalAmount == LinesTotal(p.items)
              && p.totalAmount == RequestCost(st.products, req.items)
              && Credited(st.suppliers, r.state.suppliers, req.factoryName, p.totalAmount)
              && r.state.purchases == st.purchases[id := p]
              && r.state.nextItemId == st.nextItemId + |req.items|
              && r.state.products == st.products
              && r.state.customers == st.customers
              && r.state.sales == st.sales
              && r.state.payments == st.payments
  {
    BuildItemsSucceeds(st.products, req.items, st.nextItemId);
    match BuildItems(st.products, req.items, st.nextItemId)
    case Failure(e) =>
      BuildItemsFailure(st.products, req.items, st.nextItemId);
      Txn(st, Failure(e))
    case Success(d) =>
      BuildItemsSuccess(st.products, req.items, st.nextItemId);
      BuildItemsCost(st.products, req.items, st.nextItemId);
      var purchase := Purchase(req.factoryName, Ordered, d.items, d.total);
      var suppliers :=
        match SupplierNamed(st.suppliers, req.factoryName)
        case Some(sid) => st.suppliers[sid := st.suppliers[sid].(balance := st.suppliers[sid].balance + d.total)]
        case None => st.suppliers;
      Txn(st.(purchases := st.purchases[id := purchase], suppliers := suppliers,
              nextItemId := st.nextItemId + |req.items|),
          Success(purchase))
  }

  /** The quantity of `pid` on the order's lines. Lines without a product
      (id 0) count for no product. */
  function Receipts(items: seq<PurchaseItem>, pid: ProductId): int
  {
    if |items| == 0 then 0
    else (if items[0].productId != 0 && items[0].productId == pid then items[0].quantity else 0) + Receipts(items[1..], pid)
  }

  /** Walk the order's lines, adding (`up`) or removing each line's quantity
      to or from its product. Lines without a product, or whose product no
      longer exists, are skipped. */
  function Restock(products: map<ProductId, Product>, items: seq<PurchaseItem>, up: bool): map<ProductId, Product>
    decreases |items|
  {
    if |items| == 0 then products
    else
      var it := items[0];
      var next :=
        if it.productId != 0 && it.productId in products
        then products[it.productId := products[it.productId].(stock :=
               if up then products[it.productId].stock + it.quantity else products[it.productId].stock - it.quantity)]
        else products;
      Restock(next, items[1..], up)
  }

  /** Each product's stock moved by its receipts on the order, up or down;
      nothing else about any product changed. */
  predicate Restocked(before: map<ProductId, Product>, after: map<ProductId, Product>, items: seq<PurchaseItem>, up: bool)
  {
    && after.Keys == before.Keys
    && forall pid :: pid in before ==>
         after[pid] == before[pid].(stock := if up then before[pid].stock + Receipts(items, pid)
                                              else before[pid].stock - Receipts(items, pid))
  }

  lemma {:induction false} RestockSpec(products: map<ProductId, Product>, items: seq<PurchaseItem>, up: bool)
    ensures Restocked(products, Restock(products, items, up), items, up)
    decreases |items|
  {
    if |items| > 0 {
      var it := items[0];
      var next :=
        if it.productId != 0 && it.productId in products
        then products[it.productId := products[it.productId].(stock :=
               if up then products[it.productId].stock + it.quantity else products[it.productId].stock - it.quantity)]
        else products;
      RestockSpec(next, items[1..], up);
    }
  }

  /** Mark a purchase received and add its lines to stock; refused for an
      unknown or an already received purchase. */
  function ReceivePurchase(st: State, id: PurchaseId): (r: Txn<Purchase>)
    ensures RolledBackOnError(st, r)
    ensures id !in st.purchases ==> r.result == Failure(PurchaseNotFound(id))
    ensures id in st.purchases && st.purchases[id].status == Received ==> r.result == Failure(AlreadyReceived(id))
    ensures r.result.Success? <==> id in st.purchases && st.purchases[id].status != Received
    ensures r.result.Success? ==>
              && r.result.value == st.purchases[id].(status := Received)
              && Restocked(st.products, r.state.products, st.purchases[id].items, true)
              && r.state == st.(products := r.state.products, purchases := st.purchases[id := r.result.value])
  {
    if id !in st.purchases then Txn(st, Failure(PurchaseNotFound(id)))
    else if st.purchases[id].status == Received then Txn(st, Failure(AlreadyReceived(id)))
    else
      var p := st.purchases[id];
      RestockSpec(st.products, p.items, true);
      var received := p.(status := Received);
      Txn(st.(products := Restock(st.products, p.items, true), purchases := st.purchases[id := received]), Success(received))
  }

  /** Set a purchase's status. Leaving Received takes the lines back out of
      stock, entering Received adds them; any other change leaves stock. */
  function UpdatePurchaseStatus(st: State, id: PurchaseId, status: PurchaseStatus): (r: Txn<Purchase>)
    ensures RolledBackOnError(st, r)
    ensures r.result.Failure? <==> id !in st.purchases
    ensures r.result.Failure? ==> r.result.error == PurchaseNotFound(id)
    ensures r.result.Success? ==>
              var old_ := st.purchases[id];
              && r.result.value == old_.(status := status)
              && r.state == st.(products := r.state.products, purchases := st.purchases[id := r.result.value])
              && (old_.status == Received && status != Received ==> Restocked(st.products, r.state.products, old_.items, false))
              && (old_.status != Received && status == Received ==> Restocked(st.products, r.state.products, old_.items, true))
              && ((old_.status == Received) == (status == Received) ==> r.state.products == st.products)
  {
    if id !in st.purchases then Txn(st, Failure(PurchaseNotFound(id)))
    else
      var p := st.purchases[id];
      RestockSpec(st.products, p.items, false);
      RestockSpec(st.products, p.items, true);
      var products :=
        if p.status == Received && status != Received then Restock(st.products, p.items, false)
        else if p.status != Received && status == Received then Restock(st.products, p.items, true)
        else st.products;
      var updated := p.(status := status);
      Txn(st.(products := products, purchases := st.purchases[id := updated]), Success(updated))
  }

  /** Receiving is the same as moving a not-yet-received purchase to Received. */
  lemma ReceiveIsStatusUpdate(st: State, id: PurchaseId)
    requires id in st.purchases && st.purchases[id].status != Received
    ensures ReceivePurchase(st, id) == UpdatePurchaseStatus(st, id, Received)
  {
  }

  /** Receiving twice adds stock once: the second call is refused and changes
      nothing. */
  lemma ReceiveTwice(st: State, id: PurchaseId)
    requires ReceivePurchase(st, id).result.Success?
    ensures var s1 := ReceivePurchase(st, id).state;
            ReceivePurchase(s1, id) == Txn(s1, Failure(AlreadyReceived(id)))
  {
  }

  /** Moving a purchase into Received and back out restores every product's
      stock, whatever the intermediate status. */
  lemma ReceiveThenRevert(st: State, id: PurchaseId, back: PurchaseStatus)
    requires id in st.purchases && st.purchases[id].status != Received && back != Received
    ensures var s1 := UpdatePurchaseStatus(st, id, Received).state;
            var s2 := UpdatePurchaseStatus(s1, id, back).state;
            && s2.products == st.products
            && s2 == st.(purchases := st.purchases[id := st.purchases[id].(status := back)])
  {
    var p := st.purchases[id];
    var s1 := UpdatePurchaseStatus(st, id, Received).state;
    var s2 := UpdatePurchaseStatus(s1, id, back).state;
    assert s1.purchases[id].items == p.items;
    assert Restocked(st.products, s1.products, p.items, true);
    assert Restocked(s1.products, s2.products, p.items, false);
    forall pid | pid in st.products ensures s2.products[pid] == st.products[pid] {
    }
    assert s2.products == st.products;
  }

  /** Receipt, reversal and receipt again leave the same ledger as one receipt. */
  lemma ReceiveRevertReceive(st: State, id: PurchaseId, back: PurchaseStatus)
    requires id in st.purchases && st.purchases[id].status != Received && back != Received
    ensures var s1 := UpdatePurchaseStatus(st, id, Received).state;
            var s2 := UpdatePurchaseStatus(s1, id, back).state;
            var s3 := UpdatePurchaseStatus(s2, id, Received).state;
            s3 == s1
  {
    ReceiveThenRevert(st, id, back);
    var s1 := UpdatePurchaseStatus(st, id, Received).state;
    var s2 := UpdatePurchaseStatus(s1, id, back).state;
    var s3 := UpdatePurchaseStatus(s2, id, Received).state;
    assert s3.products == s1.products;
    assert s3.purchases == s1.purchases;
  }

  /** Reversal has no lower bound: if the received goods were sold meanwhile,
      taking the purchase out of Received drives the stock negative. */
  lemma ReversalCanGoNegative()
    ensures var item := PurchaseItem(1, 7, "SKU-7", 10, 100.0, 1000.0);
            var st := State(map[7 := Product("Kilim", "SKU-7", 3, 10, 150.0)], map[], map[],
                            map["p" := Purchase("Merinos", Received, [item], 1000.0)], map[], [], 2);
            UpdatePurchaseStatus(st, "p", OnTheWay).state.products[7].stock == -7
  {
    var item := PurchaseItem(1, 7, "SKU-7", 10, 100.0, 1000.0);
    assert Receipts([item], 7) == 10;
  }

  /** The stock-reversion scenario: ordering 10 of product 1, marking the order
      received adds 10, moving it back to "on the way" removes them again. */
  lemma StockRevertScenario(st: State, initial: int)
    requires st.products == map[1 := Product("Halı", "SKU-1", initial, 10, 3500.0)]
    requires "p" !in st.purchases
    ensures var c := CreatePurchase(st, "p", PurchaseRequest("Stock Test Factory", [PurchaseLine(1, 10, None)]));
            && c.result.Success?
            && c.result.value.totalAmount == 24500.0
            && var s1 := UpdatePurchaseStatus(c.state, "p", Received).state;
               && s1.products[1].stock == initial + 10
               && UpdatePurchaseStatus(s1, "p", OnTheWay).state.products[1].stock == initial
  {
    var lines := [PurchaseLine(1, 10, None)];
    assert AllKnown(st.products, lines);
    var c := CreatePurchase(st, "p", PurchaseRequest("Stock Test Factory", lines));
    assert RequestCost(st.products, lines) == 24500.0;
    var items := c.result.value.items;
    assert Receipts(items, 1) == 10 by {
      assert items[0].productId == 1 && items[0].quantity == 10;
      assert items[1..] == [];
    }
  }
}
