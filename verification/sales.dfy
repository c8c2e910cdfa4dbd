/** Sale creation and sale status updates (the sales service). */
module Sales {
  import opened Wrappers
  import opened Ledger

  /** One requested line: which product and how many. */
  datatype SaleLine = SaleLine(productId: ProductId, quantity: int)

  /** The request body of a new sale; `status` is optional. */
  datatype SaleRequest = SaleRequest(customerId: CustomerId, items: seq<SaleLine>, status: Option<SaleStatus>)

  /** The total quantity of `pid` asked for by `lines`. */
  function Demand(lines: seq<SaleLine>, pid: ProductId): int
  {
    if |lines| == 0 then 0
    else (if lines[0].productId == pid then lines[0].quantity else 0) + Demand(lines[1..], pid)
  }

  /** The stock line `k` finds: the product's stock less what earlier lines took. */
  function Available(products: map<ProductId, Product>, lines: seq<SaleLine>, k: int): int
    requires 0 <= k < |lines| && lines[k].productId in products
  {
    products[lines[k].productId].stock - Demand(lines[..k], lines[k].productId)
  }

  /** Line `k` names an existing product and does not ask for more than is left. */
  predicate LineFits(products: map<ProductId, Product>, lines: seq<SaleLine>, k: int)
    requires 0 <= k < |lines|
  {
    lines[k].productId in products && lines[k].quantity <= Available(products, lines, k)
  }

  /** Line `k` is rejected, and `e` is the error reported for it. */
  predicate LineFails(products: map<ProductId, Product>, lines: seq<SaleLine>, k: int, e: LedgerError)
    requires 0 <= k < |lines|
  {
    var pid := lines[k].productId;
    if pid !in products then e == ProductNotFound(pid)
    else
      && Available(products, lines, k) < lines[k].quantity
      && e == InsufficientStock(pid, products[pid].name, lines[k].quantity, Available(products, lines, k))
  }

  /** Every line of the request can be served, taking the lines in order. */
  predicate Feasible(products: map<ProductId, Product>, lines: seq<SaleLine>)
  {
    forall k :: 0 <= k < |lines| ==> LineFits(products, lines, k)
  }

  /** What the lines are worth at the products' current prices. */
  function RequestValue(products: map<ProductId, Product>, lines: seq<SaleLine>): real
    requires forall k :: 0 <= k < |lines| ==> lines[k].productId in products
  {
    if |lines| == 0 then 0.0
    else products[lines[0].productId].price * (lines[0].quantity as real) + RequestValue(products, lines[1..])
  }

  /** The sum of the lines' totals. */
  function ItemsTotal(items: seq<SaleItem>): real
  {
    if |items| == 0 then 0.0 else items[0].totalPrice + ItemsTotal(items[1..])
  }

  /** Stock after the sale: each product loses what the lines asked of it. */
  predicate StockDeducted(before: map<ProductId, Product>, after: map<ProductId, Product>, lines: seq<SaleLine>)
  {
    && after.Keys == before.Keys
    && forall pid :: pid in before ==> after[pid] == before[pid].(stock := before[pid].stock - Demand(lines, pid))
  }

  /** Each item copies its line's product, quantity, the product's name and
      price, and prices the line at unit price times quantity. */
  predicate Snapshots(products: map<ProductId, Product>, lines: seq<SaleLine>, items: seq<SaleItem>)
  {
    && |items| == |lines|
    && forall i :: 0 <= i < |items| ==>
         && items[i].productId == lines[i].productId
         && lines[i].productId in products
         && items[i].productName == products[lines[i].productId].name
         && items[i].quantity == lines[i].quantity
         && items[i].unitPrice == products[lines[i].productId].price
         && items[i].totalPrice == items[i].unitPrice * (items[i].quantity as real)
  }

  /** The intermediate result of walking the lines. */
  datatype SaleDraft = SaleDraft(products: map<ProductId, Product>, items: seq<SaleItem>, total: real)

  /** The loop over the request's lines: look up the product, check and
      deduct its stock, snapshot the line and add its total. */
  function Deduct(products: map<ProductId, Product>, lines: seq<SaleLine>): Result<SaleDraft, LedgerError>
    decreases |lines|
  {
    if |lines| == 0 then Success(SaleDraft(products, [], 0.0))
    else
      var line := lines[0];
      if line.productId !in products then Failure(ProductNotFound(line.productId))
      else
        var p := products[line.productId];
        if p.stock < line.quantity then Failure(InsufficientStock(line.productId, p.name, line.quantity, p.stock))
        else
          var item := SaleItem(line.productId, p.name, line.quantity, p.price, p.price * (line.quantity as real));
          match Deduct(products[line.productId := p.(stock := p.stock - line.quantity)], lines[1..])
          case Failure(e) => Failure(e)
          case Success(d) => Success(SaleDraft(d.products, [item] + d.items, item.totalPrice + d.total))
  }

  lemma DemandCons(lines: seq<SaleLine>, k: int, pid: ProductId)
    requires 1 <= k <= |lines|
    ensures Demand(lines[..k], pid) == (if lines[0].productId == pid then lines[0].quantity else 0) + Demand(lines[1..][..k-1], pid)
  {
    assert lines[..k][1..] == lines[1..][..k-1];
  }

  /** After the first line is served, line `j + 1` of the request sees exactly
      what line `j` of the rest sees in the updated table. */
  lemma ShiftLine(products: map<ProductId, Product>, lines: seq<SaleLine>, j: int, e: LedgerError)
    requires |lines| > 0 && lines[0].productId in products
    requires 0 <= j < |lines| - 1
    ensures var p := products[lines[0].productId];
            var after := products[lines[0].productId := p.(stock := p.stock - lines[0].quantity)];
            && (LineFits(after, lines[1..], j) <==> LineFits(products, lines, j + 1))
            && (LineFails(after, lines[1..], j, e) <==> LineFails(products, lines, j + 1, e))
  {
    var pid := lines[j + 1].productId;
    DemandCons(lines, j + 1, pid);
    assert lines[1..][j] == lines[j + 1];
  }

  lemma {:induction false} DeductSucceedsIffFeasible(products: map<ProductId, Product>, lines: seq<SaleLine>)
    ensures Deduct(products, lines).Success? <==> Feasible(products, lines)
    decreases |lines|
  {
    if |lines| > 0 {
      var line := lines[0];
      assert LineFits(products, lines, 0) <==> line.productId in products && line.quantity <= products[line.productId].stock by {
        assert lines[..0] == [];
      }
      if LineFits(products, lines, 0) {
        var p := products[line.productId];
        var after := products[line.productId := p.(stock := p.stock - line.quantity)];
        DeductSucceedsIffFeasible(after, lines[1..]);
        forall j | 0 <= j < |lines| - 1
          ensures LineFits(after, lines[1..], j) <==> LineFits(products, lines, j + 1)
        {
          ShiftLine(products, lines, j, ProductNotFound(0));
        }
        if Feasible(after, lines[1..]) {
          forall k | 0 <= k < |lines| ensures LineFits(products, lines, k) {
            if k > 0 {
              assert LineFits(after, lines[1..], k - 1);
            }
          }
        }
        if Feasible(products, lines) {
          forall j | 0 <= j < |lines[1..]| ensures LineFits(after, lines[1..], j) {
            assert LineFits(products, lines, j + 1);
          }
        }
      }
    }
  }

  /** A rejected request names its first unservable line. */
  lemma {:induction false} DeductFailure(products: map<ProductId, Product>, lines: seq<SaleLine>)
    requires Deduct(products, lines).Failure?
    ensures exists k :: 0 <= k < |lines|
              && LineFails(products, lines, k, Deduct(products, lines).error)
              && forall j :: 0 <= j < k ==> LineFits(products, lines, j)
    decreases |lines|
  {
    var line := lines[0];
    assert lines[..0] == [];
    var e := Deduct(products, lines).error;
    if line.productId !in products || products[line.productId].stock < line.quantity {
      assert LineFails(products, lines, 0, e);
    } else {
      var p := products[line.productId];
      var after := products[line.productId := p.(stock := p.stock - line.quantity)];
      assert Deduct(after, lines[1..]).Failure? && Deduct(after, lines[1..]).error == e;
      DeductFailure(after, lines[1..]);
      var k :| 0 <= k < |lines[1..]| && LineFails(after, lines[1..], k, e)
               && forall j :: 0 <= j < k ==> LineFits(after, lines[1..], j);
      ShiftLine(products, lines, k, e);
      forall j | 0 <= j < k + 1 ensures LineFits(products, lines, j) {
        if j > 0 {
          ShiftLine(products, lines, j - 1, e);
        }
      }
    }
  }

  /** A served request takes from each product what the lines asked of it. */
  lemma {:induction false} DeductStock(products: map<ProductId, Product>, lines: seq<SaleLine>)
    requires Deduct(products, lines).Success?
    ensures StockDeducted(products, Deduct(products, lines).value.products, lines)
    decreases |lines|
  {
    if |lines| > 0 {
      var line := lines[0];
      var p := products[line.productId];
      var after := products[line.productId := p.(stock := p.stock - line.quantity)];
      DeductStock(after, lines[1..]);
    }
  }

  /** Two product tables that agree on which products exist and on their
      names and prices; stock may differ. */
  predicate SameCatalog(a: map<ProductId, Product>, b: map<ProductId, Product>)
  {
    && a.Keys == b.Keys
    && forall pid :: pid in a ==> a[pid].name == b[pid].name && a[pid].price == b[pid].price
  }

  lemma SnapshotsTransfer(a: map<ProductId, Product>, b: map<ProductId, Product>, lines: seq<SaleLine>, items: seq<SaleItem>)
    requires SameCatalog(a, b) && Snapshots(a, lines, items)
    ensures Snapshots(b, lines, items)
  {
  }

  lemma SnapshotsCons(products: map<ProductId, Product>, lines: seq<SaleLine>, item: SaleItem, items: seq<SaleItem>)
    requires |lines| > 0 && lines[0].productId in products
    requires item.productId == lines[0].productId && item.quantity == lines[0].quantity
    requires item.productName == products[lines[0].productId].name
    requires item.unitPrice == products[lines[0].productId].price
    requires item.totalPrice == item.unitPrice * (item.quantity as real)
    requires Snapshots(products, lines[1..], items)
    ensures Snapshots(products, lines, [item] + items)
  {
    var all := [item] + items;
    forall i | 1 <= i < |all|
      ensures all[i] == items[i - 1] && lines[i] == lines[1..][i - 1]
    {
    }
  }

  /** A served request snapshots each line and totals the snapshots. */
  lemma {:induction false} DeductItems(products: map<ProductId, Product>, lines: seq<SaleLine>)
    requires Deduct(products, lines).Success?
    ensures Snapshots(products, lines, Deduct(products, lines).value.items)
    ensures Deduct(products, lines).value.total == ItemsTotal(Deduct(products, lines).value.items)
    decreases |lines|
  {
    if |lines| > 0 {
      var line := lines[0];
      assert line.productId in products;
      var p := products[line.productId];
      assert p.stock >= line.quantity;
      var after := products[line.productId := p.(stock := p.stock - line.quantity)];
      assert Deduct(after, lines[1..]).Success?;
      DeductItems(after, lines[1..]);
      var item := SaleItem(line.productId, p.name, line.quantity, p.price, p.price * (line.quantity as real));
      var rest := Deduct(after, lines[1..]).value;
      var d := Deduct(products, lines).value;
      assert d.items[0] == item;
      assert d.items[1..] == rest.items;
      assert d.items == [item] + rest.items;
      assert d.total == item.totalPrice + rest.total;
      assert SameCatalog(after, products);
      SnapshotsTransfer(after, products, lines[1..], rest.items);
      SnapshotsCons(products, lines, item, rest.items);
    }
  }

  /** The lines' totals add up to the request's value at current prices. */
  lemma {:induction false} SnapshotsValue(products: map<ProductId, Product>, lines: seq<SaleLine>, items: seq<SaleItem>)
    requires Snapshots(products, lines, items)
    ensures ItemsTotal(items) == RequestValue(products, lines)
    decreases |lines|
  {
    if |lines| > 0 {
      assert Snapshots(products, lines[1..], items[1..]) by {
        forall i | 0 <= i < |items[1..]|
          ensures items[1..][i] == items[i + 1] && lines[1..][i] == lines[i + 1]
        {
        }
      }
      SnapshotsValue(products, lines[1..], items[1..]);
    }
  }

  /** The customer's balance drops by `amount`; no other customer changes.
      A zero id or an unknown customer leaves every balance alone. */
  predicate Debited(before: map<CustomerId, Customer>, after: map<CustomerId, Customer>, id: CustomerId, amount: real)
  {
    if id != 0 && id in before
    then after == before[id := before[id].(balance := before[id].balance - amount)]
    else after == before
  }

  /** Create a sale: serve every line from stock (all or nothing), store the
      sale under the fresh id `saleId`, and debit the customer. The sale row
      references its customer, so saving a sale for a customer id that names
      no customer fails after the stock loop and rolls everything back. */
  function CreateSale(st: State, saleId: SaleId, req: SaleRequest): (r: Txn<Sale>)
    requires saleId !in st.sales
    ensures RolledBackOnError(st, r)
    ensures r.result.Success? <==> Feasible(st.products, req.items) && req.customerId in st.customers
    ensures r.result.Failure? && !Feasible(st.products, req.items) ==>
              exists k :: 0 <= k < |req.items|
                && LineFails(st.products, req.items, k, r.result.error)
                && forall j :: 0 <= j < k ==> LineFits(st.products, req.items, j)
    ensures r.result.Failure? && Feasible(st.products, req.items) ==>
              r.result.error == CustomerNotFound(req.customerId)
    ensures r.result.Success? ==>
              var sale := r.result.value;
              && sale.customerId == req.customerId
              && sale.status == (if req.status.Some? then req.status.value else Preparing)
              && StockDeducted(st.products, r.state.products, req.items)
              && Snapshots(st.products, req.items, sale.items)
              && sale.totalAmount == ItemsTotal(sale.items)
              && sale.totalAmount == RequestValue(st.products, req.items)
              && Debited(st.customers, r.state.customers, req.customerId, sale.totalAmount)
              && r.state.sales == st.sales[saleId := sale]
              && r.state.suppliers == st.suppliers
              && r.state.purchases == st.purchases
              && r.state.payments == st.payments
              && r.state.nextItemId == st.nextItemId
  {
    DeductSucceedsIffFeasible(st.products, req.items);
    match Deduct(st.products, req.items)
    case Failure(e) =>
      DeductFailure(st.products, req.items);
      Txn(st, Failure(e))
    case Success(d) =>
      if req.customerId !in st.customers then
        Txn(st, Failure(CustomerNotFound(req.customerId)))
      else
        DeductStock(st.products, req.items);
        DeductItems(st.products, req.items);
        SnapshotsValue(st.products, req.items, d.items);
        var sale := Sale(req.customerId, req.status.GetOr(Preparing), d.items, d.total);
        var customers :=
          if req.customerId != 0
          then st.customers[req.customerId := st.customers[req.customerId].(balance := st.customers[req.customerId].balance - d.total)]
          else st.customers;
        Txn(st.(products := d.products, customers := customers, sales := st.sales[saleId := sale]), Success(sale))
  }

  /** Set a sale's status to any value; only the status changes. */
  function UpdateSaleStatus(st: State, id: SaleId, status: SaleStatus): (r: Txn<Sale>)
    ensures RolledBackOnError(st, r)
    ensures r.result.Failure? <==> id !in st.sales
    ensures r.result.Failure? ==> r.result.error == SaleNotFound(id)
    ensures r.result.Success? ==>
              && r.result.value == st.sales[id].(status := status)
              && r.state == st.(sales := st.sales[id := r.result.value])
  {
    if id !in st.sales then Txn(st, Failure(SaleNotFound(id)))
    else
      var sale := st.sales[id].(status := status);
      Txn(st.(sales := st.sales[id := sale]), Success(sale))
  }

  /** Selling exactly the stock on hand is allowed and empties it. */
  lemma SellWholeStock(st: State, saleId: SaleId, customerId: CustomerId, pid: ProductId)
    requires saleId !in st.sales && pid in st.products && customerId in st.customers
    ensures var r := CreateSale(st, saleId, SaleRequest(customerId, [SaleLine(pid, st.products[pid].stock)], None));
            && r.result.Success?
            && r.state.products[pid].stock == 0
  {
    var lines := [SaleLine(pid, st.products[pid].stock)];
    assert lines[..0] == [];
    assert LineFits(st.products, lines, 0);
    assert Demand(lines, pid) == st.products[pid].stock;
  }

  /** Product 1 has 50 pieces at 3500: selling 10 leaves 40, the sale is
      worth 35000, and customer 1's balance drops by 35000. A second sale of
      1000 pieces is then refused with requested 1000 / available 40, and the
      stock stays at 40. */
  lemma SaleScenario(st: State)
    requires st.products == map[1 := Product("Halı", "SKU-1", 50, 10, 3500.0)]
    requires st.customers == map[1 := Customer("Ayşe", 0.0)]
    requires "s1" !in st.sales && "s2" !in st.sales
    ensures var r := CreateSale(st, "s1", SaleRequest(1, [SaleLine(1, 10)], None));
            && r.result.Success?
            && r.state.products[1].stock == 40
            && r.result.value.totalAmount == 35000.0
            && r.result.value.status == Preparing
            && r.state.customers[1].balance == -35000.0
            && var r2 := CreateSale(r.state, "s2", SaleRequest(1, [SaleLine(1, 1000)], None));
               && r2.result == Failure(InsufficientStock(1, "Halı", 1000, 40))
               && r2.state.products[1].stock == 40
  {
    var lines := [SaleLine(1, 10)];
    assert lines[..0] == [];
    assert LineFits(st.products, lines, 0);
    var r := CreateSale(st, "s1", SaleRequest(1, lines, None));
    assert Demand(lines, 1) == 10;
    assert RequestValue(st.products, lines) == 35000.0;
    var big := [SaleLine(1, 1000)];
    assert big[..0] == [];
    assert !LineFits(r.state.products, big, 0);
  }
}
