/** How the ledger workflows move the dashboard's two totals, and worked
    purchase examples across creation, supplier credit and receipt. */
module LedgerTotals {
  import opened Wrappers
  import opened Keys
  import opened Ledger
  import opened Sales
  import opened Purchases
  import opened PurchaseEdit
  import opened Finance

  /** A sale lowers total receivables by its amount when its customer
      resolves, and never touches total payables. */
  lemma SaleMovesStats(st: State, saleId: SaleId, req: SaleRequest)
    requires saleId !in st.sales
    requires CreateSale(st, saleId, req).result.Success?
    ensures var r := CreateSale(st, saleId, req);
            var before := GetStats(st);
            var after := GetStats(r.state);
            && after.totalPayables == before.totalPayables
            && after.totalReceivables == before.totalReceivables
                 - (if req.customerId != 0 && req.customerId in st.customers then r.result.value.totalAmount else 0.0)
  {
    var r := CreateSale(st, saleId, req);
    if req.customerId != 0 && req.customerId in st.customers {
      SumOverUpdate(st.customers, CustomerBalance, req.customerId, r.state.customers[req.customerId]);
    }
  }

  /** A purchase raises total payables by its amount when a supplier carries
      the factory's name, and never touches total receivables. */
  lemma PurchaseMovesStats(st: State, id: PurchaseId, req: PurchaseRequest)
    requires id !in st.purchases
    requires CreatePurchase(st, id, req).result.Success?
    ensures var r := CreatePurchase(st, id, req);
            var before := GetStats(st);
            var after := GetStats(r.state);
            && after.totalReceivables == before.totalReceivables
            && after.totalPayables == before.totalPayables
                 + (if SupplierNamed(st.suppliers, req.factoryName).Some? then r.result.value.totalAmount else 0.0)
  {
    var r := CreatePurchase(st, id, req);
    match SupplierNamed(st.suppliers, req.factoryName)
    case Some(sid) =>
      SumOverUpdate(st.suppliers, SupplierBalance, sid, r.state.suppliers[sid]);
    case None =>
  }

  /** Receiving an order, changing a status, or editing an order's lines
      leaves both totals alone: an edit that changes the order's amount does
      not re-credit the supplier. */
  lemma StockAndEditsKeepStats(st: State, id: PurchaseId, status: PurchaseStatus, edit: EditRequest)
    ensures GetStats(ReceivePurchase(st, id).state) == GetStats(st)
    ensures GetStats(UpdatePurchaseStatus(st, id, status).state) == GetStats(st)
    ensures GetStats(EditPurchase(st, id, edit).state) == GetStats(st)
  {
  }

  /** An order for ten units without a price, from a factory that is a
      registered supplier: each unit is bought at 70 % of the list price, the
      supplier is owed the total, and receiving the order adds the ten units. */
  lemma EstimatedPriceScenario(st: State)
    requires st.products == map[1 := Product("Halı", "SKU-1", 50, 10, 3500.0)]
    requires st.suppliers == map[4 := Supplier("Merinos Ana Fabrika", 1000.0, [1])]
    requires "p1" !in st.purchases
    ensures var r := CreatePurchase(st, "p1", PurchaseRequest("Merinos Ana Fabrika", [PurchaseLine(1, 10, None)]));
            && r.result.Success?
            && r.result.value.items[0].unitPrice == 2450.0
            && r.result.value.totalAmount == 24500.0
            && r.state.suppliers[4].balance == 25500.0
            && var received := ReceivePurchase(r.state, "p1");
               && received.result.Success?
               && received.state.products[1].stock == 60
               && ReceivePurchase(received.state, "p1").result == Failure(AlreadyReceived("p1"))
  {
    var lines := [PurchaseLine(1, 10, None)];
    var r := CreatePurchase(st, "p1", PurchaseRequest("Merinos Ana Fabrika", lines));
    assert st.suppliers[4].name == "Merinos Ana Fabrika";
    assert SupplierNamed(st.suppliers, "Merinos Ana Fabrika").value in st.suppliers.Keys;
    assert RequestCost(st.products, lines) == 24500.0 by {
      assert lines[1..] == [];
    }
    var items := r.result.value.items;
    var received := ReceivePurchase(r.state, "p1");
    assert Receipts(items, 1) == 10 by {
      assert items[1..] == [];
    }
  }

  /** An order with a price given per unit is bought at that price, and an
      order whose factory is no registered supplier credits nobody. */
  lemma ManualPriceScenario(st: State)
    requires st.products == map[1 := Product("Halı", "SKU-1", 50, 10, 3500.0)]
    requires st.suppliers == map[4 := Supplier("Merinos Ana Fabrika", 0.0, [1])]
    requires "p2" !in st.purchases
    ensures var r := CreatePurchase(st, "p2", PurchaseRequest("Test Factory Manual Price", [PurchaseLine(1, 10, Some(100.0))]));
            && r.result.Success?
            && r.result.value.totalAmount == 1000.0
            && r.state.suppliers == st.suppliers
  {
    var lines := [PurchaseLine(1, 10, Some(100.0))];
    assert SupplierNamed(st.suppliers, "Test Factory Manual Price").None?;
    assert RequestCost(st.products, lines) == 1000.0 by {
      assert lines[1..] == [];
    }
  }
}
