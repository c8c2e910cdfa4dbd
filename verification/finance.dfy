/** The payment journal and the receivable / payable totals (the finance service). */
module Finance {
  import opened Wrappers
  import opened Keys
  import opened Ledger

  /** The request body of a payment. `partyType` is the raw string sent by
      the client. */
  datatype PaymentRequest = PaymentRequest(kind: PaymentType, partyType: string, partyId: int, amount: real,
                                           via: PaymentMethod, description: Option<string>)

  const CustomerParty: string := "customer"
  const SupplierParty: string := "supplier"

  /** Change to a customer's balance: a collection raises it toward zero,
      anything else (a refund to the customer) lowers it. */
  function CustomerDelta(kind: PaymentType, amount: real): real
  {
    if kind == Income then amount else -amount
  }

  /** Change to a supplier's balance: paying the supplier lowers what we owe,
      anything else (a refund from the supplier) raises it. */
  function SupplierDelta(kind: PaymentType, amount: real): real
  {
    if kind == Expense then -amount else amount
  }

  function Opposite(kind: PaymentType): PaymentType
  {
    if kind == Income then Expense else Income
  }

  /** Record a payment: resolve the party, move its balance by the sign
      table, copy its name onto the journal row and append the row. */
  function AddPayment(st: State, req: PaymentRequest): (r: Txn<Payment>)
    ensures RolledBackOnError(st, r)
    ensures r.result.Failure? <==>
              || (req.partyType == CustomerParty && req.partyId !in st.customers)
              || (req.partyType == SupplierParty && req.partyId !in st.suppliers)
    ensures r.result.Failure? ==>
              r.result.error == (if req.partyType == CustomerParty then CustomerNotFound(req.partyId) else SupplierNotFound(req.partyId))
    ensures r.result.Success? ==>
              var pay := r.result.value;
              && pay.kind == req.kind && pay.partyType == req.partyType && pay.partyId == req.partyId
              && pay.amount == req.amount && pay.via == req.via && pay.description == req.description
              && r.state.payments == st.payments + [pay]
              && r.state.products == st.products && r.state.purchases == st.purchases
              && r.state.sales == st.sales && r.state.nextItemId == st.nextItemId
              && (req.partyType == CustomerParty ==>
                    && pay.partyName == Some(st.customers[req.partyId].name)
                    && r.state.suppliers == st.suppliers
                    && r.state.customers.Keys == st.customers.Keys
                    && r.state.customers[req.partyId].balance == st.customers[req.partyId].balance + CustomerDelta(req.kind, req.amount)
                    && r.state.customers == st.customers[req.partyId := r.state.customers[req.partyId]]
                    && r.state.customers[req.partyId].name == st.customers[req.partyId].name)
              && (req.partyType == SupplierParty ==>
                    && pay.partyName == Some(st.suppliers[req.partyId].name)
                    && r.state.customers == st.customers
                    && r.state.suppliers.Keys == st.suppliers.Keys
                    && r.state.suppliers[req.partyId].balance == st.suppliers[req.partyId].balance + SupplierDelta(req.kind, req.amount)
                    && r.state.suppliers == st.suppliers[req.partyId := r.state.suppliers[req.partyId]]
                    && r.state.suppliers[req.partyId] == st.suppliers[req.partyId].(balance := r.state.suppliers[req.partyId].balance))
              && (req.partyType != CustomerParty && req.partyType != SupplierParty ==>
                    && pay.partyName == None
                    && r.state.customers == st.customers
                    && r.state.suppliers == st.suppliers)
  {
    var row := Payment(req.kind, req.partyType, req.partyId, None, req.amount, req.via, req.description);
    if req.partyType == CustomerParty then
      if req.partyId !in st.customers then Txn(st, Failure(CustomerNotFound(req.partyId)))
      else
        var c := st.customers[req.partyId];
        var c' := c.(balance := if req.kind == Income then c.balance + req.amount else c.balance - req.amount);
        var pay := row.(partyName := Some(c.name));
        Txn(st.(customers := st.customers[req.partyId := c'], payments := st.payments + [pay]), Success(pay))
    else if req.partyType == SupplierParty then
      if req.partyId !in st.suppliers then Txn(st, Failure(SupplierNotFound(req.partyId)))
      else
        var s := st.suppliers[req.partyId];
        var s' := s.(balance := if req.kind == Expense then s.balance - req.amount else s.balance + req.amount);
        var pay := row.(partyName := Some(s.name));
        Txn(st.(suppliers := st.suppliers[req.partyId := s'], payments := st.payments + [pay]), Success(pay))
    else
      Txn(st.(payments := st.payments + [row]), Success(row))
  }

  /** A payment followed by one of the opposite type, same amount and same
      party, puts every balance back; only the two journal rows remain. */
  lemma PaymentThenOpposite(st: State, req: PaymentRequest)
    requires AddPayment(st, req).result.Success?
    ensures var s1 := AddPayment(st, req).state;
            var r2 := AddPayment(s1, req.(kind := Opposite(req.kind)));
            && r2.result.Success?
            && r2.state.customers == st.customers
            && r2.state.suppliers == st.suppliers
            && |r2.state.payments| == |st.payments| + 2
  {
    var s1 := AddPayment(st, req).state;
    var s2 := AddPayment(s1, req.(kind := Opposite(req.kind))).state;
    if req.partyType == CustomerParty {
      assert s2.customers[req.partyId] == st.customers[req.partyId];
    } else if req.partyType == SupplierParty {
      assert s2.suppliers[req.partyId] == st.suppliers[req.partyId];
    }
  }

  function CustomerBalance(c: Customer): real { c.balance }
  function SupplierBalance(s: Supplier): real { s.balance }

  /** Total receivables and payables: the sums of all customer and all
      supplier balances. */
  datatype Stats = Stats(totalReceivables: real, totalPayables: real)

  function GetStats(st: State): Stats
  {
    Stats(SumOver(st.customers, CustomerBalance), SumOver(st.suppliers, SupplierBalance))
  }

  /** A payment moves the receivables or the payables by exactly the party's
      balance change, and leaves the other total alone. */
  lemma PaymentMovesStats(st: State, req: PaymentRequest)
    requires AddPayment(st, req).result.Success?
    ensures var before := GetStats(st);
            var after := GetStats(AddPayment(st, req).state);
            && (req.partyType == CustomerParty ==>
                  after == Stats(before.totalReceivables + CustomerDelta(req.kind, req.amount), before.totalPayables))
            && (req.partyType == SupplierParty ==>
                  after == Stats(before.totalReceivables, before.totalPayables + SupplierDelta(req.kind, req.amount)))
            && (req.partyType != CustomerParty && req.partyType != SupplierParty ==> after == before)
  {
    var s1 := AddPayment(st, req).state;
    if req.partyType == CustomerParty {
      SumOverUpdate(st.customers, CustomerBalance, req.partyId, s1.customers[req.partyId]);
    } else if req.partyType == SupplierParty {
      SumOverUpdate(st.suppliers, SupplierBalance, req.partyId, s1.suppliers[req.partyId]);
    }
  }
}
