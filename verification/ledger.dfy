/** The ledger state shared by the backend services: products with their
    stock, customer and supplier balances, purchase orders, sales and the
    payment journal. Each workflow is a pure function from a `State` to a
    `Txn`; a failed workflow hands back the state it was given, which is how
    the model expresses a rolled-back database transaction. */
module Ledger {
  import opened Wrappers

  type ProductId = int
  type CustomerId = int
  type SupplierId = int
  /** Sales and purchases are keyed by generated UUID strings. */
  type SaleId = string
  type PurchaseId = string

  /** A product row. `stock` is a signed integer: nothing in the services keeps
      it non-negative. Prices are exact reals (no decimal(10,2) rounding). */
  datatype Product = Product(name: string, sku: string, stock: int, criticalLevel: int, price: real)

  /** A customer row; a negative balance means the customer owes us. */
  datatype Customer = Customer(name: string, balance: real)

  /** A supplier row; a positive balance means we owe the supplier. `catalog`
      is the ordered list of products linked to the supplier. */
  datatype Supplier = Supplier(name: string, balance: real, catalog: seq<ProductId>)

  /** Sale statuses: Bekliyor, Hazırlanıyor, Kargoda, Teslim Edildi, İptal. */
  datatype SaleStatus = Pending | Preparing | Shipped | Delivered | Cancelled

  /** A sale line with the product's name and price copied at sale time. */
  datatype SaleItem = SaleItem(productId: ProductId, productName: string, quantity: int, unitPrice: real, totalPrice: real)

  datatype Sale = Sale(customerId: CustomerId, status: SaleStatus, items: seq<SaleItem>, totalAmount: real)

  /** Purchase statuses: Sipariş Verildi, Üretimde, Yolda, Teslim Alındı. */
  datatype PurchaseStatus = Ordered | Producing | OnTheWay | Received

  /** A purchase line. The column `productId` is nullable; 0 stands for null,
      because the services test it for truthiness and ids start at 1. */
  datatype PurchaseItem = PurchaseItem(id: int, productId: ProductId, productSku: string, quantity: int, unitPrice: real, totalPrice: real)

  /** A purchase order. `factoryName` is free text, matched against supplier
      names, not a reference to a supplier row. */
  datatype Purchase = Purchase(factoryName: string, status: PurchaseStatus, items: seq<PurchaseItem>, totalAmount: real)

  datatype PaymentType = Income | Expense
  datatype PaymentMethod = Cash | CreditCard | BankTransfer | Check

  /** A journal row. `partyType` is a free string ("customer" or "supplier");
      `partyName` is a copy of the party's name when the party was resolved;
      `via` is the payment method. */
  datatype Payment = Payment(kind: PaymentType, partyType: string, partyId: int, partyName: Option<string>,
                             amount: real, via: PaymentMethod, description: Option<string>)

  /** The whole ledger. `nextItemId` is the serial that numbers new purchase lines. */
  datatype State = State(
    products: map<ProductId, Product>,
    customers: map<CustomerId, Customer>,
    suppliers: map<SupplierId, Supplier>,
    purchases: map<PurchaseId, Purchase>,
    sales: map<SaleId, Sale>,
    payments: seq<Payment>,
    nextItemId: int)

  /** The conditions the services throw on. */
  datatype LedgerError =
    | ProductNotFound(productId: ProductId)
    | InsufficientStock(productId: ProductId, productName: string, requested: int, available: int)
    | SaleNotFound(saleId: SaleId)
    | PurchaseNotFound(purchaseId: PurchaseId)
    | AlreadyReceived(purchaseId: PurchaseId)
    | CustomerNotFound(customerId: CustomerId)
    | SupplierNotFound(supplierId: SupplierId)

  /** The state after a workflow together with what it returned or threw. */
  datatype Txn<+T> = Txn(state: State, result: Result<T, LedgerError>)

  /** A workflow that threw leaves the ledger exactly as it found it. */
  predicate RolledBackOnError<T>(before: State, t: Txn<T>)
  {
    t.result.Failure? ==> t.state == before
  }
}
