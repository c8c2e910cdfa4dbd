/** The new-sale form's cart: adding and removing products, the running
    total, and the request it submits to the sales service. */
module SaleCart {
  import opened Wrappers
  import opened Seqs
  import opened Ledger
  import opened Sales

  /** One cart row: product id, name, quantity and the price seen when added. */
  datatype CartEntry = CartEntry(id: ProductId, name: string, qty: int, price: real)

  /** A product as the form lists it. */
  datatype ProductView = ProductView(id: ProductId, name: string, stock: int, price: real)

  /** The index of the first entry for `id`, if any. */
  function FindEntry(cart: seq<CartEntry>, id: ProductId): (r: Option<nat>)
    ensures r.None? <==> forall i :: 0 <= i < |cart| ==> cart[i].id != id
    ensures r.Some? ==> r.value < |cart| && cart[r.value].id == id
                        && forall i :: 0 <= i < r.value ==> cart[i].id != id
  {
    if |cart| == 0 then None
    else if cart[0].id == id then Some(0)
    else match FindEntry(cart[1..], id)
      case None => None
      case Some(k) => Some(k + 1)
  }

  /** Every entry for `id` gets one more unit; the rest are untouched. */
  function Bump(cart: seq<CartEntry>, id: ProductId): (r: seq<CartEntry>)
    ensures |r| == |cart|
    ensures forall i :: 0 <= i < |cart| ==>
              r[i] == if cart[i].id == id then cart[i].(qty := cart[i].qty + 1) else cart[i]
  {
    if |cart| == 0 then []
    else [if cart[0].id == id then cart[0].(qty := cart[0].qty + 1) else cart[0]] + Bump(cart[1..], id)
  }

  /** Add one unit of `p`: refused when it has no stock, and when the cart
      already holds as many units as the stock; otherwise the existing entry
      grows by one or a new entry with quantity 1 and the current price is
      appended. */
  function AddToCart(cart: seq<CartEntry>, p: ProductView): (r: seq<CartEntry>)
    ensures p.stock <= 0 ==> r == cart
    ensures p.stock > 0 && FindEntry(cart, p.id).None? ==> r == cart + [CartEntry(p.id, p.name, 1, p.price)]
    ensures p.stock > 0 && FindEntry(cart, p.id).Some? ==>
              var k := FindEntry(cart, p.id).value;
              if cart[k].qty + 1 > p.stock then r == cart else r == Bump(cart, p.id)
  {
    if p.stock <= 0 then cart
    else match FindEntry(cart, p.id)
      case None => cart + [CartEntry(p.id, p.name, 1, p.price)]
      case Some(k) => if cart[k].qty + 1 > p.stock then cart else Bump(cart, p.id)
  }

  function OtherId(id: ProductId): CartEntry -> bool
  {
    (e: CartEntry) => e.id != id
  }

  /** Drop every entry for `id`, keeping the others in order. */
  function RemoveFromCart(cart: seq<CartEntry>, id: ProductId): (r: seq<CartEntry>)
    ensures forall e :: e in r <==> e in cart && e.id != id
    ensures forall e: CartEntry :: e.id != id ==> multiset(r)[e] == multiset(cart)[e]
    ensures Subsequence(r, cart)
  {
    FilterMembers(cart, OtherId(id));
    FilterCounts(cart, OtherId(id));
    FilterSubsequence(cart, OtherId(id));
    Filter(cart, OtherId(id))
  }

  /** Price times quantity, summed over the cart. */
  function CartTotal(cart: seq<CartEntry>): real
  {
    if |cart| == 0 then 0.0 else cart[0].price * (cart[0].qty as real) + CartTotal(cart[1..])
  }

  /** What the entries for `id` contribute to the total. */
  function ValueOf(cart: seq<CartEntry>, id: ProductId): real
  {
    if |cart| == 0 then 0.0
    else (if cart[0].id == id then cart[0].price * (cart[0].qty as real) else 0.0) + ValueOf(cart[1..], id)
  }

  /** The unit prices of the entries for `id`, summed. */
  function PriceOf(cart: seq<CartEntry>, id: ProductId): real
  {
    if |cart| == 0 then 0.0
    else (if cart[0].id == id then cart[0].price else 0.0) + PriceOf(cart[1..], id)
  }

  predicate UniqueIds(cart: seq<CartEntry>)
  {
    forall i, j :: 0 <= i < j < |cart| ==> cart[i].id != cart[j].id
  }

  /** The cart the form maintains: one entry per product, each holding at
      least one and at most the product's stock. */
  predicate CartInv(cart: seq<CartEntry>, catalog: map<ProductId, ProductView>)
  {
    && UniqueIds(cart)
    && forall i :: 0 <= i < |cart| ==>
         cart[i].id in catalog && 1 <= cart[i].qty <= catalog[cart[i].id].stock
  }

  lemma {:induction false} CartTotalAppend(cart: seq<CartEntry>, e: CartEntry)
    ensures CartTotal(cart + [e]) == CartTotal(cart) + e.price * (e.qty as real)
  {
    if |cart| > 0 {
      assert (cart + [e])[1..] == cart[1..] + [e];
      CartTotalAppend(cart[1..], e);
    }
  }

  lemma {:induction false} BumpTotal(cart: seq<CartEntry>, id: ProductId)
    ensures CartTotal(Bump(cart, id)) == CartTotal(cart) + PriceOf(cart, id)
  {
    if |cart| > 0 {
      BumpTotal(cart[1..], id);
      assert Bump(cart, id)[1..] == Bump(cart[1..], id);
    }
  }

  lemma {:induction false} RemoveTotal(cart: seq<CartEntry>, id: ProductId)
    ensures CartTotal(Filter(cart, OtherId(id))) == CartTotal(cart) - ValueOf(cart, id)
  {
    if |cart| > 0 {
      RemoveTotal(cart[1..], id);
      var rest := Filter(cart[1..], OtherId(id));
      if cart[0].id != id {
        assert Filter(cart, OtherId(id)) == [cart[0]] + rest;
        assert ([cart[0]] + rest)[1..] == rest;
      } else {
        assert Filter(cart, OtherId(id)) == rest;
      }
    }
  }

  /** In a cart with one entry per product, the sums over `id` are that entry's. */
  lemma {:induction false} SingleEntry(cart: seq<CartEntry>, id: ProductId)
    requires UniqueIds(cart)
    ensures FindEntry(cart, id).None? ==> ValueOf(cart, id) == 0.0 && PriceOf(cart, id) == 0.0
    ensures FindEntry(cart, id).Some? ==>
              var e := cart[FindEntry(cart, id).value];
              ValueOf(cart, id) == e.price * (e.qty as real) && PriceOf(cart, id) == e.price
  {
    match FindEntry(cart, id)
    case None => AbsentSums(cart, id);
    case Some(k) => SingleEntryAt(cart, k);
  }

  /** The sums for the product of entry `k` are that entry's alone. */
  lemma {:induction false} SingleEntryAt(cart: seq<CartEntry>, k: nat)
    requires UniqueIds(cart) && k < |cart|
    ensures ValueOf(cart, cart[k].id) == cart[k].price * (cart[k].qty as real)
    ensures PriceOf(cart, cart[k].id) == cart[k].price
  {
    UniqueTail(cart);
    var id := cart[k].id;
    if k == 0 {
      AbsentSums(cart[1..], id);
    } else {
      assert cart[1..][k - 1] == cart[k];
      assert cart[0].id != id;
      SingleEntryAt(cart[1..], k - 1);
    }
  }

  /** Without an entry for `id` its sums are zero. */
  lemma {:induction false} AbsentSums(cart: seq<CartEntry>, id: ProductId)
    requires forall i :: 0 <= i < |cart| ==> cart[i].id != id
    ensures ValueOf(cart, id) == 0.0 && PriceOf(cart, id) == 0.0
  {
    if |cart| > 0 {
      assert forall i :: 0 <= i < |cart[1..]| ==> cart[1..][i].id == cart[i + 1].id;
      AbsentSums(cart[1..], id);
    }
  }

  /** The rest of a cart with one entry per product has one entry per
      product, none of them for the first entry's product. */
  lemma UniqueTail(cart: seq<CartEntry>)
    requires UniqueIds(cart) && |cart| > 0
    ensures UniqueIds(cart[1..])
    ensures forall i :: 0 <= i < |cart[1..]| ==> cart[1..][i].id != cart[0].id
  {
    forall i, j | 0 <= i < j < |cart[1..]| ensures cart[1..][i].id != cart[1..][j].id {
      assert cart[1..][i] == cart[i + 1] && cart[1..][j] == cart[j + 1];
    }
    forall i | 0 <= i < |cart[1..]| ensures cart[1..][i].id != cart[0].id {
      assert cart[1..][i] == cart[i + 1];
    }
  }

  /** Adding a product raises the total by its unit price exactly when the
      cart changes: the new entry's current price, or the stored price of the
      entry that grew. */
  lemma AddToCartTotal(cart: seq<CartEntry>, p: ProductView)
    requires UniqueIds(cart)
    ensures var r := AddToCart(cart, p);
            CartTotal(r) == CartTotal(cart) + (
              if r == cart then 0.0
              else if FindEntry(cart, p.id).None? then p.price
              else cart[FindEntry(cart, p.id).value].price)
  {
    var r := AddToCart(cart, p);
    if p.stock > 0 {
      match FindEntry(cart, p.id)
      case None =>
        CartTotalAppend(cart, CartEntry(p.id, p.name, 1, p.price));
        assert r != cart by { assert |r| == |cart| + 1; }
      case Some(k) =>
        if cart[k].qty + 1 <= p.stock {
          BumpTotal(cart, p.id);
          SingleEntry(cart, p.id);
          assert r[k] != cart[k];
        }
    }
  }

  /** Removing a product lowers the total by exactly its entry's price times
      quantity, and by nothing when it is not in the cart. */
  lemma RemoveFromCartTotal(cart: seq<CartEntry>, id: ProductId)
    requires UniqueIds(cart)
    ensures CartTotal(RemoveFromCart(cart, id)) == CartTotal(cart) - (
              match FindEntry(cart, id)
              case None => 0.0
              case Some(k) => cart[k].price * (cart[k].qty as real))
  {
    RemoveTotal(cart, id);
    SingleEntry(cart, id);
  }

  /** Adding a product keeps one entry per product and every quantity
      between 1 and the product's stock. */
  lemma AddPreservesInv(cart: seq<CartEntry>, catalog: map<ProductId, ProductView>, p: ProductView)
    requires CartInv(cart, catalog)
    requires p.id in catalog && catalog[p.id] == p
    ensures CartInv(AddToCart(cart, p), catalog)
  {
    var r := AddToCart(cart, p);
    if p.stock > 0 {
      match FindEntry(cart, p.id)
      case None =>
        assert forall i :: 0 <= i < |cart| ==> r[i] == cart[i];
      case Some(k) =>
        if cart[k].qty + 1 <= p.stock {
          forall i | 0 <= i < |r| ensures r[i].id in catalog && 1 <= r[i].qty <= catalog[r[i].id].stock {
            if cart[i].id == p.id {
              assert i == k;
            }
          }
        }
    }
  }

  /** Removing a product keeps the cart invariant. */
  lemma RemovePreservesInv(cart: seq<CartEntry>, catalog: map<ProductId, ProductView>, id: ProductId)
    requires CartInv(cart, catalog)
    ensures CartInv(RemoveFromCart(cart, id), catalog)
  {
    var r := RemoveFromCart(cart, id);
    FilterUnique(cart, OtherId(id));
    forall i | 0 <= i < |r| ensures r[i].id in catalog && 1 <= r[i].qty <= catalog[r[i].id].stock {
      assert r[i] in cart;
    }
  }

  /** Dropping entries keeps one entry per product. */
  lemma {:induction false} FilterUnique(cart: seq<CartEntry>, keep: CartEntry -> bool)
    requires UniqueIds(cart)
    ensures UniqueIds(Filter(cart, keep))
  {
    if |cart| > 0 {
      UniqueTail(cart);
      FilterUnique(cart[1..], keep);
      FilterMembers(cart[1..], keep);
      var rest := Filter(cart[1..], keep);
      assert forall x :: x in rest ==> x.id != cart[0].id;
      if keep(cart[0]) {
        var f := [cart[0]] + rest;
        assert Filter(cart, keep) == f;
        forall i, j | 0 <= i < j < |f| ensures f[i].id != f[j].id {
          assert f[j] == rest[j - 1];
          if i > 0 { assert f[i] == rest[i - 1]; }
        }
      } else {
        assert Filter(cart, keep) == rest;
      }
    }
  }

  /** The request lines: product id and quantity of each entry, in cart order. */
  function CartLines(cart: seq<CartEntry>): (r: seq<SaleLine>)
    ensures |r| == |cart|
    ensures forall i :: 0 <= i < |cart| ==> r[i] == SaleLine(cart[i].id, cart[i].qty)
  {
    if |cart| == 0 then [] else [SaleLine(cart[0].id, cart[0].qty)] + CartLines(cart[1..])
  }

  /** Submit the cart: nothing is sent without a (non-zero) customer or with
      an empty cart; otherwise the request carries the customer and the lines
      and leaves the status to the service's default. */
  function Checkout(customerId: Option<CustomerId>, cart: seq<CartEntry>): (r: Option<SaleRequest>)
    ensures r.None? <==> customerId.None? || customerId.value == 0 || |cart| == 0
    ensures r.Some? ==> r.value == SaleRequest(customerId.value, CartLines(cart), None)
  {
    if customerId.None? || customerId.value == 0 || |cart| == 0 then None
    else Some(SaleRequest(customerId.value, CartLines(cart), None))
  }

  lemma {:induction false} DemandAbsent(lines: seq<SaleLine>, pid: ProductId)
    requires forall i :: 0 <= i < |lines| ==> lines[i].productId != pid
    ensures Demand(lines, pid) == 0
  {
    if |lines| > 0 {
      DemandAbsent(lines[1..], pid);
    }
  }

  lemma {:induction false} ValueMatchesCart(products: map<ProductId, Product>, cart: seq<CartEntry>)
    requires forall i :: 0 <= i < |cart| ==> cart[i].id in products && products[cart[i].id].price == cart[i].price
    ensures RequestValue(products, CartLines(cart)) == CartTotal(cart)
  {
    if |cart| > 0 {
      assert CartLines(cart)[1..] == CartLines(cart[1..]);
      ValueMatchesCart(products, cart[1..]);
    }
  }

  /** A cart kept by the form, checked out against a back end whose prices
      are those in the cart and whose stock is at least what the form saw,
      becomes a sale that succeeds and whose total is the cart's total. */
  lemma CheckoutSucceeds(st: State, saleId: SaleId, customerId: CustomerId, cart: seq<CartEntry>, catalog: map<ProductId, ProductView>)
    requires saleId !in st.sales && customerId != 0 && customerId in st.customers && |cart| > 0
    requires CartInv(cart, catalog)
    requires forall i :: 0 <= i < |cart| ==>
               && cart[i].id in st.products
               && st.products[cart[i].id].price == cart[i].price
               && catalog[cart[i].id].stock <= st.products[cart[i].id].stock
    ensures Checkout(Some(customerId), cart).Some?
    ensures var r := CreateSale(st, saleId, Checkout(Some(customerId), cart).value);
            && r.result.Success?
            && r.result.value.totalAmount == CartTotal(cart)
  {
    CartFeasible(st.products, cart, catalog);
    ValueMatchesCart(st.products, cart);
  }

  /** Every line of such a cart fits the back end's stock: no earlier line
      asks for the same product. */
  lemma CartFeasible(products: map<ProductId, Product>, cart: seq<CartEntry>, catalog: map<ProductId, ProductView>)
    requires CartInv(cart, catalog)
    requires forall i :: 0 <= i < |cart| ==>
               cart[i].id in products && catalog[cart[i].id].stock <= products[cart[i].id].stock
    ensures Feasible(products, CartLines(cart))
  {
    var lines := CartLines(cart);
    forall k | 0 <= k < |lines| ensures LineFits(products, lines, k) {
      DemandAbsent(lines[..k], lines[k].productId);
    }
  }
}
