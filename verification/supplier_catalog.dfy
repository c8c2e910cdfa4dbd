/** Linking products to a supplier and unlinking them (the suppliers service). */
module SupplierCatalog {
  import opened Wrappers
  import opened Seqs
  import opened Ledger

  /** The result of a catalog call: the new ledger and the saved supplier,
      or `None` (the service returns null) when a row is missing. */
  datatype CatalogResult = CatalogResult(state: State, saved: Option<Supplier>)

  /** The test that keeps every entry other than `pid`. */
  function Other(pid: ProductId): ProductId -> bool
  {
    x => x != pid
  }

  /** The catalog without any entry for `pid`. */
  function Unlink(catalog: seq<ProductId>, pid: ProductId): seq<ProductId>
  {
    Filter(catalog, Other(pid))
  }

  /** Link `pid` to the supplier when both rows exist. The service pushes the
      product onto the loaded list and returns that list, so the returned
      supplier lists `pid` once more. The links are stored as rows of a join
      table keyed by (supplier, product), so a product already linked stays
      linked once. */
  function AddProductToSupplier(st: State, sid: SupplierId, pid: ProductId): (r: CatalogResult)
    ensures r.saved.None? <==> sid !in st.suppliers || pid !in st.products
    ensures r.saved.None? ==> r.state == st
    ensures r.saved.Some? ==>
              && r.saved.value == st.suppliers[sid].(catalog := st.suppliers[sid].catalog + [pid])
              && r.state.suppliers.Keys == st.suppliers.Keys
              && r.state == st.(suppliers := st.suppliers[sid := r.state.suppliers[sid]])
              && r.state.suppliers[sid].name == st.suppliers[sid].name
              && r.state.suppliers[sid].balance == st.suppliers[sid].balance
              && pid in r.state.suppliers[sid].catalog
              && (pid in st.suppliers[sid].catalog ==> r.state == st)
              && (pid !in st.suppliers[sid].catalog ==> r.state.suppliers[sid] == r.saved.value)
  {
    if sid in st.suppliers && pid in st.products then
      var old_ := st.suppliers[sid];
      var s := old_.(catalog := old_.catalog + [pid]);
      var stored := if pid in old_.catalog then old_ else s;
      CatalogResult(st.(suppliers := st.suppliers[sid := stored]), Some(s))
    else CatalogResult(st, None)
  }

  /** Drop every entry for `pid` from the supplier's catalog; a missing
      supplier gives null. The product need not exist. */
  function RemoveProductFromSupplier(st: State, sid: SupplierId, pid: ProductId): (r: CatalogResult)
    ensures r.saved.None? <==> sid !in st.suppliers
    ensures r.saved.None? ==> r.state == st
    ensures r.saved.Some? ==>
              && r.state == st.(suppliers := st.suppliers[sid := r.saved.value])
              && r.saved.value == st.suppliers[sid].(catalog := r.saved.value.catalog)
              && pid !in r.saved.value.catalog
              && (forall x :: x != pid ==> multiset(r.saved.value.catalog)[x] == multiset(st.suppliers[sid].catalog)[x])
              && Subsequence(r.saved.value.catalog, st.suppliers[sid].catalog)
  {
    if sid in st.suppliers then
      var catalog := st.suppliers[sid].catalog;
      FilterMembers(catalog, Other(pid));
      FilterCounts(catalog, Other(pid));
      FilterSubsequence(catalog, Other(pid));
      var s := st.suppliers[sid].(catalog := Unlink(catalog, pid));
      CatalogResult(st.(suppliers := st.suppliers[sid := s]), Some(s))
    else CatalogResult(st, None)
  }

  /** A catalog that lists no product twice. */
  predicate NoRepeats(catalog: seq<ProductId>)
  {
    forall i, j :: 0 <= i < j < |catalog| ==> catalog[i] != catalog[j]
  }

  /** Linking a product twice stores what linking it once stores; only the
      second call's returned supplier lists it twice. */
  lemma AddTwiceStoresOnce(st: State, sid: SupplierId, pid: ProductId)
    requires sid in st.suppliers && pid in st.products
    ensures var r1 := AddProductToSupplier(st, sid, pid);
            var r2 := AddProductToSupplier(r1.state, sid, pid);
            && r2.state == r1.state
            && multiset(r2.saved.value.catalog)[pid] == multiset(r1.state.suppliers[sid].catalog)[pid] + 1
  {
    var r1 := AddProductToSupplier(st, sid, pid);
    assert pid in r1.state.suppliers[sid].catalog;
    var c := r1.state.suppliers[sid].catalog;
    assert multiset(c + [pid]) == multiset(c) + multiset{pid};
  }

  /** Linking keeps a repeat-free stored catalog repeat-free. */
  lemma AddKeepsNoRepeats(st: State, sid: SupplierId, pid: ProductId)
    requires sid in st.suppliers && NoRepeats(st.suppliers[sid].catalog)
    ensures var r := AddProductToSupplier(st, sid, pid);
            NoRepeats(r.state.suppliers[sid].catalog)
  {
    var c := st.suppliers[sid].catalog;
    if pid in st.products && pid !in c {
      var c2 := c + [pid];
      forall i, j | 0 <= i < j < |c2| ensures c2[i] != c2[j] {
        if j == |c| {
          assert c2[i] == c[i];
        }
      }
    }
  }

  /** Unlinking twice is the same as unlinking once. */
  lemma RemoveIdempotent(st: State, sid: SupplierId, pid: ProductId)
    ensures var r1 := RemoveProductFromSupplier(st, sid, pid);
            RemoveProductFromSupplier(r1.state, sid, pid) == r1
  {
    if sid in st.suppliers {
      FilterIdempotent(st.suppliers[sid].catalog, Other(pid));
    }
  }

  /** Unlinking undoes linking a product the catalog did not list. */
  lemma RemoveUndoesAdd(st: State, sid: SupplierId, pid: ProductId)
    requires sid in st.suppliers && pid in st.products && pid !in st.suppliers[sid].catalog
    ensures RemoveProductFromSupplier(AddProductToSupplier(st, sid, pid).state, sid, pid).state == st
  {
    var c := st.suppliers[sid].catalog;
    FilterAppend(c, [pid], Other(pid));
    FilterKeepsAll(c, Other(pid));
    assert Filter([pid], Other(pid)) == [];
    assert Unlink(c + [pid], pid) == c;
    var s1 := AddProductToSupplier(st, sid, pid).state;
    var s2 := RemoveProductFromSupplier(s1, sid, pid).state;
    assert s2.suppliers[sid] == st.suppliers[sid];
    assert s2.suppliers == st.suppliers;
  }
}
