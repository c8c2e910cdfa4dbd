/** The inventory page: stock status and badge, the size label, the brand
    and size choice lists, and the filtered product list. */
module Inventory {
  import opened Wrappers
  import opened Seqs

  /** The product columns the page reads. `width` and `height` are read but
      the product table has no such columns, so they arrive undefined. */
  datatype ProductRow = ProductRow(
    id: int, name: string, sku: string, brand: Option<string>, size: Option<string>,
    width: Option<int>, height: Option<int>, stock: int, criticalLevel: int)

  datatype StockStatus = OutOfStock | Critical | InStock

  /** The row the table shows. */
  datatype InventoryItem = InventoryItem(
    id: int, name: string, sku: string, brand: string, size: string,
    stock: int, criticalLevel: int, status: StockStatus)

  /** What the stock badge shows. */
  datatype Badge = Exhausted | CriticalBadge(stock: int) | InStockBadge(stock: int)

  const UnknownBrand: string := "Bilinmiyor"
  const AllBrands: string := "Tüm Markalar"
  const AllSizes: string := "Tüm Ebatlar"
  const NoSize: string := "-"

  /** Out of stock at exactly zero; otherwise critical at or below the
      critical level (negative stock included); otherwise in stock. */
  function Status(stock: int, criticalLevel: int): (r: StockStatus)
    ensures r == OutOfStock <==> stock == 0
    ensures r == Critical <==> stock != 0 && stock <= criticalLevel
    ensures r == InStock <==> stock != 0 && stock > criticalLevel
  {
    if stock == 0 then OutOfStock else if stock <= criticalLevel then Critical else InStock
  }

  /** The badge tests for zero stock before it looks at the status. */
  function StockBadge(stock: int, status: StockStatus): Badge
  {
    if stock == 0 then Exhausted
    else if status == Critical then CriticalBadge(stock)
    else InStockBadge(stock)
  }

  /** The badge of a listed row agrees with its status, and zero stock shows
      as exhausted whatever status it is given. */
  lemma BadgeMatchesStatus(stock: int, criticalLevel: int, status: StockStatus)
    ensures StockBadge(stock, Status(stock, criticalLevel)) ==
              match Status(stock, criticalLevel)
              case OutOfStock => Exhausted
              case Critical => CriticalBadge(stock)
              case InStock => InStockBadge(stock)
    ensures stock == 0 ==> StockBadge(stock, status) == Exhausted
  {
  }

  function DigitChar(d: int): char
    requires 0 <= d < 10
  {
    ['0', '1', '2', '3', '4', '5', '6', '7', '8', '9'][d]
  }

  function DigitValue(c: char): int
  {
    if '0' <= c <= '9' then c as int - '0' as int else 0
  }

  /** The decimal digits of `n`, most significant first. */
  function NatToString(n: nat): (r: string)
    ensures |r| > 0
    ensures forall i :: 0 <= i < |r| ==> '0' <= r[i] <= '9'
    decreases n
  {
    if n < 10 then [DigitChar(n)] else NatToString(n / 10) + [DigitChar(n % 10)]
  }

  /** Reading decimal digits back. */
  function ParseDigits(s: string): int
    decreases |s|
  {
    if |s| == 0 then 0 else ParseDigits(s[..|s| - 1]) * 10 + DigitValue(s[|s| - 1])
  }

  lemma {:induction false} NatToStringRoundTrip(n: nat)
    ensures ParseDigits(NatToString(n)) == n
    decreases n
  {
    if n >= 10 {
      NatToStringRoundTrip(n / 10);
      var s := NatToString(n);
      assert s[..|s| - 1] == NatToString(n / 10);
    }
  }

  /** How a number prints in a template string. */
  function IntToString(n: int): (r: string)
    ensures |r| > 0
  {
    if n < 0 then "-" + NatToString(-n) else NatToString(n)
  }

  /** The printed number reads back as itself: the sign, then the digits. */
  lemma {:induction false} IntToStringRoundTrip(n: int)
    ensures var s := IntToString(n);
            if s[0] == '-' then n < 0 && ParseDigits(s[1..]) == -n else n >= 0 && ParseDigits(s) == n
  {
    var s := IntToString(n);
    if n < 0 {
      var digits := NatToString(-n);
      NatToStringRoundTrip(-n);
      assert s == "-" + digits;
      assert s[0] == '-';
      assert s[1..] == digits;
    } else {
      var digits := NatToString(n);
      NatToStringRoundTrip(n);
      assert s == digits;
      assert '0' <= digits[0] <= '9';
    }
  }

  /** A number is truthy when it is present and non-zero. */
  predicate Truthy(x: Option<int>)
  {
    x.Some? && x.value != 0
  }

  /** `WxH cm` when both dimensions are truthy, else the size text when it
      is non-empty, else `-`. */
  function SizeLabel(p: ProductRow): (r: string)
    ensures Truthy(p.width) && Truthy(p.height) ==>
              r == IntToString(p.width.value) + "x" + IntToString(p.height.value) + " cm"
    ensures !(Truthy(p.width) && Truthy(p.height)) ==>
              r == if p.size.Some? && p.size.value != "" then p.size.value else NoSize
  {
    if Truthy(p.width) && Truthy(p.height) then IntToString(p.width.value) + "x" + IntToString(p.height.value) + " cm"
    else if p.size.Some? && p.size.value != "" then p.size.value
    else NoSize
  }

  /** The table row for a product: the brand defaults to "Bilinmiyor". */
  function ToItem(p: ProductRow): (r: InventoryItem)
    ensures r.id == p.id && r.name == p.name && r.sku == p.sku
    ensures r.stock == p.stock && r.criticalLevel == p.criticalLevel
    ensures r.brand != ""
    ensures p.brand.Some? && p.brand.value != "" ==> r.brand == p.brand.value
    ensures p.brand.None? || p.brand.value == "" ==> r.brand == UnknownBrand
    ensures r.size != "" && r.size == SizeLabel(p)
    ensures r.status == Status(p.stock, p.criticalLevel)
  {
    var brand := if p.brand.Some? && p.brand.value != "" then p.brand.value else UnknownBrand;
    InventoryItem(p.id, p.name, p.sku, brand, SizeLabel(p), p.stock, p.criticalLevel, Status(p.stock, p.criticalLevel))
  }

  function ToItems(rows: seq<ProductRow>): (r: seq<InventoryItem>)
    ensures |r| == |rows|
    ensures forall i :: 0 <= i < |rows| ==> r[i] == ToItem(rows[i])
  {
    if |rows| == 0 then [] else [ToItem(rows[0])] + ToItems(rows[1..])
  }
  /** The brand list offers a brand exactly when some product carries it, and
      offers "Bilinmiyor" also when some product has no brand. */
  lemma ProductBrandsOffered(rows: seq<ProductRow>, b: string)
    ensures b in BrandOptions(ToItems(rows))[1..] <==>
              exists i :: 0 <= i < |rows| &&
                ((rows[i].brand == Some(b) && b != "") || (b == UnknownBrand && (rows[i].brand.None? || rows[i].brand.value == "")))
  {
    var items := ToItems(rows);
    BrandOptionsSpec(items);
    if b in BrandOptions(items)[1..] {
      var i :| 0 <= i < |items| && items[i].brand == b && b != "";
      assert items[i] == ToItem(rows[i]);
    }
    if exists i :: 0 <= i < |rows| &&
         ((rows[i].brand == Some(b) && b != "") || (b == UnknownBrand && (rows[i].brand.None? || rows[i].brand.value == ""))) {
      var i :| 0 <= i < |rows| &&
         ((rows[i].brand == Some(b) && b != "") || (b == UnknownBrand && (rows[i].brand.None? || rows[i].brand.value == "")));
      assert items[i] == ToItem(rows[i]);
      assert items[i].brand == b;
    }
  }


  predicate Distinct(s: seq<string>)
  {
    forall i, j :: 0 <= i < j < |s| ==> s[i] != s[j]
  }

  /** Each value once, at its first occurrence (`Array.from(new Set(s))`). */
  function Dedupe(s: seq<string>): (r: seq<string>)
    ensures Distinct(r)
    ensures forall x :: x in r <==> x in s
    decreases |s|
  {
    if |s| == 0 then []
    else
      var d := Dedupe(s[..|s| - 1]);
      assert forall x :: x in s <==> x in s[..|s| - 1] || x == s[|s| - 1] by {
        assert s == s[..|s| - 1] + [s[|s| - 1]];
      }
      if s[|s| - 1] in d then d else d + [s[|s| - 1]]
  }

  function Brands(items: seq<InventoryItem>): (r: seq<string>)
    ensures |r| == |items| && forall i :: 0 <= i < |items| ==> r[i] == items[i].brand
  {
    if |items| == 0 then [] else [items[0].brand] + Brands(items[1..])
  }

  function Sizes(items: seq<InventoryItem>): (r: seq<string>)
    ensures |r| == |items| && forall i :: 0 <= i < |items| ==> r[i] == items[i].size
  {
    if |items| == 0 then [] else [items[0].size] + Sizes(items[1..])
  }

  predicate NonEmpty(s: string)
  {
    s != ""
  }

  predicate NotNoSize(s: string)
  {
    s != NoSize
  }

  /** The brand choices: the "all brands" entry, then each brand once. */
  function BrandOptions(items: seq<InventoryItem>): seq<string>
  {
    [AllBrands] + Dedupe(Filter(Brands(items), NonEmpty))
  }

  /** The size choices: the "all sizes" entry, then each size other than `-`
      once. */
  function SizeOptions(items: seq<InventoryItem>): seq<string>
  {
    [AllSizes] + Dedupe(Filter(Sizes(items), NotNoSize))
  }

  /** The brand list starts with its sentinel, offers exactly the listed
      brands, and repeats nothing unless a brand is spelled like the
      sentinel. */
  lemma BrandOptionsSpec(items: seq<InventoryItem>)
    ensures BrandOptions(items)[0] == AllBrands
    ensures forall b :: b in BrandOptions(items)[1..] <==> exists i :: 0 <= i < |items| && items[i].brand == b && b != ""
    ensures Distinct(BrandOptions(items)) <==> forall i :: 0 <= i < |items| ==> items[i].brand != AllBrands
  {
    var brands := Brands(items);
    FilterMembers(brands, NonEmpty);
    var rest := Dedupe(Filter(brands, NonEmpty));
    assert BrandOptions(items)[1..] == rest;
    OptionsDistinct(AllBrands, rest);
    assert forall b :: b in brands <==> exists i :: 0 <= i < |items| && items[i].brand == b by {
      forall b ensures b in brands <==> exists i :: 0 <= i < |items| && items[i].brand == b {
        if b in brands {
          var i :| 0 <= i < |brands| && brands[i] == b;
          assert items[i].brand == b;
        }
      }
    }
  }

  /** The size list starts with its sentinel, never offers `-`, offers
      exactly the other listed sizes, and repeats nothing unless a size is
      spelled like the sentinel. */
  lemma SizeOptionsSpec(items: seq<InventoryItem>)
    ensures SizeOptions(items)[0] == AllSizes
    ensures NoSize !in SizeOptions(items)
    ensures forall z :: z in SizeOptions(items)[1..] <==> exists i :: 0 <= i < |items| && items[i].size == z && z != NoSize
    ensures Distinct(SizeOptions(items)) <==> forall i :: 0 <= i < |items| ==> items[i].size != AllSizes
  {
    var sizes := Sizes(items);
    FilterMembers(sizes, NotNoSize);
    var rest := Dedupe(Filter(sizes, NotNoSize));
    assert SizeOptions(items)[1..] == rest;
    OptionsDistinct(AllSizes, rest);
    assert forall z :: z in sizes <==> exists i :: 0 <= i < |items| && items[i].size == z by {
      forall z ensures z in sizes <==> exists i :: 0 <= i < |items| && items[i].size == z {
        if z in sizes {
          var i :| 0 <= i < |sizes| && sizes[i] == z;
          assert items[i].size == z;
        }
      }
    }
    assert SizeOptions(items) == [AllSizes] + rest;
  }

  lemma OptionsDistinct(sentinel: string, rest: seq<string>)
    requires Distinct(rest)
    ensures Distinct([sentinel] + rest) <==> sentinel !in rest
  {
    var all := [sentinel] + rest;
    if sentinel in rest {
      var k :| 0 <= k < |rest| && rest[k] == sentinel;
      assert all[0] == all[k + 1];
    } else {
      forall i, j | 0 <= i < j < |all| ensures all[i] != all[j] {
        assert all[j] == rest[j - 1];
        if i > 0 { assert all[i] == rest[i - 1]; }
      }
    }
  }

  /** `t` occurs in `s` as a contiguous piece (`includes`). */
  predicate Contains(s: string, t: string)
  {
    exists i :: 0 <= i <= |s| - |t| && PieceAt(s, t, i)
  }

  predicate PieceAt(s: string, t: string, i: int)
  {
    0 <= i <= |s| - |t| && s[i..i + |t|] == t
  }

  /** The search box matches the name, SKU or brand ignoring case (`lower`
      is the lower-casing the browser applies); the choice lists match their
      sentinel or the exact value. */
  predicate Matches(item: InventoryItem, search: string, brand: string, size: string, lower: string -> string)
  {
    && (|| Contains(lower(item.name), lower(search))
        || Contains(lower(item.sku), lower(search))
        || Contains(lower(item.brand), lower(search)))
    && (brand == AllBrands || item.brand == brand)
    && (size == AllSizes || item.size == size)
  }

  function Matcher(search: string, brand: string, size: string, lower: string -> string): InventoryItem -> bool
  {
    item => Matches(item, search, brand, size, lower)
  }

  /** The rows shown: the matching rows in their original order. */
  function FilteredItems(items: seq<InventoryItem>, search: string, brand: string, size: string, lower: string -> string): (r: seq<InventoryItem>)
    ensures forall it :: it in r <==> it in items && Matches(it, search, brand, size, lower)
    ensures Subsequence(r, items)
  {
    var keep := Matcher(search, brand, size, lower);
    FilterMembers(items, keep);
    FilterSubsequence(items, keep);
    Filter(items, keep)
  }

  /** With an empty search box and both sentinels chosen every row shows. */
  lemma SentinelsShowAll(items: seq<InventoryItem>, lower: string -> string)
    requires lower("") == ""
    ensures FilteredItems(items, "", AllBrands, AllSizes, lower) == items
  {
    var keep := Matcher("", AllBrands, AllSizes, lower);
    forall i | 0 <= i < |items| ensures keep(items[i]) {
      assert PieceAt(lower(items[i].name), "", 0);
      assert Matches(items[i], "", AllBrands, AllSizes, lower);
    }
    FilterKeepsAll(items, keep);
  }

  /** Choosing a brand shows only that brand's rows and keeps all of them
      that the other criteria allow. */
  lemma BrandChoiceSelects(items: seq<InventoryItem>, search: string, brand: string, size: string, lower: string -> string)
    requires brand != AllBrands
    ensures forall it :: it in FilteredItems(items, search, brand, size, lower) ==> it.brand == brand
    ensures forall it :: it in items && it.brand == brand && Matches(it, search, AllBrands, size, lower) ==>
              it in FilteredItems(items, search, brand, size, lower)
  {
  }
}
