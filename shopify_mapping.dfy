/**
 * How ShopifyRepository.java turns a decoded `/products.json` page into
 * Product rows: `mapProducts` (one row per variant, with the client-side
 * filter), `mapOne`, and the barcode scan of `getProductByBarcode`.
 */
module ShopifyMapping {
  import opened Wrappers
  import opened Text
  import opened Numbers
  import opened Decimals
  import opened Seqs
  import opened Products

  const SHOPIFY := "SHOPIFY"
  /** The separator between product and variant title: space, em dash, space. */
  const TITLE_SEP := " \U{2014} "

  // ---- Decoded responses. Each field holds what the `opt*` accessor reads, None where it falls back. ----

  datatype Variant = Variant(
    title: Option<string>,
    sku: Option<string>,
    barcode: Option<string>,
    price: Option<string>,
    inventoryQuantity: Option<real>,
    inventoryItemId: Option<int>)

  /** One entry of `products`; `variants` is None when missing, and a variant entry is None when it is not an object. */
  datatype ShopProduct = ShopProduct(title: Option<string>, variants: Option<seq<Option<Variant>>>)

  /** The body of GET /products.json: `products` may be missing, and each entry may be a non-object (None). */
  datatype ProductsPage = ProductsPage(products: Option<seq<Option<ShopProduct>>>)

  // ---- Row mapping ----

  /** The row name: `title — vTitle`, unless vTitle is empty or "Default Title" in any case. */
  function Display(title: string, vTitle: string): (d: string)
    ensures StartsWith(d, title)
    ensures d == title <==> vTitle == "" || EqualsIgnoreCase("Default Title", vTitle)
  {
    if !EqualsIgnoreCase("Default Title", vTitle) && vTitle != "" then
      StartsWithAppend(title, TITLE_SEP + vTitle);
      assert title + TITLE_SEP + vTitle == title + (TITLE_SEP + vTitle);
      title + TITLE_SEP + vTitle
    else
      StartsWithAppend(title, "");
      assert title + "" == title;
      title
  }

  /** `new BigDecimal(price)` with ZERO when it throws; a missing price reads as "0". */
  function PriceOf(v: Variant): (d: Decimal)
    ensures Parse(v.price.GetOr("0")).None? ==> d == ZERO
    ensures Parse(v.price.GetOr("0")).Some? ==> d == Parse(v.price.GetOr("0")).value
  {
    match Parse(v.price.GetOr("0"))
    case Some(d) => d
    case None => ZERO
  }

  /** A missing price is ZERO as well, because "0" parses to it. */
  lemma MissingPriceIsZero(v: Variant)
    requires v.price.None?
    ensures PriceOf(v) == ZERO
  {
    ParseIntToString(0);
    assert IntToString(0) == "0";
  }

  /** `mapOne(product, variant)`, which is also the per-variant row of `mapProducts`. */
  function MapOne(p: ShopProduct, v: Variant): ProductInfo {
    var itemId := v.inventoryItemId.GetOr(0);
    NewProduct.(
      description := Some(Display(p.title.GetOr(""), v.title.GetOr(""))),
      sku := Some(v.sku.GetOr("")),
      barcode := Some(v.barcode.GetOr("")),
      price := PriceOf(v),
      currentStock := Some(v.inventoryQuantity.GetOr(0.0)),
      provider := Some(SHOPIFY),
      inventoryItemId := if itemId > 0 then Some(itemId) else None)
  }

  /**
   * What a variant row holds: the display name, SKU and barcode ("" when
   * missing), the parsed price or ZERO, the quantity or 0, provider SHOPIFY,
   * and an inventory item id only when it is positive.
   */
  lemma MapOneFields(p: ShopProduct, v: Variant)
    ensures var r := MapOne(p, v);
      && r.description == Some(Display(p.title.GetOr(""), v.title.GetOr("")))
      && r.sku == Some(v.sku.GetOr("")) && r.barcode == Some(v.barcode.GetOr(""))
      && r.price == PriceOf(v)
      && r.currentStock == Some(v.inventoryQuantity.GetOr(0.0))
      && r.provider == Some(SHOPIFY)
      && (r.inventoryItemId.Some? <==> v.inventoryItemId.GetOr(0) > 0)
      && (r.inventoryItemId.Some? ==> r.inventoryItemId == v.inventoryItemId && r.inventoryItemId.value > 0)
      && r.externalId.None? && r.variantId.None? && !r.stockUpdatedMessageVisible
  {
  }

  /** The row for a product without variants: its title, stock 0, nothing else. */
  function TitleRow(title: string): ProductInfo {
    NewProduct.(description := Some(title), currentStock := Some(0.0), provider := Some(SHOPIFY))
  }

  /** The variant filter: an empty needle keeps everything, otherwise it must occur in the lower-cased name, SKU or barcode. */
  predicate KeepVariant(p: ShopProduct, v: Variant, needle: string) {
    || needle == ""
    || Contains(Lower(Display(p.title.GetOr(""), v.title.GetOr(""))), needle)
    || Contains(Lower(v.sku.GetOr("")), needle)
    || Contains(Lower(v.barcode.GetOr("")), needle)
  }

  /** The filter, read off a finished row. */
  predicate RowMatches(r: ProductInfo, needle: string) {
    || needle == ""
    || Contains(Lower(r.description.GetOr("")), needle)
    || Contains(Lower(r.sku.GetOr("")), needle)
    || Contains(Lower(r.barcode.GetOr("")), needle)
  }

  /** Filtering a variant is filtering the row it becomes. */
  lemma KeepVariantIsRowMatch(p: ShopProduct, v: Variant, needle: string)
    ensures KeepVariant(p, v, needle) <==> RowMatches(MapOne(p, v), needle)
  {
  }

  /** The row one variant entry contributes: none for a non-object, none when filtered out. */
  function VariantRow(p: ShopProduct, ov: Option<Variant>, needle: string): seq<ProductInfo> {
    match ov
    case None => []
    case Some(v) => if KeepVariant(p, v, needle) then [MapOne(p, v)] else []
  }

  function VariantRowOf(p: ShopProduct, needle: string): Option<Variant> -> seq<ProductInfo> {
    ov => VariantRow(p, ov, needle)
  }

  /** The rows of some variants of p, in order. */
  function VariantRows(p: ShopProduct, vs: seq<Option<Variant>>, needle: string): seq<ProductInfo> {
    Flatten(VariantRowOf(p, needle), vs)
  }

  predicate HasNoVariants(p: ShopProduct) {
    p.variants.None? || |p.variants.value| == 0
  }

  /** The rows one product contributes. */
  function ProductRows(op: Option<ShopProduct>, needle: string): seq<ProductInfo> {
    match op
    case None => []
    case Some(p) =>
      if HasNoVariants(p) then
        (if needle == "" || Contains(Lower(p.title.GetOr("")), needle) then [TitleRow(p.title.GetOr(""))] else [])
      else
        VariantRows(p, p.variants.value, needle)
  }

  function ProductRowsOf(needle: string): Option<ShopProduct> -> seq<ProductInfo> {
    op => ProductRows(op, needle)
  }

  /** The rows of a run of products, in product then variant order. */
  function Rows(ps: seq<Option<ShopProduct>>, needle: string): seq<ProductInfo> {
    Flatten(ProductRowsOf(needle), ps)
  }

  /** What `mapProducts(products, needle)` returns. */
  function MappedProducts(products: Option<seq<Option<ShopProduct>>>, needle: string): seq<ProductInfo> {
    if products.None? then [] else Rows(products.value, needle)
  }

  /** `mapProducts`: an index loop over the products appending to one list. */
  method MapProducts(products: Option<seq<Option<ShopProduct>>>, needle: string) returns (out: seq<ProductInfo>)
    ensures out == MappedProducts(products, needle)
  {
    out := [];
    if products.None? {
      return;
    }
    var ps := products.value;
    var i := 0;
    while i < |ps|
      invariant 0 <= i <= |ps|
      invariant out == Rows(ps[..i], needle)
    {
      FlattenStep(ProductRowsOf(needle), ps, i);
      var rows := MapProduct(ps[i], needle);
      out := out + rows;
      i := i + 1;
    }
    assert ps[..|ps|] == ps;
  }

  /** The body of the outer loop of `mapProducts`: one product's rows, by an inner loop over its variants. */
  method MapProduct(op: Option<ShopProduct>, needle: string) returns (rows: seq<ProductInfo>)
    ensures rows == ProductRows(op, needle)
  {
    rows := [];
    if op.None? {
      return;
    }
    var pr := op.value;
    var filter := needle != "";
    var title := pr.title.GetOr("");
    if pr.variants.None? || |pr.variants.value| == 0 {
      if !filter || Contains(Lower(title), needle) {
        rows := [TitleRow(title)];
      }
      return;
    }
    var vars := pr.variants.value;
    var v := 0;
    while v < |vars|
      invariant 0 <= v <= |vars|
      invariant rows == VariantRows(pr, vars[..v], needle)
    {
      FlattenStep(VariantRowOf(pr, needle), vars, v);
      if vars[v].Some? {
        var variant := vars[v].value;
        if !filter || KeepVariant(pr, variant, needle) {
          rows := rows + [MapOne(pr, variant)];
        }
      }
      v := v + 1;
    }
    assert vars[..|vars|] == vars;
  }

  // ---- Properties of the mapping ----

  lemma {:induction false} VariantRowsMatch(p: ShopProduct, vs: seq<Option<Variant>>, needle: string)
    ensures forall r :: r in VariantRows(p, vs, needle) ==> RowMatches(r, needle) && r.provider == Some(SHOPIFY)
  {
    forall r | r in VariantRows(p, vs, needle)
      ensures RowMatches(r, needle) && r.provider == Some(SHOPIFY)
    {
      FlattenOrigin(VariantRowOf(p, needle), vs, r);
      var k :| 0 <= k < |vs| && r in VariantRow(p, vs[k], needle);
      KeepVariantIsRowMatch(p, vs[k].value, needle);
    }
  }

  /** Every row passes the filter and is tagged SHOPIFY. */
  lemma RowsMatch(ps: seq<Option<ShopProduct>>, needle: string)
    ensures forall r :: r in Rows(ps, needle) ==> RowMatches(r, needle) && r.provider == Some(SHOPIFY)
  {
    forall r | r in Rows(ps, needle)
      ensures RowMatches(r, needle) && r.provider == Some(SHOPIFY)
    {
      FlattenOrigin(ProductRowsOf(needle), ps, r);
      var k :| 0 <= k < |ps| && r in ProductRows(ps[k], needle);
      var p := ps[k].value;
      if !HasNoVariants(p) {
        VariantRowsMatch(p, p.variants.value, needle);
      }
    }
  }

  /** The most rows a product can contribute: max(1, |variants|). */
  function Capacity(op: Option<ShopProduct>): nat {
    if op.None? then 0
    else if HasNoVariants(op.value) then 1
    else |op.value.variants.value|
  }

  function TotalCapacity(ps: seq<Option<ShopProduct>>): nat {
    if ps == [] then 0 else TotalCapacity(ps[..|ps| - 1]) + Capacity(ps[|ps| - 1])
  }

  function PresentCount(vs: seq<Option<Variant>>): nat {
    if vs == [] then 0 else PresentCount(vs[..|vs| - 1]) + (if vs[|vs| - 1].Some? then 1 else 0)
  }

  /** The rows an empty needle gives: one per non-null variant, one for a product without variants. */
  function Slots(op: Option<ShopProduct>): nat {
    if op.None? then 0
    else if HasNoVariants(op.value) then 1
    else PresentCount(op.value.variants.value)
  }

  function TotalSlots(ps: seq<Option<ShopProduct>>): nat {
    if ps == [] then 0 else TotalSlots(ps[..|ps| - 1]) + Slots(ps[|ps| - 1])
  }

  lemma {:induction false} VariantRowsCount(p: ShopProduct, vs: seq<Option<Variant>>, needle: string)
    ensures |VariantRows(p, vs, needle)| <= PresentCount(vs) <= |vs|
    ensures needle == "" ==> |VariantRows(p, vs, needle)| == PresentCount(vs)
  {
    if vs != [] {
      VariantRowsCount(p, vs[..|vs| - 1], needle);
    }
  }

  /**
   * The number of rows is at most the sum over products of max(1, |variants|),
   * with exactly one row per non-null variant (or per variant-less product)
   * when the needle is empty.
   */
  lemma {:induction false} RowsCount(ps: seq<Option<ShopProduct>>, needle: string)
    ensures |Rows(ps, needle)| <= TotalSlots(ps) <= TotalCapacity(ps)
    ensures needle == "" ==> |Rows(ps, needle)| == TotalSlots(ps)
  {
    if ps != [] {
      RowsCount(ps[..|ps| - 1], needle);
      var last := ps[|ps| - 1];
      if last.Some? && !HasNoVariants(last.value) {
        VariantRowsCount(last.value, last.value.variants.value, needle);
      }
    }
  }

  const TeeVariant := Variant(None, None, None, None, None, None)
  const Tee := ShopProduct(Some("Tee"), Some([Some(TeeVariant), Some(TeeVariant)]))

  /** One product with two variants yields two rows: rows count variants, not products. */
  lemma TwoVariantsTwoRows()
    ensures |MappedProducts(Some([Some(Tee)]), "")| == 2
  {
    RowsCount([Some(Tee)], "");
    var vs := Tee.variants.value;
    assert vs[..|vs| - 1] == vs[..1] && vs[..1][..0] == [];
    assert PresentCount(vs[..1]) == 1;
    assert PresentCount(vs) == 2;
    assert [Some(Tee)][..0] == [];
    assert TotalSlots([Some(Tee)]) == Slots(Some(Tee)) == 2;
  }

  // ---- The barcode scan of getProductByBarcode ----

  /** The lookup test: the trimmed barcode equals the variant's barcode ("" when missing), ignoring case. */
  predicate BarcodeHit(needle: string, v: Variant) {
    EqualsIgnoreCase(needle, v.barcode.GetOr(""))
  }

  predicate VariantHitAt(vs: seq<Option<Variant>>, j: int, needle: string)
    requires 0 <= j < |vs|
  {
    vs[j].Some? && BarcodeHit(needle, vs[j].value)
  }

  /** Some variant of this product entry passes the lookup test. */
  predicate ProductHasHit(op: Option<ShopProduct>, needle: string) {
    && op.Some? && op.value.variants.Some?
    && exists j :: 0 <= j < |op.value.variants.value| && VariantHitAt(op.value.variants.value, j, needle)
  }

  /** A variant that passes the filter has its row listed. */
  lemma VariantRowListed(p: ShopProduct, vs: seq<Option<Variant>>, j: nat, needle: string)
    requires j < |vs| && vs[j].Some? && KeepVariant(p, vs[j].value, needle)
    ensures MapOne(p, vs[j].value) in VariantRows(p, vs, needle)
  {
    assert MapOne(p, vs[j].value) in VariantRowOf(p, needle)(vs[j]);
    FlattenMember(VariantRowOf(p, needle), vs, j, MapOne(p, vs[j].value));
  }

  /** The first hit among vs[j..], mapped by `mapOne`. */
  function FirstVariantHit(p: ShopProduct, vs: seq<Option<Variant>>, j: nat, needle: string): (r: Option<ProductInfo>)
    requires j <= |vs|
    ensures r.Some? ==> r.value.barcode.Some? && EqualsIgnoreCase(needle, r.value.barcode.value)
    ensures r.None? <==> forall k :: j <= k < |vs| ==> !VariantHitAt(vs, k, needle)
    decreases |vs| - j
  {
    if j == |vs| then None
    else if VariantHitAt(vs, j, needle) then
      Some(MapOne(p, vs[j].value))
    else FirstVariantHit(p, vs, j + 1, needle)
  }

  lemma ProductRowsListed(ps: seq<Option<ShopProduct>>, i: nat, r: ProductInfo, needle: string)
    requires i < |ps| && ps[i].Some? && ps[i].value.variants.Some?
    requires r in VariantRows(ps[i].value, ps[i].value.variants.value, needle)
    ensures r in Rows(ps, needle)
  {
    assert r in ProductRowsOf(needle)(ps[i]);
    FlattenMember(ProductRowsOf(needle), ps, i, r);
  }

  /**
   * Conversely to RowsMatch: every non-null variant that passes the filter
   * has its `mapOne` row in the result, so a variant row is kept exactly
   * when the needle occurs in its name, SKU or barcode.
   */
  lemma KeptVariantListed(ps: seq<Option<ShopProduct>>, i: nat, j: nat, needle: string)
    requires i < |ps| && ps[i].Some? && ps[i].value.variants.Some?
    requires j < |ps[i].value.variants.value| && ps[i].value.variants.value[j].Some?
    requires KeepVariant(ps[i].value, ps[i].value.variants.value[j].value, needle)
    ensures MapOne(ps[i].value, ps[i].value.variants.value[j].value) in Rows(ps, needle)
  {
    VariantRowListed(ps[i].value, ps[i].value.variants.value, j, needle);
    ProductRowsListed(ps, i, MapOne(ps[i].value, ps[i].value.variants.value[j].value), needle);
  }

  /** The first hit in product then variant order among ps[i..]. */
  function FirstHit(ps: seq<Option<ShopProduct>>, i: nat, needle: string): (r: Option<ProductInfo>)
    requires i <= |ps|
    ensures r.Some? ==> r.value.barcode.Some? && EqualsIgnoreCase(needle, r.value.barcode.value)
    ensures r.None? <==> forall k :: i <= k < |ps| ==> !ProductHasHit(ps[k], needle)
    decreases |ps| - i
  {
    if i == |ps| then None
    else
      var here := if ps[i].Some? && ps[i].value.variants.Some? then
        FirstVariantHit(ps[i].value, ps[i].value.variants.value, 0, needle) else None;
      if here.Some? then here else FirstHit(ps, i + 1, needle)
  }

  /** The index of the first variant of vs[j..] that passes the lookup test, |vs| when there is none. */
  function FirstVariantHitIndex(vs: seq<Option<Variant>>, j: nat, needle: string): (k: nat)
    requires j <= |vs|
    ensures j <= k <= |vs|
    ensures k < |vs| ==> VariantHitAt(vs, k, needle)
    ensures forall m :: j <= m < k ==> !VariantHitAt(vs, m, needle)
    decreases |vs| - j
  {
    if j == |vs| || VariantHitAt(vs, j, needle) then j else FirstVariantHitIndex(vs, j + 1, needle)
  }

  /** The variant scan answers the `mapOne` row of the first variant that passes the test. */
  lemma {:induction false} FirstVariantHitIsFirst(p: ShopProduct, vs: seq<Option<Variant>>, j: nat, needle: string)
    requires j <= |vs|
    ensures var k := FirstVariantHitIndex(vs, j, needle);
      FirstVariantHit(p, vs, j, needle) == if k < |vs| then Some(MapOne(p, vs[k].value)) else None
    decreases |vs| - j
  {
    if j < |vs| && !VariantHitAt(vs, j, needle) {
      FirstVariantHitIsFirst(p, vs, j + 1, needle);
    }
  }

  /** The index of the first product of ps[i..] with a hit, |ps| when there is none. */
  function FirstHitIndex(ps: seq<Option<ShopProduct>>, i: nat, needle: string): (k: nat)
    requires i <= |ps|
    ensures i <= k <= |ps|
    ensures k < |ps| ==> ProductHasHit(ps[k], needle)
    ensures forall m :: i <= m < k ==> !ProductHasHit(ps[m], needle)
    decreases |ps| - i
  {
    if i == |ps| || ProductHasHit(ps[i], needle) then i else FirstHitIndex(ps, i + 1, needle)
  }

  /**
   * The product scan answers the first hit of the first product that has
   * one: products before it, and its variants before the hit, are passed over.
   */
  lemma {:induction false} FirstHitIsFirst(ps: seq<Option<ShopProduct>>, i: nat, needle: string)
    requires i <= |ps|
    ensures var k := FirstHitIndex(ps, i, needle);
      FirstHit(ps, i, needle) ==
        if k < |ps| then
          var vs := ps[k].value.variants.value;
          Some(MapOne(ps[k].value, vs[FirstVariantHitIndex(vs, 0, needle)].value))
        else None
    decreases |ps| - i
  {
    if i < |ps| {
      if ps[i].Some? && ps[i].value.variants.Some? {
        FirstVariantHitIsFirst(ps[i].value, ps[i].value.variants.value, 0, needle);
      }
      if !ProductHasHit(ps[i], needle) {
        FirstHitIsFirst(ps, i + 1, needle);
      }
    }
  }

  lemma {:induction false} FirstVariantHitListed(p: ShopProduct, vs: seq<Option<Variant>>, j: nat, needle: string)
    requires j <= |vs| && FirstVariantHit(p, vs, j, needle).Some?
    ensures FirstVariantHit(p, vs, j, needle).value in VariantRows(p, vs, "")
    decreases |vs| - j
  {
    if VariantHitAt(vs, j, needle) {
      VariantRowListed(p, vs, j, "");
    } else {
      FirstVariantHitListed(p, vs, j + 1, needle);
    }
  }

  /**
   * The barcode lookup returns a row that the unfiltered search would also
   * list: the same `mapOne` row, with the looked-up barcode.
   */
  lemma {:induction false} FirstHitListed(ps: seq<Option<ShopProduct>>, i: nat, needle: string)
    requires i <= |ps| && FirstHit(ps, i, needle).Some?
    ensures FirstHit(ps, i, needle).value in Rows(ps, "")
    decreases |ps| - i
  {
    if ps[i].Some? && ps[i].value.variants.Some? && FirstVariantHit(ps[i].value, ps[i].value.variants.value, 0, needle).Some? {
      FirstVariantHitListed(ps[i].value, ps[i].value.variants.value, 0, needle);
      ProductRowsListed(ps, i, FirstHit(ps, i, needle).value, "");
    } else {
      FirstHitListed(ps, i + 1, needle);
    }
  }

  /** The variant loop of `getProductByBarcode`, returning at the first hit. */
  method ScanVariants(p: ShopProduct, vs: seq<Option<Variant>>, needle: string) returns (r: Option<ProductInfo>)
    ensures r == FirstVariantHit(p, vs, 0, needle)
  {
    var v := 0;
    while v < |vs|
      invariant 0 <= v <= |vs|
      invariant FirstVariantHit(p, vs, 0, needle) == FirstVariantHit(p, vs, v, needle)
    {
      if vs[v].Some? {
        var bc := vs[v].value.barcode.GetOr("");
        if EqualsIgnoreCase(needle, bc) {
          return Some(MapOne(p, vs[v].value));
        }
      }
      v := v + 1;
    }
    return None;
  }

  /** The product loop of `getProductByBarcode`: null entries and products without variants are skipped. */
  method ScanBarcode(ps: seq<Option<ShopProduct>>, needle: string) returns (r: Option<ProductInfo>)
    ensures r == FirstHit(ps, 0, needle)
  {
    var i := 0;
    while i < |ps|
      invariant 0 <= i <= |ps|
      invariant FirstHit(ps, 0, needle) == FirstHit(ps, i, needle)
    {
      if ps[i].Some? && ps[i].value.variants.Some? {
        var hit := ScanVariants(ps[i].value, ps[i].value.variants.value, needle);
        if hit.Some? {
          return hit;
        }
      }
      i := i + 1;
    }
    return None;
  }
}
