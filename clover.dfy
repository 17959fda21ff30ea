/**
 * The Clover repository (data/CloverRepository.java): one page of items
 * with their stock, filtered on the client; barcode lookup over that page
 * by barcode, then SKU; and the absolute stock update of one item named by
 * the Product's externalId.
 */
module Clover {
  import opened Wrappers
  import opened Text
  import opened Numbers
  import opened Decimals
  import opened Products
  import opened Prefs
  import opened Seqs

  const CLOVER := "CLOVER"
  const SANDBOX := "https://apisandbox.dev.clover.com"
  const PRODUCTION := "https://api.clover.com"
  const MAX_PAGE := 100

  const MISSING_CREDS := "Missing Clover token or merchant id."
  const MISSING_ITEM_ID := "Missing Clover item id on Product.externalId."
  const SEARCH_ERROR := "Clover search error: "
  const UPDATE_ERROR := "Clover update error: "
  const USE_PRODUCT_UPDATE := "Use CloverRepository.updateStock(Context, Product, Callback<Boolean>) with Product.externalId set."

  // ---- Decoded responses and requests ----

  datatype ItemStock = ItemStock(quantity: Option<real>, stockCount: Option<real>)

  /** One element of the items list; a field is None where the `opt*` accessor falls back. */
  datatype CloverItem = CloverItem(
    id: Option<string>,
    name: Option<string>,
    code: Option<string>,
    alternateName: Option<string>,
    priceCents: Option<int>,
    itemStock: Option<ItemStock>)

  /** The body of GET /items: `elements`, and `items` as a second choice. */
  datatype ItemsPage = ItemsPage(elements: Option<seq<Option<CloverItem>>>, items: Option<seq<Option<CloverItem>>>)

  /** Any answer to the stock POST: its body is not read. */
  datatype Ack = Ack

  datatype CloverCall =
    | ListItems(baseUrl: string, merchantId: string, limit: int)
    | PostItemStock(baseUrl: string, merchantId: string, itemId: string, quantity: int, modifiedTime: int)

  // ---- Configuration ----

  /** `baseUrl`: the sandbox when the package name ends with ".demo" or the stored tier is "DEMO" in any case. */
  function BaseUrl(packageName: Option<string>, prefs: SecurePrefs): (u: string)
    reads prefs.sp
    ensures u == SANDBOX || u == PRODUCTION
    ensures u == SANDBOX <==>
      (packageName.Some? && EndsWith(packageName.value, ".demo")) || EqualsIgnoreCase("DEMO", prefs.GetTierName())
  {
    var isDemo := packageName.Some? && EndsWith(packageName.value, ".demo");
    var isDemo' := if EqualsIgnoreCase("DEMO", prefs.GetTierName()) then true else isDemo;
    if isDemo' then SANDBOX else PRODUCTION
  }

  predicate HasCreds(prefs: SecurePrefs)
    reads prefs.sp
  {
    Nz(prefs.GetSetting(CloverAccessToken)) != "" && Nz(prefs.GetSetting(CloverMerchantId)) != ""
  }

  function MerchantId(prefs: SecurePrefs): string
    reads prefs.sp
  {
    Nz(prefs.GetSetting(CloverMerchantId))
  }

  /** `limit <= 0 ? 100 : Math.min(limit, 100)`. */
  function PageLimit(limit: int): (n: int)
    ensures 1 <= n <= MAX_PAGE
    ensures limit <= 0 || limit >= MAX_PAGE ==> n == MAX_PAGE
    ensures 0 < limit <= MAX_PAGE ==> n == limit
  {
    if limit <= 0 then MAX_PAGE else if limit < MAX_PAGE then limit else MAX_PAGE
  }

  // ---- Mapping ----

  function ItemsOf(page: ItemsPage): seq<Option<CloverItem>> {
    if page.elements.Some? then page.elements.value
    else if page.items.Some? then page.items.value
    else []
  }

  /** The stock: `quantity`, else `stockCount`, else 0; 0 when the item has no stock object. */
  function Quantity(o: CloverItem): real {
    match o.itemStock
    case None => 0.0
    case Some(st) => st.quantity.GetOr(st.stockCount.GetOr(0.0))
  }

  /** The Product one item becomes: price in cents moved two places left, provider CLOVER, externalId the item id. */
  function MapItem(o: CloverItem): (p: ProductInfo)
    ensures ValueOf(p.price) == o.priceCents.GetOr(0) as real / 100.0
    ensures p.description == Some(o.name.GetOr("")) && p.sku == Some(o.code.GetOr(""))
    ensures p.barcode == Some(o.alternateName.GetOr("")) && p.externalId == Some(o.id.GetOr(""))
    ensures p.provider == Some(CLOVER)
    ensures o.itemStock.None? ==> p.currentStock == Some(0.0)
    ensures o.itemStock.Some? && o.itemStock.value.quantity.Some? ==> p.currentStock == o.itemStock.value.quantity
    ensures o.itemStock.Some? && o.itemStock.value.quantity.None? ==>
      p.currentStock == Some(o.itemStock.value.stockCount.GetOr(0.0))
  {
    NewProduct.(
      description := Some(o.name.GetOr("")),
      sku := Some(o.code.GetOr("")),
      barcode := Some(o.alternateName.GetOr("")),
      price := MovePointLeft(FromLong(o.priceCents.GetOr(0)), 2),
      currentStock := Some(Quantity(o)),
      provider := Some(CLOVER),
      externalId := Some(o.id.GetOr("")))
  }

  /** The search needle: trimmed and lower-cased, "" for null. */
  function Needle(query: Option<string>): string {
    if query.None? then "" else Lower(Trim(query.value))
  }

  /** The filter: an empty needle keeps every item; otherwise it must occur in the lower-cased name, code or alternate name. */
  predicate Keep(o: CloverItem, needle: string) {
    needle == "" ||
    Contains(Lower(o.name.GetOr("")), needle) || Contains(Lower(o.code.GetOr("")), needle) ||
    Contains(Lower(o.alternateName.GetOr("")), needle)
  }

  function ItemRow(oo: Option<CloverItem>, needle: string): seq<ProductInfo> {
    if oo.Some? && Keep(oo.value, needle) then [MapItem(oo.value)] else []
  }

  function ItemRowOf(needle: string): Option<CloverItem> -> seq<ProductInfo> {
    oo => ItemRow(oo, needle)
  }

  /** The rows of a list of items, in order. */
  function ItemRows(arr: seq<Option<CloverItem>>, needle: string): seq<ProductInfo> {
    Flatten(ItemRowOf(needle), arr)
  }

  /** Every row is a kept item, mapped; in particular it is tagged CLOVER. */
  lemma ItemRowsOrigin(arr: seq<Option<CloverItem>>, needle: string)
    ensures forall p :: p in ItemRows(arr, needle) ==>
      p.provider == Some(CLOVER) && exists k :: 0 <= k < |arr| && arr[k].Some? && Keep(arr[k].value, needle) && p == MapItem(arr[k].value)
  {
    forall p | p in ItemRows(arr, needle)
      ensures p.provider == Some(CLOVER)
      ensures exists k :: 0 <= k < |arr| && arr[k].Some? && Keep(arr[k].value, needle) && p == MapItem(arr[k].value)
    {
      FlattenOrigin(ItemRowOf(needle), arr, p);
      var k :| 0 <= k < |arr| && p in ItemRow(arr[k], needle);
    }
  }

  /** Conversely, every kept item is listed. */
  lemma ItemRowsComplete(arr: seq<Option<CloverItem>>, needle: string, k: nat)
    requires k < |arr| && arr[k].Some? && Keep(arr[k].value, needle)
    ensures MapItem(arr[k].value) in ItemRows(arr, needle)
  {
    FlattenMember(ItemRowOf(needle), arr, k, MapItem(arr[k].value));
  }

  // ---- searchProducts ----

  /** The response handler's loop over the items. */
  method MapItems(arr: seq<Option<CloverItem>>, needle: string) returns (out: seq<ProductInfo>)
    ensures out == ItemRows(arr, needle)
  {
    out := [];
    var doFilter := needle != "";
    var i := 0;
    while i < |arr|
      invariant 0 <= i <= |arr|
      invariant out == ItemRows(arr[..i], needle)
    {
      FlattenStep(ItemRowOf(needle), arr, i);
      if arr[i].Some? {
        var o := arr[i].value;
        var keep := true;
        if doFilter {
          var ln := Lower(o.name.GetOr(""));
          var ls := Lower(o.code.GetOr(""));
          var lb := Lower(o.alternateName.GetOr(""));
          keep := Contains(ln, needle) || Contains(ls, needle) || Contains(lb, needle);
        }
        if keep {
          out := out + [MapItem(o)];
        }
      }
      i := i + 1;
    }
    assert arr[..|arr|] == arr;
  }

  /**
   * `searchProducts`: one request for PageLimit(limit) items with their
   * stock; the answer is the kept items of that one page.
   */
  method SearchProducts(prefs: SecurePrefs, packageName: Option<string>, query: Option<string>, limit: int,
                        reply: Reply<ItemsPage>)
    returns (r: Result<seq<ProductInfo>>, calls: seq<CloverCall>)
    ensures !HasCreds(prefs) ==> r == Err(IllegalState(MISSING_CREDS)) && calls == []
    ensures HasCreds(prefs) ==> calls == [ListItems(BaseUrl(packageName, prefs), MerchantId(prefs), PageLimit(limit))]
    ensures HasCreds(prefs) && reply.NetworkError? ==> r == Err(Runtime(SEARCH_ERROR + reply.description))
    ensures HasCreds(prefs) && reply.Delivered? ==> r == Ok(ItemRows(ItemsOf(reply.body), Needle(query)))
  {
    if !HasCreds(prefs) {
      return Err(IllegalState(MISSING_CREDS)), [];
    }
    calls := [ListItems(BaseUrl(packageName, prefs), MerchantId(prefs), PageLimit(limit))];
    match reply {
      case NetworkError(e) =>
        r := Err(Runtime(SEARCH_ERROR + e));
      case Delivered(page) =>
        var out := MapItems(ItemsOf(page), Needle(query));
        r := Ok(out);
    }
  }

  // ---- getProductByBarcode ----

  /** A listed product answers the scanned code when its barcode, or else its SKU, equals it ignoring case. */
  predicate CodeHit(p: ProductInfo, code: string) {
    (p.barcode.Some? && EqualsIgnoreCase(code, p.barcode.value)) || (p.sku.Some? && EqualsIgnoreCase(code, p.sku.value))
  }

  /** The for-each loop: the first listed product that is a code hit. */
  function FirstCodeHit(ps: seq<ProductInfo>, i: nat, code: string): (r: Option<ProductInfo>)
    requires i <= |ps|
    ensures r.None? <==> forall k :: i <= k < |ps| ==> !CodeHit(ps[k], code)
    ensures r.Some? ==> r.value in ps[i..] && CodeHit(r.value, code)
    ensures r.Some? ==> exists k :: i <= k < |ps| && r.value == ps[k] && CodeHit(ps[k], code) &&
                                    forall j :: i <= j < k ==> !CodeHit(ps[j], code)
    decreases |ps| - i
  {
    if i == |ps| then None
    else if CodeHit(ps[i], code) then Some(ps[i])
    else FirstCodeHit(ps, i + 1, code)
  }

  /**
   * `getProductByBarcode`: a search for the code with limit 100, then the
   * first result whose barcode or SKU equals the (untrimmed) code.
   */
  method GetProductByBarcode(prefs: SecurePrefs, packageName: Option<string>, barcode: string, reply: Reply<ItemsPage>)
    returns (r: Result<Option<ProductInfo>>, calls: seq<CloverCall>)
    ensures !HasCreds(prefs) ==> r == Err(IllegalState(MISSING_CREDS)) && calls == []
    ensures HasCreds(prefs) ==> calls == [ListItems(BaseUrl(packageName, prefs), MerchantId(prefs), MAX_PAGE)]
    ensures HasCreds(prefs) && reply.NetworkError? ==> r == Err(Runtime(SEARCH_ERROR + reply.description))
    ensures HasCreds(prefs) && reply.Delivered? ==>
      r == Ok(FirstCodeHit(ItemRows(ItemsOf(reply.body), Needle(Some(barcode))), 0, barcode))
  {
    var found;
    found, calls := SearchProducts(prefs, packageName, Some(barcode), MAX_PAGE, reply);
    if found.Err? {
      return Err(found.error), calls;
    }
    var list := found.value;
    var i := 0;
    while i < |list|
      invariant 0 <= i <= |list|
      invariant FirstCodeHit(list, 0, barcode) == FirstCodeHit(list, i, barcode)
    {
      var p := list[i];
      if p.barcode.Some? && EqualsIgnoreCase(barcode, p.barcode.value) {
        return Ok(Some(p)), calls;
      }
      if p.sku.Some? && EqualsIgnoreCase(barcode, p.sku.value) {
        return Ok(Some(p)), calls;
      }
      i := i + 1;
    }
    r := Ok(None);
  }

  /**
   * The text filter never hides an exact code match: an item on the page
   * whose alternate name or code equals the scanned code ignoring case is
   * kept by the search, so the lookup answers a product (that item, or an
   * earlier code hit).
   */
  lemma ExactCodeIsFound(arr: seq<Option<CloverItem>>, barcode: string, k: nat)
    requires k < |arr| && arr[k].Some?
    requires EqualsIgnoreCase(barcode, arr[k].value.alternateName.GetOr("")) ||
             EqualsIgnoreCase(barcode, arr[k].value.code.GetOr(""))
    ensures FirstCodeHit(ItemRows(arr, Needle(Some(barcode))), 0, barcode).Some?
  {
    var o := arr[k].value;
    var needle := Needle(Some(barcode));
    LowerTrimInLower(barcode);
    assert Keep(o, needle);
    ItemRowsComplete(arr, needle, k);
    var rows := ItemRows(arr, needle);
    var j :| 0 <= j < |rows| && rows[j] == MapItem(o);
    assert CodeHit(rows[j], barcode);
  }

  const PlainItem := CloverItem(Some("ITEM1"), Some("Widget"), Some("W1"), None, Some(250), None)

  /** An empty code is no filter, and it equals the empty barcode an item without an alternate name gets. */
  lemma EmptyCodeHitsUnbarcodedItem()
    ensures FirstCodeHit(ItemRows([Some(PlainItem)], Needle(Some(""))), 0, "") == Some(MapItem(PlainItem))
  {
    assert Needle(Some("")) == "";
    assert ItemRows([Some(PlainItem)], "") == [MapItem(PlainItem)] by {
      FlattenStep(ItemRowOf(""), [Some(PlainItem)], 0);
      assert [Some(PlainItem)][..1] == [Some(PlainItem)];
    }
  }

  // ---- Stock update ----

  /**
   * `updateStock(Context, Product, Callback<Boolean>)`: one POST of the
   * rounded stock (null counts as 0) for the item named by externalId,
   * stamped with the clock reading `now`.
   */
  function StockUpdate(p: ProductInfo, creds: bool, baseUrl: string, merchantId: string, now: int,
                       reply: Reply<Ack>): (o: Outcome<bool, CloverCall>)
    ensures !creds ==> o == Outcome(Err(IllegalState(MISSING_CREDS)), [])
    ensures creds && Nz(p.externalId) == "" ==> o == Outcome(Err(IllegalArgument(MISSING_ITEM_ID)), [])
    ensures creds && Nz(p.externalId) != "" ==>
      && o.calls == [PostItemStock(baseUrl, merchantId, p.externalId.value, Round(p.currentStock.GetOr(0.0)), now)]
      && (reply.Delivered? ==> o.result == Ok(true))
      && (reply.NetworkError? ==> o.result == Err(Runtime(UPDATE_ERROR + reply.description)))
    ensures o.result.Ok? ==> o.result.value
  {
    if !creds then Outcome(Err(IllegalState(MISSING_CREDS)), [])
    else if Nz(p.externalId) == "" then Outcome(Err(IllegalArgument(MISSING_ITEM_ID)), [])
    else
      var call := PostItemStock(baseUrl, merchantId, p.externalId.value, Round(p.currentStock.GetOr(0.0)), now);
      match reply
      case NetworkError(e) => Outcome(Err(Runtime(UPDATE_ERROR + e)), [call])
      case Delivered(_) => Outcome(Ok(true), [call])
  }

  /** The update as the repository runs it, reading the Product's fields. */
  method UpdateStock(prefs: SecurePrefs, packageName: Option<string>, product: Product, now: int, reply: Reply<Ack>)
    returns (r: Result<bool>, calls: seq<CloverCall>)
    ensures Outcome(r, calls) ==
      StockUpdate(product.View(), HasCreds(prefs), BaseUrl(packageName, prefs), MerchantId(prefs), now, reply)
  {
    if !HasCreds(prefs) {
      return Err(IllegalState(MISSING_CREDS)), [];
    }
    var itemId := product.externalId;
    if Nz(itemId) == "" {
      return Err(IllegalArgument(MISSING_ITEM_ID)), [];
    }
    var target := Round(product.currentStock.GetOr(0.0));
    calls := [PostItemStock(BaseUrl(packageName, prefs), MerchantId(prefs), itemId.value, target, now)];
    match reply {
      case NetworkError(e) => r := Err(Runtime(UPDATE_ERROR + e));
      case Delivered(_) => r := Ok(true);
    }
  }

  /**
   * Search, edit the stock, update: a product the search listed, with its
   * stock set to q, is written back to the same item id with quantity
   * round(q); an item without an id is refused before any request.
   */
  lemma UpdateSearchedItem(o: CloverItem, q: real, baseUrl: string, merchantId: string, now: int, reply: Reply<Ack>)
    ensures o.id.GetOr("") != "" ==>
      StockUpdate(MapItem(o).(currentStock := Some(q)), true, baseUrl, merchantId, now, reply).calls
        == [PostItemStock(baseUrl, merchantId, o.id.value, Round(q), now)]
    ensures o.id.GetOr("") == "" ==>
      StockUpdate(MapItem(o).(currentStock := Some(q)), true, baseUrl, merchantId, now, reply)
        == Outcome(Err(IllegalArgument(MISSING_ITEM_ID)), [])
  {
  }

  /** A product that was never given a stock is written as 0, not refused. */
  lemma UpdateNullStockIsZero(p: ProductInfo, baseUrl: string, merchantId: string, now: int, reply: Reply<Ack>)
    requires Nz(p.externalId) != "" && p.currentStock.None?
    ensures StockUpdate(p, true, baseUrl, merchantId, now, reply).calls[0].quantity == 0
  {
    RoundWhole(0);
  }

  /** The interface's numeric-id update: always refused, with no request. */
  function UpdateStockById(id: int, locationId: int, newQty: real): (o: Outcome<ProductInfo, CloverCall>)
    ensures o.result.Err? && o.result.error.Unsupported? && o.calls == []
  {
    Outcome(Err(Unsupported(USE_PRODUCT_UPDATE)), [])
  }

  /** `fetchRecentUpdates`: always an empty list, with no request. */
  function FetchRecentUpdates(locationId: int, sinceEpochMs: int, limit: int): (o: Outcome<seq<ProductInfo>, CloverCall>)
    ensures o.result == Ok([]) && o.calls == []
  {
    Outcome(Ok([]), [])
  }
}
