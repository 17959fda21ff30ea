/**
 * The Shopify Admin API repository (data/ShopifyRepository.java): product
 * search by client-side filter over a REST product page, barcode lookup,
 * location resolution with a cached id, and the stock update that adjusts
 * by delta through GraphQL and falls back to an absolute REST set.
 *
 * Every response is an input (`Reply`); each operation returns the callback
 * outcome and the requests it issued, in order.
 */
module Shopify {
  import opened Wrappers
  import opened Text
  import opened Numbers
  import opened Products
  import opened Store
  import opened Prefs
  import opened ShopifyMapping

  const REST_VER := "2023-10"
  const GQL_VER := "2025-10"
  const MYSHOPIFY := ".myshopify.com"

  const MISSING_CREDS := "Missing Shopify credentials."
  const MISSING_CREDS_SEARCH := "Missing Shopify credentials (domain + Admin API token)."
  const MISSING_ITEM := "Missing inventory_item_id for this variant."
  const NO_LOCATIONS := "Shopify has no locations on this store."
  const BAD_LOCATION := "Failed to read Shopify location id."
  const NO_LOCATIONS_FOUND := "No Shopify locations found."
  const USER_ERRORS := "GraphQL userErrors: "

  // ---- Decoded responses ----

  datatype Location = Location(active: Option<bool>, id: Option<int>)

  /** The body of GET /locations.json; an entry is None when it is not an object. */
  datatype LocationsPage = LocationsPage(locations: Option<seq<Option<Location>>>)

  datatype Level = Level(available: Option<int>)

  /** The body of GET /inventory_levels.json. */
  datatype LevelsPage = LevelsPage(levels: Option<seq<Option<Level>>>)

  datatype UserError = UserError(message: Option<string>)

  /** `data.inventoryAdjustQuantities.userErrors` of the GraphQL answer, None when any step of that path is missing. */
  datatype AdjustPage = AdjustPage(userErrors: Option<seq<Option<UserError>>>)

  /** Any answer to POST /inventory_levels/set.json: its body is not read. */
  datatype Ack = Ack

  /** The requests the repository issues, by endpoint, with the data each carries. */
  datatype ShopifyCall =
    | ListProducts(host: string, limit: int, updatedAtMin: Option<int>)
    | ListLocations(host: string)
    | ReadLevels(host: string, inventoryItemId: int, locationId: int)
    | AdjustQuantities(host: string, inventoryItemId: int, locationId: int, delta: int)
    | SetLevel(host: string, inventoryItemId: int, locationId: int, available: int)

  // ---- Configuration ----

  /** `hasCreds`: both the shop domain and the access token are non-empty. */
  predicate HasCreds(prefs: SecurePrefs)
    reads prefs.sp
  {
    Nz(prefs.GetSetting(ShopDomain)) != "" && Nz(prefs.GetSetting(ShopToken)) != ""
  }

  /**
   * `normalizeDomain(raw)`: trim, strip one leading "https://" and then one
   * leading "http://", and append ".myshopify.com" when no '.' is left.
   */
  function NormalizeDomain(raw: string): (d: string)
    ensures Contains(d, ".")
  {
    var t := Trim(raw);
    var a := if StartsWith(t, "https://") then t[8..] else t;
    var b := if StartsWith(a, "http://") then a[7..] else a;
    SuffixHasDot(b);
    if !EndsWith(b, MYSHOPIFY) && !Contains(b, ".") then b + MYSHOPIFY else b
  }

  lemma SuffixHasDot(b: string)
    ensures EndsWith(b, MYSHOPIFY) ==> Contains(b, ".")
    ensures Contains(b + MYSHOPIFY, ".")
  {
    assert Contains(MYSHOPIFY, ".") by { assert MYSHOPIFY[..1] == "."; }
    ContainsAfter(b, MYSHOPIFY, ".");
    if EndsWith(b, MYSHOPIFY) {
      EndsWithContains(b, MYSHOPIFY, ".");
    }
  }

  /** A bare shop name (trimmed, no scheme, no dot) gets the ".myshopify.com" suffix. */
  lemma NormalizeBareName(d: string)
    requires Trim(d) == d && !Contains(d, ".")
    requires !StartsWith(d, "https://") && !StartsWith(d, "http://")
    ensures NormalizeDomain(d) == d + MYSHOPIFY
  {
    SuffixHasDot(d);
  }

  /** A domain that is already bare, trimmed and dotted is kept as it is. */
  lemma NormalizeKeepsCanonicalDomain(d: string)
    requires Trim(d) == d && Contains(d, ".")
    requires !StartsWith(d, "https://") && !StartsWith(d, "http://")
    ensures NormalizeDomain(d) == d
  {
  }

  /** The host the requests go to. */
  function Host(prefs: SecurePrefs): string
    reads prefs.sp
  {
    NormalizeDomain(Nz(prefs.GetSetting(ShopDomain)))
  }

  /** `Math.max(1, Math.min(250, limit <= 0 ? 250 : limit))`: the product page size. */
  function PageLimit(limit: int): (n: int)
    ensures 1 <= n <= 250
    ensures limit <= 0 || limit >= 250 ==> n == 250
    ensures 0 < limit <= 250 ==> n == limit
  {
    var requested := if limit <= 0 then 250 else limit;
    var capped := if requested < 250 then requested else 250;
    if capped < 1 then 1 else capped
  }

  /** The search needle: the query trimmed and lower-cased, "" for null. */
  function Needle(query: Option<string>): string {
    if query.None? then "" else Lower(Trim(query.value))
  }

  // ---- searchProducts, fetchRecentUpdates ----

  /**
   * `searchProducts`: without credentials an error and no request; otherwise
   * one product page of PageLimit(limit) products, flattened and filtered.
   */
  method SearchProducts(prefs: SecurePrefs, query: Option<string>, limit: int, reply: Reply<ProductsPage>)
    returns (r: Result<seq<ProductInfo>>, calls: seq<ShopifyCall>)
    ensures !HasCreds(prefs) ==> r == Err(IllegalState(MISSING_CREDS_SEARCH)) && calls == []
    ensures HasCreds(prefs) ==> calls == [ListProducts(Host(prefs), PageLimit(limit), None)]
    ensures HasCreds(prefs) && reply.NetworkError? ==> r == Err(Runtime(reply.description))
    ensures HasCreds(prefs) && reply.Delivered? ==> r == Ok(MappedProducts(reply.body.products, Needle(query)))
    ensures r.Ok? ==> forall p :: p in r.value ==> RowMatches(p, Needle(query)) && p.provider == Some(ShopifyMapping.SHOPIFY)
  {
    if !HasCreds(prefs) {
      return Err(IllegalState(MISSING_CREDS_SEARCH)), [];
    }
    calls := [ListProducts(Host(prefs), PageLimit(limit), None)];
    match reply {
      case NetworkError(e) =>
        r := Err(Runtime(e));
      case Delivered(page) =>
        var out := MapProducts(page.products, Needle(query));
        if page.products.Some? {
          RowsMatch(page.products.value, Needle(query));
        }
        r := Ok(out);
    }
  }

  /**
   * `fetchRecentUpdates`: the same page request with `updated_at_min` set,
   * mapped without a filter, so every non-null variant gives a row.
   */
  method FetchRecentUpdates(prefs: SecurePrefs, sinceEpochMs: int, limit: int, reply: Reply<ProductsPage>)
    returns (r: Result<seq<ProductInfo>>, calls: seq<ShopifyCall>)
    ensures !HasCreds(prefs) ==> r == Err(IllegalState(MISSING_CREDS)) && calls == []
    ensures HasCreds(prefs) ==> calls == [ListProducts(Host(prefs), PageLimit(limit), Some(sinceEpochMs))]
    ensures HasCreds(prefs) && reply.NetworkError? ==> r == Err(Runtime(reply.description))
    ensures HasCreds(prefs) && reply.Delivered? ==> r == Ok(MappedProducts(reply.body.products, ""))
    ensures HasCreds(prefs) && reply.Delivered? && reply.body.products.Some? ==>
      |r.value| == TotalSlots(reply.body.products.value)
  {
    if !HasCreds(prefs) {
      return Err(IllegalState(MISSING_CREDS)), [];
    }
    calls := [ListProducts(Host(prefs), PageLimit(limit), Some(sinceEpochMs))];
    match reply {
      case NetworkError(e) =>
        r := Err(Runtime(e));
      case Delivered(page) =>
        var out := MapProducts(page.products, "");
        if page.products.Some? {
          RowsCount(page.products.value, "");
        }
        r := Ok(out);
    }
  }

  // ---- getProductByBarcode ----

  /** What the response handler of `getProductByBarcode` answers for a page. */
  function BarcodeAnswer(page: ProductsPage, needle: string): Option<ProductInfo> {
    if page.products.None? then None else FirstHit(page.products.value, 0, needle)
  }

  /**
   * `getProductByBarcode`: an empty barcode answers null without a request;
   * otherwise one page of 250 products is fetched and scanned, in product
   * then variant order, for the trimmed barcode. There is no SKU fallback.
   */
  method GetProductByBarcode(prefs: SecurePrefs, barcode: Option<string>, reply: Reply<ProductsPage>)
    returns (r: Result<Option<ProductInfo>>, calls: seq<ShopifyCall>)
    ensures !HasCreds(prefs) ==> r == Err(IllegalState(MISSING_CREDS)) && calls == []
    ensures HasCreds(prefs) && Nz(barcode) == "" ==> r == Ok(None) && calls == []
    ensures HasCreds(prefs) && Nz(barcode) != "" ==> calls == [ListProducts(Host(prefs), 250, None)]
    ensures HasCreds(prefs) && Nz(barcode) != "" && reply.NetworkError? ==> r == Err(Runtime(reply.description))
    ensures HasCreds(prefs) && Nz(barcode) != "" && reply.Delivered? ==>
      r == Ok(BarcodeAnswer(reply.body, Trim(Nz(barcode))))
    ensures r.Ok? && r.value.Some? ==>
      r.value.value.barcode.Some? && EqualsIgnoreCase(Trim(Nz(barcode)), r.value.value.barcode.value)
  {
    if !HasCreds(prefs) {
      return Err(IllegalState(MISSING_CREDS)), [];
    }
    if Nz(barcode) == "" {
      return Ok(None), [];
    }
    calls := [ListProducts(Host(prefs), 250, None)];
    match reply {
      case NetworkError(e) =>
        r := Err(Runtime(e));
      case Delivered(page) =>
        if page.products.None? {
          r := Ok(None);
        } else {
          var found := ScanBarcode(page.products.value, Trim(Nz(barcode)));
          r := Ok(found);
        }
    }
  }

  /**
   * The barcode lookup answers null only when no variant on the page carries
   * the barcode, and otherwise the first such variant of the first product
   * that has one, whose row the unfiltered search lists as well.
   */
  lemma BarcodeAnswerSpec(page: ProductsPage, needle: string)
    requires page.products.Some?
    ensures BarcodeAnswer(page, needle).None? <==>
      forall k :: 0 <= k < |page.products.value| ==> !ProductHasHit(page.products.value[k], needle)
    ensures BarcodeAnswer(page, needle).Some? ==>
      BarcodeAnswer(page, needle).value in MappedProducts(page.products, "")
    ensures var ps := page.products.value;
      var k := FirstHitIndex(ps, 0, needle);
      BarcodeAnswer(page, needle) ==
        if k < |ps| then
          var vs := ps[k].value.variants.value;
          Some(MapOne(ps[k].value, vs[FirstVariantHitIndex(vs, 0, needle)].value))
        else None
  {
    FirstHitIsFirst(page.products.value, 0, needle);
    if BarcodeAnswer(page, needle).Some? {
      FirstHitListed(page.products.value, 0, needle);
    }
  }

  const MugVariant := Variant(Some("Small"), Some("MUG-S"), None, None, None, None)
  const MugProduct := ShopProduct(Some("Mug"), Some([Some(MugVariant)]))

  /**
   * As written, a whitespace-only barcode passes the emptiness test, trims
   * to "", and then matches the first variant that has no barcode.
   */
  lemma BlankBarcodeMatchesUnbarcodedVariant()
    ensures Nz(Some(" ")) != ""
    ensures BarcodeAnswer(ProductsPage(Some([Some(MugProduct)])), Trim(" ")) == Some(MapOne(MugProduct, MugVariant))
  {
    assert Trim(" ") == "";
    assert VariantHitAt([Some(MugVariant)], 0, "");
  }

  /**
   * The lookup with the emptiness test applied to the trimmed barcode, as the
   * early return evidently intends: a blank barcode answers null without a
   * request, and any other barcode is looked up exactly as before; a hit
   * then never has a blank barcode.
   */
  method GetProductByBarcodeChecked(prefs: SecurePrefs, barcode: Option<string>, reply: Reply<ProductsPage>)
    returns (r: Result<Option<ProductInfo>>, calls: seq<ShopifyCall>)
    ensures !HasCreds(prefs) ==> r == Err(IllegalState(MISSING_CREDS)) && calls == []
    ensures HasCreds(prefs) && IsBlank(Nz(barcode)) ==> r == Ok(None) && calls == []
    ensures HasCreds(prefs) && !IsBlank(Nz(barcode)) ==> calls == [ListProducts(Host(prefs), 250, None)]
    ensures HasCreds(prefs) && !IsBlank(Nz(barcode)) && reply.Delivered? ==>
      r == Ok(BarcodeAnswer(reply.body, Trim(Nz(barcode))))
    ensures r.Ok? && r.value.Some? ==> r.value.value.barcode.Some? && !IsBlank(r.value.value.barcode.value)
  {
    if !HasCreds(prefs) {
      return Err(IllegalState(MISSING_CREDS)), [];
    }
    if IsBlank(Nz(barcode)) {
      return Ok(None), [];
    }
    r, calls := GetProductByBarcode(prefs, barcode, reply);
    if r.Ok? && r.value.Some? {
      BlankMatchesOnlyBlank(Nz(barcode), r.value.value.barcode.value);
    }
  }

  // ---- Location resolution ----

  /** The id the loop of `resolveFirstActiveLocationId` settles on among arr[i..]: the first entry whose `active` is not false. */
  function FirstActiveId(arr: seq<Option<Location>>, i: nat): (r: Option<int>)
    requires i <= |arr|
    ensures r.Some? <==> exists k :: i <= k < |arr| && arr[k].Some? && arr[k].value.active.GetOr(true)
    decreases |arr| - i
  {
    if i == |arr| then None
    else if arr[i].Some? && arr[i].value.active.GetOr(true) then Some(arr[i].value.id.GetOr(0))
    else FirstActiveId(arr, i + 1)
  }

  /** The loop of `resolveFirstActiveLocationId`: skip non-objects, stop at the first active entry. */
  method ChooseActive(arr: seq<Option<Location>>) returns (chosen: Option<int>)
    ensures chosen == FirstActiveId(arr, 0)
  {
    chosen := None;
    var i := 0;
    while i < |arr|
      invariant 0 <= i <= |arr|
      invariant FirstActiveId(arr, 0) == FirstActiveId(arr, i)
    {
      if arr[i].Some? {
        var active := arr[i].value.active.GetOr(true);
        if active {
          chosen := Some(arr[i].value.id.GetOr(0));
          break;
        }
      }
      i := i + 1;
    }
  }

  /**
   * What the locations handler decides: no locations is an error; the first
   * active id, else the first entry's id (a null first entry throws); a
   * final id that is not positive is an error.
   */
  function LocationChoice(page: LocationsPage): Result<int> {
    if page.locations.None? || |page.locations.value| == 0 then Err(IllegalState(NO_LOCATIONS))
    else
      var arr := page.locations.value;
      var chosen := FirstActiveId(arr, 0);
      if chosen.Some? && chosen.value > 0 then Ok(chosen.value)
      else if arr[0].None? then Err(NullPointer)
      else if arr[0].value.id.GetOr(0) > 0 then Ok(arr[0].value.id.GetOr(0))
      else Err(IllegalState(BAD_LOCATION))
  }

  /**
   * A chosen location is always positive, and it is the first active entry's
   * id when that id is positive, otherwise the first entry's id.
   */
  lemma LocationChoiceSpec(page: LocationsPage)
    ensures LocationChoice(page).Ok? ==> LocationChoice(page).value > 0
    ensures LocationChoice(page).Ok? ==> page.locations.Some? && |page.locations.value| > 0
    ensures page.locations.None? || page.locations.value == [] ==> LocationChoice(page) == Err(IllegalState(NO_LOCATIONS))
    ensures page.locations.Some? && page.locations.value != [] ==>
      var arr := page.locations.value;
      forall k ::
        (0 <= k < |arr| && arr[k].Some? && arr[k].value.active.GetOr(true) && arr[k].value.id.GetOr(0) > 0 &&
         (forall j :: 0 <= j < k ==> arr[j].None? || !arr[j].value.active.GetOr(true))) ==>
        LocationChoice(page) == Ok(arr[k].value.id.GetOr(0))
    ensures page.locations.Some? && page.locations.value != [] ==>
      var arr := page.locations.value;
      (forall k :: 0 <= k < |arr| ==> arr[k].None? || !arr[k].value.active.GetOr(true)) && arr[0].Some? ==>
        LocationChoice(page) == if arr[0].value.id.GetOr(0) > 0 then Ok(arr[0].value.id.GetOr(0)) else Err(IllegalState(BAD_LOCATION))
  {
    if page.locations.Some? && page.locations.value != [] {
      var arr := page.locations.value;
      forall k | 0 <= k < |arr| && arr[k].Some? && arr[k].value.active.GetOr(true) && arr[k].value.id.GetOr(0) > 0 &&
        (forall j :: 0 <= j < k ==> arr[j].None? || !arr[j].value.active.GetOr(true))
        ensures LocationChoice(page) == Ok(arr[k].value.id.GetOr(0))
      {
        FirstActiveAt(arr, 0, k);
      }
    }
  }

  lemma {:induction false} FirstActiveAt(arr: seq<Option<Location>>, i: nat, k: nat)
    requires i <= k < |arr| && arr[k].Some? && arr[k].value.active.GetOr(true)
    requires forall j :: i <= j < k ==> arr[j].None? || !arr[j].value.active.GetOr(true)
    ensures FirstActiveId(arr, i) == Some(arr[k].value.id.GetOr(0))
    decreases k - i
  {
    if i < k {
      FirstActiveAt(arr, i + 1, k);
    }
  }

  /** `ensureLocationId`: the cached id when positive, without a request; otherwise one locations request. */
  function EnsureLocation(cached: int, host: string, reply: Reply<LocationsPage>): Outcome<int, ShopifyCall> {
    if cached > 0 then Outcome(Ok(cached), [])
    else match reply
      case NetworkError(e) => Outcome(Err(Runtime(e)), [ListLocations(host)])
      case Delivered(page) => Outcome(LocationChoice(page), [ListLocations(host)])
  }

  /** Whatever the path, a resolved location id is positive; a cached one costs no request. */
  lemma EnsureLocationSpec(cached: int, host: string, reply: Reply<LocationsPage>)
    ensures var o := EnsureLocation(cached, host, reply);
      && (o.result.Ok? ==> o.result.value > 0)
      && (cached > 0 ==> o == Outcome(Ok(cached), []))
      && (cached <= 0 ==> o.calls == [ListLocations(host)])
  {
    LocationChoiceSpec(if reply.Delivered? then reply.body else LocationsPage(None));
  }

  /**
   * `ensureLocationId` with the cache write of `resolveFirstActiveLocationId`:
   * a freshly resolved id is stored, and nothing else in the preferences changes.
   */
  method EnsureLocationId(prefs: SecurePrefs, reply: Reply<LocationsPage>)
    returns (r: Result<int>, calls: seq<ShopifyCall>)
    requires prefs.Valid()
    modifies prefs.sp
    ensures prefs.Valid()
    ensures Outcome(r, calls) == EnsureLocation(old(prefs.GetShopifyLocationId()), old(Host(prefs)), reply)
    ensures old(prefs.GetShopifyLocationId()) <= 0 && r.Ok? ==>
      prefs.sp.entries == old(prefs.sp.entries)[K_SHOPIFY_LOC_ID := LongVal(r.value)]
    ensures old(prefs.GetShopifyLocationId()) > 0 || r.Err? ==> prefs.sp.entries == old(prefs.sp.entries)
    ensures r.Ok? ==> prefs.GetShopifyLocationId() == r.value > 0
  {
    var cached := prefs.GetShopifyLocationId();
    if cached > 0 {
      return Ok(cached), [];
    }
    calls := [ListLocations(Host(prefs))];
    match reply {
      case NetworkError(e) =>
        r := Err(Runtime(e));
      case Delivered(page) =>
        LocationChoiceSpec(page);
        if page.locations.None? || |page.locations.value| == 0 {
          return Err(IllegalState(NO_LOCATIONS)), calls;
        }
        var arr := page.locations.value;
        var chosen := ChooseActive(arr);
        if chosen.None? || chosen.value <= 0 {
          if arr[0].None? {
            return Err(NullPointer), calls;
          }
          chosen := Some(arr[0].value.id.GetOr(0));
        }
        if chosen.value <= 0 {
          return Err(IllegalState(BAD_LOCATION)), calls;
        }
        prefs.SetShopifyLocationId(chosen.value);
        r := Ok(chosen.value);
    }
  }

  /** A second `ensureLocationId` after a successful one answers the same id from the cache, with no request. */
  method EnsureLocationIdTwice(prefs: SecurePrefs, first: Reply<LocationsPage>, second: Reply<LocationsPage>)
    returns (r1: Result<int>, calls1: seq<ShopifyCall>, r2: Result<int>, calls2: seq<ShopifyCall>)
    requires prefs.Valid()
    modifies prefs.sp
    ensures r1.Ok? ==> r2 == r1 && calls2 == []
  {
    r1, calls1 := EnsureLocationId(prefs, first);
    r2, calls2 := EnsureLocationId(prefs, second);
  }

  // ---- The update chain ----

  /** `getCurrentAvailable`: the first level's `available`, 0 when the list, the entry or the field is missing. */
  function CurrentAvailable(page: LevelsPage): int {
    if page.levels.Some? && |page.levels.value| > 0 then
      match page.levels.value[0]
      case Some(level) => level.available.GetOr(0)
      case None => 0
    else 0
  }

  /**
   * The text the GraphQL handler builds from k user errors: each non-null
   * error's message ("error" when missing), followed by "; " unless it is
   * the last entry of the list.
   */
  function UserErrorsText(ues: seq<Option<UserError>>, k: nat): string
    requires k <= |ues|
  {
    if k == 0 then ""
    else
      var piece := match ues[k - 1]
        case None => ""
        case Some(ue) => ue.message.GetOr("error") + (if k - 1 < |ues| - 1 then "; " else "");
      UserErrorsText(ues, k - 1) + piece
  }

  /** The StringBuilder loop of `doAdjustInventoryGraphQL`. */
  method BuildUserErrorsText(ues: seq<Option<UserError>>) returns (s: string)
    ensures s == USER_ERRORS + UserErrorsText(ues, |ues|)
    ensures StartsWith(s, USER_ERRORS)
  {
    s := USER_ERRORS;
    var i := 0;
    while i < |ues|
      invariant 0 <= i <= |ues|
      invariant s == USER_ERRORS + UserErrorsText(ues, i)
    {
      if ues[i].Some? {
        s := s + ues[i].value.message.GetOr("error");
        if i < |ues| - 1 {
          s := s + "; ";
        }
      }
      i := i + 1;
    }
    StartsWithAppend(USER_ERRORS, UserErrorsText(ues, |ues|));
  }

  /** The messages of two well-formed errors are joined by "; ". */
  lemma TwoUserErrors(a: string, b: string)
    ensures UserErrorsText([Some(UserError(Some(a))), Some(UserError(Some(b)))], 2) == a + "; " + b
  {
    var ues := [Some(UserError(Some(a))), Some(UserError(Some(b)))];
    assert UserErrorsText(ues, 1) == a + "; ";
  }

  /** How `doAdjustInventoryGraphQL` ends: a transport error, a non-empty `userErrors`, or success. */
  function GraphQLOutcome(reply: Reply<AdjustPage>): (r: Result<bool>)
    ensures r.Ok? <==> reply.Delivered? && (reply.body.userErrors.None? || |reply.body.userErrors.value| == 0)
    ensures r.Ok? ==> r.value
  {
    match reply
    case NetworkError(e) => Err(Runtime(e))
    case Delivered(page) =>
      if page.userErrors.Some? && |page.userErrors.value| > 0 then
        Err(IllegalState(USER_ERRORS + UserErrorsText(page.userErrors.value, |page.userErrors.value|)))
      else Ok(true)
  }

  /** The Product a successful update reports. */
  function Updated(message: string, newQty: real): ProductInfo {
    NewProduct.(description := Some(message), currentStock := Some(newQty))
  }

  /**
   * `updateStock` once the location id is known: read the current level,
   * compute delta = round(newQty) - current, stop when it is 0, else adjust
   * by delta through GraphQL and, on any GraphQL error, set the absolute
   * value through REST, reporting the GraphQL error when both fail.
   */
  function ApplyUpdate(host: string, itemId: int, locId: int, newQty: real,
                       levels: Reply<LevelsPage>, adjust: Reply<AdjustPage>, setReply: Reply<Ack>): Outcome<ProductInfo, ShopifyCall>
  {
    var read := ReadLevels(host, itemId, locId);
    match levels
    case NetworkError(e) => Outcome(Err(Runtime(e)), [read])
    case Delivered(page) =>
      var desired := Round(newQty);
      var delta := desired - CurrentAvailable(page);
      if delta == 0 then Outcome(Ok(Updated("No change", newQty)), [read])
      else
        var gql := GraphQLOutcome(adjust);
        var adj := AdjustQuantities(host, itemId, locId, delta);
        if gql.Ok? then Outcome(Ok(Updated("Inventory updated", newQty)), [read, adj])
        else
          var rest := SetLevel(host, itemId, locId, desired);
          match setReply
          case Delivered(_) => Outcome(Ok(Updated("Inventory updated (REST fallback)", newQty)), [read, adj, rest])
          case NetworkError(_) => Outcome(Err(gql.error), [read, adj, rest])
  }

  /**
   * The update state machine: the delta sent is the desired absolute value
   * minus what is available (absent counts as 0); no mutation is sent when
   * they agree; any GraphQL error is followed by exactly one absolute REST
   * set; a double failure reports the GraphQL error; every success reports
   * currentStock = newQty.
   */
  lemma ApplyUpdateSpec(host: string, itemId: int, locId: int, newQty: real,
                        levels: Reply<LevelsPage>, adjust: Reply<AdjustPage>, setReply: Reply<Ack>)
    ensures var o := ApplyUpdate(host, itemId, locId, newQty, levels, adjust, setReply);
      && 1 <= |o.calls| <= 3
      && o.calls[0] == ReadLevels(host, itemId, locId)
      && (o.result.Ok? ==> o.result.value.currentStock == Some(newQty))
      && (levels.NetworkError? ==> o == Outcome(Err(Runtime(levels.description)), [ReadLevels(host, itemId, locId)]))
      && (levels.Delivered? ==>
            var delta := Round(newQty) - CurrentAvailable(levels.body);
            && (delta == 0 <==> |o.calls| == 1)
            && (delta == 0 ==> o.result.Ok?)
            && (delta != 0 ==> o.calls[1] == AdjustQuantities(host, itemId, locId, delta))
            && (delta != 0 && GraphQLOutcome(adjust).Ok? ==> |o.calls| == 2 && o.result.Ok?)
            && (delta != 0 && GraphQLOutcome(adjust).Err? ==>
                  && o.calls == [o.calls[0], o.calls[1], SetLevel(host, itemId, locId, Round(newQty))]
                  && (setReply.Delivered? <==> o.result.Ok?)
                  && (setReply.NetworkError? ==> o.result == Err(GraphQLOutcome(adjust).error))))
      && (forall c :: c in o.calls && c.SetLevel? ==> c.available == Round(newQty))
  {
  }

  /** Seven available and ten wanted: the GraphQL mutation carries delta 3; seven wanted: no mutation at all. */
  lemma DeltaExamples(host: string, itemId: int, locId: int, adjust: Reply<AdjustPage>, setReply: Reply<Ack>)
    ensures ApplyUpdate(host, itemId, locId, 10.0, Delivered(LevelsPage(Some([Some(Level(Some(7)))]))), adjust, setReply).calls[1]
      == AdjustQuantities(host, itemId, locId, 3)
    ensures ApplyUpdate(host, itemId, locId, 7.0, Delivered(LevelsPage(Some([Some(Level(Some(7)))]))), adjust, setReply).calls
      == [ReadLevels(host, itemId, locId)]
  {
    RoundWhole(10);
    RoundWhole(7);
  }

  /**
   * `updateStock`: credentials first, then a positive inventory item id,
   * then the location (cached or resolved and cached), then ApplyUpdate.
   * The location and stock arguments of the interface are ignored except newQty.
   */
  method UpdateStock(prefs: SecurePrefs, inventoryItemId: int, newQty: real,
                     locations: Reply<LocationsPage>, levels: Reply<LevelsPage>, adjust: Reply<AdjustPage>, setReply: Reply<Ack>)
    returns (r: Result<ProductInfo>, calls: seq<ShopifyCall>)
    requires prefs.Valid()
    modifies prefs.sp
    ensures prefs.Valid()
    ensures !old(HasCreds(prefs)) ==> r == Err(IllegalState(MISSING_CREDS)) && calls == [] && prefs.sp.entries == old(prefs.sp.entries)
    ensures old(HasCreds(prefs)) && inventoryItemId <= 0 ==>
      r == Err(IllegalArgument(MISSING_ITEM)) && calls == [] && prefs.sp.entries == old(prefs.sp.entries)
    ensures old(HasCreds(prefs)) && inventoryItemId > 0 ==>
      var loc := EnsureLocation(old(prefs.GetShopifyLocationId()), old(Host(prefs)), locations);
      if loc.result.Err? then Outcome(r, calls) == Outcome(Err(loc.result.error), loc.calls)
      else Outcome(r, calls) == var o := ApplyUpdate(old(Host(prefs)), inventoryItemId, loc.result.value, newQty, levels, adjust, setReply);
        Outcome(o.result, loc.calls + o.calls)
    ensures old(HasCreds(prefs)) && inventoryItemId > 0 ==>
      var loc := EnsureLocation(old(prefs.GetShopifyLocationId()), old(Host(prefs)), locations);
      prefs.sp.entries == if old(prefs.GetShopifyLocationId()) <= 0 && loc.result.Ok?
                          then old(prefs.sp.entries)[K_SHOPIFY_LOC_ID := LongVal(loc.result.value)]
                          else old(prefs.sp.entries)
    ensures r.Ok? ==> r.value.currentStock == Some(newQty)
  {
    if !HasCreds(prefs) {
      return Err(IllegalState(MISSING_CREDS)), [];
    }
    if inventoryItemId <= 0 {
      return Err(IllegalArgument(MISSING_ITEM)), [];
    }
    var host := Host(prefs);
    var locId;
    locId, calls := EnsureLocationId(prefs, locations);
    if locId.Err? {
      return Err(locId.error), calls;
    }
    if locId.value <= 0 {
      // The guard of the source; EnsureLocationId never answers a non-positive id.
      return Err(IllegalState(NO_LOCATIONS_FOUND)), calls;
    }
    var o := ApplyUpdate(host, inventoryItemId, locId.value, newQty, levels, adjust, setReply);
    ApplyUpdateSpec(host, inventoryItemId, locId.value, newQty, levels, adjust, setReply);
    r, calls := o.result, calls + o.calls;
  }
}
