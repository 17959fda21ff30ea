/**
 * The EPOS Now v4 repository (data/EposNowRepository.java): paged stock
 * search with a client-side filter and a result cap, barcode lookup as a
 * one-result search, and the absolute stock update that first looks the
 * row up to keep its ProductId, minimum, maximum and alert settings.
 *
 * `replies[k]` is the answer to the k-th page request; a request with no
 * answer in `replies` ends the way Volley ends one that never gets a
 * response, with a timeout error.
 */
module EposNow {
  import opened Wrappers
  import opened Text
  import opened Numbers
  import opened Decimals
  import opened Products
  import opened Prefs
  import opened Seqs

  const EPOSNOW := "EPOSNOW"
  const HOST_BASE := "https://api.eposnowhq.com"
  const MAX_PAGE := 50
  const LOOKUP_LIMIT := 200
  const TIMEOUT := "com.android.volley.TimeoutError"

  const MISSING_AUTH_OR_LOCATION := "Missing EPOS auth or locationId"
  const MISSING_UPDATE_ARGS := "Missing EPOS auth, locationId, or stock/product id."
  const NO_STOCKS := "No stocks found at this location."
  const NOT_FOUND := "Product not found for id="
  const LOOKUP_ERROR := "EPOS lookup error: "
  const UPDATE_ERROR := "EPOS update error: "
  const NO_RECENT := "EPOS fetchRecentUpdates not implemented yet"

  // ---- Authentication ----

  /** Where the Basic credential comes from; the Base64 text itself only goes into a header. */
  datatype AuthSource = StoredHeader(header: string) | KeyAndSecret(key: string, secret: string)

  /**
   * `resolveAuthHeader`: a stored non-empty header wins; otherwise a
   * non-empty key and secret; otherwise there is no credential.
   */
  function ResolveAuth(prefs: SecurePrefs): (r: Option<AuthSource>)
    reads prefs.sp
    ensures r.None? <==> Nz(prefs.GetSetting(AuthHeaderBasic)) == "" &&
                         (Nz(prefs.GetSetting(ApiKey)) == "" || Nz(prefs.GetSetting(ApiSecret)) == "")
    ensures r.Some? && r.value.KeyAndSecret? ==>
      && Nz(prefs.GetSetting(AuthHeaderBasic)) == ""
      && r.value.key == Nz(prefs.GetSetting(ApiKey)) != ""
      && r.value.secret == Nz(prefs.GetSetting(ApiSecret)) != ""
    ensures r.Some? && r.value.StoredHeader? ==> r.value.header == Nz(prefs.GetSetting(AuthHeaderBasic)) != ""
  {
    var hdr := Nz(prefs.GetSetting(AuthHeaderBasic));
    var key := Nz(prefs.GetSetting(ApiKey));
    var secret := Nz(prefs.GetSetting(ApiSecret));
    if hdr != "" then Some(StoredHeader(hdr))
    else if key != "" && secret != "" then Some(KeyAndSecret(key, secret))
    else None
  }

  // ---- Decoded responses and requests ----

  /**
   * One element of `Data` in a stocks page; a field is None where the
   * `opt*` accessor falls back. A price holds the decimal that
   * `new BigDecimal(String.valueOf(double))` yields for the field.
   */
  datatype EposRow = EposRow(
    productId: Option<int>,
    stockItemId: Option<int>,
    productName: Option<string>,
    description: Option<string>,
    sku: Option<string>,
    barcode: Option<string>,
    salePriceIncTax: Option<Decimal>,
    salePriceExcTax: Option<Decimal>,
    currentStock: Option<real>,
    minimumStock: Option<real>,
    maximumStock: Option<real>,
    alerts: Option<bool>)

  /** A stocks page: `Data` (None when absent; an entry None when not an object) and `_links.NextPage`. */
  datatype EposPage = EposPage(data: Option<seq<Option<EposRow>>>, nextPage: Option<string>)

  /** The one element of the update body. */
  datatype StockEntry = StockEntry(locationId: int, currentStock: int, minimumStock: int,
                                   maximumStock: int, productId: int, alerts: bool)

  /** Any answer to the update POST: its body is not read. */
  datatype Ack = Ack

  datatype EposCall =
    | ListStocks(locationId: int, page: int, limit: int)
    | FollowLink(url: string)
    | PostUpdate(productId: int, body: seq<StockEntry>)

  // ---- Mapping ----

  /** The id the mapping exposes as externalId: StockItemId when positive, else ProductId when positive, else 0. */
  function Key(o: EposRow): nat {
    if o.stockItemId.GetOr(0) > 0 then o.stockItemId.GetOr(0)
    else if o.productId.GetOr(0) > 0 then o.productId.GetOr(0)
    else 0
  }

  /** The row's price: incl. tax, else excl. tax, else ZERO. */
  function PriceOf(o: EposRow): Decimal {
    if o.salePriceIncTax.Some? then o.salePriceIncTax.value
    else if o.salePriceExcTax.Some? then o.salePriceExcTax.value
    else ZERO
  }

  /** `mapStockItem`. */
  function MapStockItem(o: EposRow): ProductInfo {
    var ext := if Key(o) > 0 then NatToString(Key(o)) else "";
    NewProduct.(
      externalId := Some(ext),
      sku := Some(o.sku.GetOr(ext)),
      description := Some(if o.productName.Some? then o.productName.value else o.description.GetOr("")),
      barcode := Some(o.barcode.GetOr("")),
      currentStock := Some(o.currentStock.GetOr(0.0)),
      provider := Some(EPOSNOW),
      price := PriceOf(o))
  }

  /**
   * The externalId of a mapped row reads back as its StockItemId when that
   * is positive, else its ProductId when that is positive, and is empty
   * only when neither is; the SKU is the row's Sku, else that id; the name
   * is ProductName, else Description, else ""; the barcode is Barcode or "";
   * the stock is CurrentStock or 0; the price is SalePriceIncTax, else
   * SalePriceExcTax, else ZERO.
   */
  lemma MapStockItemSpec(o: EposRow)
    ensures var p := MapStockItem(o);
      && p.externalId.Some? && p.sku.Some? && p.description.Some? && p.barcode.Some? && p.currentStock.Some?
      && p.provider == Some(EPOSNOW)
      && (p.externalId.value == "" <==> o.stockItemId.GetOr(0) <= 0 && o.productId.GetOr(0) <= 0)
      && (p.externalId.value != "" ==> AllDigits(p.externalId.value))
      && (o.stockItemId.GetOr(0) > 0 ==> DigitsValue(p.externalId.value) == o.stockItemId.value)
      && (o.stockItemId.GetOr(0) <= 0 && o.productId.GetOr(0) > 0 ==> DigitsValue(p.externalId.value) == o.productId.value)
      && (o.sku.Some? ==> p.sku == o.sku)
      && (o.sku.None? ==> p.sku == p.externalId)
      && (o.productName.Some? ==> p.description == o.productName)
      && (o.productName.None? ==> p.description == Some(o.description.GetOr("")))
      && p.barcode == Some(o.barcode.GetOr(""))
      && (o.currentStock.Some? ==> p.currentStock == o.currentStock)
      && (o.currentStock.None? ==> p.currentStock == Some(0.0))
      && (o.salePriceIncTax.Some? ==> p.price == o.salePriceIncTax.value)
      && (o.salePriceIncTax.None? && o.salePriceExcTax.Some? ==> p.price == o.salePriceExcTax.value)
      && (o.salePriceIncTax.None? && o.salePriceExcTax.None? ==> p.price == ZERO)
  {
    if Key(o) > 0 {
      NatToStringRoundTrip(Key(o));
    }
  }

  /** `matches`: the needle occurs in the lower-cased description, barcode or SKU. */
  predicate Matches(p: ProductInfo, needle: string) {
    Contains(Lower(Nz(p.description)), needle) || Contains(Lower(Nz(p.barcode)), needle) || Contains(Lower(Nz(p.sku)), needle)
  }

  /** `trimToLimit`: the first `limit` results, or all of them when the limit is not positive. */
  function TrimToLimit(acc: seq<ProductInfo>, limit: int): (r: seq<ProductInfo>)
    ensures limit > 0 ==> |r| <= limit
    ensures r <= acc
    ensures |r| == if limit > 0 && |acc| > limit then limit else |acc|
  {
    if limit <= 0 || |acc| <= limit then acc else acc[..limit]
  }

  // ---- Search ----

  /** `limit > 0 ? Math.min(limit, 50) : 50`. */
  function PageSize(limit: int): (n: int)
    ensures 1 <= n <= MAX_PAGE
    ensures 0 < limit <= MAX_PAGE ==> n == limit
    ensures limit <= 0 || limit >= MAX_PAGE ==> n == MAX_PAGE
  {
    if limit > 0 then (if limit < MAX_PAGE then limit else MAX_PAGE) else MAX_PAGE
  }

  /** Whether `_links.NextPage` names a further page: non-empty and not the text "null" in any case. */
  predicate HasNext(next: Option<string>) {
    next.Some? && next.value != "" && !EqualsIgnoreCase("null", next.value)
  }

  /** The next page's URL: absolute links are followed as given, relative ones against the API host. */
  function NextUrl(rel: string): (u: string)
    ensures StartsWith(u, "http")
    ensures StartsWith(rel, "http") ==> u == rel
    ensures !StartsWith(rel, "http") ==> u == HOST_BASE + rel
  {
    if StartsWith(rel, "http") then rel
    else
      assert (HOST_BASE + rel)[..4] == HOST_BASE[..4];
      HOST_BASE + rel
  }

  /**
   * The row loop of one page: map each object row, keep it when there is no
   * filter or it matches, and stop right after an addition that reaches `max`.
   */
  function PageRows(rows: seq<Option<EposRow>>, filter: bool, needle: string, max: int, acc: seq<ProductInfo>): seq<ProductInfo>
    decreases |rows|
  {
    if rows == [] then acc
    else if rows[0].None? then PageRows(rows[1..], filter, needle, max, acc)
    else
      var p := MapStockItem(rows[0].value);
      if !filter || Matches(p, needle) then
        var acc' := acc + [p];
        if max > 0 && |acc'| >= max then acc' else PageRows(rows[1..], filter, needle, max, acc')
      else PageRows(rows[1..], filter, needle, max, acc)
  }

  /** What a result row satisfies: tagged EPOSNOW, and matching the needle when filtering. */
  predicate Listed(p: ProductInfo, filter: bool, needle: string) {
    p.provider == Some(EPOSNOW) && (!filter || Matches(p, needle))
  }

  /**
   * One page extends the accumulator: it keeps what was there, adds only
   * listed rows, and never goes past `max` once it starts below it.
   */
  lemma {:induction false} PageRowsSpec(rows: seq<Option<EposRow>>, filter: bool, needle: string, max: int, acc: seq<ProductInfo>)
    ensures acc <= PageRows(rows, filter, needle, max, acc)
    ensures |PageRows(rows, filter, needle, max, acc)| <= |acc| + |rows|
    ensures max > 0 && |acc| < max ==> |PageRows(rows, filter, needle, max, acc)| <= max
    ensures forall k :: |acc| <= k < |PageRows(rows, filter, needle, max, acc)| ==>
      Listed(PageRows(rows, filter, needle, max, acc)[k], filter, needle)
    decreases |rows|
  {
    if rows != [] {
      if rows[0].None? {
        PageRowsSpec(rows[1..], filter, needle, max, acc);
      } else {
        var p := MapStockItem(rows[0].value);
        if !filter || Matches(p, needle) {
          var acc' := acc + [p];
          if !(max > 0 && |acc'| >= max) {
            PageRowsSpec(rows[1..], filter, needle, max, acc');
          }
        } else {
          PageRowsSpec(rows[1..], filter, needle, max, acc);
        }
      }
    }
  }

  /** What one row contributes when nothing caps the search: its mapping, when it is an object and passes the filter. */
  function KeptRow(row: Option<EposRow>, filter: bool, needle: string): seq<ProductInfo> {
    if row.Some? && (!filter || Matches(MapStockItem(row.value), needle)) then [MapStockItem(row.value)] else []
  }

  /** The rows a page keeps, in order, with no cap: each object row mapped, when there is no filter or it matches. */
  function Kept(rows: seq<Option<EposRow>>, filter: bool, needle: string): (r: seq<ProductInfo>)
    ensures |r| <= |rows|
    ensures forall j :: 0 <= j < |r| ==> Listed(r[j], filter, needle)
    decreases |rows|
  {
    if rows == [] then [] else KeptRow(rows[0], filter, needle) + Kept(rows[1..], filter, needle)
  }

  /**
   * The row loop is the uncapped filter, cut at the cap: starting below
   * `max`, one page appends its kept rows in order and stops at `max`.
   */
  lemma {:induction false} PageRowsKept(rows: seq<Option<EposRow>>, filter: bool, needle: string, max: int, acc: seq<ProductInfo>)
    requires max > 0 ==> |acc| < max
    ensures PageRows(rows, filter, needle, max, acc) == TrimToLimit(acc + Kept(rows, filter, needle), max)
    decreases |rows|
  {
    if rows == [] {
      assert acc + [] == acc;
    } else {
      var rest := Kept(rows[1..], filter, needle);
      AppendAssoc(acc, KeptRow(rows[0], filter, needle), rest);
      if KeptRow(rows[0], filter, needle) == [] {
        PageRowsKept(rows[1..], filter, needle, max, acc);
      } else {
        var acc' := acc + [MapStockItem(rows[0].value)];
        if max > 0 && |acc'| >= max {
          assert (acc' + rest)[..max] == acc';
        } else {
          PageRowsKept(rows[1..], filter, needle, max, acc');
        }
      }
    }
  }

  /**
   * `fetchPage` from the k-th request on: the page is scanned into the
   * accumulator; reaching the cap ends with `trimToLimit`; a usable next
   * link issues the next request; otherwise the accumulator is the answer.
   */
  function FetchFrom(replies: seq<Reply<EposPage>>, k: nat, call: EposCall,
                     filter: bool, needle: string, max: int, acc: seq<ProductInfo>): Outcome<seq<ProductInfo>, EposCall>
    decreases |replies| - k
  {
    if k >= |replies| then Outcome(Err(Runtime(TIMEOUT)), [call])
    else match replies[k]
      case NetworkError(e) => Outcome(Err(Runtime(e)), [call])
      case Delivered(page) =>
        var acc' := if page.data.None? then acc else PageRows(page.data.value, filter, needle, max, acc);
        if max > 0 && |acc'| >= max then Outcome(Ok(TrimToLimit(acc', max)), [call])
        else if HasNext(page.nextPage) then
          var rest := FetchFrom(replies, k + 1, FollowLink(NextUrl(page.nextPage.value)), filter, needle, max, acc');
          Outcome(rest.result, [call] + rest.calls)
        else Outcome(Ok(acc'), [call])
  }

  /** `searchProducts`: the guard, then the paged fetch from page 1. */
  function Search(auth: Option<AuthSource>, query: Option<string>, locationId: int, limit: int,
                  replies: seq<Reply<EposPage>>): Outcome<seq<ProductInfo>, EposCall>
  {
    if auth.None? || locationId <= 0 then Outcome(Err(IllegalState(MISSING_AUTH_OR_LOCATION)), [])
    else
      var term := if query.None? then "" else Trim(query.value);
      FetchFrom(replies, 0, ListStocks(locationId, 1, PageSize(limit)), term != "", Lower(term), limit, [])
  }

  /**
   * Across pages: every answer row is listed, the answer never exceeds a
   * positive cap (so `trimToLimit` never shortens it), one request is made
   * per answered page plus at most one more, and every follow-up request
   * goes to an absolute http(s) link.
   */
  lemma {:induction false} FetchFromSpec(replies: seq<Reply<EposPage>>, k: nat, call: EposCall,
                                         filter: bool, needle: string, max: int, acc: seq<ProductInfo>)
    requires max > 0 ==> |acc| < max
    requires forall j :: 0 <= j < |acc| ==> Listed(acc[j], filter, needle)
    ensures var o := FetchFrom(replies, k, call, filter, needle, max, acc);
      && 1 <= |o.calls| && o.calls[0] == call
      && (k <= |replies| ==> |o.calls| <= |replies| - k + 1)
      && (forall j :: 1 <= j < |o.calls| ==> o.calls[j].FollowLink? && StartsWith(o.calls[j].url, "http"))
      && (o.result.Ok? ==> (max > 0 ==> |o.result.value| <= max) && acc <= o.result.value)
      && (o.result.Ok? ==> forall j :: 0 <= j < |o.result.value| ==> Listed(o.result.value[j], filter, needle))
    decreases |replies| - k
  {
    if k < |replies| && replies[k].Delivered? {
      var page := replies[k].body;
      if page.data.Some? {
        PageRowsSpec(page.data.value, filter, needle, max, acc);
      }
      var acc' := if page.data.None? then acc else PageRows(page.data.value, filter, needle, max, acc);
      if max > 0 && |acc'| >= max {
        assert TrimToLimit(acc', max) == acc';
      } else if HasNext(page.nextPage) {
        var next := FollowLink(NextUrl(page.nextPage.value));
        FetchFromSpec(replies, k + 1, next, filter, needle, max, acc');
        var rest := FetchFrom(replies, k + 1, next, filter, needle, max, acc');
        var o := FetchFrom(replies, k, call, filter, needle, max, acc);
        assert o == Outcome(rest.result, [call] + rest.calls);
        forall j | 1 <= j < |o.calls|
          ensures o.calls[j].FollowLink? && StartsWith(o.calls[j].url, "http")
        {
          assert o.calls[j] == rest.calls[j - 1];
        }
      }
    }
  }

  /** The rows one answered page keeps, uncapped; a failed or data-less answer keeps none. */
  function PageKept(reply: Reply<EposPage>, filter: bool, needle: string): seq<ProductInfo> {
    if reply.Delivered? && reply.body.data.Some? then Kept(reply.body.data.value, filter, needle) else []
  }

  /** The rows the answers replies[k..k + n] keep, page after page. */
  function KeptFrom(replies: seq<Reply<EposPage>>, k: nat, n: nat, filter: bool, needle: string): seq<ProductInfo>
    requires k + n <= |replies|
    decreases n
  {
    if n == 0 then [] else PageKept(replies[k], filter, needle) + KeptFrom(replies, k + 1, n - 1, filter, needle)
  }

  /**
   * The (j+1)-th request of a chain started at k: the j-th page was
   * answered, named a next page, and left room under the cap, and the
   * request follows that link.
   */
  predicate FollowsAt(replies: seq<Reply<EposPage>>, k: nat, j: nat, filter: bool, needle: string, max: int,
                      acc: seq<ProductInfo>, calls: seq<EposCall>)
    requires j + 1 < |calls|
  {
    && k + j < |replies| && replies[k + j].Delivered? && HasNext(replies[k + j].body.nextPage)
    && (max <= 0 || |acc| + |KeptFrom(replies, k, j + 1, filter, needle)| < max)
    && calls[j + 1] == FollowLink(NextUrl(replies[k + j].body.nextPage.value))
  }

  /** Every request after the first follows the page before it. */
  predicate AllFollow(replies: seq<Reply<EposPage>>, k: nat, filter: bool, needle: string, max: int,
                      acc: seq<ProductInfo>, calls: seq<EposCall>)
  {
    forall j :: 0 <= j < |calls| - 1 ==> FollowsAt(replies, k, j, filter, needle, max, acc, calls)
  }

  /** One answered page, below the cap: the grown accumulator is the old one plus the page's kept rows, cut at the cap. */
  lemma PageStep(page: EposPage, filter: bool, needle: string, max: int, acc: seq<ProductInfo>)
    requires max > 0 ==> |acc| < max
    ensures var acc' := if page.data.None? then acc else PageRows(page.data.value, filter, needle, max, acc);
      && acc' == TrimToLimit(acc + PageKept(Delivered(page), filter, needle), max)
      && (max > 0 && |acc'| >= max <==> max > 0 && |acc| + |PageKept(Delivered(page), filter, needle)| >= max)
  {
    if page.data.Some? {
      PageRowsKept(page.data.value, filter, needle, max, acc);
    } else {
      assert acc + [] == acc;
    }
  }

  /** One turn of the chain, with the page's rows given by the uncapped filter. */
  lemma FetchFromStep(replies: seq<Reply<EposPage>>, k: nat, call: EposCall,
                      filter: bool, needle: string, max: int, acc: seq<ProductInfo>)
    requires max > 0 ==> |acc| < max
    requires k < |replies| && replies[k].Delivered?
    ensures var o := FetchFrom(replies, k, call, filter, needle, max, acc);
      var page := replies[k].body;
      var seen := acc + PageKept(replies[k], filter, needle);
      if max > 0 && |seen| >= max then o == Outcome(Ok(TrimToLimit(seen, max)), [call])
      else if HasNext(page.nextPage) then
        var rest := FetchFrom(replies, k + 1, FollowLink(NextUrl(page.nextPage.value)), filter, needle, max, seen);
        o == Outcome(rest.result, [call] + rest.calls)
      else o == Outcome(Ok(seen), [call])
  {
    var page := replies[k].body;
    PageStep(page, filter, needle, max, acc);
    var seen := acc + PageKept(replies[k], filter, needle);
    if max > 0 && |seen| >= max {
      var acc' := TrimToLimit(seen, max);
      assert TrimToLimit(acc', max) == acc';
    }
  }

  /** A follow-up request of the chain from k + 1 is one of the chain from k, one position later. */
  lemma FollowsShift(replies: seq<Reply<EposPage>>, k: nat, j: nat, call: EposCall,
                     filter: bool, needle: string, max: int, acc: seq<ProductInfo>, rest: seq<EposCall>)
    requires 0 < j && j < |rest| && k < |replies|
    requires FollowsAt(replies, k + 1, j - 1, filter, needle, max, acc + PageKept(replies[k], filter, needle), rest)
    ensures FollowsAt(replies, k, j, filter, needle, max, acc, [call] + rest)
  {
    var kept := PageKept(replies[k], filter, needle);
    assert KeptFrom(replies, k, j + 1, filter, needle) == kept + KeptFrom(replies, k + 1, j, filter, needle);
    assert ([call] + rest)[j + 1] == rest[j];
  }

  /**
   * Across pages: every request after the first follows the next link of
   * the page before it, and is made only when that page was answered and
   * left room under the cap.
   */
  lemma {:induction false} FetchFromFollows(replies: seq<Reply<EposPage>>, k: nat, call: EposCall,
                                            filter: bool, needle: string, max: int, acc: seq<ProductInfo>)
    requires max > 0 ==> |acc| < max
    ensures var o := FetchFrom(replies, k, call, filter, needle, max, acc);
      && 1 <= |o.calls| && o.calls[0] == call
      && AllFollow(replies, k, filter, needle, max, acc, o.calls)
    decreases |replies| - k
  {
    if k < |replies| && replies[k].Delivered? {
      FetchFromStep(replies, k, call, filter, needle, max, acc);
      var page := replies[k].body;
      var kept := PageKept(replies[k], filter, needle);
      var seen := acc + kept;
      if !(max > 0 && |seen| >= max) && HasNext(page.nextPage) {
        var next := FollowLink(NextUrl(page.nextPage.value));
        FetchFromFollows(replies, k + 1, next, filter, needle, max, seen);
        var rest := FetchFrom(replies, k + 1, next, filter, needle, max, seen);
        var calls := [call] + rest.calls;
        forall j | 0 <= j < |calls| - 1
          ensures FollowsAt(replies, k, j, filter, needle, max, acc, calls)
        {
          if j > 0 {
            FollowsShift(replies, k, j, call, filter, needle, max, acc, rest.calls);
          } else {
            assert KeptFrom(replies, k, 1, filter, needle) == kept + [];
          }
        }
      }
    }
  }

  /**
   * How a chain started at k with `acc` ends: at the first failed answer,
   * full page or last page; a successful answer is exactly the kept rows
   * of the pages fetched, in page and row order, cut at the cap.
   */
  predicate EndsAsFetched(replies: seq<Reply<EposPage>>, k: nat, filter: bool, needle: string, max: int,
                          acc: seq<ProductInfo>, o: Outcome<seq<ProductInfo>, EposCall>)
  {
    var last := k + |o.calls| - 1;
    && 1 <= |o.calls|
    && (last >= |replies| ==> o.result == Err(Runtime(TIMEOUT)))
    && (last < |replies| && replies[last].NetworkError? ==> o.result == Err(Runtime(replies[last].description)))
    && (last < |replies| && replies[last].Delivered? ==>
          var seen := acc + KeptFrom(replies, k, |o.calls|, filter, needle);
          && o.result == Ok(TrimToLimit(seen, max))
          && ((max > 0 && |seen| >= max) || !HasNext(replies[last].body.nextPage)))
  }

  /** An ending of the chain from k + 1 is, one request longer, an ending of the chain from k. */
  lemma EndsShift(replies: seq<Reply<EposPage>>, k: nat, call: EposCall, filter: bool, needle: string, max: int,
                  acc: seq<ProductInfo>, rest: Outcome<seq<ProductInfo>, EposCall>)
    requires k < |replies|
    requires EndsAsFetched(replies, k + 1, filter, needle, max, acc + PageKept(replies[k], filter, needle), rest)
    ensures EndsAsFetched(replies, k, filter, needle, max, acc, Outcome(rest.result, [call] + rest.calls))
  {
    var kept := PageKept(replies[k], filter, needle);
    var n := |rest.calls|;
    if k + n < |replies| {
      assert KeptFrom(replies, k, n + 1, filter, needle) == kept + KeptFrom(replies, k + 1, n, filter, needle);
      AppendAssoc(acc, kept, KeptFrom(replies, k + 1, n, filter, needle));
    }
  }

  /** The end of the chain, whatever the replies: see EndsAsFetched. */
  lemma {:induction false} FetchFromAnswer(replies: seq<Reply<EposPage>>, k: nat, call: EposCall,
                                           filter: bool, needle: string, max: int, acc: seq<ProductInfo>)
    requires max > 0 ==> |acc| < max
    ensures EndsAsFetched(replies, k, filter, needle, max, acc, FetchFrom(replies, k, call, filter, needle, max, acc))
    decreases |replies| - k
  {
    if k < |replies| && replies[k].Delivered? {
      FetchFromStep(replies, k, call, filter, needle, max, acc);
      var page := replies[k].body;
      var kept := PageKept(replies[k], filter, needle);
      var seen := acc + kept;
      if !(max > 0 && |seen| >= max) && HasNext(page.nextPage) {
        var next := FollowLink(NextUrl(page.nextPage.value));
        FetchFromAnswer(replies, k + 1, next, filter, needle, max, seen);
        EndsShift(replies, k, call, filter, needle, max, acc, FetchFrom(replies, k + 1, next, filter, needle, max, seen));
      } else {
        assert KeptFrom(replies, k, 1, filter, needle) == kept + [];
        assert kept + [] == kept;
        if !(max > 0 && |seen| >= max) {
          assert TrimToLimit(seen, max) == seen;
        }
      }
    }
  }

  /** What `searchProducts` answers and requests, for any replies: see FetchFromSpec, from an empty accumulator. */
  lemma SearchSpec(auth: Option<AuthSource>, query: Option<string>, locationId: int, limit: int, replies: seq<Reply<EposPage>>)
    ensures var o := Search(auth, query, locationId, limit, replies);
      var term := if query.None? then "" else Trim(query.value);
      && (auth.None? || locationId <= 0 <==> o.calls == [])
      && (auth.None? || locationId <= 0 ==> o.result == Err(IllegalState(MISSING_AUTH_OR_LOCATION)))
      && (auth.Some? && locationId > 0 ==> o.calls[0] == ListStocks(locationId, 1, PageSize(limit)) && |o.calls| <= |replies| + 1)
      && (o.result.Ok? && limit > 0 ==> |o.result.value| <= limit)
      && (o.result.Ok? ==> forall j :: 0 <= j < |o.result.value| ==>
            o.result.value[j].provider == Some(EPOSNOW) && (term != "" ==> Matches(o.result.value[j], Lower(term))))
      && (auth.Some? && locationId > 0 ==>
            && EndsAsFetched(replies, 0, term != "", Lower(term), limit, [], o)
            && AllFollow(replies, 0, term != "", Lower(term), limit, [], o.calls))
  {
    if auth.Some? && locationId > 0 {
      var term := if query.None? then "" else Trim(query.value);
      var first := ListStocks(locationId, 1, PageSize(limit));
      FetchFromSpec(replies, 0, first, term != "", Lower(term), limit, []);
      FetchFromAnswer(replies, 0, first, term != "", Lower(term), limit, []);
      FetchFromFollows(replies, 0, first, term != "", Lower(term), limit, []);
    }
  }

  /** A one-page answer with no next link, searched with no query and no cap, lists every object row. */
  lemma {:induction false} SearchAllOnOnePage(auth: AuthSource, locationId: int, limit: int, rows: seq<Option<EposRow>>)
    requires locationId > 0 && limit <= 0
    ensures Search(Some(auth), None, locationId, limit, [Delivered(EposPage(Some(rows), None))]) ==
      Outcome(Ok(Kept(rows, false, "")), [ListStocks(locationId, 1, MAX_PAGE)])
  {
    assert Lower("") == "";
    PageRowsKept(rows, false, "", limit, []);
    assert PageRows(rows, false, "", limit, []) == Kept(rows, false, "");
    var replies := [Delivered(EposPage(Some(rows), None))];
    var call := ListStocks(locationId, 1, MAX_PAGE);
    assert Search(Some(auth), None, locationId, limit, replies) == FetchFrom(replies, 0, call, false, "", limit, []);
  }

  /** The row loop of the response handler, appending to the shared accumulator. */
  method ScanPage(rows: seq<Option<EposRow>>, filter: bool, needle: string, max: int, acc0: seq<ProductInfo>)
    returns (acc: seq<ProductInfo>)
    ensures acc == PageRows(rows, filter, needle, max, acc0)
  {
    acc := acc0;
    var i := 0;
    while i < |rows|
      invariant 0 <= i <= |rows|
      invariant PageRows(rows, filter, needle, max, acc0) == PageRows(rows[i..], filter, needle, max, acc)
    {
      assert rows[i..][1..] == rows[i + 1..];
      if rows[i].Some? {
        var p := MapStockItem(rows[i].value);
        if !filter || Matches(p, needle) {
          acc := acc + [p];
          if max > 0 && |acc| >= max {
            break;
          }
        }
      }
      i := i + 1;
    }
  }

  /**
   * The `fetchPage` chain from the first request: one request per loop
   * turn, stopping at an error, at the cap, or at the last page.
   */
  method FetchPages(replies: seq<Reply<EposPage>>, first: EposCall, filter: bool, needle: string, max: int)
    returns (r: Result<seq<ProductInfo>>, calls: seq<EposCall>)
    ensures Outcome(r, calls) == FetchFrom(replies, 0, first, filter, needle, max, [])
  {
    var acc: seq<ProductInfo> := [];
    var call := first;
    var k := 0;
    calls := [];
    ghost var spec := FetchFrom(replies, 0, call, filter, needle, max, acc);
    while true
      invariant k <= |replies|
      invariant spec.result == FetchFrom(replies, k, call, filter, needle, max, acc).result
      invariant spec.calls == calls + FetchFrom(replies, k, call, filter, needle, max, acc).calls
      decreases |replies| - k
    {
      ghost var before := calls;
      var done, res, acc', call' := HandlePage(replies, k, call, filter, needle, max, acc);
      calls := calls + [call];
      if done {
        return res, calls;
      }
      ghost var next := FetchFrom(replies, k + 1, call', filter, needle, max, acc');
      AppendAssoc(before, [call], next.calls);
      acc, call, k := acc', call', k + 1;
    }
  }

  /**
   * One turn of the chain: the k-th request's answer, handled. Either the
   * chain ends here with `res`, or it goes on with the next request and the
   * grown accumulator.
   */
  method HandlePage(replies: seq<Reply<EposPage>>, k: nat, call: EposCall, filter: bool, needle: string, max: int,
                    acc: seq<ProductInfo>)
    returns (done: bool, res: Result<seq<ProductInfo>>, acc': seq<ProductInfo>, next: EposCall)
    ensures done ==> FetchFrom(replies, k, call, filter, needle, max, acc) == Outcome(res, [call])
    ensures !done ==> k < |replies|
    ensures !done ==>
              var rest := FetchFrom(replies, k + 1, next, filter, needle, max, acc');
              FetchFrom(replies, k, call, filter, needle, max, acc) == Outcome(rest.result, [call] + rest.calls)
  {
    acc', next := acc, call;
    if k >= |replies| {
      return true, Err(Runtime(TIMEOUT)), acc', next;
    }
    if replies[k].NetworkError? {
      return true, Err(Runtime(replies[k].description)), acc', next;
    }
    var page := replies[k].body;
    if page.data.Some? {
      acc' := ScanPage(page.data.value, filter, needle, max, acc);
    }
    if max > 0 && |acc'| >= max {
      return true, Ok(TrimToLimit(acc', max)), acc', next;
    }
    if !HasNext(page.nextPage) {
      return true, Ok(acc'), acc', next;
    }
    next := FollowLink(NextUrl(page.nextPage.value));
    done, res := false, Ok(acc');
  }

  /** `searchProducts`: the guard, the page size and the needle, then the page chain. */
  method SearchProducts(prefs: SecurePrefs, query: Option<string>, locationId: int, limit: int,
                        replies: seq<Reply<EposPage>>)
    returns (r: Result<seq<ProductInfo>>, calls: seq<EposCall>)
    ensures Outcome(r, calls) == Search(ResolveAuth(prefs), query, locationId, limit, replies)
  {
    var auth := ResolveAuth(prefs);
    if auth.None? || locationId <= 0 {
      return Err(IllegalState(MISSING_AUTH_OR_LOCATION)), [];
    }
    var term := if query.None? then "" else Trim(query.value);
    r, calls := FetchPages(replies, ListStocks(locationId, 1, PageSize(limit)), term != "", Lower(term), limit);
  }

  // ---- getProductByBarcode ----

  /** `getProductByBarcode`: a search capped at one result, answering its first element or null. */
  function Lookup(auth: Option<AuthSource>, barcode: Option<string>, locationId: int,
                  replies: seq<Reply<EposPage>>): Outcome<Option<ProductInfo>, EposCall>
  {
    var o := Search(auth, barcode, locationId, 1, replies);
    match o.result
    case Err(e) => Outcome(Err(e), o.calls)
    case Ok(list) => Outcome(Ok(if |list| > 0 then Some(list[0]) else None), o.calls)
  }

  /**
   * A barcode hit is any row whose description, barcode or SKU contains the
   * trimmed, lower-cased barcode; with a blank barcode there is no filter
   * and the first stock row at the location is the answer.
   */
  lemma LookupSpec(auth: Option<AuthSource>, barcode: Option<string>, locationId: int, replies: seq<Reply<EposPage>>)
    ensures var o := Lookup(auth, barcode, locationId, replies);
      var term := if barcode.None? then "" else Trim(barcode.value);
      && (auth.Some? && locationId > 0 ==> o.calls[0] == ListStocks(locationId, 1, 1))
      && (o.result.Ok? && o.result.value.Some? && term != "" ==> Matches(o.result.value.value, Lower(term)))
      && (o.result.Ok? && o.result.value.Some? ==> o.result.value.value.provider == Some(EPOSNOW))
      && (o.result.Ok? ==>
            && |o.calls| <= |replies|
            && var hits := KeptFrom(replies, 0, |o.calls|, term != "", Lower(term));
            && (o.result.value.None? <==> hits == [])
            && (o.result.value.Some? ==> o.result.value.value == hits[0]))
  {
    SearchSpec(auth, barcode, locationId, 1, replies);
  }

  const PackRow := EposRow(Some(7), Some(70), Some("12 pack"), None, Some("p7"), Some("555"),
                           None, None, None, None, None, None)

  /** A stock row whose name happens to contain the scanned code is taken as the barcode hit. */
  lemma LookupMatchesDescription(auth: AuthSource)
    ensures Lookup(Some(auth), Some("12"), 1, [Delivered(EposPage(Some([Some(PackRow)]), None))]).result
      == Ok(Some(MapStockItem(PackRow)))
  {
    var p := MapStockItem(PackRow);
    assert Lower("12") == "12";
    assert Lower("12 pack")[..2] == "12";
    assert Matches(p, "12");
    var rows := [Some(PackRow)];
    assert PageRows(rows, true, "12", 1, []) == [p];
    assert Trim("12") == "12";
    var replies := [Delivered(EposPage(Some(rows), None))];
    assert Search(Some(auth), Some("12"), 1, 1, replies) == FetchFrom(replies, 0, ListStocks(1, 1, 1), true, "12", 1, []);
  }

  /** The barcode lookup, run as the source does it: through the search. */
  method GetProductByBarcode(prefs: SecurePrefs, barcode: Option<string>, locationId: int,
                             replies: seq<Reply<EposPage>>)
    returns (r: Result<Option<ProductInfo>>, calls: seq<EposCall>)
    ensures Outcome(r, calls) == Lookup(ResolveAuth(prefs), barcode, locationId, replies)
  {
    var found;
    found, calls := SearchProducts(prefs, barcode, locationId, 1, replies);
    match found {
      case Err(e) => r := Err(e);
      case Ok(list) => r := Ok(if |list| > 0 then Some(list[0]) else None);
    }
  }

  // ---- updateStock ----

  /** A lookup row is the one meant when either of its ids equals the given id. */
  predicate RowIs(row: Option<EposRow>, id: int) {
    row.Some? && (row.value.productId.GetOr(0) == id || row.value.stockItemId.GetOr(0) == id)
  }

  /** The lookup loop: the first object row with ProductId == id or StockItemId == id. */
  function FindRow(rows: seq<Option<EposRow>>, i: nat, id: int): (r: Option<EposRow>)
    requires i <= |rows|
    ensures r.None? <==> forall k :: i <= k < |rows| ==> !RowIs(rows[k], id)
    ensures r.Some? ==> exists k :: i <= k < |rows| && rows[k] == Some(r.value) && RowIs(rows[k], id) &&
                                    forall j :: i <= j < k ==> !RowIs(rows[j], id)
    decreases |rows| - i
  {
    if i == |rows| then None
    else if RowIs(rows[i], id) then rows[i]
    else FindRow(rows, i + 1, id)
  }

  /** The loop of the lookup handler. */
  method FindMatch(rows: seq<Option<EposRow>>, id: int) returns (m: Option<EposRow>)
    ensures m == FindRow(rows, 0, id)
  {
    m := None;
    var i := 0;
    while i < |rows|
      invariant 0 <= i <= |rows|
      invariant FindRow(rows, 0, id) == FindRow(rows, i, id)
    {
      if rows[i].Some? {
        var pid := rows[i].value.productId.GetOr(0);
        var sid := rows[i].value.stockItemId.GetOr(0);
        if id == pid || id == sid {
          m := rows[i];
          break;
        }
      }
      i := i + 1;
    }
  }

  /** The update body's entry: the new absolute stock, the row's limits and alert flag kept. */
  function EntryFor(locationId: int, newQty: real, row: EposRow): StockEntry {
    StockEntry(locationId, Round(newQty), Round(row.minimumStock.GetOr(0.0)), Round(row.maximumStock.GetOr(0.0)),
               row.productId.GetOr(0), row.alerts.GetOr(true))
  }

  /**
   * `updateStock` given how the matching row is chosen: the guard, the
   * lookup request, the not-found cases, then the POST of a one-entry
   * array to the row's ProductId.
   */
  function UpdateWith(find: (seq<Option<EposRow>>, int) -> Option<EposRow>,
                      auth: Option<AuthSource>, id: int, locationId: int, newQty: real,
                      lookup: Reply<EposPage>, post: Reply<Ack>): Outcome<ProductInfo, EposCall>
  {
    if auth.None? || locationId <= 0 || id <= 0 then Outcome(Err(IllegalArgument(MISSING_UPDATE_ARGS)), [])
    else
      var get := ListStocks(locationId, 1, LOOKUP_LIMIT);
      match lookup
      case NetworkError(e) => Outcome(Err(Runtime(LOOKUP_ERROR + e)), [get])
      case Delivered(page) =>
        if page.data.None? || |page.data.value| == 0 then Outcome(Err(Runtime(NO_STOCKS)), [get])
        else
          var m := find(page.data.value, id);
          if m.None? || m.value.productId.GetOr(0) <= 0 then Outcome(Err(Runtime(NOT_FOUND + IntToString(id))), [get])
          else
            var row := m.value;
            var postCall := PostUpdate(row.productId.value, [EntryFor(locationId, newQty, row)]);
            match post
            case NetworkError(e) => Outcome(Err(Runtime(UPDATE_ERROR + e)), [get, postCall])
            case Delivered(_) => Outcome(Ok(MapStockItem(row).(currentStock := Some(newQty))), [get, postCall])
  }

  function FirstEitherId(rows: seq<Option<EposRow>>, id: int): Option<EposRow> {
    FindRow(rows, 0, id)
  }

  /** `updateStock` as written: the first row matching either id. */
  function Update(auth: Option<AuthSource>, id: int, locationId: int, newQty: real,
                  lookup: Reply<EposPage>, post: Reply<Ack>): Outcome<ProductInfo, EposCall>
  {
    UpdateWith(FirstEitherId, auth, id, locationId, newQty, lookup, post)
  }

  /**
   * Whatever row finder is used: at most the lookup and one POST; the POST
   * is sent exactly for a found row with a positive ProductId and carries
   * one entry with the rounded new quantity and the row's other settings; a
   * delivered POST succeeds and reports the row, mapped, with
   * currentStock = newQty; each earlier failure has its own error.
   */
  lemma UpdateWithSpec(find: (seq<Option<EposRow>>, int) -> Option<EposRow>,
                       auth: Option<AuthSource>, id: int, locationId: int, newQty: real,
                       lookup: Reply<EposPage>, post: Reply<Ack>)
    ensures var o := UpdateWith(find, auth, id, locationId, newQty, lookup, post);
      && |o.calls| <= 2
      && (auth.None? || locationId <= 0 || id <= 0 <==> o.calls == [])
      && (o.calls != [] ==> o.calls[0] == ListStocks(locationId, 1, LOOKUP_LIMIT))
      && (|o.calls| == 2 ==>
            && lookup.Delivered? && lookup.body.data.Some?
            && var row := find(lookup.body.data.value, id).value;
            && o.calls[1] == PostUpdate(row.productId.value, [EntryFor(locationId, newQty, row)])
            && o.calls[1].productId > 0
            && o.calls[1].body[0].currentStock == Round(newQty)
            && o.calls[1].body[0].locationId == locationId
            && (post.Delivered? <==> o.result.Ok?)
            && (o.result.Ok? ==> o.result.value == MapStockItem(row).(currentStock := Some(newQty))))
      && (o.result.Ok? ==> |o.calls| == 2 && o.result.value.currentStock == Some(newQty) && o.result.value.provider == Some(EPOSNOW))
  ensures var o := UpdateWith(find, auth, id, locationId, newQty, lookup, post);
    var get := ListStocks(locationId, 1, LOOKUP_LIMIT);
    && (auth.None? || locationId <= 0 || id <= 0 ==> o.result == Err(IllegalArgument(MISSING_UPDATE_ARGS)))
    && (auth.Some? && locationId > 0 && id > 0 ==>
          && (lookup.NetworkError? ==> o == Outcome(Err(Runtime(LOOKUP_ERROR + lookup.description)), [get]))
          && (lookup.Delivered? && (lookup.body.data.None? || |lookup.body.data.value| == 0) ==>
                o == Outcome(Err(Runtime(NO_STOCKS)), [get]))
          && (lookup.Delivered? && lookup.body.data.Some? && |lookup.body.data.value| > 0 ==>
                var m := find(lookup.body.data.value, id);
                && (m.None? || m.value.productId.GetOr(0) <= 0 ==>
                      o == Outcome(Err(Runtime(NOT_FOUND + IntToString(id))), [get]))
                && (m.Some? && m.value.productId.GetOr(0) > 0 ==>
                      && |o.calls| == 2
                      && (post.Delivered? ==> o.result == Ok(MapStockItem(m.value).(currentStock := Some(newQty))))
                      && (post.NetworkError? ==> o.result == Err(Runtime(UPDATE_ERROR + post.description))))))
  {
  }

  /**
   * As written, the row updated is the first that matches either id, and
   * the POST goes to that row's ProductId; a row matched by its ProductId
   * is updated even when the id given was another row's StockItemId.
   */
  lemma UpdateSpec(auth: Option<AuthSource>, id: int, locationId: int, newQty: real,
                   lookup: Reply<EposPage>, post: Reply<Ack>)
    ensures var o := Update(auth, id, locationId, newQty, lookup, post);
      |o.calls| == 2 ==>
        var rows := lookup.body.data.value;
        exists k :: 0 <= k < |rows| && RowIs(rows[k], id) && (forall j :: 0 <= j < k ==> !RowIs(rows[j], id)) &&
                    o.calls[1].productId == rows[k].value.productId.GetOr(0)
  {
    UpdateWithSpec(FirstEitherId, auth, id, locationId, newQty, lookup, post);
  }

  /** The two stock rows of the collision example: the item shown as "9", and a product whose ProductId is 9. */
  const ShownRow := EposRow(Some(5), Some(9), Some("Shown"), None, None, None, None, None, None, None, None, None)
  const OtherRow := EposRow(Some(9), Some(12), Some("Other"), None, None, None, None, None, None, None, None, None)

  /**
   * The search lists ShownRow with externalId "9"; updating id 9 when the
   * lookup lists OtherRow first posts to ProductId 9, OtherRow's product,
   * not to ShownRow's ProductId 5.
   */
  lemma UpdateHitsWrongRow(auth: AuthSource, post: Reply<Ack>)
    ensures MapStockItem(ShownRow).externalId == Some("9")
    ensures Update(Some(auth), 9, 1, 4.0, Delivered(EposPage(Some([Some(OtherRow), Some(ShownRow)]), None)), post).calls[1]
      == PostUpdate(9, [EntryFor(1, 4.0, OtherRow)])
  {
  }

  /** The first object row whose exposed id (Key) is the given id: the row the caller's id was read from. */
  function FindByKey(rows: seq<Option<EposRow>>, id: int): (r: Option<EposRow>)
    ensures r.None? <==> forall k :: 0 <= k < |rows| ==> rows[k].None? || Key(rows[k].value) != id
    ensures r.Some? ==> Key(r.value) == id && exists k :: 0 <= k < |rows| && rows[k] == Some(r.value) &&
                                                  forall j :: 0 <= j < k ==> rows[j].None? || Key(rows[j].value) != id
  {
    if rows == [] then None
    else if rows[0].Some? && Key(rows[0].value) == id then rows[0]
    else
      var r := FindByKey(rows[1..], id);
      assert forall k :: 1 <= k < |rows| ==> rows[k] == rows[1..][k - 1];
      assert r.Some? ==> exists k :: 1 <= k < |rows| && rows[k] == Some(r.value) &&
                                     forall j :: 0 <= j < k ==> rows[j].None? || Key(rows[j].value) != id by {
        if r.Some? {
          var k :| 0 <= k < |rows[1..]| && rows[1..][k] == Some(r.value) &&
                   forall j :: 0 <= j < k ==> rows[1..][j].None? || Key(rows[1..][j].value) != id;
          assert rows[k + 1] == Some(r.value);
        }
      }
      r
  }

  /** `updateStock` with the row chosen by the id the search exposed. */
  function UpdateByKey(auth: Option<AuthSource>, id: int, locationId: int, newQty: real,
                       lookup: Reply<EposPage>, post: Reply<Ack>): Outcome<ProductInfo, EposCall>
  {
    UpdateWith(FindByKey, auth, id, locationId, newQty, lookup, post)
  }

  /**
   * Round trip: for a positive id, the corrected update posts to the
   * product of a row whose mapped externalId is exactly the id's text,
   * so updating an item the search listed updates that item's product.
   */
  lemma UpdateByKeySpec(auth: Option<AuthSource>, id: int, locationId: int, newQty: real,
                        lookup: Reply<EposPage>, post: Reply<Ack>)
    ensures var o := UpdateByKey(auth, id, locationId, newQty, lookup, post);
      |o.calls| == 2 ==>
        var row := FindByKey(lookup.body.data.value, id).value;
        && MapStockItem(row).externalId == Some(IntToString(id))
        && Some(row) in lookup.body.data.value
        && o.calls[1].productId == row.productId.value
  {
    UpdateWithSpec(FindByKey, auth, id, locationId, newQty, lookup, post);
  }

  /** In the collision example the corrected update posts to ShownRow's product. */
  lemma UpdateByKeyHitsShownRow(auth: AuthSource, post: Reply<Ack>)
    ensures UpdateByKey(Some(auth), 9, 1, 4.0, Delivered(EposPage(Some([Some(OtherRow), Some(ShownRow)]), None)), post).calls[1]
      == PostUpdate(5, [EntryFor(1, 4.0, ShownRow)])
  {
    assert FindByKey([Some(OtherRow), Some(ShownRow)], 9) == Some(ShownRow) by {
      assert Key(OtherRow) == 12;
      assert [Some(OtherRow), Some(ShownRow)][1..] == [Some(ShownRow)];
    }
  }

  /** `updateStock` as the handlers run it: lookup, match loop, POST. */
  method UpdateStock(prefs: SecurePrefs, id: int, locationId: int, newQty: real,
                     lookup: Reply<EposPage>, post: Reply<Ack>)
    returns (r: Result<ProductInfo>, calls: seq<EposCall>)
    ensures Outcome(r, calls) == Update(ResolveAuth(prefs), id, locationId, newQty, lookup, post)
  {
    var auth := ResolveAuth(prefs);
    if auth.None? || locationId <= 0 || id <= 0 {
      return Err(IllegalArgument(MISSING_UPDATE_ARGS)), [];
    }
    var get := ListStocks(locationId, 1, LOOKUP_LIMIT);
    calls := [get];
    match lookup {
      case NetworkError(e) =>
        return Err(Runtime(LOOKUP_ERROR + e)), calls;
      case Delivered(page) =>
        if page.data.None? || |page.data.value| == 0 {
          return Err(Runtime(NO_STOCKS)), calls;
        }
        var m := FindMatch(page.data.value, id);
        if m.None? || m.value.productId.GetOr(0) <= 0 {
          return Err(Runtime(NOT_FOUND + IntToString(id))), calls;
        }
        var row := m.value;
        calls := calls + [PostUpdate(row.productId.value, [EntryFor(locationId, newQty, row)])];
        match post {
          case NetworkError(e) =>
            r := Err(Runtime(UPDATE_ERROR + e));
          case Delivered(_) =>
            var p := MapStockItem(row);
            r := Ok(p.(currentStock := Some(newQty)));
        }
    }
  }

  /** `fetchRecentUpdates`: not supported, and no request is made. */
  function FetchRecentUpdates(locationId: int, sinceEpochMs: int, limit: int): (o: Outcome<seq<ProductInfo>, EposCall>)
    ensures o.result.Err? && o.result.error.Unsupported? && o.calls == []
  {
    Outcome(Err(Unsupported(NO_RECENT)), [])
  }
}
