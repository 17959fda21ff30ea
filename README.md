# Easy Inventory: provider back ends, preferences and tiers in Dafny

This project models the inventory core of the Easy Inventory Android app. The app looks up products, scans barcodes and updates stock against one of three point-of-sale back ends: Shopify, EPOS Now and Clover. The model covers:

- **The three repositories.** For each one, the requests it issues, the answers it gives through its callback, and how it maps the back end's records to the app's `Product`.
- **The back-end choice.** `ProviderFactory` routes on the provider stored in `SecurePrefs`.
- **The preference store.** `SecurePrefs` is modelled over a string-keyed map, with its provider bridge and scoped clears.
- **The tier decision tables.** `Tier`, `TierUtils`, `FeatureGate` and `UpgradeLinks`.
- **The CSV export.** Including a reader showing that the export reads back losslessly.
- **The shelf-label record** (`LabelData`).
- **The theme setting,** with its one-time migration (`ThemeManager`).
- **The sign-in screen.** `WebViewLoginActivity` detects a successful sign-in exactly once and records tier and plan.

How the model is built:

- **No networking.** Each HTTP answer is an input: `Reply<T>` is either `Delivered(body)` or `NetworkError(description)`. The body is already decoded into a datatype whose optional fields stand for the `opt*` defaults.
- **Every operation has one shape.** It returns an `Outcome(result, calls)`: the `Result` is what the callback receives (`onSuccess` or `onError`), and `calls` lists the requests issued, in order.
- **Loops stay loops.** Code that loops or updates state in place is written as Dafny methods over classes:
  - `Product`, `SharedPreferences` and `SecurePrefs` are classes;
  - `ThemeManager` is a class;
  - the sign-in screen's `handledSuccessOnce` flag is a class field.

  Each such method is proved equal to a specification function, and the properties are proved about that function.
- **Numbers.**
  - `BigDecimal` is `Decimal(unscaled, scale)`.
  - Quantities are exact `real`s.
  - `Math.round` is Java's rule, the floor of `x + 0.5`.

Layout:

| File | What it holds |
|---|---|
| `wrappers.dfy` | `Option`, `Result`, `Error`, `Reply`, `Outcome` |
| `numbers.dfy` | rounding and decimal digits |
| `decimals.dfy` | `BigDecimal` |
| `text.dfy` | ASCII case folding, trimming, substring tests |
| `seqs.dfy` | concatenating mapped lists |
| `store.dfy` | Android `SharedPreferences` |
| `build_config.dfy` | build flags |
| `shopify_mapping.dfy`, `shopify.dfy` | Shopify |
| `epos.dfy` | EPOS Now |
| `clover.dfy` | Clover |

Every other file is named after the source class it models.

## Model

Source paths are below `app/src/main/java/com/kinvo/easyinventory/`; the table writes them in full.

| member | source | states |
|---|---|---|
| Numbers.Round | app/src/main/java/com/kinvo/easyinventory/data/ShopifyRepository.java:186 | `(int) Math.round(q)` is the integer nearest to q, halves rounding up |
| Numbers.RoundWhole | app/src/main/java/com/kinvo/easyinventory/data/EposNowRepository.java:281 | rounding a whole quantity gives that quantity back |
| Numbers.NatToStringRoundTrip | app/src/main/java/com/kinvo/easyinventory/data/EposNowRepository.java:165-166 | `String.valueOf` of an id reads back as that id, so ids written as text are not confused |
| Numbers.NatToStringInjective | app/src/main/java/com/kinvo/easyinventory/data/EposNowRepository.java:165-166 | two different ids never get the same text |
| Decimals.FromLong | app/src/main/java/com/kinvo/easyinventory/data/CloverRepository.java:117 | `BigDecimal.valueOf(long)` has exactly the value of the long |
| Decimals.MovePointLeft | app/src/main/java/com/kinvo/easyinventory/data/CloverRepository.java:117 | `movePointLeft(n)` keeps the digits and raises the scale by n |
| Decimals.ParseIntToString | app/src/main/java/com/kinvo/easyinventory/data/ShopifyRepository.java:478 | `new BigDecimal(s)` of a whole number's text gives that number at scale 0 |
| Decimals.ParseUnsignedDigits | app/src/main/java/com/kinvo/easyinventory/data/ShopifyRepository.java:478 | a digit string parses to its value at scale 0 |
| Decimals.DotIndex | app/src/main/java/com/kinvo/easyinventory/data/ShopifyRepository.java:478 | the integer part of a decimal text ends at its first '.', or at the end when there is none |
| Decimals.DotIndexOfDigits | app/src/main/java/com/kinvo/easyinventory/data/ShopifyRepository.java:478 | a text of digits has no fraction part |
| Products.Product.constructor | app/src/main/java/com/kinvo/easyinventory/model/Product.java:5-19 | a new Product has every reference field null, price ZERO, and the message flag off |
| Products.Product.SetPriceBig | app/src/main/java/com/kinvo/easyinventory/model/Product.java:37-38 | only the price changes; null stores ZERO; `getPriceBig` is never null and returns a given price unchanged |
| Products.Product.SetCurrentStock | app/src/main/java/com/kinvo/easyinventory/model/Product.java:40-41 | only the stock changes, and `getCurrentStock` returns exactly what was set, null included |
| Products.Product.SetExternalId | app/src/main/java/com/kinvo/easyinventory/model/Product.java:23 | only `externalId` changes |
| Products.Product.SetProvider | app/src/main/java/com/kinvo/easyinventory/model/Product.java:26 | only `provider` changes |
| Products.Product.SetDescription | app/src/main/java/com/kinvo/easyinventory/model/Product.java:29 | only `description` changes |
| Products.Product.SetSku | app/src/main/java/com/kinvo/easyinventory/model/Product.java:32 | only `sku` changes |
| Products.Product.SetBarcode | app/src/main/java/com/kinvo/easyinventory/model/Product.java:35 | only `barcode` changes |
| Products.Product.SetVariantId | app/src/main/java/com/kinvo/easyinventory/model/Product.java:44 | only `variantId` changes |
| Products.Product.SetInventoryItemId | app/src/main/java/com/kinvo/easyinventory/model/Product.java:47 | only `inventoryItemId` changes |
| Products.Product.SetStockUpdatedMessageVisible | app/src/main/java/com/kinvo/easyinventory/model/Product.java:50 | only the message flag changes |
| Products.StockNullIsNotZero | app/src/main/java/com/kinvo/easyinventory/model/Product.java:14-41 | a product never given a stock and one given 0 both price at ZERO but differ: null stock is not 0 |
| Tiers.FromStringCases | app/src/main/java/com/kinvo/easyinventory/Tier.java:6-14 | `fromString` is DEMO or PREMIUM exactly for trimmed, case-folded "demo" or "premium"; null and everything else is BASIC |
| Tiers.FromStringName | app/src/main/java/com/kinvo/easyinventory/Tier.java:3-14 | `fromString(t.name())` is t for every tier |
| Prefs.DataSourceValueOf | app/src/main/java/com/kinvo/easyinventory/SecurePrefs.java:134 | `DataSource.valueOf` succeeds only on a constant's exact name |
| Prefs.DataSourceValueOfName | app/src/main/java/com/kinvo/easyinventory/SecurePrefs.java:120-122 | every data source's name reads back as that source |
| Prefs.LowerUpperAgree | app/src/main/java/com/kinvo/easyinventory/SecurePrefs.java:107 | comparing the upper-cased tier name with an upper-case word is comparing the lower-cased name with the lower-case word |
| Prefs.GetTierAgreesWithFromString | app/src/main/java/com/kinvo/easyinventory/SecurePrefs.java:105-112 | `getTier` (trim, upper-case, DEMO/PREMIUM, else BASIC) is `Tier.fromString` of the stored name, default "BASIC" |
| Prefs.SecurePrefs.constructor | app/src/main/java/com/kinvo/easyinventory/SecurePrefs.java:79-98 | the store wraps the given preferences file, which must be well typed |
| Prefs.SecurePrefs.SetProviderName | app/src/main/java/com/kinvo/easyinventory/SecurePrefs.java:142-151 | the legacy key holds upper(nz(name)); the enum key holds that name when it is a data source, else EPOSNOW; nothing else changes; a provider is now chosen |
| Prefs.SecurePrefs.SetProvider | app/src/main/java/com/kinvo/easyinventory/SecurePrefs.java:119-123 | both keys hold the source's name (EPOSNOW for null); `getProvider` returns it |
| Prefs.SecurePrefs.SetProviderLegacy | app/src/main/java/com/kinvo/easyinventory/SecurePrefs.java:126-129 | the legacy overload is `setProviderName(name or "EPOSNOW")`: the legacy key holds the upper-cased name, the enum key that name when it is a data source, else EPOSNOW; nothing else changes; null means EPOSNOW |
| Prefs.SecurePrefs.SetSetting | app/src/main/java/com/kinvo/easyinventory/SecurePrefs.java:162-225 | every string setter stores nz(v) under its own key and changes nothing else |
| Prefs.SecurePrefs.SetLocationId | app/src/main/java/com/kinvo/easyinventory/SecurePrefs.java:171-172 | the EPOS location id is stored and read back |
| Prefs.SecurePrefs.SetShopifyLocationId | app/src/main/java/com/kinvo/easyinventory/SecurePrefs.java:192-193 | the Shopify location id is stored and read back |
| Prefs.SecurePrefs.SetRememberApi | app/src/main/java/com/kinvo/easyinventory/SecurePrefs.java:215-216 | only the remember flag changes |
| Prefs.SecurePrefs.SetLoggedIn | app/src/main/java/com/kinvo/easyinventory/SecurePrefs.java:218-219 | only the logged-in flag changes, and `isLoggedIn` reads it back |
| Prefs.SecurePrefs.ClearClover | app/src/main/java/com/kinvo/easyinventory/SecurePrefs.java:205-210 | exactly the two Clover keys are removed |
| Prefs.SecurePrefs.ClearShopify | app/src/main/java/com/kinvo/easyinventory/SecurePrefs.java:237-245 | exactly the five Shopify keys are removed |
| Prefs.SecurePrefs.ClearAll | app/src/main/java/com/kinvo/easyinventory/SecurePrefs.java:231 | the store is empty: both location ids read 0 and no provider is chosen |
| TierUtil.FromFlavorAgreesOnTrimmed | app/src/main/java/com/kinvo/easyinventory/TierUtils.java:11-19 | on an already trimmed name, `fromFlavor` and `Tier.fromString` agree |
| TierUtil.FromFlavorDoesNotTrim | app/src/main/java/com/kinvo/easyinventory/TierUtils.java:11-19 | `fromFlavor(" demo")` is BASIC while `Tier.fromString(" demo")` is DEMO |
| TierUtil.StoredTier | app/src/main/java/com/kinvo/easyinventory/TierUtils.java:23-30 | null exactly when prefs is null or nothing is stored, else `fromString` of the stored name |
| TierUtil.ResolveTierWith | app/src/main/java/com/kinvo/easyinventory/TierUtils.java:41-53 | a stored tier wins; else the flavour's tier when the fallback is allowed on an entitlement build; else BASIC |
| TierUtil.ReleaseBuildWithoutStoredTierIsBasic | app/src/main/java/com/kinvo/easyinventory/TierUtils.java:36-53 | a release build (not debug, demo or premium) with no stored tier resolves to BASIC whatever its flavour |
| TierUtil.StoredTierWins | app/src/main/java/com/kinvo/easyinventory/TierUtils.java:36-53 | with a stored tier, `resolveTier` is `prefs.getTier()` |
| TierUtil.DisplayNameRoundTrip | app/src/main/java/com/kinvo/easyinventory/TierUtils.java:56-63 | `fromString(displayName(t))` and `fromFlavor(displayName(t))` are both t |
| TierUtil.PlanLabel | app/src/main/java/com/kinvo/easyinventory/TierUtils.java:69-81 | the trimmed stored plan name when not blank, else the resolved tier's display name; never blank, never padded |
| Gate.GateTier | app/src/main/java/com/kinvo/easyinventory/FeatureGate.java:37-51 | build flags first (DEMO, then PREMIUM, then BASIC), then the stored tier, then the flavour only when prefs is null |
| Gate.RequirePremiumOrDemo | app/src/main/java/com/kinvo/easyinventory/FeatureGate.java:13-35 | allowed exactly when the gate's tier is not BASIC; the upgrade dialog shows exactly when refused |
| Gate.FlaggedBuildsPass | app/src/main/java/com/kinvo/easyinventory/FeatureGate.java:39-40 | a demo or premium build always passes the gate |
| Gate.UnflaggedFreshInstallIsRefused | app/src/main/java/com/kinvo/easyinventory/FeatureGate.java:41-47 | with no flags and no tier stored, the default "BASIC" is refused |
| Gate.GateAndTierUtilsDisagree | app/src/main/java/com/kinvo/easyinventory/FeatureGate.java:37-51 | on a demo build whose stored tier is BASIC the gate says DEMO while `TierUtils.resolveTier` says BASIC |
| Upgrade.UrlForTier | app/src/main/java/com/kinvo/easyinventory/UpgradeLinks.java:15-29 | "" exactly for PREMIUM; on the demo flavour DEMO goes to upgrade-basic and BASIC to upgrade-premium; otherwise the pricing page; every link is https |
| Upgrade.GetUrlForUpgrade | app/src/main/java/com/kinvo/easyinventory/UpgradeLinks.java:10-29 | no link exactly when the resolved tier is PREMIUM |
| Upgrade.DemoFlavorUpgradesOneStep | app/src/main/java/com/kinvo/easyinventory/UpgradeLinks.java:17-26 | on the demo flavour each lower tier is sent one step up, and the three destinations differ |
| Upgrade.DestinationHasScheme | app/src/main/java/com/kinvo/easyinventory/UpgradeLinks.java:19-25 | the destinations all start with "https://" |
| Providers.Route | app/src/main/java/com/kinvo/easyinventory/data/ProviderFactory.java:24-32 | Shopify exactly for "shopify" in any case, Clover exactly for "clover", EPOS Now for everything else |
| Providers.Get | app/src/main/java/com/kinvo/easyinventory/data/ProviderFactory.java:18-33 | the repository handed out is the one meant for `getProvider()` |
| Providers.NamesRoute | app/src/main/java/com/kinvo/easyinventory/data/ProviderFactory.java:21-32 | each data source's constant name routes to its own repository |
| Providers.NullRoutesToEposNow | app/src/main/java/com/kinvo/easyinventory/data/ProviderFactory.java:21-22 | the text "null" routes to EPOS Now |
| ShopifyMapping.Display | app/src/main/java/com/kinvo/easyinventory/data/ShopifyRepository.java:453-457 | the row name starts with the product title and is the title alone exactly when the variant title is empty or "Default Title" in any case |
| ShopifyMapping.PriceOf | app/src/main/java/com/kinvo/easyinventory/data/ShopifyRepository.java:478-479 | the parsed price, ZERO when the text does not parse |
| ShopifyMapping.MissingPriceIsZero | app/src/main/java/com/kinvo/easyinventory/data/ShopifyRepository.java:461 | a variant without a price is priced ZERO |
| ShopifyMapping.MapOneFields | app/src/main/java/com/kinvo/easyinventory/data/ShopifyRepository.java:489-506 | each field of `mapOne`'s product, with `inventoryItemId` set only when positive and provider SHOPIFY |
| ShopifyMapping.KeepVariantIsRowMatch | app/src/main/java/com/kinvo/easyinventory/data/ShopifyRepository.java:465-472 | filtering a variant is testing the needle against its row's lower-cased name, SKU or barcode |
| ShopifyMapping.MapProducts | app/src/main/java/com/kinvo/easyinventory/data/ShopifyRepository.java:426-487 | the outer loop appends each product's rows in order |
| ShopifyMapping.MapProduct | app/src/main/java/com/kinvo/easyinventory/data/ShopifyRepository.java:432-484 | one product's rows: a title row with stock 0 when it has no variants, else one row per kept non-null variant |
| ShopifyMapping.VariantRowsMatch | app/src/main/java/com/kinvo/easyinventory/data/ShopifyRepository.java:449-484 | every variant row passes the filter and is tagged SHOPIFY |
| ShopifyMapping.RowsMatch | app/src/main/java/com/kinvo/easyinventory/data/ShopifyRepository.java:426-487 | every listed row passes the filter and is tagged SHOPIFY |
| ShopifyMapping.VariantRowsCount | app/src/main/java/com/kinvo/easyinventory/data/ShopifyRepository.java:449-484 | a product gives at most one row per non-null variant, exactly that many with an empty needle |
| ShopifyMapping.RowsCount | app/src/main/java/com/kinvo/easyinventory/data/ShopifyRepository.java:426-487 | at most the sum of max(1, variant count) rows, exactly the row slots with an empty needle, so not bounded by `limit` |
| ShopifyMapping.TwoVariantsTwoRows | app/src/main/java/com/kinvo/easyinventory/data/ShopifyRepository.java:449-484 | one product with two variants lists two rows |
| ShopifyMapping.VariantRowListed | app/src/main/java/com/kinvo/easyinventory/data/ShopifyRepository.java:449-484 | every kept variant's row is listed |
| ShopifyMapping.ProductRowsListed | app/src/main/java/com/kinvo/easyinventory/data/ShopifyRepository.java:431-485 | every row of a product is in the listing |
| ShopifyMapping.KeptVariantListed | app/src/main/java/com/kinvo/easyinventory/data/ShopifyRepository.java:431-484 | every kept variant of any product is in the listing |
| ShopifyMapping.FirstVariantHit | app/src/main/java/com/kinvo/easyinventory/data/ShopifyRepository.java:145-153 | none exactly when no variant's barcode equals the needle ignoring case; a hit has that barcode |
| ShopifyMapping.FirstVariantHitIndex | app/src/main/java/com/kinvo/easyinventory/data/ShopifyRepository.java:145-153 | the index of the first variant that passes the barcode test: every variant before it fails |
| ShopifyMapping.FirstVariantHitIsFirst | app/src/main/java/com/kinvo/easyinventory/data/ShopifyRepository.java:145-153 | the variant scan answers `mapOne` of the first variant that passes the test, and null when none does |
| ShopifyMapping.FirstHit | app/src/main/java/com/kinvo/easyinventory/data/ShopifyRepository.java:140-155 | none exactly when no product has a hit; a hit carries the scanned barcode |
| ShopifyMapping.FirstHitIndex | app/src/main/java/com/kinvo/easyinventory/data/ShopifyRepository.java:140-155 | the index of the first product with a hit: every product before it has none |
| ShopifyMapping.FirstHitIsFirst | app/src/main/java/com/kinvo/easyinventory/data/ShopifyRepository.java:140-155 | the product scan answers the first hit of the first product that has one; earlier products and earlier variants are passed over |
| ShopifyMapping.FirstVariantHitListed | app/src/main/java/com/kinvo/easyinventory/data/ShopifyRepository.java:145-153 | a barcode hit is one of the product's unfiltered rows |
| ShopifyMapping.FirstHitListed | app/src/main/java/com/kinvo/easyinventory/data/ShopifyRepository.java:140-155 | a barcode hit is a row an unfiltered search would list |
| ShopifyMapping.ScanVariants | app/src/main/java/com/kinvo/easyinventory/data/ShopifyRepository.java:145-153 | the variant loop returns the first hit |
| ShopifyMapping.ScanBarcode | app/src/main/java/com/kinvo/easyinventory/data/ShopifyRepository.java:140-155 | the product loop returns the first hit in product then variant order |
| Shopify.NormalizeDomain | app/src/main/java/com/kinvo/easyinventory/data/ShopifyRepository.java:73-79 | the normalised host always contains a '.' |
| Shopify.SuffixHasDot | app/src/main/java/com/kinvo/easyinventory/data/ShopifyRepository.java:77 | a name ending in ".myshopify.com", or given that suffix, contains a '.' |
| Shopify.NormalizeBareName | app/src/main/java/com/kinvo/easyinventory/data/ShopifyRepository.java:73-79 | a trimmed shop name with no scheme and no dot gets ".myshopify.com" |
| Shopify.NormalizeKeepsCanonicalDomain | app/src/main/java/com/kinvo/easyinventory/data/ShopifyRepository.java:73-79 | a trimmed dotted host with no scheme is left unchanged |
| Shopify.PageLimit | app/src/main/java/com/kinvo/easyinventory/data/ShopifyRepository.java:106 | the page size is in [1, 250]: 250 for limit ≤ 0 or ≥ 250, else the limit |
| Shopify.SearchProducts | app/src/main/java/com/kinvo/easyinventory/data/ShopifyRepository.java:100-124 | no credentials: an error and no request; else one products request and the mapped rows, all matching the needle and tagged SHOPIFY |
| Shopify.FetchRecentUpdates | app/src/main/java/com/kinvo/easyinventory/data/ShopifyRepository.java:227-248 | like the search with no filter, with the time bound in the request |
| Shopify.GetProductByBarcode | app/src/main/java/com/kinvo/easyinventory/data/ShopifyRepository.java:127-164 | no credentials: an error; empty barcode: null with no request; else one request, and the page's answer is BarcodeAnswer of the trimmed input, the first hit in product then variant order (BarcodeAnswerSpec) |
| Shopify.BarcodeAnswerSpec | app/src/main/java/com/kinvo/easyinventory/data/ShopifyRepository.java:137-155 | the answer is null exactly when no variant is a hit; else `mapOne` of the first hitting variant of the first product with a hit; no SKU fallback |
| Shopify.BlankBarcodeMatchesUnbarcodedVariant | app/src/main/java/com/kinvo/easyinventory/data/ShopifyRepository.java:129-149 | the barcode " " passes the emptiness check and matches a variant without a barcode |
| Shopify.GetProductByBarcodeChecked | app/src/main/java/com/kinvo/easyinventory/data/ShopifyRepository.java:127-164 | with a blank check in place of the emptiness check, a hit always has a non-blank barcode |
| Shopify.FirstActiveId | app/src/main/java/com/kinvo/easyinventory/data/ShopifyRepository.java:276-282 | some id exactly when some location object is active (a missing flag counts as active) |
| Shopify.ChooseActive | app/src/main/java/com/kinvo/easyinventory/data/ShopifyRepository.java:276-282 | the loop settles on the first active location's id |
| Shopify.LocationChoiceSpec | app/src/main/java/com/kinvo/easyinventory/data/ShopifyRepository.java:271-289 | a chosen id is positive; no locations is an error; the first active id is used when positive, else the first location's |
| Shopify.FirstActiveAt | app/src/main/java/com/kinvo/easyinventory/data/ShopifyRepository.java:277-282 | when k is the first active location, the loop picks k's id |
| Shopify.EnsureLocationSpec | app/src/main/java/com/kinvo/easyinventory/data/ShopifyRepository.java:254-259 | a resolved id is positive, and a cached positive id costs no request |
| Shopify.EnsureLocationId | app/src/main/java/com/kinvo/easyinventory/data/ShopifyRepository.java:254-300 | the cache is written exactly when a lookup succeeds, and then holds the answered id |
| Shopify.EnsureLocationIdTwice | app/src/main/java/com/kinvo/easyinventory/data/ShopifyRepository.java:256-291 | after one success, a second call answers the same id with no request |
| Shopify.BuildUserErrorsText | app/src/main/java/com/kinvo/easyinventory/data/ShopifyRepository.java:380-386 | the error text is "GraphQL userErrors: " followed by the messages |
| Shopify.TwoUserErrors | app/src/main/java/com/kinvo/easyinventory/data/ShopifyRepository.java:381-386 | two messages are joined by "; " |
| Shopify.GraphQLOutcome | app/src/main/java/com/kinvo/easyinventory/data/ShopifyRepository.java:372-393 | success exactly when the answer arrived and `userErrors` is missing or empty |
| Shopify.ApplyUpdateSpec | app/src/main/java/com/kinvo/easyinventory/data/ShopifyRepository.java:176-223 | read levels; delta = round(newQty) − available (0 when missing); delta 0 succeeds with no mutation; else the GraphQL delta, then one REST set of the absolute value on any GraphQL error, reporting the GraphQL error when both fail; success reports newQty |
| Shopify.DeltaExamples | app/src/main/java/com/kinvo/easyinventory/data/ShopifyRepository.java:186-194 | 7 available and 10 wanted sends delta 3; 7 wanted sends no mutation |
| Shopify.UpdateStock | app/src/main/java/com/kinvo/easyinventory/data/ShopifyRepository.java:167-224 | no credentials, or an item id ≤ 0: an error before any request, with the preferences unchanged; else location, then the update chain; the preferences change only by caching a freshly resolved location id; success reports newQty |
| EposNow.ResolveAuth | app/src/main/java/com/kinvo/easyinventory/data/EposNowRepository.java:40-53 | a stored Basic header wins; else the stored key and secret, when both are non-empty; else none |
| EposNow.MapStockItemSpec | app/src/main/java/com/kinvo/easyinventory/data/EposNowRepository.java:158-186 | externalId is StockItemId if > 0, else ProductId if > 0, else ""; SKU is Sku, else that id; name is ProductName, else Description, else ""; barcode is Barcode or ""; stock is CurrentStock or 0; price incl. tax, else excl. tax, else ZERO; provider EPOSNOW |
| EposNow.TrimToLimit | app/src/main/java/com/kinvo/easyinventory/data/EposNowRepository.java:197-200 | the prefix of the list of length min(size, limit) for a positive limit, the whole list otherwise |
| EposNow.PageSize | app/src/main/java/com/kinvo/easyinventory/data/EposNowRepository.java:90 | min(limit, 50), and 50 for limit ≤ 0 |
| EposNow.NextUrl | app/src/main/java/com/kinvo/easyinventory/data/EposNowRepository.java:139-140 | a link starting with "http" is kept; any other is prefixed with https://api.eposnowhq.com |
| EposNow.PageRowsSpec | app/src/main/java/com/kinvo/easyinventory/data/EposNowRepository.java:116-128 | a page only appends to the accumulator, never beyond a positive cap, and each appended row is a mapped row that matches |
| EposNow.Kept | app/src/main/java/com/kinvo/easyinventory/data/EposNowRepository.java:120-127 | a page's kept rows with no cap: at most one per row, each mapped, tagged EPOSNOW and matching when filtering |
| EposNow.PageRowsKept | app/src/main/java/com/kinvo/easyinventory/data/EposNowRepository.java:116-128 | starting below the cap, the row loop appends the page's kept rows in order and cuts them at the cap |
| EposNow.PageStep | app/src/main/java/com/kinvo/easyinventory/data/EposNowRepository.java:115-131 | one answered page grows the accumulator to its kept rows cut at the cap, and it is full exactly when the uncut total reaches the cap |
| EposNow.FetchFromStep | app/src/main/java/com/kinvo/easyinventory/data/EposNowRepository.java:113-148 | one handler turn: a full accumulator answers it trimmed; else a real next link is followed with the grown accumulator; else the accumulator is the answer |
| EposNow.FollowsShift | app/src/main/java/com/kinvo/easyinventory/data/EposNowRepository.java:136-141 | a follow-up request of the chain from the next page is one of the chain from this page |
| EposNow.FetchFromFollows | app/src/main/java/com/kinvo/easyinventory/data/EposNowRepository.java:107-156 | the first request is the given one, and each later request follows the NextPage link of the page before it, made only when that page was answered and left room under the cap |
| EposNow.EndsShift | app/src/main/java/com/kinvo/easyinventory/data/EposNowRepository.java:107-156 | an ending of the chain from the next page is, one request longer, an ending of the chain from this page |
| EposNow.FetchFromAnswer | app/src/main/java/com/kinvo/easyinventory/data/EposNowRepository.java:107-156 | the chain ends at the first network error (or missing answer), full page or page without a next link; a success is exactly the kept rows of every fetched page, in page then row order, cut at the cap |
| EposNow.FetchFromSpec | app/src/main/java/com/kinvo/easyinventory/data/EposNowRepository.java:107-156 | the page chain: a list within a positive limit that extends the accumulator, every row listed and matching; at most one request per answer plus one; every followed link is absolute |
| EposNow.SearchSpec | app/src/main/java/com/kinvo/easyinventory/data/EposNowRepository.java:82-156 | no auth or location ≤ 0: an error and no request; else the chain from page 1 with the computed page size, the trimmed lower-cased needle and the limit as cap, whose requests and answer are those of FetchFromFollows and FetchFromAnswer from an empty list |
| EposNow.SearchAllOnOnePage | app/src/main/java/com/kinvo/easyinventory/data/EposNowRepository.java:82-156 | a single page with no next link, searched with no query and no cap, lists every object row in order |
| EposNow.ScanPage | app/src/main/java/com/kinvo/easyinventory/data/EposNowRepository.java:120-128 | the row loop appends exactly the page's kept rows, stopping at the cap |
| EposNow.HandlePage | app/src/main/java/com/kinvo/easyinventory/data/EposNowRepository.java:113-148 | one response handler either finishes with the chain's answer or names the next request |
| EposNow.FetchPages | app/src/main/java/com/kinvo/easyinventory/data/EposNowRepository.java:107-156 | the recursive page fetch computes the page chain's answer and requests |
| EposNow.SearchProducts | app/src/main/java/com/kinvo/easyinventory/data/EposNowRepository.java:82-105 | the search computes SearchSpec's answer and requests from the stored credentials |
| EposNow.LookupSpec | app/src/main/java/com/kinvo/easyinventory/data/EposNowRepository.java:205-212 | the barcode lookup is a substring search capped at one: on success it answers null exactly when no row of the fetched pages is kept, and otherwise the first kept row |
| EposNow.LookupMatchesDescription | app/src/main/java/com/kinvo/easyinventory/data/EposNowRepository.java:188-212 | a row whose name contains the scanned code is returned as the barcode hit |
| EposNow.GetProductByBarcode | app/src/main/java/com/kinvo/easyinventory/data/EposNowRepository.java:205-212 | runs the lookup through the search |
| EposNow.FindRow | app/src/main/java/com/kinvo/easyinventory/data/EposNowRepository.java:254-269 | none exactly when no object row has either id equal; else the first such row |
| EposNow.FindMatch | app/src/main/java/com/kinvo/easyinventory/data/EposNowRepository.java:254-269 | the match loop returns the first row matching either id |
| EposNow.UpdateWithSpec | app/src/main/java/com/kinvo/easyinventory/data/EposNowRepository.java:220-331 | bad input fails with no request; else one lookup of 200 rows; a failed lookup, no rows, no match or ProductId ≤ 0 each fail with their message; a match with ProductId > 0 is always posted, to the row's product with round(newQty), its min/max and alerts (default true); a delivered POST succeeds and reports newQty |
| EposNow.UpdateSpec | app/src/main/java/com/kinvo/easyinventory/data/EposNowRepository.java:220-331 | the update as written, with the either-id match |
| EposNow.UpdateHitsWrongRow | app/src/main/java/com/kinvo/easyinventory/data/EposNowRepository.java:254-269 | the id shown for one row can equal another row's ProductId, and the update then writes to the other product |
| EposNow.FindByKey | app/src/main/java/com/kinvo/easyinventory/data/EposNowRepository.java:165-166 | the first row whose exposed id is the given id, every earlier row having another; none exactly when there is none |
| EposNow.UpdateByKeySpec | app/src/main/java/com/kinvo/easyinventory/data/EposNowRepository.java:220-331 | with the row chosen by its exposed id, the POST goes to the product the caller was shown |
| EposNow.UpdateByKeyHitsShownRow | app/src/main/java/com/kinvo/easyinventory/data/EposNowRepository.java:261-263 | in the collision example the corrected update writes to the shown product |
| EposNow.UpdateStock | app/src/main/java/com/kinvo/easyinventory/data/EposNowRepository.java:220-331 | the handler chain computes UpdateSpec's answer and requests |
| EposNow.FetchRecentUpdates | app/src/main/java/com/kinvo/easyinventory/data/EposNowRepository.java:334-336 | always unsupported, with no request |
| Clover.BaseUrl | app/src/main/java/com/kinvo/easyinventory/data/CloverRepository.java:44-56 | the sandbox host exactly when the package ends in ".demo" or the stored tier is "DEMO" in any case, else production |
| Clover.PageLimit | app/src/main/java/com/kinvo/easyinventory/data/CloverRepository.java:93 | min(limit, 100), and 100 for limit ≤ 0 |
| Clover.MapItem | app/src/main/java/com/kinvo/easyinventory/data/CloverRepository.java:113-145 | the price is exactly cents / 100; name, code, alternate name and id become description, SKU, barcode and externalId ("" when missing); stock is quantity, else stockCount, else 0; provider CLOVER |
| Clover.ItemRowsOrigin | app/src/main/java/com/kinvo/easyinventory/data/CloverRepository.java:108-147 | every row is a kept item, mapped, tagged CLOVER |
| Clover.ItemRowsComplete | app/src/main/java/com/kinvo/easyinventory/data/CloverRepository.java:108-147 | every kept item is listed |
| Clover.MapItems | app/src/main/java/com/kinvo/easyinventory/data/CloverRepository.java:108-147 | the item loop lists exactly the kept items in order |
| Clover.SearchProducts | app/src/main/java/com/kinvo/easyinventory/data/CloverRepository.java:78-164 | missing token or merchant: an error and no request; else one items request and the kept rows |
| Clover.FirstCodeHit | app/src/main/java/com/kinvo/easyinventory/data/CloverRepository.java:175-179 | none exactly when no row's barcode or SKU equals the code ignoring case; else the first such row, every earlier row missing |
| Clover.GetProductByBarcode | app/src/main/java/com/kinvo/easyinventory/data/CloverRepository.java:167-183 | a search capped at 100, then the first listed row whose barcode, or else SKU, equals the code (FirstCodeHit), else null |
| Clover.ExactCodeIsFound | app/src/main/java/com/kinvo/easyinventory/data/CloverRepository.java:172-179 | an item whose barcode equals the code is always found |
| Clover.EmptyCodeHitsUnbarcodedItem | app/src/main/java/com/kinvo/easyinventory/data/CloverRepository.java:115-176 | an empty code matches an item without an alternate name |
| Clover.StockUpdate | app/src/main/java/com/kinvo/easyinventory/data/CloverRepository.java:211-265 | missing credentials, or an empty item id: their error and no request; else exactly one POST of round(stock, null as 0) for that item id with the time; a delivered POST gives true, a failed one the update error |
| Clover.UpdateStock | app/src/main/java/com/kinvo/easyinventory/data/CloverRepository.java:208-266 | the method reads the Product's fields and computes StockUpdate |
| Clover.UpdateSearchedItem | app/src/main/java/com/kinvo/easyinventory/data/CloverRepository.java:144-241 | a listed item whose stock is edited to q is written back to its own item id with round(q); an item without an id is refused before any request |
| Clover.UpdateNullStockIsZero | app/src/main/java/com/kinvo/easyinventory/data/CloverRepository.java:226 | a product with no stock is written as 0 |
| Clover.UpdateStockById | app/src/main/java/com/kinvo/easyinventory/data/CloverRepository.java:272-280 | always unsupported, with no request |
| Clover.FetchRecentUpdates | app/src/main/java/com/kinvo/easyinventory/data/CloverRepository.java:185-193 | always an empty list, with no request |
| Csv.EscapeLength | app/src/main/java/com/kinvo/easyinventory/util/CsvExporter.java:29 | escaping adds exactly one character per double quote |
| Csv.Cell | app/src/main/java/com/kinvo/easyinventory/util/CsvExporter.java:25-31 | a cell is quoted at both ends, and null is `""` |
| Csv.Fields | app/src/main/java/com/kinvo/easyinventory/util/CsvExporter.java:15-19 | five values per product, with the price always present and the quantity null exactly when the stock is |
| Csv.ToCsv | app/src/main/java/com/kinvo/easyinventory/util/CsvExporter.java:10-23 | the loop builds the header followed by one line per product in order |
| Csv.EmptyExport | app/src/main/java/com/kinvo/easyinventory/util/CsvExporter.java:13 | no products exports the header line alone |
| Csv.ReadQuotedEscape | app/src/main/java/com/kinvo/easyinventory/util/CsvExporter.java:29-30 | un-doubling an escaped body up to its closing quote gives the original text |
| Csv.ReadCellOfCell | app/src/main/java/com/kinvo/easyinventory/util/CsvExporter.java:25-31 | a cell reads back as its value, null as "" |
| Csv.ReadLastField | app/src/main/java/com/kinvo/easyinventory/util/CsvExporter.java:19-20 | the last cell of a line reads back and the newline is consumed |
| Csv.ReadNextField | app/src/main/java/com/kinvo/easyinventory/util/CsvExporter.java:15-18 | a cell and its comma read back, and reading resumes after the comma |
| Csv.ReadFieldsJoined | app/src/main/java/com/kinvo/easyinventory/util/CsvExporter.java:15-20 | a line of n cells reads back as the n values |
| Csv.ReadRowsFlatten | app/src/main/java/com/kinvo/easyinventory/util/CsvExporter.java:14-21 | the lines read back as one row per product, in order |
| Csv.ReadCsvOfExport | app/src/main/java/com/kinvo/easyinventory/util/CsvExporter.java:10-31 | the whole export reads back as each product's five values in order; only null and "" look alike |
| Labels.NewLabel | app/src/main/java/com/kinvo/easyinventory/print/LabelData.java:12-18 | null texts become "", a null price becomes ZERO, and given values are kept |
| Labels.NewLabelOfLabel | app/src/main/java/com/kinvo/easyinventory/print/LabelData.java:12-18 | rebuilding a label from its own fields changes nothing |
| Theme.NightModeFor | app/src/main/java/com/kinvo/easyinventory/ThemeManager.java:27-33 | NO exactly for "light", YES exactly for "dark", FOLLOW_SYSTEM otherwise |
| Theme.Migrated | app/src/main/java/com/kinvo/easyinventory/ThemeManager.java:19-25 | a stored mode is never overwritten; no other key is touched; the legacy key is gone once a mode is stored |
| Theme.MigrationKeepsLegacyChoice | app/src/main/java/com/kinvo/easyinventory/ThemeManager.java:19-25 | the legacy true becomes "dark" (night on), anything else becomes "light" |
| Theme.MigratedIdempotent | app/src/main/java/com/kinvo/easyinventory/ThemeManager.java:19 | migrating twice is migrating once |
| Theme.ThemeManager.constructor | app/src/main/java/com/kinvo/easyinventory/ThemeManager.java:7-12 | the manager works on the given file, with nothing applied yet |
| Theme.ThemeManager.ApplySavedTheme | app/src/main/java/com/kinvo/easyinventory/ThemeManager.java:15-35 | the file is migrated (unchanged when a mode was stored) and the night mode is the stored mode's, "system" by default |
| Theme.ThemeManager.SetMode | app/src/main/java/com/kinvo/easyinventory/ThemeManager.java:38-42 | the mode is stored, `getMode` returns it, and its night mode is applied |
| Theme.DarkPersists | app/src/main/java/com/kinvo/easyinventory/ThemeManager.java:15-47 | choosing "dark" and reapplying at the next start keeps the app dark |
| Login.AppendPath | app/src/main/java/com/kinvo/easyinventory/WebViewLoginActivity.java:175 | appending a segment keeps the URL as a prefix and ends with the segment |
| Login.BuildUrl | app/src/main/java/com/kinvo/easyinventory/WebViewLoginActivity.java:168-179 | a blank base gives ""; otherwise blank segments are skipped and the URL starts with the base |
| Login.StartsWithTrans | app/src/main/java/com/kinvo/easyinventory/WebViewLoginActivity.java:116-117 | a URL starting with an account URL starts with its base |
| Login.AccountUrl | app/src/main/java/com/kinvo/easyinventory/WebViewLoginActivity.java:45-46 | the account URL is the base with one '/' then `tier/account` |
| Login.AccountUrlShape | app/src/main/java/com/kinvo/easyinventory/WebViewLoginActivity.java:45-46 | the account URL starts with the base and ends with "/tier/account" |
| Login.JoinShape | app/src/main/java/com/kinvo/easyinventory/WebViewLoginActivity.java:45-46 | joining the root, a tier and "/account" ends with the page path |
| Login.SegmentsTrimmed | app/src/main/java/com/kinvo/easyinventory/WebViewLoginActivity.java:174 | the tier segments are never skipped as blank |
| Login.AccountUrlsExclusive | app/src/main/java/com/kinvo/easyinventory/WebViewLoginActivity.java:116-117 | no URL starts with both the basic and the premium account URL |
| Login.SavedTierCases | app/src/main/java/com/kinvo/easyinventory/WebViewLoginActivity.java:146-155 | Premium or Basic in any case saves that tier; any other type saves the stored tier, else `fromString` of the type |
| Login.NotTrimmed | app/src/main/java/com/kinvo/easyinventory/WebViewLoginActivity.java:146 | a type with no outer spaces is compared as given |
| Login.SavedPlanCases | app/src/main/java/com/kinvo/easyinventory/WebViewLoginActivity.java:157-162 | the plan is the type unless blank or "Authenticated" in any case, then the tier's display name; never blank |
| Login.ChooseTier | app/src/main/java/com/kinvo/easyinventory/WebViewLoginActivity.java:146-153 | the tier choice computes SavedTier |
| Login.ChoosePlan | app/src/main/java/com/kinvo/easyinventory/WebViewLoginActivity.java:157-161 | the plan choice computes SavedPlan |
| Login.DisplayNamesNotBlank | app/src/main/java/com/kinvo/easyinventory/TierUtils.java:56-63 | every display name is non-blank |
| Login.SavedPlanMatchesTier | app/src/main/java/com/kinvo/easyinventory/WebViewLoginActivity.java:146-162 | for the three types the screen produces, the saved plan reads back as the saved tier |
| Login.PremiumPlan | app/src/main/java/com/kinvo/easyinventory/WebViewLoginActivity.java:146-162 | "Premium" saves PREMIUM with plan "Premium" |
| Login.BasicPlan | app/src/main/java/com/kinvo/easyinventory/WebViewLoginActivity.java:146-162 | "Basic" saves BASIC with plan "Basic" |
| Login.AuthenticatedWithoutStoredTier | app/src/main/java/com/kinvo/easyinventory/WebViewLoginActivity.java:146-162 | "Authenticated" with nothing stored saves BASIC with plan "Basic" |
| Login.LowerPremium | app/src/main/java/com/kinvo/easyinventory/WebViewLoginActivity.java:147 | "Premium" folds to "premium" |
| Login.LowerBasic | app/src/main/java/com/kinvo/easyinventory/WebViewLoginActivity.java:148 | "Basic" folds to "basic" |
| Login.LowerAuthenticated | app/src/main/java/com/kinvo/easyinventory/WebViewLoginActivity.java:159 | "Authenticated" folds to "authenticated" |
| Login.TypeTrimmed | app/src/main/java/com/kinvo/easyinventory/WebViewLoginActivity.java:120 | each membership type is trimmed and non-blank |
| Login.BridgeTypeFor | app/src/main/java/com/kinvo/easyinventory/WebViewLoginActivity.java:196-198 | Premium exactly when the URL contains "/premium/account", else Basic exactly when it contains "/basic/account", else Authenticated |
| Login.WebViewLogin.constructor | app/src/main/java/com/kinvo/easyinventory/WebViewLoginActivity.java:43-46 | the login, basic and premium URLs from the auth base; nothing handled yet |
| Login.WebViewLogin.MembershipTypeFor | app/src/main/java/com/kinvo/easyinventory/WebViewLoginActivity.java:113-120 | Premium before Basic before Authenticated; none exactly when the URL is neither account URL nor contains the non-empty callback prefix |
| Login.WebViewLogin.SaveMembershipTypeAndTier | app/src/main/java/com/kinvo/easyinventory/WebViewLoginActivity.java:132-166 | "UserPrefs" gets the flag and type; the secure store gets logged in, the saved tier's name and the plan label |
| Login.WebViewLogin.SaveToSecurePrefs | app/src/main/java/com/kinvo/easyinventory/WebViewLoginActivity.java:143-162 | the secure store gets logged in, the saved tier's name and the plan label, and nothing else |
| Login.WebViewLogin.Record | app/src/main/java/com/kinvo/easyinventory/WebViewLoginActivity.java:144-162 | the three writes in order, read back through the getters |
| Login.WebViewLogin.MaybeHandleAuthSuccess | app/src/main/java/com/kinvo/easyinventory/WebViewLoginActivity.java:106-130 | once handled, true with no effect; a null URL is false; a recognised URL saves, hands off once and marks handled; otherwise nothing changes |
| Login.WebViewLogin.OnLoginSuccess | app/src/main/java/com/kinvo/easyinventory/WebViewLoginActivity.java:193-203 | the first call saves the bridge's type and hands off; later calls change nothing |
| Login.DetectorsAgreeOnPremium | app/src/main/java/com/kinvo/easyinventory/WebViewLoginActivity.java:117-120 | a URL on the premium account page is Premium for both the page-load check and the bridge |
| Login.DetectorsAgreeOnBasic | app/src/main/java/com/kinvo/easyinventory/WebViewLoginActivity.java:116-120 | a URL on the basic account page is Basic for both detectors |
| Login.UrlContainsSuffix | app/src/main/java/com/kinvo/easyinventory/WebViewLoginActivity.java:196-197 | a URL starting with an account URL contains its page path |
| Login.SecondSignalIsIgnored | app/src/main/java/com/kinvo/easyinventory/WebViewLoginActivity.java:106-130 | after a handled page load, the bridge callback does not hand off a second time |

## Left out

- **Networking.** Volley queues, retry policies, timeouts and request headers are not modelled; each response is an input value. `verboseVolleyError` is reduced to the error's description.
- **Asynchrony and concurrency.** Callbacks run in order and are not re-entered. The `AtomicBoolean` guard is a plain field.
- **JSON.** `org.json` parsing is not modelled. Each body arrives decoded, with optional fields for the `opt*` defaults; a `JSONException` inside a handler is not modelled.
- **Foreign inputs as parameters.**
  - The package name and `System.currentTimeMillis()` (Clover).
  - The build flags: `BuildConfig` becomes a datatype.
  - `SecurePrefs.hasStoredTier()`, which is not part of this model and becomes a boolean.
- **Library encodings.** Base64 of the EPOS key and secret is left opaque (the model keeps the key and the secret). The ISO-8601 time text becomes the epoch value in the request. `Uri` percent-encoding is not modelled, nor bases carrying a query or fragment.
- **Floating point.** Quantities are exact reals, not doubles, and `Math.round` is exact.
  - The `(int)` narrowing of `Math.round` is not modelled.
  - Nor is the int overflow of the Shopify delta, or the narrowing of the EPOS minimum and maximum stock.
  - Nor is the EPOS price's detour through `String.valueOf(double)`; the price is the decimal the double stands for.
- **Case folding.** `Text.Lower` and `Text.Upper` fold ASCII letters only. The source folds with `Locale.ROOT` in the repositories, but with the default locale in `SecurePrefs` (lines 107 and 143), `Tier.fromString`, `TierUtils.fromFlavor` and `ProviderFactory`. Under a locale such as Turkish, "shopify" upper-cases to "SHOPİFY" and is routed to EPOS Now. The model states the behaviour under an English-like locale only.
- **Decimal formats.** `new BigDecimal(String)` is modelled for plain notation: sign, digits, an optional fraction. Exponent notation parses as a failure, and the price then falls back to ZERO.
- **CSV number rendering.** `String.valueOf` of a `BigDecimal` and of a `Double` is a parameter (`Renderers`). Null-versus-empty is the only loss the reader shows.
- **Provider constants.** `DataSource` is taken to have the constants EPOSNOW, SHOPIFY and CLOVER; its file is not part of this model.
- **Failures.** `SecurePrefs.get` failing (the try/catch around it) is not modelled. A preference of the wrong type reads as the default rather than throwing `ClassCastException`.
- **Storage.** `EncryptedSharedPreferences` encryption is not modelled; the store is a plain map.
- **The `headers()` throw in Shopify.** An access token that is blank after trimming passes `hasCreds` and then throws inside `headers()`. This is not modelled: requests carry no headers.
- **Screen code.** The sign-in screen's WebView settings, the injected JavaScript and `onResume` routing are left out. Navigation to the provider picker is a counter.
- **Order of reads in `saveMembershipTypeAndTier`.** The stored tier is read before the writes rather than after `setLoggedIn`; that write does not touch the tier key. The plan label's null check is left out, because the type is never null there.
- **Immutability of labels.** `LabelData`'s final fields become an immutable datatype, so the immutability is by construction and is not stated as a lemma.
- **The upgrade dialog.** `FeatureGate.showUpgradeDialog` is reduced to a flag in the decision.
- Theme.ThemeManager.GetMode: a reader with no contract of its own. Its "system" default is stated through `ApplySavedTheme` and `StoredMode`.
- Providers.Get: a fresh repository per call is not stated, because the repositories hold no state.

## Findings

| source | as written | input that shows it | evidently intended | confidence | as-written member | corrected member |
|---|---|---|---|---|---|---|
| app/src/main/java/com/kinvo/easyinventory/data/ShopifyRepository.java:129-149 | the emptiness check runs before trimming, so a blank barcode trims to "" and equals the empty barcode of any variant that has none | barcode " " against a product whose first variant has no barcode: that variant is returned | a blank barcode answers null with no request, like an empty one | not executed | Shopify.BlankBarcodeMatchesUnbarcodedVariant | Shopify.GetProductByBarcodeChecked |
| app/src/main/java/com/kinvo/easyinventory/data/EposNowRepository.java:254-269 | the update matches the first row whose ProductId or StockItemId equals the id, but the id shown to the user is the StockItemId | rows (ProductId 9, StockItemId 12) then (ProductId 5, StockItemId 9), id 9 from the second row: the update posts to product 9 | the row whose exposed id is the given id is updated, here product 5 | not executed | EposNow.UpdateHitsWrongRow | EposNow.UpdateByKeySpec |
