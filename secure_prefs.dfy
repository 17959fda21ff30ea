/**
 * SecurePrefs: the app's credential and settings store (SecurePrefs.java),
 * over a plain SharedPreferences map; the encryption layer is not modelled.
 */
module Prefs {
  import opened Wrappers
  import opened Text
  import opened Store
  import opened Tiers

  /** The active back end, as stored by `DataSource.name()`. */
  datatype DataSource = EPOSNOW | SHOPIFY | CLOVER

  function DataSourceName(ds: DataSource): string {
    match ds
    case EPOSNOW => "EPOSNOW"
    case SHOPIFY => "SHOPIFY"
    case CLOVER => "CLOVER"
  }

  /** `DataSource.valueOf(s)`: exact constant names only; None where it throws. */
  function DataSourceValueOf(s: string): (r: Option<DataSource>)
    ensures r.Some? ==> DataSourceName(r.value) == s
  {
    if s == "EPOSNOW" then Some(EPOSNOW)
    else if s == "SHOPIFY" then Some(SHOPIFY)
    else if s == "CLOVER" then Some(CLOVER)
    else None
  }

  lemma DataSourceValueOfName(ds: DataSource)
    ensures DataSourceValueOf(DataSourceName(ds)) == Some(ds)
  {
  }

  // EPOS Now
  const K_API_KEY := "epos_api_key"
  const K_API_SECRET := "epos_api_secret"
  const K_AUTH_BASIC := "epos_auth_header_basic"
  const K_LOCATION_ID := "epos_location_id"
  // Shopify
  const K_SHOPIFY_DOMAIN := "shopify_domain"
  const K_SHOPIFY_TOKEN := "shopify_access_token"
  const K_SHOPIFY_LOC_ID := "shopify_location_id"
  const K_SHOP_API_KEY := "shop_api_key"
  const K_SHOP_API_SECRET := "shop_api_secret"
  // Clover
  const K_CLOVER_TOKEN := "clover_access_token"
  const K_CLOVER_MERCHANT_ID := "clover_merchant_id"
  // Provider choice: legacy string key and the enum key
  const K_ACTIVE_PROVIDER := "active_provider"
  const KEY_PROVIDER_ENUM := "provider"
  // Flags and plan
  const K_REMEMBER_API := "remember_api"
  const K_IS_LOGGED_IN := "is_logged_in"
  const KEY_TIER := "tier"
  const KEY_PLAN_NAME := "pref_plan_name"

  /** The string-valued settings that have a plain getter and an `nz`-defaulting setter. */
  datatype StringSetting =
    | ApiKey | ApiSecret | AuthHeaderBasic
    | ShopApiKey | ShopApiSecret | ShopDomain | ShopToken
    | CloverAccessToken | CloverMerchantId
    | TierName | PlanName

  function KeyOf(s: StringSetting): string {
    match s
    case ApiKey => K_API_KEY
    case ApiSecret => K_API_SECRET
    case AuthHeaderBasic => K_AUTH_BASIC
    case ShopApiKey => K_SHOP_API_KEY
    case ShopApiSecret => K_SHOP_API_SECRET
    case ShopDomain => K_SHOPIFY_DOMAIN
    case ShopToken => K_SHOPIFY_TOKEN
    case CloverAccessToken => K_CLOVER_TOKEN
    case CloverMerchantId => K_CLOVER_MERCHANT_ID
    case TierName => KEY_TIER
    case PlanName => KEY_PLAN_NAME
  }

  const StringKeys: set<string> := {
    K_API_KEY, K_API_SECRET, K_AUTH_BASIC, K_SHOPIFY_DOMAIN, K_SHOPIFY_TOKEN,
    K_SHOP_API_KEY, K_SHOP_API_SECRET, K_CLOVER_TOKEN, K_CLOVER_MERCHANT_ID,
    K_ACTIVE_PROVIDER, KEY_PROVIDER_ENUM, KEY_TIER, KEY_PLAN_NAME }

  /** What `clearShopify` removes. */
  const ShopifyKeys: set<string> := {
    K_SHOP_API_KEY, K_SHOP_API_SECRET, K_SHOPIFY_DOMAIN, K_SHOPIFY_TOKEN, K_SHOPIFY_LOC_ID }

  /** What `clearClover` removes. */
  const CloverKeys: set<string> := { K_CLOVER_TOKEN, K_CLOVER_MERCHANT_ID }

  /** Every key the class writes holds the kind of value its getter reads. */
  predicate WellTyped(m: map<string, PrefValue>) {
    && (forall k :: k in StringKeys && k in m ==> m[k].StrVal?)
    && (K_LOCATION_ID in m ==> m[K_LOCATION_ID].IntVal?)
    && (K_SHOPIFY_LOC_ID in m ==> m[K_SHOPIFY_LOC_ID].LongVal?)
    && (K_REMEMBER_API in m ==> m[K_REMEMBER_API].BoolVal?)
    && (K_IS_LOGGED_IN in m ==> m[K_IS_LOGGED_IN].BoolVal?)
  }

  /** `nz(s)`: null becomes "". */
  function Nz(s: Option<string>): string {
    s.GetOr("")
  }

  /**
   * When x is all letters, ASCII lower-casing lands on a lower-case word w
   * exactly when upper-casing lands on the upper-case form of w.
   */
  lemma {:induction false} LowerUpperAgree(x: string, w: string)
    requires forall i :: 0 <= i < |w| ==> 'a' <= w[i] <= 'z'
    ensures Lower(x) == w <==> Upper(x) == Upper(w)
  {
    if Lower(x) == w {
      forall i | 0 <= i < |x| ensures Upper(x)[i] == Upper(w)[i] {
        assert LowerChar(x[i]) == w[i];
      }
    }
    if Upper(x) == Upper(w) {
      forall i | 0 <= i < |x| ensures Lower(x)[i] == w[i] {
        assert UpperChar(x[i]) == UpperChar(w[i]);
      }
    }
  }

  class SecurePrefs {
    const sp: SharedPreferences

    ghost predicate Valid()
      reads sp
    {
      WellTyped(sp.entries)
    }

    constructor (file: SharedPreferences)
      requires WellTyped(file.entries)
      ensures sp == file && Valid()
    {
      sp := file;
    }

    /** True once either provider key is present. */
    predicate IsProviderChosen()
      reads sp
    {
      sp.Contains(KEY_PROVIDER_ENUM) || sp.Contains(K_ACTIVE_PROVIDER)
    }

    /** The nullable getters, keyed by setting. */
    function GetSetting(s: StringSetting): Option<string>
      reads sp
    {
      sp.GetString(KeyOf(s), None)
    }

    /** `getTierName()`, defaulting to "BASIC". */
    function GetTierName(): string
      reads sp
    {
      GetSetting(TierName).GetOr("BASIC")
    }

    /** `getPlanName()`, defaulting to "". */
    function GetPlanName(): string
      reads sp
    {
      GetSetting(PlanName).GetOr("")
    }

    /** `getTier()`: the stored name trimmed and upper-cased; DEMO and PREMIUM, else BASIC. */
    function GetTier(): Tier
      reads sp
    {
      match Upper(Trim(GetTierName()))
      case "DEMO" => DEMO
      case "PREMIUM" => PREMIUM
      case _ => BASIC
    }

    function GetProviderName(): string
      reads sp
    {
      sp.GetString(K_ACTIVE_PROVIDER, None).GetOr("")
    }

    /** `getProvider()`: the enum key, else the legacy key, else EPOSNOW for anything unknown. */
    function GetProvider(): DataSource
      reads sp
    {
      var s := sp.GetString(KEY_PROVIDER_ENUM, None);
      var name := if s.None? then GetProviderName() else s.value;
      DataSourceValueOf(name).GetOr(EPOSNOW)
    }

    function GetLocationId(): int
      reads sp
    {
      sp.GetInt(K_LOCATION_ID, 0)
    }

    function GetShopifyLocationId(): int
      reads sp
    {
      sp.GetLong(K_SHOPIFY_LOC_ID, 0)
    }

    function GetRememberApi(): bool
      reads sp
    {
      sp.GetBoolean(K_REMEMBER_API, false)
    }

    function IsLoggedIn(): bool
      reads sp
    {
      sp.GetBoolean(K_IS_LOGGED_IN, false)
    }

    /**
     * `setProviderName(name)`: the legacy key gets upper(nz(name)); the enum
     * key gets that name when it is a DataSource, else EPOSNOW.
     */
    method SetProviderName(name: Option<string>)
      requires Valid()
      modifies sp
      ensures Valid()
      ensures var n := Upper(Nz(name));
        sp.entries == old(sp.entries)[K_ACTIVE_PROVIDER := StrVal(n)]
                        [KEY_PROVIDER_ENUM := StrVal(if DataSourceValueOf(n).Some? then n else "EPOSNOW")]
      ensures GetProviderName() == Upper(Nz(name))
      ensures GetProvider() == DataSourceValueOf(Upper(Nz(name))).GetOr(EPOSNOW)
      ensures IsProviderChosen()
    {
      var n := Upper(Nz(name));
      sp.PutString(K_ACTIVE_PROVIDER, Some(n));
      var ds := DataSourceValueOf(n);
      if ds.Some? {
        sp.PutString(KEY_PROVIDER_ENUM, Some(DataSourceName(ds.value)));
      } else {
        sp.PutString(KEY_PROVIDER_ENUM, Some(DataSourceName(EPOSNOW)));
      }
    }

    /** `setProvider(DataSource)`: null behaves as EPOSNOW; both keys end up naming it. */
    method SetProvider(ds: Option<DataSource>)
      requires Valid()
      modifies sp
      ensures Valid()
      ensures var n := DataSourceName(ds.GetOr(EPOSNOW));
        sp.entries == old(sp.entries)[KEY_PROVIDER_ENUM := StrVal(n)][K_ACTIVE_PROVIDER := StrVal(n)]
      ensures IsProviderChosen() && GetProvider() == ds.GetOr(EPOSNOW)
    {
      var name := DataSourceName(ds.GetOr(EPOSNOW));
      sp.PutString(KEY_PROVIDER_ENUM, Some(name));
      assert Upper(name) == name;
      SetProviderName(Some(name));
      DataSourceValueOfName(ds.GetOr(EPOSNOW));
    }

    /** `setProvider(Provider)`, the legacy overload, given the constant's `name()`; null behaves as "EPOSNOW". */
    method SetProviderLegacy(legacyName: Option<string>)
      requires Valid()
      modifies sp
      ensures Valid()
      ensures var n := Upper(legacyName.GetOr("EPOSNOW"));
        sp.entries == old(sp.entries)[K_ACTIVE_PROVIDER := StrVal(n)]
                        [KEY_PROVIDER_ENUM := StrVal(if DataSourceValueOf(n).Some? then n else "EPOSNOW")]
      ensures IsProviderChosen()
      ensures GetProvider() == DataSourceValueOf(Upper(legacyName.GetOr("EPOSNOW"))).GetOr(EPOSNOW)
      ensures legacyName.None? ==> GetProvider() == EPOSNOW
    {
      var name := legacyName.GetOr("EPOSNOW");
      assert Upper("EPOSNOW") == "EPOSNOW";
      SetProviderName(Some(name));
    }

    /** The `nz`-defaulting string setters: null is stored as "". */
    method SetSetting(s: StringSetting, v: Option<string>)
      requires Valid()
      modifies sp
      ensures Valid()
      ensures sp.entries == old(sp.entries)[KeyOf(s) := StrVal(Nz(v))]
      ensures GetSetting(s) == Some(Nz(v))
    {
      sp.PutString(KeyOf(s), Some(Nz(v)));
    }

    method SetLocationId(v: int)
      requires Valid()
      modifies sp
      ensures Valid()
      ensures sp.entries == old(sp.entries)[K_LOCATION_ID := IntVal(v)]
      ensures GetLocationId() == v
    {
      sp.PutInt(K_LOCATION_ID, v);
    }

    method SetShopifyLocationId(v: int)
      requires Valid()
      modifies sp
      ensures Valid()
      ensures sp.entries == old(sp.entries)[K_SHOPIFY_LOC_ID := LongVal(v)]
      ensures GetShopifyLocationId() == v
    {
      sp.PutLong(K_SHOPIFY_LOC_ID, v);
    }

    method SetRememberApi(v: bool)
      requires Valid()
      modifies sp
      ensures Valid()
      ensures sp.entries == old(sp.entries)[K_REMEMBER_API := BoolVal(v)]
    {
      sp.PutBoolean(K_REMEMBER_API, v);
    }

    method SetLoggedIn(v: bool)
      requires Valid()
      modifies sp
      ensures Valid()
      ensures sp.entries == old(sp.entries)[K_IS_LOGGED_IN := BoolVal(v)]
      ensures IsLoggedIn() == v
    {
      sp.PutBoolean(K_IS_LOGGED_IN, v);
    }

    /** `clearClover()`: exactly the two Clover keys go. */
    method ClearClover()
      requires Valid()
      modifies sp
      ensures Valid()
      ensures sp.entries == old(sp.entries) - CloverKeys
    {
      sp.RemoveAll(CloverKeys);
    }

    /** `clearShopify()`: exactly the five Shopify keys go. */
    method ClearShopify()
      requires Valid()
      modifies sp
      ensures Valid()
      ensures sp.entries == old(sp.entries) - ShopifyKeys
    {
      sp.RemoveAll(ShopifyKeys);
    }

    /** `clearAll()` (and its alias `logout()`). */
    method ClearAll()
      requires Valid()
      modifies sp
      ensures Valid()
      ensures sp.entries == map[]
      ensures GetLocationId() == 0 && GetShopifyLocationId() == 0 && !IsProviderChosen()
    {
      sp.Clear();
    }
  }

  /**
   * `getTier()` (trim, upper-case) and `Tier.fromString(getTierName())`
   * (trim, lower-case) read the stored tier the same way.
   */
  lemma GetTierAgreesWithFromString(p: SecurePrefs)
    ensures p.GetTier() == FromString(Some(p.GetTierName()))
  {
    var x := Trim(p.GetTierName());
    LowerUpperAgree(x, "demo");
    LowerUpperAgree(x, "premium");
    assert Upper("demo") == "DEMO";
    assert Upper("premium") == "PREMIUM";
  }
}
