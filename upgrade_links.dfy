/** Where the "upgrade" buttons go (UpgradeLinks.java). */
module Upgrade {
  import opened Wrappers
  import opened Text
  import opened Tiers
  import opened Prefs
  import opened Build
  import opened TierUtil

  const HTTPS := "https://"
  const UPGRADE_BASIC_URL := HTTPS + "easyinventory.webflow.io/upgrade-basic"
  const UPGRADE_PREMIUM_URL := HTTPS + "easyinventory.webflow.io/upgrade-premium"
  const PRICING_URL := HTTPS + "www.easyinventory.io/pricing"

  lemma DestinationHasScheme(rest: string)
    ensures StartsWith(HTTPS + rest, HTTPS)
  {
    assert (HTTPS + rest)[..|HTTPS|] == HTTPS;
  }

  /** `isDemoFlavor()`: the flavor is "demo" in any letter case. */
  predicate IsDemoFlavor(cfg: BuildConfig) {
    cfg.flavor.Some? && EqualsIgnoreCase(cfg.flavor.value, "demo")
  }

  /** The destination for a resolved tier. */
  function UrlForTier(t: Tier, demoFlavor: bool): (url: string)
    ensures url == "" <==> t == PREMIUM
    ensures url != "" ==> StartsWith(url, HTTPS)
    ensures t == DEMO && demoFlavor ==> url == UPGRADE_BASIC_URL
    ensures t == BASIC && demoFlavor ==> url == UPGRADE_PREMIUM_URL
    ensures t != PREMIUM && !demoFlavor ==> url == PRICING_URL
  {
    assert StartsWith(UPGRADE_BASIC_URL, HTTPS) by { DestinationHasScheme("easyinventory.webflow.io/upgrade-basic"); }
    assert StartsWith(UPGRADE_PREMIUM_URL, HTTPS) by { DestinationHasScheme("easyinventory.webflow.io/upgrade-premium"); }
    assert StartsWith(PRICING_URL, HTTPS) by { DestinationHasScheme("www.easyinventory.io/pricing"); }
    match t
    case DEMO => if demoFlavor then UPGRADE_BASIC_URL else PRICING_URL
    case BASIC => if demoFlavor then UPGRADE_PREMIUM_URL else PRICING_URL
    case PREMIUM => ""
  }

  /** `getUrlForUpgrade(p)`: the destination for `TierUtils.resolveTier(p)`. */
  function GetUrlForUpgrade(prefs: SecurePrefs?, hasStoredTier: bool, cfg: BuildConfig): (url: string)
    reads PrefsFootprint(prefs)
    ensures url == "" <==> ResolveTier(prefs, hasStoredTier, cfg) == PREMIUM
  {
    UrlForTier(ResolveTier(prefs, hasStoredTier, cfg), IsDemoFlavor(cfg))
  }

  /** On a demo-flavored build each lower tier is sent one step up; the three destinations are distinct. */
  lemma DemoFlavorUpgradesOneStep(prefs: SecurePrefs?, hasStoredTier: bool, cfg: BuildConfig)
    requires IsDemoFlavor(cfg)
    ensures ResolveTier(prefs, hasStoredTier, cfg) == DEMO ==> GetUrlForUpgrade(prefs, hasStoredTier, cfg) == UPGRADE_BASIC_URL
    ensures ResolveTier(prefs, hasStoredTier, cfg) == BASIC ==> GetUrlForUpgrade(prefs, hasStoredTier, cfg) == UPGRADE_PREMIUM_URL
    ensures UPGRADE_BASIC_URL != UPGRADE_PREMIUM_URL && UPGRADE_BASIC_URL != PRICING_URL && UPGRADE_PREMIUM_URL != PRICING_URL
  {
  }
}
