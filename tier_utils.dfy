/** Tier resolution and labels shared by the screens (TierUtils.java). */
module TierUtil {
  import opened Wrappers
  import opened Text
  import opened Tiers
  import opened Prefs
  import opened Build

  /** `fromFlavor(flavor)`: lower-cased but, unlike `Tier.fromString`, not trimmed. */
  function FromFlavor(flavor: Option<string>): Tier {
    if flavor.None? then BASIC
    else
      match Lower(flavor.value)
      case "demo" => DEMO
      case "basic" => BASIC
      case "premium" => PREMIUM
      case _ => BASIC
  }

  /** On an already-trimmed name the two parsers agree. */
  lemma FromFlavorAgreesOnTrimmed(s: string)
    requires Trim(s) == s
    ensures FromFlavor(Some(s)) == FromString(Some(s))
  {
  }

  /** They differ on padded names: a padded " demo" flavor is BASIC, the same stored name is DEMO. */
  lemma FromFlavorDoesNotTrim()
    ensures FromFlavor(Some(" demo")) == BASIC
    ensures FromString(Some(" demo")) == DEMO
  {
    assert |Lower(" demo")| == 5;
    assert Trim(" demo") == "demo";
    assert Lower("demo") == "demo";
  }

  /** Reference to the preferences file, or null; its footprint is empty when null. */
  function PrefsFootprint(prefs: SecurePrefs?): set<object> {
    if prefs == null then {} else {prefs.sp}
  }

  /**
   * `storedTier(prefs)`: null when there are no prefs or nothing is stored,
   * otherwise the stored name parsed by `Tier.fromString`. Whether a tier is
   * stored (`hasStoredTier()`) is not a member of SecurePrefs.java and is a parameter here.
   */
  function StoredTier(prefs: SecurePrefs?, hasStoredTier: bool): (r: Option<Tier>)
    reads PrefsFootprint(prefs)
    ensures r.Some? <==> prefs != null && hasStoredTier
    ensures r.Some? ==> r.value == prefs.GetTier()
  {
    if prefs == null || !hasStoredTier then None
    else
      GetTierAgreesWithFromString(prefs);
      Some(FromString(Some(prefs.GetTierName())))
  }

  /** `isEntitlementFlavorBuild()`: debug, demo and premium builds. */
  predicate IsEntitlementFlavorBuild(cfg: BuildConfig) {
    cfg.debug || cfg.isDemo || cfg.isPremium
  }

  /** `resolveTier(prefs, allowFlavorFallback)`. */
  function ResolveTierWith(prefs: SecurePrefs?, hasStoredTier: bool, allowFlavorFallback: bool, cfg: BuildConfig): (t: Tier)
    reads PrefsFootprint(prefs)
    ensures StoredTier(prefs, hasStoredTier).Some? ==> t == StoredTier(prefs, hasStoredTier).value
    ensures StoredTier(prefs, hasStoredTier).None? && !(allowFlavorFallback && IsEntitlementFlavorBuild(cfg)) ==> t == BASIC
    ensures StoredTier(prefs, hasStoredTier).None? && allowFlavorFallback && IsEntitlementFlavorBuild(cfg) ==> t == FromFlavor(cfg.flavor)
  {
    var stored := StoredTier(prefs, hasStoredTier);
    if stored.Some? then stored.value
    else if allowFlavorFallback && IsEntitlementFlavorBuild(cfg) then FromFlavor(cfg.flavor)
    else BASIC
  }

  /** `resolveTier(prefs)`: the fallback is allowed exactly on entitlement builds. */
  function ResolveTier(prefs: SecurePrefs?, hasStoredTier: bool, cfg: BuildConfig): Tier
    reads PrefsFootprint(prefs)
  {
    ResolveTierWith(prefs, hasStoredTier, IsEntitlementFlavorBuild(cfg), cfg)
  }

  /** A release build with nothing stored is BASIC whatever its flavor says. */
  lemma ReleaseBuildWithoutStoredTierIsBasic(prefs: SecurePrefs?, hasStoredTier: bool, cfg: BuildConfig)
    requires !IsEntitlementFlavorBuild(cfg)
    requires prefs == null || !hasStoredTier
    ensures ResolveTier(prefs, hasStoredTier, cfg) == BASIC
  {
  }

  /** A stored tier overrides every build flag and the flavor. */
  lemma StoredTierWins(prefs: SecurePrefs, cfg: BuildConfig)
    ensures ResolveTier(prefs, true, cfg) == prefs.GetTier()
  {
  }

  /** `displayName(tier)`; null reads as Basic. */
  function DisplayName(t: Option<Tier>): string {
    if t.None? then "Basic"
    else match t.value
      case DEMO => "Demo"
      case PREMIUM => "Premium"
      case BASIC => "Basic"
  }

  /** A display name parses back to its tier, by `fromString` and by `fromFlavor`. */
  lemma DisplayNameRoundTrip(t: Tier)
    ensures FromString(Some(DisplayName(Some(t)))) == t
    ensures FromFlavor(Some(DisplayName(Some(t)))) == t
  {
    match t
    case DEMO =>
      assert Lower("Demo") == "demo";
      assert Trim("Demo") == "Demo";
    case BASIC =>
      assert Lower("Basic") == "basic";
      assert Trim("Basic") == "Basic";
    case PREMIUM =>
      assert Lower("Premium") == "premium";
      assert Trim("Premium") == "Premium";
  }

  /**
   * `planLabel(prefs)`: the trimmed stored plan name when it is not blank,
   * otherwise the display name of the resolved tier; never blank either way.
   */
  function PlanLabel(prefs: SecurePrefs?, hasStoredTier: bool, cfg: BuildConfig): (r: string)
    reads PrefsFootprint(prefs)
    ensures prefs != null && Trim(prefs.GetPlanName()) != "" ==> r == Trim(prefs.GetPlanName())
    ensures (prefs == null || Trim(prefs.GetPlanName()) == "") ==> r == DisplayName(Some(ResolveTier(prefs, hasStoredTier, cfg)))
    ensures r != [] && !IsTrimmed(r[0])
  {
    if prefs != null && Trim(prefs.GetPlanName()) != "" then
      TrimmedEnds(prefs.GetPlanName());
      Trim(prefs.GetPlanName())
    else
      DisplayName(Some(ResolveTier(prefs, hasStoredTier, cfg)))
  }
}
