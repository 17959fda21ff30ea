/** The Premium-or-Demo feature gate (FeatureGate.java). */
module Gate {
  import opened Wrappers
  import opened Tiers
  import opened Prefs
  import opened Build
  import opened TierUtil

  /** What a call of `requirePremiumOrDemo` does: its return value, and whether it shows the upgrade dialog. */
  datatype GateDecision = GateDecision(allowed: bool, showsUpgradeDialog: bool)

  /**
   * The gate's own `resolveTier`: the build flags first, then the stored
   * tier whenever there are prefs, and the flavor only without prefs.
   */
  function GateTier(prefs: SecurePrefs?, cfg: BuildConfig): (t: Tier)
    reads PrefsFootprint(prefs)
    ensures cfg.isDemo ==> t == DEMO
    ensures !cfg.isDemo && cfg.isPremium ==> t == PREMIUM
    ensures !cfg.isDemo && !cfg.isPremium && cfg.isBasic ==> t == BASIC
    ensures !cfg.isDemo && !cfg.isPremium && !cfg.isBasic && prefs != null ==> t == prefs.GetTier()
    ensures !cfg.isDemo && !cfg.isPremium && !cfg.isBasic && prefs == null ==> t == FromFlavor(cfg.flavor)
  {
    if cfg.isDemo then DEMO
    else if cfg.isPremium then PREMIUM
    else if cfg.isBasic then BASIC
    else if prefs != null then prefs.GetTier()
    else FromFlavor(cfg.flavor)
  }

  /** `requirePremiumOrDemo(...)`: BASIC is refused with the dialog; DEMO and PREMIUM pass silently. */
  function RequirePremiumOrDemo(prefs: SecurePrefs?, cfg: BuildConfig): (d: GateDecision)
    reads PrefsFootprint(prefs)
    ensures d.allowed <==> GateTier(prefs, cfg) != BASIC
    ensures d.showsUpgradeDialog <==> !d.allowed
  {
    if GateTier(prefs, cfg) == BASIC then GateDecision(false, true) else GateDecision(true, false)
  }

  /** Demo and premium builds pass the gate whatever is stored. */
  lemma FlaggedBuildsPass(prefs: SecurePrefs?, cfg: BuildConfig)
    requires cfg.isDemo || cfg.isPremium
    ensures RequirePremiumOrDemo(prefs, cfg).allowed
    ensures !RequirePremiumOrDemo(prefs, cfg).showsUpgradeDialog
  {
  }

  /**
   * Without build flags, a fresh install (no "tier" key) is refused: the
   * stored name defaults to "BASIC".
   */
  lemma UnflaggedFreshInstallIsRefused(prefs: SecurePrefs, cfg: BuildConfig)
    requires !cfg.isDemo && !cfg.isPremium && !cfg.isBasic
    requires KEY_TIER !in prefs.sp.entries
    ensures !RequirePremiumOrDemo(prefs, cfg).allowed
  {
    assert prefs.GetTierName() == "BASIC";
    assert Text.Trim("BASIC") == "BASIC";
    assert Text.Upper("BASIC") == "BASIC";
  }

  /**
   * The gate and `TierUtils.resolveTier` can disagree: on a demo build with
   * BASIC stored, the gate lets the feature through while the rest of the app
   * resolves BASIC.
   */
  lemma GateAndTierUtilsDisagree(prefs: SecurePrefs, cfg: BuildConfig)
    requires cfg.isDemo
    requires prefs.GetTier() == BASIC
    ensures GateTier(prefs, cfg) == DEMO
    ensures ResolveTier(prefs, true, cfg) == BASIC
  {
  }
}
