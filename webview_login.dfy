/**
 * Detecting a successful membership sign-in in the login WebView and
 * recording it (WebViewLoginActivity.java). Page loads and JavaScript
 * callbacks arrive one at a time; the screen and the navigation itself are
 * reduced to a count of hand-offs to the provider picker.
 */
module Login {
  import opened Wrappers
  import opened Text
  import opened Store
  import opened Tiers
  import opened Prefs
  import opened TierUtil
  import opened Build

  const USER_PREFS := "UserPrefs"
  const K_MEMBERSHIP_OK := "membershipOk"
  const K_MEMBERSHIP_TYPE := "membershipType"

  const TYPE_PREMIUM := "Premium"
  const TYPE_BASIC := "Basic"
  const TYPE_AUTHENTICATED := "Authenticated"

  // ----- building the account URLs -----

  /** `Uri.Builder.appendPath` for a plain segment: exactly one '/' before it. */
  function AppendPath(url: string, segment: string): (r: string)
    ensures StartsWith(r, url) && EndsWith(r, segment)
  {
    StartsWithAppend(url, segment);
    StartsWithAppend(url, "/" + segment);
    assert (url + segment)[|url + segment| - |segment|..] == segment;
    assert (url + "/" + segment)[|url + "/" + segment| - |segment|..] == segment;
    assert url + "/" + segment == url + ("/" + segment);
    if EndsWith(url, "/") then url + segment else url + "/" + segment
  }

  /** The segments appended in turn, blank ones skipped. */
  function AppendAll(url: string, segments: seq<string>): string
    decreases |segments|
  {
    if segments == [] then url
    else AppendAll(if IsBlank(segments[0]) then url else AppendPath(url, segments[0]), segments[1..])
  }

  /** What `buildUrl(base, segments...)` returns: "" for a null or blank base. */
  function UrlOf(base: Option<string>, segments: seq<string>): string {
    if base.None? || IsBlank(base.value) then "" else AppendAll(base.value, segments)
  }

  /** `buildUrl(base, segments...)`: a loop appending each non-blank segment. */
  method BuildUrl(base: Option<string>, segments: seq<string>) returns (url: string)
    ensures url == UrlOf(base, segments)
    ensures base.Some? && !IsBlank(base.value) ==> StartsWith(url, base.value)
  {
    if base.None? || IsBlank(base.value) {
      return "";
    }
    url := base.value;
    var i := 0;
    while i < |segments|
      invariant 0 <= i <= |segments|
      invariant AppendAll(url, segments[i..]) == AppendAll(base.value, segments)
      invariant StartsWith(url, base.value)
    {
      assert segments[i..][1..] == segments[i + 1..];
      if !IsBlank(segments[i]) {
        var next := AppendPath(url, segments[i]);
        PrefixesAgree(next, base.value, url);
        StartsWithTrans(next, url, base.value);
        url := next;
      }
      i := i + 1;
    }
    assert segments[i..] == [];
  }

  lemma StartsWithTrans(s: string, p: string, q: string)
    requires StartsWith(s, p) && StartsWith(p, q)
    ensures StartsWith(s, q)
  {
    assert s[..|q|] == s[..|p|][..|q|];
  }

  /** The path prefix both account URLs share: the base with one trailing '/'. */
  function Root(base: string): string {
    if EndsWith(base, "/") then base else base + "/"
  }

  /** From a usable base, the basic account URL is the root followed by "basic/account". */
  lemma AccountUrl(base: string, tier: string)
    requires !IsBlank(base) && !IsBlank(tier) && tier != [] && tier[|tier| - 1] != '/'
    ensures UrlOf(Some(base), [tier, "account"]) == Root(base) + tier + "/account"
  {
    assert [tier, "account"][1..] == ["account"];
    assert ["account"][1..] == [];
    assert Trim("account") == "account";
    var u := AppendPath(base, tier);
    assert u == Root(base) + tier by {
      if !EndsWith(base, "/") {
        assert base + "/" + tier == (base + "/") + tier;
      }
    }
    assert !EndsWith(u, "/") by {
      assert u[|u| - 1] == tier[|tier| - 1];
    }
    assert !IsBlank("account");
    assert AppendAll(base, [tier, "account"]) == AppendAll(u, ["account"]);
    assert AppendAll(u, ["account"]) == AppendAll(u + "/account", []);
  }

  /** The path an account page's address ends with: "/basic/account" or "/premium/account". */
  function PagePath(tier: string): string {
    "/" + tier + "/account"
  }

  /** An account URL starts at the root and ends with its tier's page path. */
  lemma AccountUrlShape(base: string, tier: string)
    requires !IsBlank(base) && !IsBlank(tier) && tier != [] && tier[|tier| - 1] != '/'
    ensures StartsWith(UrlOf(Some(base), [tier, "account"]), Root(base))
    ensures EndsWith(UrlOf(Some(base), [tier, "account"]), PagePath(tier))
  {
    AccountUrl(base, tier);
    assert base != [];
    JoinShape(Root(base), tier);
  }

  lemma JoinShape(r: string, tier: string)
    requires r != [] && r[|r| - 1] == '/'
    ensures StartsWith(r + tier + "/account", r)
    ensures EndsWith(r + tier + "/account", PagePath(tier))
  {
    var u := r + tier + "/account";
    var tail := PagePath(tier);
    assert u == r[..|r| - 1] + tail;
    assert u[|u| - |tail|..] == tail;
    assert u[..|r|] == r;
  }

  lemma SegmentsTrimmed()
    ensures !IsBlank("basic") && !IsBlank("premium")
  {
    assert Trim("basic") == "basic";
    assert Trim("premium") == "premium";
  }

  /**
   * Neither account URL is a prefix of the other, so no address can start
   * with both: "Premium before Basic" never has to break a tie.
   */
  lemma AccountUrlsExclusive(base: string, url: string)
    requires !IsBlank(base)
    ensures !(StartsWith(url, UrlOf(Some(base), ["basic", "account"]))
              && StartsWith(url, UrlOf(Some(base), ["premium", "account"])))
  {
    SegmentsTrimmed();
    AccountUrl(base, "basic");
    AccountUrl(base, "premium");
    var r := Root(base);
    var b := r + "basic" + "/account";
    var p := r + "premium" + "/account";
    assert b[|r|] == 'b';
    assert p[|r|] == 'p';
    if StartsWith(url, b) && StartsWith(url, p) {
      assert false;
    }
  }

  // ----- recording the membership -----

  /**
   * The tier saved for a membership type: `Tier.fromString(type)`, except
   * that for any type but Premium and Basic (ignoring case) a stored tier wins.
   * `"Premium".equalsIgnoreCase(type)` is `Lower(type) == "premium"`.
   */
  function SavedTier(membershipType: string, stored: Option<Tier>): Tier {
    var lower := Lower(membershipType);
    if lower != "premium" && lower != "basic" && stored.Some? then stored.value
    else FromString(Some(membershipType))
  }

  /** Premium and Basic in any case are saved as themselves; any other type yields to a stored tier. */
  lemma SavedTierCases(membershipType: string, stored: Option<Tier>)
    ensures EqualsIgnoreCase(membershipType, TYPE_PREMIUM) ==> SavedTier(membershipType, stored) == PREMIUM
    ensures EqualsIgnoreCase(membershipType, TYPE_BASIC) ==> SavedTier(membershipType, stored) == BASIC
    ensures !EqualsIgnoreCase(membershipType, TYPE_PREMIUM) && !EqualsIgnoreCase(membershipType, TYPE_BASIC) ==>
              SavedTier(membershipType, stored) == (if stored.Some? then stored.value else FromString(Some(membershipType)))
  {
    LowerPremium();
    LowerBasic();
    if EqualsIgnoreCase(membershipType, TYPE_PREMIUM) {
      NotTrimmed(membershipType, "premium");
    } else if EqualsIgnoreCase(membershipType, TYPE_BASIC) {
      NotTrimmed(membershipType, "basic");
    }
  }

  /** A string that lower-cases to a word without spaces has nothing for `trim` to remove. */
  lemma NotTrimmed(x: string, w: string)
    requires Lower(x) == w && w != [] && !IsTrimmed(w[0]) && !IsTrimmed(w[|w| - 1])
    ensures Trim(x) == x && Lower(Trim(x)) == w
  {
    assert !IsTrimmed(x[0]) by { assert LowerChar(x[0]) == w[0]; }
    assert !IsTrimmed(x[|x| - 1]) by { assert LowerChar(x[|x| - 1]) == w[|w| - 1]; }
    assert TrimStart(x) == x;
  }

  /** The plan name saved: the type itself, unless blank or "Authenticated" in any case, then the tier's display name. */
  function SavedPlan(membershipType: string, tier: Tier): string {
    if IsBlank(membershipType) || Lower(membershipType) == "authenticated" then DisplayName(Some(tier))
    else membershipType
  }

  /** The saved plan name is never blank, and is either the type or the tier's display name. */
  lemma SavedPlanCases(membershipType: string, tier: Tier)
    ensures !IsBlank(SavedPlan(membershipType, tier))
    ensures !IsBlank(membershipType) && !EqualsIgnoreCase(TYPE_AUTHENTICATED, membershipType) ==>
              SavedPlan(membershipType, tier) == membershipType
    ensures IsBlank(membershipType) || EqualsIgnoreCase(TYPE_AUTHENTICATED, membershipType) ==>
              SavedPlan(membershipType, tier) == DisplayName(Some(tier))
  {
    LowerAuthenticated();
    DisplayNamesNotBlank(tier);
  }

  /**
   * The tier step of `saveMembershipTypeAndTier`: parse the type, then prefer
   * the stored tier (given as read) for any type but Premium and Basic.
   */
  method ChooseTier(membershipType: string, stored: Option<Tier>) returns (tier: Tier)
    ensures tier == SavedTier(membershipType, stored)
  {
    LowerPremium();
    LowerBasic();
    tier := FromString(Some(membershipType));
    if !EqualsIgnoreCase(TYPE_PREMIUM, membershipType) && !EqualsIgnoreCase(TYPE_BASIC, membershipType) {
      if stored.Some? {
        tier := stored.value;
      }
    }
  }

  /** The plan step of `saveMembershipTypeAndTier`. */
  method ChoosePlan(membershipType: string, tier: Tier) returns (planLabel: string)
    ensures planLabel == SavedPlan(membershipType, tier)
  {
    LowerAuthenticated();
    planLabel := membershipType;
    if IsBlank(planLabel) || EqualsIgnoreCase(TYPE_AUTHENTICATED, planLabel) {
      planLabel := DisplayName(Some(tier));
    }
  }

  lemma DisplayNamesNotBlank(t: Tier)
    ensures !IsBlank(DisplayName(Some(t)))
  {
    match t
    case DEMO => assert Trim("Demo") == "Demo";
    case BASIC => assert Trim("Basic") == "Basic";
    case PREMIUM => assert Trim("Premium") == "Premium";
  }

  /** The three types the screen produces. */
  predicate IsMembershipType(t: string) {
    t == TYPE_PREMIUM || t == TYPE_BASIC || t == TYPE_AUTHENTICATED
  }

  /**
   * For every type the screen produces, the saved plan name read back by
   * `Tier.fromString` is the saved tier: the two keys never disagree.
   */
  lemma SavedPlanMatchesTier(membershipType: string, stored: Option<Tier>)
    requires IsMembershipType(membershipType)
    ensures FromString(Some(SavedPlan(membershipType, SavedTier(membershipType, stored)))) == SavedTier(membershipType, stored)
  {
    TypeTrimmed(membershipType);
    if membershipType == TYPE_PREMIUM {
      PremiumPlan(stored);
    } else if membershipType == TYPE_BASIC {
      BasicPlan(stored);
    } else {
      var tier := SavedTier(membershipType, stored);
      DisplayNameRoundTrip(tier);
      assert SavedPlan(membershipType, tier) == DisplayName(Some(tier));
    }
  }

  lemma PremiumPlan(stored: Option<Tier>)
    ensures SavedTier(TYPE_PREMIUM, stored) == PREMIUM
    ensures SavedPlan(TYPE_PREMIUM, PREMIUM) == TYPE_PREMIUM
    ensures FromString(Some(TYPE_PREMIUM)) == PREMIUM
  {
    TypeTrimmed(TYPE_PREMIUM);
    LowerPremium();
    assert !EqualsIgnoreCase(TYPE_AUTHENTICATED, TYPE_PREMIUM) by {
      assert |Lower(TYPE_AUTHENTICATED)| != |Lower(TYPE_PREMIUM)|;
    }
  }

  lemma BasicPlan(stored: Option<Tier>)
    ensures SavedTier(TYPE_BASIC, stored) == BASIC
    ensures SavedPlan(TYPE_BASIC, BASIC) == TYPE_BASIC
    ensures FromString(Some(TYPE_BASIC)) == BASIC
  {
    TypeTrimmed(TYPE_BASIC);
    LowerBasic();
    assert !EqualsIgnoreCase(TYPE_AUTHENTICATED, TYPE_BASIC) by {
      assert |Lower(TYPE_AUTHENTICATED)| != |Lower(TYPE_BASIC)|;
    }
  }

  /** A bare sign-in with no stored tier is saved as BASIC, with plan "Basic". */
  lemma AuthenticatedWithoutStoredTier()
    ensures SavedTier(TYPE_AUTHENTICATED, None) == BASIC
    ensures SavedPlan(TYPE_AUTHENTICATED, BASIC) == "Basic"
  {
    TypeTrimmed(TYPE_AUTHENTICATED);
    assert FromString(Some(TYPE_AUTHENTICATED)) == BASIC;
  }

  lemma LowerPremium()
    ensures Lower(TYPE_PREMIUM) == "premium"
  {
  }

  lemma LowerBasic()
    ensures Lower(TYPE_BASIC) == "basic"
  {
  }

  lemma LowerAuthenticated()
    ensures Lower(TYPE_AUTHENTICATED) == "authenticated"
  {
  }

  /** The three type names have nothing for `trim` to remove. */
  lemma TypeTrimmed(t: string)
    requires IsMembershipType(t)
    ensures Trim(t) == t && !IsBlank(t)
  {
    if t == TYPE_PREMIUM {
      assert Trim(TYPE_PREMIUM) == TYPE_PREMIUM;
    } else if t == TYPE_BASIC {
      assert Trim(TYPE_BASIC) == TYPE_BASIC;
    } else {
      assert Trim(TYPE_AUTHENTICATED) == TYPE_AUTHENTICATED;
    }
  }

  /** The "UserPrefs" file after a success: the success flag and the type. */
  function UserPrefsAfter(m: map<string, PrefValue>, membershipType: string): map<string, PrefValue> {
    m[K_MEMBERSHIP_OK := BoolVal(true)][K_MEMBERSHIP_TYPE := StrVal(membershipType)]
  }

  /** The secure preferences after a success: logged in, the tier's name, the plan label. */
  function SecureAfter(m: map<string, PrefValue>, membershipType: string, stored: Option<Tier>): map<string, PrefValue> {
    var tier := SavedTier(membershipType, stored);
    Recorded(m, tier, SavedPlan(membershipType, tier))
  }

  function Recorded(m: map<string, PrefValue>, tier: Tier, plan: string): map<string, PrefValue> {
    m[K_IS_LOGGED_IN := BoolVal(true)][KEY_TIER := StrVal(Name(tier))][KEY_PLAN_NAME := StrVal(plan)]
  }

  /** The JavaScript bridge's classification, by substring of the page address. */
  function BridgeTypeFor(url: string): (t: string)
    ensures IsMembershipType(t)
    ensures t == TYPE_PREMIUM <==> Contains(url, PagePath("premium"))
    ensures t == TYPE_BASIC <==> !Contains(url, PagePath("premium")) && Contains(url, PagePath("basic"))
  {
    if Contains(url, PagePath("premium")) then TYPE_PREMIUM
    else if Contains(url, PagePath("basic")) then TYPE_BASIC
    else TYPE_AUTHENTICATED
  }

  /** The sign-in screen's state across page loads and bridge callbacks. */
  class WebViewLogin {
    const callbackPrefix: Option<string>
    const loginUrl: string
    const basicUrl: string
    const premiumUrl: string
    /** The plain "UserPrefs" file. */
    const userPrefs: SharedPreferences
    const prefs: SecurePrefs
    /** `handledSuccessOnce`. */
    var handledSuccessOnce: bool
    /** How many times `proceedToLoginActivity` has run. */
    var navigations: nat

    /** The two files are distinct, and the hand-off has happened exactly when success was handled. */
    ghost predicate Valid()
      reads this, prefs.sp
    {
      && prefs.Valid()
      && userPrefs != prefs.sp
      && navigations == (if handledSuccessOnce then 1 else 0)
    }

    /** `onCreate`: the three URLs from the build's auth base, nothing handled yet. */
    constructor (cfg: BuildConfig, userFile: SharedPreferences, securePrefs: SecurePrefs)
      requires securePrefs.Valid() && userFile != securePrefs.sp
      ensures Valid()
      ensures callbackPrefix == cfg.memberstackCallbackPrefix
      ensures loginUrl == UrlOf(cfg.authBaseUrl, ["login"])
      ensures basicUrl == UrlOf(cfg.authBaseUrl, ["basic", "account"])
      ensures premiumUrl == UrlOf(cfg.authBaseUrl, ["premium", "account"])
      ensures !handledSuccessOnce && navigations == 0
      ensures userPrefs == userFile && prefs == securePrefs
    {
      var login := BuildUrl(cfg.authBaseUrl, ["login"]);
      var basic := BuildUrl(cfg.authBaseUrl, ["basic", "account"]);
      var premium := BuildUrl(cfg.authBaseUrl, ["premium", "account"]);
      callbackPrefix := cfg.memberstackCallbackPrefix;
      loginUrl, basicUrl, premiumUrl := login, basic, premium;
      userPrefs := userFile;
      prefs := securePrefs;
      handledSuccessOnce := false;
      navigations := 0;
    }

    /**
     * The classification in `maybeHandleAuthSuccess`: the premium account URL,
     * then the basic one, then the sign-in callback prefix; None when the
     * address is none of them. An empty URL or prefix never matches.
     */
    function MembershipTypeFor(url: string): (t: Option<string>)
      ensures t.Some? ==> IsMembershipType(t.value)
      ensures t == Some(TYPE_PREMIUM) <==> premiumUrl != "" && StartsWith(url, premiumUrl)
      ensures t == Some(TYPE_BASIC) <==> !(premiumUrl != "" && StartsWith(url, premiumUrl)) && basicUrl != "" && StartsWith(url, basicUrl)
      ensures t.None? <==> !(premiumUrl != "" && StartsWith(url, premiumUrl)) && !(basicUrl != "" && StartsWith(url, basicUrl))
                           && !(callbackPrefix.Some? && callbackPrefix.value != "" && Contains(url, callbackPrefix.value))
    {
      var isCallback := callbackPrefix.Some? && callbackPrefix.value != "" && Contains(url, callbackPrefix.value);
      var isBasic := basicUrl != "" && StartsWith(url, basicUrl);
      var isPremium := premiumUrl != "" && StartsWith(url, premiumUrl);
      if isCallback || isBasic || isPremium then
        Some(if isPremium then TYPE_PREMIUM else if isBasic then TYPE_BASIC else TYPE_AUTHENTICATED)
      else
        None
    }

    /**
     * `saveMembershipTypeAndTier(type)`: the success flag and type go to
     * "UserPrefs"; the secure store records the login, the tier and the plan
     * label. Whether a tier is stored (`hasStoredTier()`) is read before any write.
     */
    method SaveMembershipTypeAndTier(membershipType: string, hasStoredTier: bool)
      requires Valid()
      modifies userPrefs, prefs.sp
      ensures Valid()
      ensures userPrefs.entries == UserPrefsAfter(old(userPrefs.entries), membershipType)
      ensures prefs.sp.entries == SecureAfter(old(prefs.sp.entries), membershipType, old(StoredTier(prefs, hasStoredTier)))
      ensures prefs.IsLoggedIn()
      ensures prefs.GetTierName() == Name(SavedTier(membershipType, old(StoredTier(prefs, hasStoredTier))))
    {
      var stored := StoredTier(prefs, hasStoredTier);
      userPrefs.PutBoolean(K_MEMBERSHIP_OK, true);
      userPrefs.PutString(K_MEMBERSHIP_TYPE, Some(membershipType));
      SaveToSecurePrefs(membershipType, stored);
    }

    /**
     * The secure-store half of `saveMembershipTypeAndTier`. `stored` is
     * `storedTier(prefs)`, read before any write; marking the login does not
     * touch it, so it is the value the source reads after that write. The tier
     * and plan label depend on nothing the writes change, so they are chosen
     * first and then written in the source's order.
     */
    method SaveToSecurePrefs(membershipType: string, stored: Option<Tier>)
      requires prefs.Valid()
      modifies prefs.sp
      ensures prefs.Valid()
      ensures prefs.sp.entries == SecureAfter(old(prefs.sp.entries), membershipType, stored)
      ensures prefs.IsLoggedIn() && prefs.GetTierName() == Name(SavedTier(membershipType, stored))
    {
      var tier := ChooseTier(membershipType, stored);
      var planLabel := ChoosePlan(membershipType, tier);
      Record(tier, planLabel);
    }

    /** Logged in, then the tier's name, then the plan label. */
    method Record(tier: Tier, planLabel: string)
      requires prefs.Valid()
      modifies prefs.sp
      ensures prefs.Valid()
      ensures prefs.sp.entries == Recorded(old(prefs.sp.entries), tier, planLabel)
      ensures prefs.IsLoggedIn() && prefs.GetTierName() == Name(tier) && prefs.GetPlanName() == planLabel
    {
      prefs.SetLoggedIn(true);
      prefs.SetSetting(TierName, Some(Name(tier)));
      prefs.SetSetting(PlanName, Some(planLabel));
    }

    /**
     * `maybeHandleAuthSuccess(url)`: true once success has been handled; on the
     * first recognised address it saves the membership, hands off once and
     * marks success handled; otherwise nothing changes.
     */
    method MaybeHandleAuthSuccess(url: Option<string>, hasStoredTier: bool) returns (handled: bool)
      requires Valid()
      modifies this, userPrefs, prefs.sp
      ensures Valid()
      ensures handled == (old(handledSuccessOnce) || (url.Some? && MembershipTypeFor(url.value).Some?))
      ensures handledSuccessOnce == handled
      ensures !old(handledSuccessOnce) && url.Some? && MembershipTypeFor(url.value).Some? ==>
                && userPrefs.entries == UserPrefsAfter(old(userPrefs.entries), MembershipTypeFor(url.value).value)
                && prefs.sp.entries == SecureAfter(old(prefs.sp.entries), MembershipTypeFor(url.value).value, old(StoredTier(prefs, hasStoredTier)))
      ensures !(!old(handledSuccessOnce) && url.Some? && MembershipTypeFor(url.value).Some?) ==>
                userPrefs.entries == old(userPrefs.entries) && prefs.sp.entries == old(prefs.sp.entries)
      ensures navigations <= 1
    {
      if handledSuccessOnce {
        return true;
      }
      if url.None? {
        return false;
      }
      var t := MembershipTypeFor(url.value);
      if t.Some? {
        SaveMembershipTypeAndTier(t.value, hasStoredTier);
        navigations := navigations + 1;
        handledSuccessOnce := true;
        return true;
      }
      return false;
    }

    /**
     * The bridge's `onLoginSuccess(url)`: on the first call after no success,
     * classifies by substring, saves, hands off and marks success handled;
     * later calls change nothing.
     */
    method OnLoginSuccess(url: string, hasStoredTier: bool)
      requires Valid()
      modifies this, userPrefs, prefs.sp
      ensures Valid()
      ensures handledSuccessOnce
      ensures !old(handledSuccessOnce) ==>
                && userPrefs.entries == UserPrefsAfter(old(userPrefs.entries), BridgeTypeFor(url))
                && prefs.sp.entries == SecureAfter(old(prefs.sp.entries), BridgeTypeFor(url), old(StoredTier(prefs, hasStoredTier)))
      ensures old(handledSuccessOnce) ==> userPrefs.entries == old(userPrefs.entries) && prefs.sp.entries == old(prefs.sp.entries)
      ensures navigations <= 1
    {
      if !handledSuccessOnce {
        var t := BridgeTypeFor(url);
        SaveMembershipTypeAndTier(t, hasStoredTier);
        navigations := navigations + 1;
        handledSuccessOnce := true;
      }
    }
  }

  /**
   * From a usable auth base, an address on the premium account page is
   * classified Premium by both the page-load check and the bridge.
   */
  lemma DetectorsAgreeOnPremium(w: WebViewLogin, base: string, url: string)
    requires !IsBlank(base) && w.premiumUrl == UrlOf(Some(base), ["premium", "account"])
    requires StartsWith(url, w.premiumUrl)
    ensures w.MembershipTypeFor(url) == Some(TYPE_PREMIUM)
    ensures BridgeTypeFor(url) == TYPE_PREMIUM
  {
    SegmentsTrimmed();
    AccountUrlShape(base, "premium");
    UrlContainsSuffix(url, w.premiumUrl, PagePath("premium"));
  }

  /**
   * Likewise for the basic account page, unless the address also mentions
   * the premium page further on (in a query, say), which the bridge checks first.
   */
  lemma DetectorsAgreeOnBasic(w: WebViewLogin, base: string, url: string)
    requires !IsBlank(base)
    requires w.basicUrl == UrlOf(Some(base), ["basic", "account"])
    requires w.premiumUrl == UrlOf(Some(base), ["premium", "account"])
    requires StartsWith(url, w.basicUrl) && !Contains(url, PagePath("premium"))
    ensures w.MembershipTypeFor(url) == Some(TYPE_BASIC)
    ensures BridgeTypeFor(url) == TYPE_BASIC
  {
    SegmentsTrimmed();
    AccountUrlShape(base, "basic");
    AccountUrlsExclusive(base, url);
    UrlContainsSuffix(url, w.basicUrl, PagePath("basic"));
  }

  lemma UrlContainsSuffix(url: string, prefix: string, suffix: string)
    requires StartsWith(url, prefix) && EndsWith(prefix, suffix)
    ensures Contains(url, suffix)
  {
    assert suffix[..|suffix|] == suffix;
    EndsWithContains(prefix, suffix, suffix);
    assert url == prefix + url[|prefix|..];
    ContainsBefore(prefix, url[|prefix|..], suffix);
  }

  /**
   * Whatever the order of page loads and bridge callbacks, the membership is
   * saved and the hand-off made once: a second signal changes nothing.
   */
  method SecondSignalIsIgnored(w: WebViewLogin, first: string, second: string, hasStoredTier: bool)
    returns (handled: bool)
    requires w.Valid() && !w.handledSuccessOnce && w.MembershipTypeFor(first).Some?
    modifies w, w.userPrefs, w.prefs.sp
    ensures handled && w.navigations == 1
  {
    handled := w.MaybeHandleAuthSuccess(Some(first), hasStoredTier);
    w.OnLoginSuccess(second, hasStoredTier);
    handled := w.MaybeHandleAuthSuccess(Some(second), hasStoredTier);
  }
}
