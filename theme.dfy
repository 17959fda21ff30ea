/** The light/dark theme setting (ThemeManager.java). */
module Theme {
  import opened Wrappers
  import opened Store

  const PREFS := "app_prefs"
  const KEY_THEME_MODE := "theme_mode"
  const LEGACY_KEY_DARK_MODE := "dark_mode"
  const DEFAULT_MODE := "system"

  /** AppCompatDelegate's default night modes; UNSPECIFIED is the value before anything is applied. */
  datatype NightMode = MODE_NIGHT_UNSPECIFIED | MODE_NIGHT_NO | MODE_NIGHT_YES | MODE_NIGHT_FOLLOW_SYSTEM

  /** The switch on the stored mode: "light" and "dark" exactly; anything else follows the system. */
  function NightModeFor(mode: string): (n: NightMode)
    ensures n == MODE_NIGHT_NO <==> mode == "light"
    ensures n == MODE_NIGHT_YES <==> mode == "dark"
    ensures n != MODE_NIGHT_UNSPECIFIED
  {
    if mode == "light" then MODE_NIGHT_NO
    else if mode == "dark" then MODE_NIGHT_YES
    else MODE_NIGHT_FOLLOW_SYSTEM
  }

  /** `getString(KEY_THEME_MODE, "system")` on a preferences map. */
  function StoredMode(m: map<string, PrefValue>): string {
    if KEY_THEME_MODE in m && m[KEY_THEME_MODE].StrVal? then m[KEY_THEME_MODE].s else DEFAULT_MODE
  }

  /** `getBoolean(LEGACY_KEY_DARK_MODE, false)` on a preferences map. */
  function LegacyDark(m: map<string, PrefValue>): bool {
    LEGACY_KEY_DARK_MODE in m && m[LEGACY_KEY_DARK_MODE].BoolVal? && m[LEGACY_KEY_DARK_MODE].b
  }

  /**
   * The one-time migration: with no theme mode stored but the legacy boolean
   * present, the mode becomes "dark" or "light" from it and the boolean goes.
   * No other key is touched, and a stored theme mode is never overwritten.
   */
  function Migrated(m: map<string, PrefValue>): (r: map<string, PrefValue>)
    ensures KEY_THEME_MODE in m ==> r == m
    ensures forall k :: k != KEY_THEME_MODE && k != LEGACY_KEY_DARK_MODE ==>
              (k in r <==> k in m) && (k in m ==> r[k] == m[k])
    ensures LEGACY_KEY_DARK_MODE in r ==> KEY_THEME_MODE in r
    ensures KEY_THEME_MODE in r <==> KEY_THEME_MODE in m || LEGACY_KEY_DARK_MODE in m
  {
    if KEY_THEME_MODE !in m && LEGACY_KEY_DARK_MODE in m then
      (m - {LEGACY_KEY_DARK_MODE})[KEY_THEME_MODE := StrVal(if LegacyDark(m) then "dark" else "light")]
    else
      m
  }

  /** The migration carries the legacy choice over: dark stays dark, anything else becomes light. */
  lemma MigrationKeepsLegacyChoice(m: map<string, PrefValue>)
    requires KEY_THEME_MODE !in m && LEGACY_KEY_DARK_MODE in m
    ensures LEGACY_KEY_DARK_MODE !in Migrated(m)
    ensures StoredMode(Migrated(m)) == (if LegacyDark(m) then "dark" else "light")
    ensures NightModeFor(StoredMode(Migrated(m))) == (if LegacyDark(m) then MODE_NIGHT_YES else MODE_NIGHT_NO)
  {
  }

  /** Migrating twice is migrating once. */
  lemma MigratedIdempotent(m: map<string, PrefValue>)
    ensures Migrated(Migrated(m)) == Migrated(m)
  {
  }

  /**
   * The theme state: the "app_prefs" file and AppCompatDelegate's
   * process-wide default night mode, which `applySavedTheme` sets.
   */
  class ThemeManager {
    const sp: SharedPreferences
    var nightMode: NightMode

    constructor (file: SharedPreferences)
      ensures sp == file && nightMode == MODE_NIGHT_UNSPECIFIED
    {
      sp := file;
      nightMode := MODE_NIGHT_UNSPECIFIED;
    }

    /** `getMode(ctx)`: the stored mode, "system" when none is stored. */
    function GetMode(): string
      reads sp
    {
      sp.GetString(KEY_THEME_MODE, Some(DEFAULT_MODE)).GetOr(DEFAULT_MODE)
    }

    /**
     * `applySavedTheme(ctx)`: migrates the legacy boolean if due, then sets the
     * night mode the stored mode names. With a mode already stored, the file
     * is left as it was, so applying again changes nothing.
     */
    method ApplySavedTheme()
      modifies sp, this
      ensures sp.entries == Migrated(old(sp.entries))
      ensures nightMode == NightModeFor(GetMode())
      ensures GetMode() == StoredMode(sp.entries)
      ensures old(sp.Contains(KEY_THEME_MODE)) ==> sp.entries == old(sp.entries)
    {
      if !sp.Contains(KEY_THEME_MODE) && sp.Contains(LEGACY_KEY_DARK_MODE) {
        var legacyDark := sp.GetBoolean(LEGACY_KEY_DARK_MODE, false);
        sp.PutString(KEY_THEME_MODE, Some(if legacyDark then "dark" else "light"));
        sp.RemoveAll({LEGACY_KEY_DARK_MODE});
      }
      var mode := GetMode();
      if mode == "light" {
        nightMode := MODE_NIGHT_NO;
      } else if mode == "dark" {
        nightMode := MODE_NIGHT_YES;
      } else {
        nightMode := MODE_NIGHT_FOLLOW_SYSTEM;
      }
    }

    /**
     * `setMode(ctx, mode)`: stores the mode and applies it. A null mode
     * removes the key (Android's `putString(key, null)`), after which the
     * legacy boolean, if still present, is migrated as on first start.
     */
    method SetMode(mode: Option<string>)
      modifies sp, this
      ensures mode.Some? ==> sp.entries == old(sp.entries)[KEY_THEME_MODE := StrVal(mode.value)]
      ensures mode.Some? ==> GetMode() == mode.value
      ensures mode.None? ==> sp.entries == Migrated(old(sp.entries) - {KEY_THEME_MODE})
      ensures nightMode == NightModeFor(GetMode())
    {
      sp.PutString(KEY_THEME_MODE, mode);
      ApplySavedTheme();
    }
  }

  /** Choosing "dark" then reapplying at the next start keeps the app dark. */
  method DarkPersists(file: SharedPreferences) returns (t: ThemeManager, u: ThemeManager)
    modifies file
    ensures t.nightMode == MODE_NIGHT_YES && u.nightMode == MODE_NIGHT_YES
    ensures u.GetMode() == "dark"
  {
    t := new ThemeManager(file);
    t.SetMode(Some("dark"));
    u := new ThemeManager(file);
    u.ApplySavedTheme();
  }
}
