/** The generated `BuildConfig` constants the core reads; each build variant fixes them. */
module Build {
  import opened Wrappers

  datatype BuildConfig = BuildConfig(
    debug: bool,
    isDemo: bool,
    isPremium: bool,
    isBasic: bool,
    flavor: Option<string>,
    memberstackCallbackPrefix: Option<string>,
    authBaseUrl: Option<string>)
}
