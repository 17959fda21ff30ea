/** Choosing the inventory back end from the stored provider (data/ProviderFactory.java). */
module Providers {
  import opened Text
  import opened Prefs

  /**
   * The repository `get` hands out. Each call builds a fresh instance with no
   * constructor arguments and no state of its own, so the choice is all there is.
   */
  datatype Repository = ShopifyRepository | CloverRepository | EposNowRepository

  /** The repository meant for each data source. */
  function RepositoryFor(ds: DataSource): Repository {
    match ds
    case SHOPIFY => ShopifyRepository
    case CLOVER => CloverRepository
    case EPOSNOW => EposNowRepository
  }

  /**
   * The switch on `provider.toLowerCase()`: "shopify" and "clover" pick their
   * repositories, and every other spelling ("eposnow" included) falls to EPOS Now.
   */
  function Route(provider: string): (r: Repository)
    ensures r == ShopifyRepository <==> EqualsIgnoreCase(provider, "shopify")
    ensures r == CloverRepository <==> EqualsIgnoreCase(provider, "clover")
    ensures r == EposNowRepository <==> !EqualsIgnoreCase(provider, "shopify") && !EqualsIgnoreCase(provider, "clover")
  {
    assert Lower("shopify") == "shopify";
    assert Lower("clover") == "clover";
    match Lower(provider)
    case "shopify" => ShopifyRepository
    case "clover" => CloverRepository
    case _ => EposNowRepository
  }

  /**
   * `get(ctx)`: the stored provider's constant name, routed. Whatever the
   * preferences hold, the repository is the one meant for `getProvider()`.
   */
  function Get(prefs: SecurePrefs): (r: Repository)
    reads prefs.sp
    ensures r == RepositoryFor(prefs.GetProvider())
  {
    NamesRoute(prefs.GetProvider());
    Route(DataSourceName(prefs.GetProvider()))
  }

  /** Each data source's upper-case constant name routes to its own repository. */
  lemma NamesRoute(ds: DataSource)
    ensures Route(DataSourceName(ds)) == RepositoryFor(ds)
  {
    match ds
    case SHOPIFY => assert Lower("SHOPIFY") == "shopify";
    case CLOVER => assert Lower("CLOVER") == "clover";
    case EPOSNOW => assert Lower("EPOSNOW") == "eposnow";
  }

  /** `String.valueOf(null)` is "null", which falls to the EPOS Now default. */
  lemma NullRoutesToEposNow()
    ensures Route("null") == EposNowRepository
  {
    assert Lower("null") == "null";
  }
}
