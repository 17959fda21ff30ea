/** The provider-neutral stock record (model/Product.java). */
module Products {
  import opened Wrappers
  import opened Decimals

  /**
   * The state of one Product: every nullable Java field is an Option, the
   * price is never null, and `currentStock` keeps "unknown" (None) apart from 0.
   */
  datatype ProductInfo = ProductInfo(
    externalId: Option<string>,
    provider: Option<string>,
    description: Option<string>,
    sku: Option<string>,
    barcode: Option<string>,
    price: Decimal,
    currentStock: Option<real>,
    variantId: Option<int>,
    inventoryItemId: Option<int>,
    stockUpdatedMessageVisible: bool)

  /** The state of `new Product()`: all references null, price ZERO, flag false. */
  const NewProduct := ProductInfo(None, None, None, None, None, ZERO, None, None, None, false)

  /** A mutable Product whose setters each change one field. */
  class Product {
    var externalId: Option<string>
    var provider: Option<string>
    var description: Option<string>
    var sku: Option<string>
    var barcode: Option<string>
    var priceBig: Decimal
    var currentStock: Option<real>
    var variantId: Option<int>
    var inventoryItemId: Option<int>
    var stockUpdatedMessageVisible: bool

    /** All fields, as one value. */
    function View(): ProductInfo
      reads this
    {
      ProductInfo(externalId, provider, description, sku, barcode, priceBig,
                  currentStock, variantId, inventoryItemId, stockUpdatedMessageVisible)
    }

    constructor ()
      ensures View() == NewProduct
    {
      externalId, provider, description, sku, barcode := None, None, None, None, None;
      priceBig := ZERO;
      currentStock, variantId, inventoryItemId := None, None, None;
      stockUpdatedMessageVisible := false;
    }

    /** `getPriceBig()`: the stored price; a Decimal is never null. */
    function GetPriceBig(): Decimal
      reads this
    {
      priceBig
    }

    /** `getCurrentStock()`: exactly what was last set, null included. */
    function GetCurrentStock(): Option<real>
      reads this
    {
      currentStock
    }

    method SetExternalId(v: Option<string>)
      modifies this
      ensures View() == old(View()).(externalId := v)
    {
      externalId := v;
    }

    method SetProvider(v: Option<string>)
      modifies this
      ensures View() == old(View()).(provider := v)
    {
      provider := v;
    }

    method SetDescription(v: Option<string>)
      modifies this
      ensures View() == old(View()).(description := v)
    {
      description := v;
    }

    method SetSku(v: Option<string>)
      modifies this
      ensures View() == old(View()).(sku := v)
    {
      sku := v;
    }

    method SetBarcode(v: Option<string>)
      modifies this
      ensures View() == old(View()).(barcode := v)
    {
      barcode := v;
    }

    /** `setPriceBig(null)` stores ZERO; any other value is stored as given. */
    method SetPriceBig(v: Option<Decimal>)
      modifies this
      ensures View() == old(View()).(price := v.GetOr(ZERO))
      ensures v.None? ==> GetPriceBig() == ZERO
      ensures v.Some? ==> GetPriceBig() == v.value
    {
      priceBig := v.GetOr(ZERO);
    }

    /** `setCurrentStock(v)`: null stays null, so "unknown" is not turned into 0. */
    method SetCurrentStock(v: Option<real>)
      modifies this
      ensures View() == old(View()).(currentStock := v)
      ensures GetCurrentStock() == v
    {
      currentStock := v;
    }

    method SetVariantId(v: Option<int>)
      modifies this
      ensures View() == old(View()).(variantId := v)
    {
      variantId := v;
    }

    method SetInventoryItemId(v: Option<int>)
      modifies this
      ensures View() == old(View()).(inventoryItemId := v)
    {
      inventoryItemId := v;
    }

    method SetStockUpdatedMessageVisible(v: bool)
      modifies this
      ensures View() == old(View()).(stockUpdatedMessageVisible := v)
    {
      stockUpdatedMessageVisible := v;
    }
  }

  /** A client of the setters: null and zero stay distinct, and the price of a new Product is ZERO. */
  method StockNullIsNotZero() returns (p: Product, q: Product)
    ensures fresh(p) && fresh(q)
    ensures p.GetPriceBig() == ZERO && q.GetPriceBig() == ZERO
    ensures p.GetCurrentStock() == None && q.GetCurrentStock() == Some(0.0)
    ensures p.View() != q.View()
  {
    p := new Product();
    q := new Product();
    q.SetCurrentStock(Some(0.0));
    q.SetPriceBig(None);
  }
}
