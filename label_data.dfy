/** The values a shelf label prints (print/LabelData.java). */
module Labels {
  import opened Wrappers
  import opened Decimals

  /** A label's final fields; none of them is ever null. */
  datatype LabelData = LabelData(description: string, barcode: string, sku: string, stockNumber: string, price: Decimal)

  /**
   * `new LabelData(description, barcode, sku, stockNumber, price)`: each
   * null text becomes "" and a null price becomes ZERO; given values are kept.
   */
  function NewLabel(description: Option<string>, barcode: Option<string>, sku: Option<string>,
                    stockNumber: Option<string>, price: Option<Decimal>): (l: LabelData)
    ensures description.Some? ==> l.description == description.value
    ensures description.None? ==> l.description == ""
    ensures barcode.Some? ==> l.barcode == barcode.value
    ensures barcode.None? ==> l.barcode == ""
    ensures sku.Some? ==> l.sku == sku.value
    ensures sku.None? ==> l.sku == ""
    ensures stockNumber.Some? ==> l.stockNumber == stockNumber.value
    ensures stockNumber.None? ==> l.stockNumber == ""
    ensures price.Some? ==> l.price == price.value
    ensures price.None? ==> l.price == ZERO
  {
    LabelData(description.GetOr(""), barcode.GetOr(""), sku.GetOr(""), stockNumber.GetOr(""), price.GetOr(ZERO))
  }

  /** Rebuilding a label from its own fields gives the same label: the defaults are applied once. */
  lemma NewLabelOfLabel(l: LabelData)
    ensures NewLabel(Some(l.description), Some(l.barcode), Some(l.sku), Some(l.stockNumber), Some(l.price)) == l
  {
  }
}
