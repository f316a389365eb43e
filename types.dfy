// Records shared by the parsers and the spreadsheet writer
// (src/pdf2xlsx_enterprise/types.py), plus the usual Option/Result wrappers
// that stand for Python's None and raised exceptions.
module Types {

  datatype Option<T> = None | Some(value: T)

  datatype Result<T, E> = Ok(value: T) | Err(error: E)

  /** Python truthiness of an `str | None` variable: neither None nor "". */
  predicate Truthy(o: Option<string>) {
    o.Some? && o.value != ""
  }

  /** One invoice row, with the seven text fields of the source's `LineItem`. */
  datatype LineItem = LineItem(
    productNumber: string,
    productName: string,
    customsCode: string,
    weightG: string,
    deliveredQty: string,
    netUnitPrice: string,
    totalPrice: string)

  /** What a supplier parser returns: a header dictionary, the items, the warnings. */
  datatype ParseResult = ParseResult(
    header: map<string, string>,
    items: seq<LineItem>,
    warnings: seq<string>)

  /** `getattr(item, attr, "")`: the field named `attr`, or "" for any other name. */
  function FieldByName(item: LineItem, attr: string): (v: string)
    ensures attr !in FieldNames ==> v == ""
  {
    if attr == "product_number" then item.productNumber
    else if attr == "product_name" then item.productName
    else if attr == "customs_code" then item.customsCode
    else if attr == "weight_g" then item.weightG
    else if attr == "delivered_qty" then item.deliveredQty
    else if attr == "net_unit_price" then item.netUnitPrice
    else if attr == "total_price" then item.totalPrice
    else ""
  }

  const FieldNames: set<string> :=
    {"product_number", "product_name", "customs_code", "weight_g",
     "delivered_qty", "net_unit_price", "total_price"}

  /** Python's `str` of a list of strings, as in `['omnia', 'generic']` (no escaping inside the quotes). */
  function ListRepr(xs: seq<string>): string {
    "[" + JoinQuoted(xs) + "]"
  }

  function JoinQuoted(xs: seq<string>): string {
    if xs == [] then ""
    else if |xs| == 1 then "'" + xs[0] + "'"
    else "'" + xs[0] + "', " + JoinQuoted(xs[1..])
  }
}
