// The supplier parsers behind the common interface of
// src/pdf2xlsx_enterprise/parsers/base.py: the Omnia parser
// (src/pdf2xlsx_enterprise/parsers/omnia.py) and the no-op generic parser
// (src/pdf2xlsx_enterprise/parsers/generic.py), as one closed datatype.
module Parsers {
  import opened Types
  import opened OmniaPatterns
  import opened OmniaSteps

  /** The parsers the program ships. */
  datatype Parser = Omnia | Generic

  /** `supplier_key` (omnia.py:51, generic.py:7). */
  function SupplierKey(p: Parser): (key: string)
    ensures key != ""
  {
    match p
    case Omnia => "omnia"
    case Generic => "generic"
  }

  /** `display_name` (omnia.py:52, generic.py:8). */
  function DisplayName(p: Parser): string {
    match p
    case Omnia => "Omnia (enterprise invoice)"
    case Generic => "Generic (no-op / diagnostics)"
  }

  /** The two parsers have different keys, so the key names the parser. */
  lemma SupplierKeyInjective(p: Parser, q: Parser)
    requires SupplierKey(p) == SupplierKey(q)
    ensures p == q
  {
  }

  const GenericWarning := "Generic parser selected. No extraction performed."

  /** `can_parse`: the Omnia markers test, or always for the generic parser (generic.py:10-11). */
  function ParserCanParse(p: Parser, pages: seq<string>): (ok: bool)
    ensures p == Generic ==> ok
    ensures p == Omnia ==> (ok <==> CanParse(pages))
  {
    match p
    case Omnia => CanParse(pages)
    case Generic => true
  }

  /**
   * `parse`: the Omnia row reconstruction, or the generic parser's empty
   * result with its one diagnostic warning (generic.py:13-15). The tables
   * and options arguments are unused by both and are not modelled.
   */
  function ParserParse(p: Parser, pages: seq<string>): (r: ParseResult)
    ensures p == Generic ==> r.items == [] && r.warnings == [GenericWarning] && r.header == map["source" := "generic"]
    ensures p == Omnia ==> r.header == map["supplier" := "omnia"]
  {
    match p
    case Omnia => ParseSpec(pages)
    case Generic => ParseResult(map["source" := "generic"], [], [GenericWarning])
  }
}
