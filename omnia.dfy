// `OmniaParser.parse` as the loops the source runs
// (src/pdf2xlsx_enterprise/parsers/omnia.py:87-224), each proved against the
// functions of OmniaSteps.
module Omnia {
  import opened Types
  import opened Text
  import opened OmniaPatterns
  import opened OmniaSteps

  /** The lines of one page, normalised, blanks dropped (the inner loop of omnia.py:89-93). */
  method KeepPageLines(raw: seq<string>) returns (lines: seq<string>)
    ensures lines == KeepLines(raw)
  {
    lines := [];
    for j := 0 to |raw|
      invariant lines == KeepLines(raw[..j])
    {
      KeepLinesSnoc(raw, j);
      var l := NormalizeWs(raw[j]);
      if l != "" {
        lines := lines + [l];
      }
    }
    assert raw[..|raw|] == raw;
  }

  /** The first loop of `parse`: the pages' lines, normalised, blanks dropped (omnia.py:88-94). */
  method FlattenPages(pages: seq<string>) returns (lines: seq<string>)
    ensures lines == FlattenLines(pages)
  {
    lines := [];
    for i := 0 to |pages|
      invariant lines == FlattenLines(pages[..i])
    {
      var kept := KeepPageLines(SplitLines(pages[i]));
      lines := lines + kept;
      assert pages[..i + 1][..i] == pages[..i];
    }
    assert pages[..|pages|] == pages;
  }

  // The branch each test of the loop body selects, one lemma per branch in the
  // source's order; each lets the per-line method below be checked on its own.

  /** Branch 2 of the loop body in `parse` (omnia.py:118-147): a complete one-line item. */
  method ParseFullRow(prefix: Option<string>, code: Option<string>, desc: Option<string>,
                      prefixDesc: Option<string>, row: Row)
    returns (pendingPrefix: Option<string>, pendingCode: Option<string>, pendingDesc: Option<string>,
             pendingPrefixDesc: Option<string>, item: Option<LineItem>)
    ensures (Pending(pendingPrefix, pendingCode, pendingDesc, pendingPrefixDesc), item)
            == FullRowStep(Pending(prefix, code, desc, prefixDesc), row)
  {
    pendingPrefix, pendingPrefixDesc := prefix, prefixDesc;
    var rowCode := Strip(row.code);
    var rowDesc := Strip(row.desc);
    if Truthy(pendingPrefix) {
      rowCode := pendingPrefix.value + rowCode;
      pendingPrefix := None;
    }
    if Truthy(pendingPrefixDesc) {
      rowDesc := Strip(pendingPrefixDesc.value + " " + rowDesc);
      pendingPrefixDesc := None;
    }
    item := Some(ItemOf(rowCode, rowDesc, row.tail));
    pendingCode := None;
    pendingDesc := None;
  }

  /**
   * Branch 4 of the loop body in `parse` (omnia.py:181-210): a line split into a
   * code-shaped `token` and the `rest` either starts a merged prefix or starts a
   * new code and description.
   */
  method ParseCodeLine(prefix: Option<string>, code: Option<string>, desc: Option<string>,
                       prefixDesc: Option<string>, token: string, rest: string)
    returns (pendingPrefix: Option<string>, pendingCode: Option<string>, pendingDesc: Option<string>,
             pendingPrefixDesc: Option<string>)
    ensures (Pending(pendingPrefix, pendingCode, pendingDesc, pendingPrefixDesc), None)
            == CodeLineStep(Pending(prefix, code, desc, prefixDesc), token, rest)
  {
    pendingPrefix, pendingPrefixDesc := prefix, prefixDesc;
    var merged := SplitMergedPrefix(token);
    if merged.Some? && !HasDigit(token) {
      pendingPrefix := Some(merged.value.0);
      pendingPrefixDesc := Some(Strip(merged.value.1 + " " + rest));
      pendingCode := None;
      pendingDesc := None;
      return;
    }
    pendingCode := Some(token);
    pendingDesc := Some(rest);
    if Truthy(pendingPrefix) {
      pendingCode := Some(pendingPrefix.value + pendingCode.value);
      pendingPrefix := None;
    }
    if Truthy(pendingPrefixDesc) {
      pendingDesc := Some(Strip(pendingPrefixDesc.value + " " + pendingDesc.value));
      pendingPrefixDesc := None;
    }
  }

  /**
   * The body of the second loop of `parse` (omnia.py:104-219) for one line:
   * the pending variables after it and the item it appends, if any. The
   * chain of tests that picks the branch is `Classify`.
   */
  method ParseLine(prefix: Option<string>, code: Option<string>, desc: Option<string>,
                   prefixDesc: Option<string>, line: string)
    returns (pendingPrefix: Option<string>, pendingCode: Option<string>, pendingDesc: Option<string>,
             pendingPrefixDesc: Option<string>, item: Option<LineItem>)
    ensures (Pending(pendingPrefix, pendingCode, pendingDesc, pendingPrefixDesc), item)
            == Step(Pending(prefix, code, desc, prefixDesc), line)
  {
    var p := Pending(prefix, code, desc, prefixDesc);
    pendingPrefix, pendingCode, pendingDesc, pendingPrefixDesc := prefix, code, desc, prefixDesc;
    item := None;
    var kind := Classify(p, line);
    match kind
    case Header =>
    case PrefixOnly =>
      pendingPrefix := Some(line);
      pendingCode := None;
      pendingDesc := None;
      pendingPrefixDesc := None;
    case FullRow(row) =>
      StepOfFullRow(p, line, row);
      pendingPrefix, pendingCode, pendingDesc, pendingPrefixDesc, item :=
        ParseFullRow(pendingPrefix, pendingCode, pendingDesc, pendingPrefixDesc, row);
    case LongNumber =>
      pendingCode := Some(pendingPrefix.value + line);
      pendingDesc := pendingPrefixDesc;
      pendingPrefix := None;
      pendingPrefixDesc := None;
    case Quantity(t) =>
      StepOfQuantity(p, line, t);
      item := Some(ItemOf(pendingCode.value, pendingDesc.value, t));
      pendingCode := None;
      pendingDesc := None;
    case CodeLine(token, rest) =>
      StepOfCodeLine(p, line, token, rest);
      pendingPrefix, pendingCode, pendingDesc, pendingPrefixDesc :=
        ParseCodeLine(pendingPrefix, pendingCode, pendingDesc, pendingPrefixDesc, token, rest);
    case Other =>
      StepOfOther(p, line);
      if Truthy(pendingCode) && Truthy(pendingDesc) {
        if !IsHeaderLine(line) {
          pendingDesc := Some(Strip(pendingDesc.value + " " + line));
        }
      }
  }

  /** The second loop of `parse` (omnia.py:96-219): the items the lines yield. */
  method CollectItems(lines: seq<string>) returns (items: seq<LineItem>)
    ensures items == Run(Idle, lines).1
  {
    items := [];
    var pendingPrefix: Option<string> := None;
    var pendingCode: Option<string> := None;
    var pendingDesc: Option<string> := None;
    var pendingPrefixDesc: Option<string> := None;

    for i := 0 to |lines|
      invariant Run(Idle, lines[..i]) == (Pending(pendingPrefix, pendingCode, pendingDesc, pendingPrefixDesc), items)
    {
      RunSnoc(Idle, lines, i);
      var item;
      pendingPrefix, pendingCode, pendingDesc, pendingPrefixDesc, item :=
        ParseLine(pendingPrefix, pendingCode, pendingDesc, pendingPrefixDesc, lines[i]);
      if item.Some? {
        items := items + [item.value];
      }
      assert items == Run(Idle, lines[..i]).1 + Emitted(item);
    }
    assert lines[..|lines|] == lines;
  }

  /** `OmniaParser.parse(pages, tables, options)`; tables and options are not consulted. */
  method Parse(pages: seq<string>) returns (res: ParseResult)
    ensures res == ParseSpec(pages)
  {
    var lines := FlattenPages(pages);
    var items := CollectItems(lines);
    var warnings: seq<string> := [];
    if items == [] {
      warnings := warnings + [NoItemsWarning];
      assert warnings == [NoItemsWarning];
    }
    res := ParseResult(OmniaHeader, items, warnings);
  }
}
