# pdf2xlsx_enterprise core, modelled in Dafny

`pdf2xlsx_enterprise` turns supplier invoices into rows of an Excel template. This project models and verifies four parts of it.

- **The Omnia invoice parser** (`parsers/omnia.py`):
  - `clean_number`, `_is_header_line` and `can_parse`;
  - the five line patterns, written as hand-made matchers;
  - the line-folding state machine of `OmniaParser.parse`, with its four pending variables (`pending_prefix`, `pending_code`, `pending_desc`, `pending_prefix_desc`).

  The loops of `parse` are imperative methods in module `Omnia`. Each is proved equal to a fold (`OmniaSteps.Run`) of one step function over the lines. The rules of the loop body are proved one at a time as lemmas about that fold (`OmniaProps`), and so are the worked examples of the class's doc comment (`OmniaExamples`).
- **Whitespace and money normalisation** (`utils.py`): `normalize_ws` and `money_to_str`.
- **The supplier registry** (`parsers/registry.py`, with `bootstrap` from `parsers/__init__.py`):
  - a `Registry` class whose `entries` map is the `_REGISTRY` dictionary and whose `order` field is the dictionary's insertion order;
  - the two suppliers are a closed datatype.
- **The template-grid logic of `write_items_to_template`** (`xlsx_writer.py`):
  - the header-row search, the header-to-column map, the "clear until the first empty row" loop and the row-by-row write;
  - these are methods of a `Worksheet` class over its cells, each proved equal to a function whose properties are lemmas.

Modules, one per file:

| file | module | models |
|---|---|---|
| types.dfy | `Types` | `LineItem`, `ParseResult`, `getattr` on an item |
| text.dfy | `Text` | `normalize_ws`, `money_to_str`, `str.strip` |
| omnia_patterns.dfy | `OmniaPatterns` | `clean_number`, `_is_header_line`, `can_parse`, the line patterns |
| omnia_pattern_props.dfy | `OmniaPatternProps` | their properties; soundness and completeness of the matchers |
| omnia_steps.dfy | `OmniaSteps` | the pending state, the branch a line takes, one step, the fold, page flattening |
| omnia.dfy | `Omnia` | `parse` as imperative loops |
| omnia_props.dfy | `OmniaProps` | the rules of the loop body and what `parse` returns |
| omnia_examples.dfy | `OmniaExamples` | the doc comment's four layouts and a one-line item with a digit in its name, on their literal lines |
| parsers.dfy | `Parsers` | the Omnia and generic parsers as one datatype |
| registry.dfy | `Registry` | `_REGISTRY`, `register`, `get`, `all_parsers`, `bootstrap` |
| xlsx_writer.dfy | `XlsxWriter` | `DEFAULT_MAPPING`, `_find_header_row`, the grid logic of `write_items_to_template` |

## Where the code does not do what its comments say

The model follows the code in both cases below.

- **`clean_number("1.234,56")`.** The docstring promises numbers in the form `"1234.56"` (`omnia.py:13`), and the comment at `omnia.py:22` lists `"1.234,56"` among the inputs handled. The code deletes every comma once both separators occur (`omnia.py:23-25`), so it returns `"1.23456"`. `OmniaPatternProps.CleanNumberDotThenComma` proves the general case: `a.b,c` gives `a.bc`.
- **A prefix-only line clears `pending_prefix_desc`.** The comment at `omnia.py:114` says not to clear `pending_prefix_desc` there, and the next line, `omnia.py:115`, sets it to `None`. The model clears it (`OmniaSteps.Step`, branch `PrefixOnly`), and `OmniaProps.PrefixOnlyLineStarts` states that a prefix-only line leaves only the new prefix pending.

## Behaviour worth knowing

- **The split-code example.** The doc comment's code line is `"9161.167 D.35.8 SHOWER"` (`omnia.py:42`), and no rule drops its leading digits. `OmniaExamples.VenExample` proves that the three lines give the item `"VEN-9161.167"`.
- **No bound, no abandonment, no warning for a pending row.** `parse` puts no bound on the pending description and never abandons a pending row. It issues no warning for a row still pending at the end of the input; such a row is silently dropped (`omnia.py:104-224`). `OmniaProps.ParseSpecWarnings` shows that the warnings depend only on whether items were found.
- **A code-shaped first token restarts the pending row.** Such a line, for example `"40W ..."`, does not continue the buffered description (`omnia.py:182-210`). `OmniaProps.CodeLineRestarts` states this.

## Model

| member | source | states |
|---|---|---|
| Types.FieldByName | src/pdf2xlsx_enterprise/xlsx_writer.py:65 | `getattr(it, attr, "")` is `""` for a name that is not one of the seven `LineItem` fields |
| Text.TrimLeft | src/pdf2xlsx_enterprise/utils.py:5 | `lstrip` returns a suffix of its input that does not start with whitespace, and shortens any input that does |
| Text.TrimRight | src/pdf2xlsx_enterprise/utils.py:5 | `rstrip` returns a prefix of its input that does not end with whitespace |
| Text.TrimLeftRemovesWs | src/pdf2xlsx_enterprise/utils.py:5 | everything `lstrip` removes is whitespace |
| Text.TrimRightRemovesWs | src/pdf2xlsx_enterprise/utils.py:5 | everything `rstrip` removes is whitespace |
| Text.StripUntrimmed | src/pdf2xlsx_enterprise/utils.py:5 | `strip` leaves a string without whitespace at its ends unchanged |
| Text.StripKeepsText | src/pdf2xlsx_enterprise/utils.py:5 | `strip` of a string holding a non-whitespace character is not empty |
| Text.Collapse | src/pdf2xlsx_enterprise/utils.py:5 | `re.sub(r"\s+", " ", s)` leaves ' ' as the only whitespace and no two adjacent spaces; the result is empty iff the input is, starts with a space iff the input starts with whitespace, and is no longer than the input |
| Text.CollapseFixesCollapsed | src/pdf2xlsx_enterprise/utils.py:5 | the substitution leaves an already collapsed string unchanged |
| Text.StripCollapsedIsNormal | src/pdf2xlsx_enterprise/utils.py:5 | stripping a collapsed string gives a normal one: collapsed, with no space at either end |
| Text.NormalizeWs | src/pdf2xlsx_enterprise/utils.py:4-5 | the output of `normalize_ws` has no whitespace at either end, no two consecutive spaces, no whitespace other than ' ', and is no longer than the input |
| Text.NormalizeWsFixesNormal | src/pdf2xlsx_enterprise/utils.py:4-5 | a normal string is its own normalisation |
| Text.NormalizeWsIdempotent | src/pdf2xlsx_enterprise/utils.py:4-5 | normalising twice equals normalising once |
| Text.RemoveWsAppend | src/pdf2xlsx_enterprise/utils.py:5 | deleting whitespace distributes over concatenation |
| Text.RemoveWsTrimLeft | src/pdf2xlsx_enterprise/utils.py:5 | `lstrip` keeps the non-whitespace characters in order |
| Text.RemoveWsTrimRight | src/pdf2xlsx_enterprise/utils.py:5 | `rstrip` keeps the non-whitespace characters in order |
| Text.RemoveWsCollapse | src/pdf2xlsx_enterprise/utils.py:5 | the substitution keeps the non-whitespace characters in order |
| Text.NormalizeWsKeepsText | src/pdf2xlsx_enterprise/utils.py:4-5 | deleting all whitespace from the input and from the output of `normalize_ws` gives the same string |
| Text.RemoveWsAllWs | src/pdf2xlsx_enterprise/utils.py:5 | a string loses every character to whitespace deletion iff it is all whitespace |
| Text.NormalizeWsEmptyIff | src/pdf2xlsx_enterprise/utils.py:4-5 | `normalize_ws` returns `""` iff its input is all whitespace; this is how `parse` drops blank lines |
| Text.MoneyToStr | src/pdf2xlsx_enterprise/utils.py:7-9 | `money_to_str` has the length of `normalize_ws`, holds no comma and is normal |
| Text.MoneyToStrAt | src/pdf2xlsx_enterprise/utils.py:7-9 | each character of `money_to_str` is that of `normalize_ws` with ',' replaced by '.' |
| Text.MoneyToStrIdempotent | src/pdf2xlsx_enterprise/utils.py:7-9 | `money_to_str` applied twice equals applying it once |
| Text.ReplaceRemoves | src/pdf2xlsx_enterprise/utils.py:9 | after `.replace(a, b)` with a different `b`, no `a` is left |
| Text.ReplaceKeepsNormal | src/pdf2xlsx_enterprise/utils.py:9 | replacing one non-whitespace character by another keeps a string normal |
| Text.ReplaceAbsent | src/pdf2xlsx_enterprise/utils.py:9 | replacing a character that does not occur changes nothing |
| OmniaPatterns.KeepNumChars | src/pdf2xlsx_enterprise/parsers/omnia.py:16 | `re.sub(r"[^0-9,\.]", "", s)` keeps only digits, ',' and '.', and never lengthens |
| OmniaPatterns.RemoveChar | src/pdf2xlsx_enterprise/parsers/omnia.py:25 | `s.replace(",", "")` never lengthens |
| OmniaPatterns.RemoveCharNumChars | src/pdf2xlsx_enterprise/parsers/omnia.py:25 | removing a character from a numeric string leaves a numeric string without it |
| OmniaPatterns.CountZero | src/pdf2xlsx_enterprise/parsers/omnia.py:19 | `s.count(c) == 0` iff `c` does not occur in `s` |
| OmniaPatterns.CleanNumber | src/pdf2xlsx_enterprise/parsers/omnia.py:11-27 | `clean_number` returns only digits, ',' and '.'; never both separators; never a lone comma without a dot; nothing longer than its input; and `""` for `""` |
| OmniaPatterns.Lower | src/pdf2xlsx_enterprise/parsers/omnia.py:82 | `lower()` keeps the length |
| OmniaPatterns.LowerAt | src/pdf2xlsx_enterprise/parsers/omnia.py:82 | `lower()` lowers each character on its own |
| OmniaPatterns.DigitsEndRun | src/pdf2xlsx_enterprise/parsers/omnia.py:65 | `\d+` takes the maximal run of digits |
| OmniaPatterns.NumsEndRun | src/pdf2xlsx_enterprise/parsers/omnia.py:66-67 | `[\d.,]+` takes the maximal run of digits, ',' and '.' |
| OmniaPatterns.CodeCharsEndRun | src/pdf2xlsx_enterprise/parsers/omnia.py:56 | `[A-Z0-9\-\./]` is matched over the maximal run of code characters |
| OmniaPatterns.UpperEndRun | src/pdf2xlsx_enterprise/parsers/omnia.py:189 | `[A-Z]{2,8}` is matched over the maximal run of capitals |
| OmniaPatterns.PriceSepLen | src/pdf2xlsx_enterprise/parsers/omnia.py:66 | `\s*€\s+` on a normalised line is exactly "€ " or " € ", or absent |
| OmniaPatterns.LazyDescEnd | src/pdf2xlsx_enterprise/parsers/omnia.py:57 | the lazy description stops at or after its start, and where it stops before the end a space and a whole numeric tail follow |
| OmniaPatterns.FirstSpace | src/pdf2xlsx_enterprise/parsers/omnia.py:182 | `line.split(" ", 1)` splits at a space, or not at all |
| OmniaPatterns.FirstSpaceIsFirst | src/pdf2xlsx_enterprise/parsers/omnia.py:182 | the split is at the first space |
| OmniaPatterns.SplitMergedPrefix | src/pdf2xlsx_enterprise/parsers/omnia.py:189 | a match of `(?P<prefix>[A-Z]{2,8}-)(?P<word>[A-Z]{2,})` splits the token into a prefix-only code and a word of two or more capitals |
| OmniaPatternProps.SplitMergedPrefixComplete | src/pdf2xlsx_enterprise/parsers/omnia.py:189 | conversely, every token made of such a prefix and word matches, with those groups |
| OmniaPatternProps.KeepNumCharsFixes | src/pdf2xlsx_enterprise/parsers/omnia.py:16 | the substitution leaves a numeric string unchanged |
| OmniaPatternProps.NumCharsKept | src/pdf2xlsx_enterprise/parsers/omnia.py:15-16 | strip followed by the substitution leaves a numeric string unchanged |
| OmniaPatternProps.CleanNumberOneSeparatorKind | src/pdf2xlsx_enterprise/parsers/omnia.py:18-25 | the output of `clean_number` never holds both ',' and '.' |
| OmniaPatternProps.CleanNumberIdempotent | src/pdf2xlsx_enterprise/parsers/omnia.py:11-27 | `clean_number` applied twice equals applying it once |
| OmniaPatternProps.CleanNumberFixes | src/pdf2xlsx_enterprise/parsers/omnia.py:11-27 | its fixed points are exactly the shapes it returns |
| OmniaPatternProps.CleanNumberOneComma | src/pdf2xlsx_enterprise/parsers/omnia.py:19-20 | one comma and no dot: the comma becomes a dot |
| OmniaPatternProps.CleanNumberTwoSeparators | src/pdf2xlsx_enterprise/parsers/omnia.py:23-25 | both separators present: every comma is removed |
| OmniaPatternProps.CleanNumberDecimalComma | src/pdf2xlsx_enterprise/parsers/omnia.py:19-20 | `"1,23"` shaped: `a,b` gives `a.b` |
| OmniaPatternProps.CleanNumberDotThenComma | src/pdf2xlsx_enterprise/parsers/omnia.py:23-25 | `"1.234,56"` shaped: `a.b,c` gives `a.bc` |
| OmniaPatternProps.CleanNumberCommaThenDot | src/pdf2xlsx_enterprise/parsers/omnia.py:23-25 | `"1,234.56"` shaped: `a,b.c` gives `ab.c` |
| OmniaPatternProps.CountHitsIsHitSet | src/pdf2xlsx_enterprise/parsers/omnia.py:84 | the hit count equals the number of distinct vocabulary words occurring in the line |
| OmniaPatternProps.IsHeaderLineIff | src/pdf2xlsx_enterprise/parsers/omnia.py:80-85 | `_is_header_line` holds iff at least 3 of the 8 words occur as substrings of the lower-cased line |
| OmniaPatternProps.LowerAppend | src/pdf2xlsx_enterprise/parsers/omnia.py:77 | `lower()` distributes over concatenation |
| OmniaPatternProps.ContainsAcrossBreak | src/pdf2xlsx_enterprise/parsers/omnia.py:77-78 | a word without a newline occurs in `a + "\n" + b` iff it occurs in `a` or in `b` |
| OmniaPatternProps.MentionsAcrossBreak | src/pdf2xlsx_enterprise/parsers/omnia.py:78 | the three markers occur across a page break iff they occur in one of the pages |
| OmniaPatternProps.CanParseIff | src/pdf2xlsx_enterprise/parsers/omnia.py:76-78 | `can_parse` holds iff some lower-cased page contains "omniacomponents", "26vin" or "product code" |
| OmniaPatternProps.MatchTailAtSound | src/pdf2xlsx_enterprise/parsers/omnia.py:64-68 | what the tail matcher returns is a whole numeric tail with those groups |
| OmniaPatternProps.MatchTailWith | src/pdf2xlsx_enterprise/parsers/omnia.py:64-68 | a tail with a given separator and ending is matched, with its own groups |
| OmniaPatternProps.MatchTailComplete | src/pdf2xlsx_enterprise/parsers/omnia.py:64-68 | every whole numeric tail is matched with its own groups; with `MatchTailAtSound`, a match yields `t` iff the line is a tail with groups `t` |
| OmniaPatternProps.LazyDescEndLeast | src/pdf2xlsx_enterprise/parsers/omnia.py:57 | `.+?` is lazy: any position followed by a space and a whole tail is at or after where the description stops |
| OmniaPatternProps.MatchFullRowSound | src/pdf2xlsx_enterprise/parsers/omnia.py:55-61 | a full-row match is a code token, a space, a non-empty description, a space and a whole numeric tail with the row's groups |
| OmniaPatternProps.MatchFullRowComplete | src/pdf2xlsx_enterprise/parsers/omnia.py:55-61 | every line laid out as a full row is matched, with that row's code and a description no longer than its; when the description is as long, the match is that very row (the lazy `.+?` picks the shortest description) |
| OmniaPatternProps.MatchFullRowIff | src/pdf2xlsx_enterprise/parsers/omnia.py:55-61 | a line is matched as a full row exactly when it can be laid out as code token, space, description, space and whole numeric tail |
| OmniaSteps.Classify | src/pdf2xlsx_enterprise/parsers/omnia.py:104-217 | the branch a line takes is tried in the source's order; the numeric-code branch needs a pending prefix and prefix description, and the quantity branch needs a pending code and description |
| OmniaSteps.FirstBreak | src/pdf2xlsx_enterprise/parsers/omnia.py:91 | the first line of `splitlines()` ends at the first line boundary |
| OmniaSteps.SplitLinesNoBreaks | src/pdf2xlsx_enterprise/parsers/omnia.py:91 | no line of `splitlines()` holds a line boundary |
| OmniaSteps.SplitLinesText | src/pdf2xlsx_enterprise/parsers/omnia.py:91 | the lines of `splitlines()` run together are the page with its line boundaries deleted, so no character other than a boundary is lost, added or moved |
| OmniaSteps.SplitLinesJoin | src/pdf2xlsx_enterprise/parsers/omnia.py:91 | on a page whose only boundary is "\n" and that does not end with one, joining the lines with "\n" gives the page back |
| OmniaSteps.KeepLines | src/pdf2xlsx_enterprise/parsers/omnia.py:91-94 | a page yields at most one kept line per raw line |
| OmniaSteps.KeepLinesSnoc | src/pdf2xlsx_enterprise/parsers/omnia.py:91-94 | each raw line is kept, normalised, exactly when its normalisation is not empty |
| OmniaSteps.KeepLinesNormal | src/pdf2xlsx_enterprise/parsers/omnia.py:91-94 | every kept line is non-empty and normal |
| OmniaSteps.FlattenLinesNormal | src/pdf2xlsx_enterprise/parsers/omnia.py:88-94 | every line `parse` folds over is non-empty and normal |
| OmniaSteps.RunSnoc | src/pdf2xlsx_enterprise/parsers/omnia.py:104 | the fold over one more line is one more step |
| Omnia.KeepPageLines | src/pdf2xlsx_enterprise/parsers/omnia.py:91-94 | the inner flattening loop keeps exactly `KeepLines` of the page |
| Omnia.FlattenPages | src/pdf2xlsx_enterprise/parsers/omnia.py:88-94 | the flattening loops produce exactly `FlattenLines` of the pages |
| Omnia.ParseFullRow | src/pdf2xlsx_enterprise/parsers/omnia.py:118-149 | the imperative full-row branch sets the pending variables and emits the item as `FullRowStep` says |
| Omnia.ParseCodeLine | src/pdf2xlsx_enterprise/parsers/omnia.py:181-210 | the imperative code-line branch sets the pending variables as `CodeLineStep` says and emits nothing |
| Omnia.ParseLine | src/pdf2xlsx_enterprise/parsers/omnia.py:104-219 | one pass of the loop body is exactly `Step` |
| Omnia.CollectItems | src/pdf2xlsx_enterprise/parsers/omnia.py:96-219 | the loop over the lines appends exactly the items of the fold `Run(Idle, lines)` |
| Omnia.Parse | src/pdf2xlsx_enterprise/parsers/omnia.py:87-224 | `parse` returns `ParseSpec(pages)` |
| OmniaProps.RunAppend | src/pdf2xlsx_enterprise/parsers/omnia.py:104 | folding `a + b` is folding `b` from the state `a` leaves, with the items concatenated |
| OmniaProps.RunItemsBound | src/pdf2xlsx_enterprise/parsers/omnia.py:136-176 | each line adds at most one item |
| OmniaProps.FullRowWellFormed | src/pdf2xlsx_enterprise/parsers/omnia.py:118-149 | a full row with a code token and a non-empty description emits an item with a non-empty code and name, and an empty customs code and weight |
| OmniaProps.StepWellFormed | src/pdf2xlsx_enterprise/parsers/omnia.py:104-219 | on a normal line every emitted item has a non-empty code and name, and `customs_code == weight_g == ""` |
| OmniaProps.RunWellFormed | src/pdf2xlsx_enterprise/parsers/omnia.py:104-219 | the same for every item the fold emits |
| OmniaProps.HeaderLineSkipped | src/pdf2xlsx_enterprise/parsers/omnia.py:105-107 | a header line changes no pending variable and emits nothing |
| OmniaProps.PrefixOnlyLineStarts | src/pdf2xlsx_enterprise/parsers/omnia.py:109-116 | a line `[A-Z]{2,8}-` becomes the pending prefix and clears the other three variables |
| OmniaProps.QuantityLineEmits | src/pdf2xlsx_enterprise/parsers/omnia.py:159-179 | a quantity line emits exactly when code and description are pending; the item carries them and the cleaned numbers; they are cleared, and the prefix and prefix description survive |
| OmniaProps.TailStartsWithDigits | src/pdf2xlsx_enterprise/parsers/omnia.py:64-71 | a quantity line is neither a prefix-only line nor a bare long number |
| OmniaProps.OtherLineContinues | src/pdf2xlsx_enterprise/parsers/omnia.py:212-219 | any other line is appended to the pending description with one space when code and description are pending, and is ignored otherwise |
| OmniaProps.CodeLineRestarts | src/pdf2xlsx_enterprise/parsers/omnia.py:181-210 | a code-shaped first token emits nothing and discards the pending code and description: the step is the same as with neither pending |
| OmniaProps.ClassifyIgnoresRow | src/pdf2xlsx_enterprise/parsers/omnia.py:104-210 | only the quantity branch depends on the pending code and description |
| OmniaProps.LongNumberJoinsPrefix | src/pdf2xlsx_enterprise/parsers/omnia.py:151-157 | a line of 6 or more digits after a merged prefix becomes the pending code, prefixed, with the prefix description as the pending description |
| OmniaProps.LongNumberIsNoHeader | src/pdf2xlsx_enterprise/parsers/omnia.py:80-85 | a line of digits is never a header line |
| OmniaProps.NoWordInDigits | src/pdf2xlsx_enterprise/parsers/omnia.py:84 | a word starting with a non-digit does not occur in a line of digits |
| OmniaProps.CountHitsNone | src/pdf2xlsx_enterprise/parsers/omnia.py:84 | no word occurring gives no hits |
| OmniaProps.RunOne | src/pdf2xlsx_enterprise/parsers/omnia.py:104 | folding one line is one step |
| OmniaProps.RunTwo | src/pdf2xlsx_enterprise/parsers/omnia.py:104 | folding two lines chains two one-line folds |
| OmniaProps.RunThree | src/pdf2xlsx_enterprise/parsers/omnia.py:104 | folding three lines chains three one-line folds |
| OmniaProps.RunEmitsLast | src/pdf2xlsx_enterprise/parsers/omnia.py:104 | three steps of which only the last emits give that one item |
| OmniaProps.CodeLineAfterPrefix | src/pdf2xlsx_enterprise/parsers/omnia.py:189-204 | after a prefix-only line, a code line whose token is not a merged prefix gets the prefix glued to its token, with the rest of the line as the pending description, and the prefix is cleared |
| OmniaProps.PrefixThenCodeSteps | src/pdf2xlsx_enterprise/parsers/omnia.py:109-204 | a prefix line, then a code line whose token is not a merged prefix, leave the prefixed code and the rest as the pending description |
| OmniaProps.QuantityAfterCodeStep | src/pdf2xlsx_enterprise/parsers/omnia.py:159-179 | a quantity line after a pending code and description emits them and leaves nothing pending |
| OmniaProps.PrefixLineThenCodeLine | src/pdf2xlsx_enterprise/parsers/omnia.py:40-43 | prefix line, code line whose token is not a merged prefix, quantity line: one item whose code is prefix + token and whose name is the rest of the code line, and nothing pending |
| OmniaProps.MergedPrefixSteps | src/pdf2xlsx_enterprise/parsers/omnia.py:187-196 | a merged token such as "SS-POIGNEE" sets the prefix and the prefix description, and the following long number becomes the code |
| OmniaProps.MergedPrefixThenNumber | src/pdf2xlsx_enterprise/parsers/omnia.py:44-48 | merged token, long number, quantity line: one item with code prefix + number and the word joined to the rest as name |
| OmniaProps.FullRowAlone | src/pdf2xlsx_enterprise/parsers/omnia.py:35-36 | a full row read with nothing pending emits its item and leaves nothing pending |
| OmniaProps.CodeLineThenQuantity | src/pdf2xlsx_enterprise/parsers/omnia.py:37-39 | a code line and then a quantity line, with nothing pending, emit one item with the token as code and the rest as name |
| OmniaProps.MatchFullRowParts | src/pdf2xlsx_enterprise/parsers/omnia.py:55-57 | on a normal line, a full-row match has a code token and a description that starts with a non-whitespace character |
| OmniaProps.ParseSpecItems | src/pdf2xlsx_enterprise/parsers/omnia.py:87-224 | `parse` returns at most one item per kept line, each with a non-empty code and name and empty customs code and weight |
| OmniaProps.ParseSpecWarnings | src/pdf2xlsx_enterprise/parsers/omnia.py:221-224 | the header is `{"supplier": "omnia"}`; exactly the one warning when no item was found, none otherwise |
| OmniaExamples.OneLineExample | src/pdf2xlsx_enterprise/parsers/omnia.py:35-36 | `"125709 LAMP ... 100 PZ 1.15 € 115.00 €"` gives one item (125709, LAMP ..., 100, 1.15, 115.00) |
| OmniaExamples.DigitInDescriptionExample | src/pdf2xlsx_enterprise/parsers/omnia.py:55-61 | `"125709 LAMP COVER 40W 100 PZ 1.15 € 115.00 €"` gives the item with name "LAMP COVER 40W": the lazy description runs past the digits of "40W", which no " PZ " follows |
| OmniaExamples.TwoLineExample | src/pdf2xlsx_enterprise/parsers/omnia.py:37-39 | the same item split over a code line and a quantity line |
| OmniaExamples.VenExample | src/pdf2xlsx_enterprise/parsers/omnia.py:40-43 | `"VEN-"`, `"9161.167 D.35.8 SHOWER"`, `"1 PZ 1.95 € 1.95 €"` give one item, code "VEN-9161.167", name "D.35.8 SHOWER", 1, 1.95, 1.95 |
| OmniaExamples.SsExample | src/pdf2xlsx_enterprise/parsers/omnia.py:44-48 | `"SS-POIGNEE EQUIPEE C&S MULTI"`, `"2230002839"`, `"2 PZ 8.82 € 17.63 €"` give one item, code "SS-2230002839", name "POIGNEE EQUIPEE C&S MULTI", 2, 8.82, 17.63 |
| OmniaExamples.MatchFullRowOfSlices | src/pdf2xlsx_enterprise/parsers/omnia.py:55-61 | a line laid out as code token, description and whole tail is matched as a full row with exactly those groups, given a non-digit at some `m` with `m + 2 < z`, no `Z` before `z`, and no space in the description at or after `m` (so no earlier tail can start) |
| Parsers.SupplierKey | src/pdf2xlsx_enterprise/parsers/omnia.py:51 | every parser has a non-empty `supplier_key` |
| Parsers.SupplierKeyInjective | src/pdf2xlsx_enterprise/parsers/generic.py:7 | the two parsers have different keys |
| Parsers.ParserCanParse | src/pdf2xlsx_enterprise/parsers/generic.py:10-11 | the generic parser accepts everything; the Omnia parser accepts exactly what `can_parse` accepts |
| Parsers.ParserParse | src/pdf2xlsx_enterprise/parsers/generic.py:13-15 | the generic parser returns no items, the one fixed warning and the header `{"source": "generic"}`; the Omnia parser returns the header `{"supplier": "omnia"}` |
| Registry.StrLessIrreflexive | src/pdf2xlsx_enterprise/parsers/registry.py:17 | the order `sorted` uses on keys is irreflexive |
| Registry.StrLessTotal | src/pdf2xlsx_enterprise/parsers/registry.py:17 | it is total on distinct keys |
| Registry.StrLessTransitive | src/pdf2xlsx_enterprise/parsers/registry.py:17 | it is transitive |
| Registry.KeysOf | src/pdf2xlsx_enterprise/parsers/registry.py:8 | the keys of a list of parsers, one per parser |
| Registry.Registry.constructor | src/pdf2xlsx_enterprise/parsers/registry.py:5 | `_REGISTRY` starts empty |
| Registry.Registry.Register | src/pdf2xlsx_enterprise/parsers/registry.py:7-9 | `register(p)` files `p` under its key, replacing any earlier parser there, and leaves every other key unchanged; a new key goes last in insertion order |
| Registry.Registry.Get | src/pdf2xlsx_enterprise/parsers/registry.py:11-14 | `get` returns the parser filed under the key, whose own key it is, or the `KeyError` message listing the available keys; it changes nothing |
| Registry.Registry.AllParsers | src/pdf2xlsx_enterprise/parsers/registry.py:16-17 | `all_parsers` returns exactly one parser per registered key, the one filed there, in strictly ascending key order |
| Registry.Registry.Bootstrap | src/pdf2xlsx_enterprise/parsers/__init__.py:5-8 | `bootstrap` registers the Omnia parser and then the generic one: both keys are filed with their parsers, and each key not registered before joins the insertion order, `"omnia"` before `"generic"` |
| Registry.Insert | src/pdf2xlsx_enterprise/parsers/registry.py:17 | inserting a key into an ascending list keeps it ascending and adds exactly that key |
| Registry.AscendingDistinctSize | src/pdf2xlsx_enterprise/parsers/registry.py:17 | an ascending list of exactly the keys of a map has one entry per key |
| Registry.BootstrapScenario | tests/test_registry.py:4-8 | after `bootstrap`, `all_parsers` has at least two parsers and `get("omnia")` succeeds with key "omnia" |
| XlsxWriter.Labels | src/pdf2xlsx_enterprise/xlsx_writer.py:34 | `list(mapping.keys())` lists the labels in mapping order |
| XlsxWriter.DefaultMappingWellFormed | src/pdf2xlsx_enterprise/xlsx_writer.py:10-19 | `DEFAULT_MAPPING` has 7 distinct labels, each mapped to a `LineItem` field |
| XlsxWriter.ChosenMapping | src/pdf2xlsx_enterprise/xlsx_writer.py:33 | the mapping is the one in the options, or `DEFAULT_MAPPING` when it is missing or empty |
| XlsxWriter.RowValues | src/pdf2xlsx_enterprise/xlsx_writer.py:23 | a row's texts cover its columns 1 to `max_column` |
| XlsxWriter.FindHeaderRowFrom | src/pdf2xlsx_enterprise/xlsx_writer.py:22-26 | the search from row `r` returns -1 or a row between `r` and `scan_rows` |
| XlsxWriter.FindHeaderRowFromSpec | src/pdf2xlsx_enterprise/xlsx_writer.py:22-26 | the search from row `r` finds the first row holding every required header, and -1 iff there is none up to `scan_rows` |
| XlsxWriter.FindHeaderRowSpec | src/pdf2xlsx_enterprise/xlsx_writer.py:21-26 | `_find_header_row` returns the smallest row in `1..scan_rows` whose stripped cell texts contain every required header, and -1 iff there is none |
| XlsxWriter.ColumnsUpToSpec | src/pdf2xlsx_enterprise/xlsx_writer.py:42-46 | after `c` cells, the map holds exactly the labels among them, each at the rightmost of those cells that holds it |
| XlsxWriter.HeaderColumnsSpec | src/pdf2xlsx_enterprise/xlsx_writer.py:41-46 | `header_to_col` holds exactly the mapped labels in the header row, each at its rightmost column |
| XlsxWriter.HeaderColumnsDistinct | src/pdf2xlsx_enterprise/xlsx_writer.py:41-46 | different labels get different columns |
| XlsxWriter.HeaderRowMapsEveryLabel | src/pdf2xlsx_enterprise/xlsx_writer.py:36-46 | once a header row is found, every label has a column, so the lookups of the clear and write loops cannot fail |
| XlsxWriter.MappingColumns | src/pdf2xlsx_enterprise/xlsx_writer.py:36-46 | once a header row is found, every label of the mapping is mapped, to pairwise different columns |
| XlsxWriter.ClearEnd | src/pdf2xlsx_enterprise/xlsx_writer.py:54-56 | the clear loop stops at the first row whose first-mapped-column cell is `None` or `""`, or after `max_row`; every row before it is non-empty there |
| XlsxWriter.ClearRowIsCleared | src/pdf2xlsx_enterprise/xlsx_writer.py:57-58 | clearing one row empties exactly the mapped cells of that row |
| XlsxWriter.ClearEndIgnoresRowsAbove | src/pdf2xlsx_enterprise/xlsx_writer.py:54-56 | where the clear stops depends only on rows from the start on |
| XlsxWriter.ClearFromIsCleared | src/pdf2xlsx_enterprise/xlsx_writer.py:51-58 | the clear loop empties exactly the mapped cells of the rows from the start to where it stops |
| XlsxWriter.WriteRowSpec | src/pdf2xlsx_enterprise/xlsx_writer.py:63-65 | writing an item fills each mapped column of its row with the item's field, and changes no other cell |
| XlsxWriter.WriteAllSpec | src/pdf2xlsx_enterprise/xlsx_writer.py:60-66 | item `i` goes to row `start + i`, each mapped column getting its field, and no cell outside those rows and columns changes |
| XlsxWriter.WriteAllCell | src/pdf2xlsx_enterprise/xlsx_writer.py:60-66 | the cell of item `i` under label `j` holds that item's field |
| XlsxWriter.AfterClearSpec | src/pdf2xlsx_enterprise/xlsx_writer.py:50-58 | with clearing on, mapped cells from the start to where the loop stops are emptied and nothing else changes; with it off, nothing changes |
| XlsxWriter.TemplateWriteFails | src/pdf2xlsx_enterprise/xlsx_writer.py:36-38 | the write fails iff no row in `1..50` holds every label |
| XlsxWriter.TemplateWriteSteps | src/pdf2xlsx_enterprise/xlsx_writer.py:36-66 | a successful write is the header search, the column map, the optional clear and the write loop, from the row below the header |
| XlsxWriter.TemplateWriteItems | src/pdf2xlsx_enterprise/xlsx_writer.py:60-66 | item `i` lands in row `header_row + 1 + i`, each mapped column holding its field |
| XlsxWriter.TemplateWriteCell | src/pdf2xlsx_enterprise/xlsx_writer.py:60-66 | the same for one item and one label |
| XlsxWriter.TemplateWriteFrame | src/pdf2xlsx_enterprise/xlsx_writer.py:48-66 | cells in unmapped columns, and in rows at or above the header row, never change |
| XlsxWriter.TemplateWriteClears | src/pdf2xlsx_enterprise/xlsx_writer.py:50-66 | with clearing on, mapped cells of old rows below the new items, down to where the clear stopped, end up empty |
| XlsxWriter.Worksheet.constructor | src/pdf2xlsx_enterprise/xlsx_writer.py:31 | a sheet holds its cells within its extent |
| XlsxWriter.Worksheet.HeaderToCol | src/pdf2xlsx_enterprise/xlsx_writer.py:41-46 | the loop over the header cells builds exactly `HeaderColumns` of the header row |
| XlsxWriter.Worksheet.ClearExisting | src/pdf2xlsx_enterprise/xlsx_writer.py:51-58 | the clear loop with its `break` changes the cells exactly as `ClearFrom` says, keeping the sheet's extent |
| XlsxWriter.Worksheet.WriteItems | src/pdf2xlsx_enterprise/xlsx_writer.py:60-66 | the write loop changes the cells exactly as `WriteAll` says, and grows `max_row` to the last written row |
| XlsxWriter.Worksheet.WriteItemRow | src/pdf2xlsx_enterprise/xlsx_writer.py:63-65 | the inner loop writes one row as `WriteRow` says |
| XlsxWriter.WriteItemsToTemplate | src/pdf2xlsx_enterprise/xlsx_writer.py:28-66 | with no header row, the result is the `ValueError` message naming the chosen sheet (the options' `sheet_name`, or the first sheet when it is missing, null or empty) and no cell is written; otherwise the sheet holds `TemplateWrite` of the old cells with the chosen mapping and clear setting |
| XlsxWriter.DefaultOptionsClear | src/pdf2xlsx_enterprise/xlsx_writer.py:51-58 | with `clear_existing` missing from the options, old mapped cells below the new items, down to where the clear loop stops, end up empty |
| XlsxWriter.NoClearKeepsOtherRows | src/pdf2xlsx_enterprise/xlsx_writer.py:51-66 | with `clear_existing` null or false, every cell outside the rows the items are written to keeps its old value |
| XlsxWriter.TemplateWriteKeeps | src/pdf2xlsx_enterprise/xlsx_writer.py:60-66 | without the clear, only the rows below the header that the items are written to change |

## Left out

- Reading PDFs (`pdf_reader.py`), the command line (`cli.py`), the GUI (`gui.py`) and the orchestration in `convert.py` are not part of this model. `parse` and `can_parse` take the extracted pages as given strings. `convert.py` logs a rejected `can_parse` and parses anyway; that is not modelled.
- The `tables` and `options` arguments of `can_parse` and `parse` are not modelled: the code never reads them.
- `None` arguments (`s or ""`, `page or ""`) are not modelled: inputs are strings. The empty string, which is what `None` becomes, is covered.
- The regular-expression engine is not modelled; each of the five patterns is a hand-written matcher.
  - The full-row and quantity patterns are matched only on normalised lines, where `\s+` is one space. `parse` only ever sees such lines (`OmniaSteps.FlattenLinesNormal`).
  - `\d` and `[A-Z]` are ASCII.
  - `lower()` lowers ASCII letters only; other letters are left as they are.
  - Whitespace (`\s`, `strip`, `isspace`) and the line boundaries of `splitlines` use Python's full sets.
- `OmniaPatterns.LazyDescEnd`: its own contract does not say that it picks the first possible position. `OmniaPatternProps.LazyDescEndLeast` proves that separately.
- `OmniaSteps.Classify`: its contract states only the guards of the numeric-code and quantity branches. The other branches are stated by the `OmniaProps` lemmas (`HeaderLineSkipped`, `PrefixOnlyLineStarts`, `OtherLineContinues`, `CodeLineRestarts`).
- `Parsers.ParserParse`: for the Omnia parser it states only the header. Items and warnings are in `OmniaProps.ParseSpecItems` and `OmniaProps.ParseSpecWarnings`, and `Omnia.Parse` proves that `parse` computes `ParseSpec`.
- The abstract parser interface (`parsers/base.py`) is replaced by a closed datatype of the two parsers. `display_name` is a constant with no property to state.
- `_REGISTRY` is a module-level dictionary; here it is an instance of the `Registry` class. The test's `bootstrap` runs on a fresh instance.
- The `KeyError` of `get` is an error value carrying the message.
  - The message renders the key list as `['a', 'b']` without Python's escaping of quotes inside keys.
  - The `ValueError` of `write_items_to_template` is rendered the same way.
- The worksheet is modelled as a map from (row, column) to text, not as a 2-D array of optional strings.
  - A cell set to `None` is a missing key.
  - Cell values are strings, so `str(c.value)` of numbers or dates is not modelled.
  - openpyxl creates empty cells, and widens `max_row` and `max_column`, when a cell is merely read. That is not modelled; only writes widen the sheet.
- `load_workbook`, `wb.save`, the `KeyError` for an unknown sheet name and logging in `xlsx_writer.py` are not part of this model. The sheet is given.
- `XlsxWriter.WriteItemsToTemplate` and `XlsxWriter.Worksheet.WriteItemRow` store every field whole, as a plain string. openpyxl's cell assignment at `xlsx_writer.py:65` does two things they do not model:
  - it cuts a string longer than 32767 characters down to 32767, and a description can grow that long;
  - it raises `IllegalCharacterError` for a string holding a control character in `\x00`-`\x08`, `\x0b`, `\x0c` or `\x0e`-`\x1f`. `normalize_ws` keeps `\x00`-`\x08` and `\x0e`-`\x1b`, because they are not whitespace. There the program stops after the clear has run and saves nothing, while the model returns `Ok(())` with the whole field in the cell.
- `XlsxWriter.WriteItemsToTemplate` requires the mapping's labels to be distinct. A Python dict guarantees that by construction.
- `XlsxWriter.WriteItemsToTemplate` takes the sheet that `wb[sheet_name]` returns as given, together with the workbook's sheet names. That the two belong together is not modelled.
- Option values of other JSON types are not modelled: a `clear_existing` that is a number, a string or a list, or a `sheet_name` or `mapping` of the wrong type. `clear_existing` is missing, null, true or false; `sheet_name` is a string or absent; `mapping` is a mapping or absent.
- `Types.FieldByName`: it returns `""` for every name that is not one of the seven `LineItem` fields. Python's `getattr` would instead return attributes every object has, such as `__doc__` or `__class__`. The model assumes that mapping attributes are field names or names `LineItem` lacks.
