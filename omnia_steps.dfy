// What `OmniaParser.parse` computes (src/pdf2xlsx_enterprise/parsers/omnia.py:87-224):
// one step of the row reconstruction per line, folded over the flattened lines.
module OmniaSteps {
  import opened Types
  import opened Text
  import opened OmniaPatterns

  // ---------------------------------------------------------------------
  // The row reconstruction (omnia.py:87-224)

  /** The four pending variables of `parse`. */
  datatype Pending = Pending(
    prefix: Option<string>,
    code: Option<string>,
    desc: Option<string>,
    prefixDesc: Option<string>)

  const Idle := Pending(None, None, None, None)

  function ItemOf(code: string, name: string, t: Tail): LineItem {
    LineItem(code, name, "", "", CleanNumber(t.qty), CleanNumber(t.price), CleanNumber(t.total))
  }

  /** Branch 2: a full one-line item, with any pending prefix and prefix description folded in. */
  function FullRowStep(p: Pending, row: Row): (Pending, Option<LineItem>) {
    var code := if Truthy(p.prefix) then p.prefix.value + Strip(row.code) else Strip(row.code);
    var desc := if Truthy(p.prefixDesc) then Strip(p.prefixDesc.value + " " + Strip(row.desc)) else Strip(row.desc);
    (Pending(if Truthy(p.prefix) then None else p.prefix, None, None,
             if Truthy(p.prefixDesc) then None else p.prefixDesc),
     Some(ItemOf(code, desc, row.tail)))
  }

  /** Branch 3: a quantity line completes the buffered code and description. */
  function QuantityStep(p: Pending, t: Tail): (Pending, Option<LineItem>)
    requires Truthy(p.code) && Truthy(p.desc)
  {
    (Pending(p.prefix, None, None, p.prefixDesc), Some(ItemOf(p.code.value, p.desc.value, t)))
  }

  /** Branch 4: a line whose first token is code-shaped, split into `token` and `rest`. */
  function CodeLineStep(p: Pending, token: string, rest: string): (Pending, Option<LineItem>) {
    var merged := SplitMergedPrefix(token);
    // 4a) a merged prefix and first description word, such as "SS-POIGNEE"
    if merged.Some? && !HasDigit(token) then
      (Pending(Some(merged.value.0), None, None, Some(Strip(merged.value.1 + " " + rest))), None)
    else
      var code := if Truthy(p.prefix) then p.prefix.value + token else token;
      var desc := if Truthy(p.prefixDesc) then Strip(p.prefixDesc.value + " " + rest) else rest;
      (Pending(if Truthy(p.prefix) then None else p.prefix, Some(code), Some(desc),
               if Truthy(p.prefixDesc) then None else p.prefixDesc), None)
  }

  /** Branch 5: any other line continues the buffered description, unless it is a header. */
  function ContinueStep(p: Pending, line: string): (Pending, Option<LineItem>) {
    if Truthy(p.code) && Truthy(p.desc) then
      if !IsHeaderLine(line) then (p.(desc := Some(Strip(p.desc.value + " " + line))), None) else (p, None)
    else (p, None)
  }

  /** Whether `line.split(" ", 1)` gives two parts and the first is code-shaped. */
  predicate IsCodeLine(line: string) {
    FirstSpace(line) < |line| && IsCodeToken(line[..FirstSpace(line)])
  }

  /** `parts[0].strip()`: the code token of a code line. */
  function LineToken(line: string): string {
    Strip(line[..FirstSpace(line)])
  }

  /** `parts[1].strip()`: what follows the code token of a code line. */
  function LineRest(line: string): string {
    if FirstSpace(line) < |line| then Strip(line[FirstSpace(line) + 1..]) else ""
  }

  /** Which branch of the loop body in `parse` a line takes, with what it matched. */
  datatype LineKind =
    | Header                              // 0) skipped
    | PrefixOnly                          // 1) e.g. "VEN-"
    | FullRow(row: Row)                   // 2) a complete one-line item
    | LongNumber                          // 2.5) the numeric code after a merged prefix
    | Quantity(tail: Tail)                // 3) completes the buffered code and description
    | CodeLine(token: string, rest: string) // 4) starts a new code and description
    | Other                               // 5) continuation, or ignored

  /** The branch `line` takes from state `p`; the tests are tried in the source's order. */
  function Classify(p: Pending, line: string): (k: LineKind)
    ensures k.LongNumber? ==> Truthy(p.prefix) && Truthy(p.prefixDesc) && IsLongNumber(line)
    ensures k.Quantity? ==> Truthy(p.code) && Truthy(p.desc) && MatchTail(line) == Some(k.tail)
  {
    if IsHeaderLine(line) then Header
    else if IsPrefixOnly(line) then PrefixOnly
    else if MatchFullRow(line).Some? then FullRow(MatchFullRow(line).value)
    else if Truthy(p.prefix) && Truthy(p.prefixDesc) && IsLongNumber(line) then LongNumber
    else if MatchTail(line).Some? && Truthy(p.code) && Truthy(p.desc) then Quantity(MatchTail(line).value)
    else if IsCodeLine(line) then CodeLine(LineToken(line), LineRest(line))
    else Other
  }

  /**
   * One iteration of the loop in `parse`: the new pending state and the item
   * the line completes, if any.
   */
  function Step(p: Pending, line: string): (Pending, Option<LineItem>) {
    match Classify(p, line)
    case Header => (p, None)
    case PrefixOnly => (Pending(Some(line), None, None, None), None)
    case FullRow(row) => FullRowStep(p, row)
    case LongNumber => (Pending(None, Some(p.prefix.value + line), p.prefixDesc, None), None)
    case Quantity(t) => QuantityStep(p, t)
    case CodeLine(token, rest) => CodeLineStep(p, token, rest)
    case Other => ContinueStep(p, line)
  }

  // What `Step` does once the branch is known; each keeps the proofs that use
  // `Step` from unfolding the whole chain of tests.

  lemma StepOfFullRow(p: Pending, line: string, row: Row)
    requires Classify(p, line) == FullRow(row)
    ensures Step(p, line) == FullRowStep(p, row)
  {
  }

  lemma StepOfQuantity(p: Pending, line: string, t: Tail)
    requires Classify(p, line) == Quantity(t)
    ensures Step(p, line) == QuantityStep(p, t)
  {
  }

  lemma StepOfCodeLine(p: Pending, line: string, token: string, rest: string)
    requires Classify(p, line) == CodeLine(token, rest)
    ensures Step(p, line) == CodeLineStep(p, token, rest)
  {
  }

  lemma StepOfOther(p: Pending, line: string)
    requires Classify(p, line) == Other
    ensures Step(p, line) == ContinueStep(p, line)
  {
  }

  function Emitted(o: Option<LineItem>): seq<LineItem> {
    if o.Some? then [o.value] else []
  }

  /** The pending state and the items after folding `lines` through `Step` from `start`. */
  function Run(start: Pending, lines: seq<string>): (Pending, seq<LineItem>) {
    if lines == [] then (start, [])
    else
      var before := Run(start, lines[..|lines| - 1]);
      var after := Step(before.0, lines[|lines| - 1]);
      (after.0, before.1 + Emitted(after.1))
  }

  // ---------------------------------------------------------------------
  // Flattening the pages into lines (omnia.py:88-94)

  /** The line boundaries of `str.splitlines()`. */
  predicate IsLineBreak(c: char) {
    || '\n' <= c <= '\r'
    || '\U{1C}' <= c <= '\U{1E}'
    || c == '\U{85}' || c == '\U{2028}' || c == '\U{2029}'
  }

  function FirstBreak(s: string): (i: nat)
    ensures i <= |s| && (i < |s| ==> IsLineBreak(s[i])) && forall j :: 0 <= j < i ==> !IsLineBreak(s[j])
  {
    if s == [] || IsLineBreak(s[0]) then 0 else 1 + FirstBreak(s[1..])
  }

  /** `str.splitlines()`: "\r\n" is one boundary and a final boundary opens no line. */
  function SplitLines(s: string): seq<string>
    decreases |s|
  {
    if s == [] then []
    else
      var k := FirstBreak(s);
      if k == |s| then [s]
      else
        [s[..k]] + SplitLines(s[BreakEnd(s, k)..])
  }

  /** Where the next line starts after the boundary at `k`: past "\r\n" as one boundary. */
  function BreakEnd(s: string, k: nat): (next: nat)
    requires k < |s|
    ensures k < next <= |s|
    ensures next == k + 1 || (next == k + 2 && s[k] == '\r' && s[k + 1] == '\n')
  {
    if s[k] == '\r' && k + 1 < |s| && s[k + 1] == '\n' then k + 2 else k + 1
  }

  /** The lines, run together. */
  function Concat(lines: seq<string>): string {
    if lines == [] then "" else lines[0] + Concat(lines[1..])
  }

  /** The lines with `sep` between each two. */
  function Join(lines: seq<string>, sep: string): string {
    if lines == [] then ""
    else if |lines| == 1 then lines[0]
    else lines[0] + sep + Join(lines[1..], sep)
  }

  /** `s` with every line boundary deleted. */
  function RemoveBreaks(s: string): string {
    if s == [] then ""
    else (if IsLineBreak(s[0]) then "" else [s[0]]) + RemoveBreaks(s[1..])
  }

  lemma {:induction false} RemoveBreaksAppend(a: string, b: string)
    ensures RemoveBreaks(a + b) == RemoveBreaks(a) + RemoveBreaks(b)
    decreases |a|
  {
    if a == [] {
      assert a + b == b;
    } else {
      assert (a + b)[0] == a[0];
      assert (a + b)[1..] == a[1..] + b;
      RemoveBreaksAppend(a[1..], b);
    }
  }

  lemma {:induction false} RemoveBreaksNone(s: string)
    requires forall j :: 0 <= j < |s| ==> !IsLineBreak(s[j])
    ensures RemoveBreaks(s) == s
    decreases |s|
  {
    if s != [] {
      RemoveBreaksNone(s[1..]);
    }
  }

  /** The first line of `s` and the lines after its first boundary. */
  lemma SplitLinesStep(s: string) returns (k: nat, next: nat)
    requires FirstBreak(s) < |s|
    ensures k == FirstBreak(s) && next == BreakEnd(s, k) && SplitLines(s) == [s[..k]] + SplitLines(s[next..])
  {
    k := FirstBreak(s);
    next := BreakEnd(s, k);
  }

  lemma ConcatCons(x: string, rest: seq<string>)
    ensures Concat([x] + rest) == x + Concat(rest)
  {
    assert ([x] + rest)[1..] == rest;
  }

  lemma JoinCons(x: string, rest: seq<string>, sep: string)
    requires rest != []
    ensures Join([x] + rest, sep) == x + sep + Join(rest, sep)
  {
    assert ([x] + rest)[1..] == rest;
  }

  lemma Pieces(s: string, k: nat, n: nat)
    requires k <= n <= |s|
    ensures s == s[..k] + s[k..n] + s[n..]
  {
  }

  /** Deleting the boundaries of a page is deleting those of its three pieces. */
  lemma RemoveBreaksPieces(s: string, k: nat, n: nat)
    requires k <= n <= |s|
    ensures RemoveBreaks(s) == RemoveBreaks(s[..k]) + RemoveBreaks(s[k..n]) + RemoveBreaks(s[n..])
  {
    Pieces(s, k, n);
    RemoveBreaksAppend(s[..k] + s[k..n], s[n..]);
    RemoveBreaksAppend(s[..k], s[k..n]);
  }

  /** A boundary of one or two characters is deleted whole. */
  lemma RemoveBreaksBoundary(s: string, k: nat, n: nat)
    requires k < n <= |s| && IsLineBreak(s[k])
    requires n == k + 1 || (n == k + 2 && s[k + 1] == '\n')
    ensures RemoveBreaks(s[k..n]) == ""
  {
    var b := s[k..n];
    assert b[0] == s[k];
    if n == k + 2 {
      assert b[1..][0] == s[k + 1] && IsLineBreak(b[1..][0]);
      assert b[1..][1..] == [];
      assert RemoveBreaks(b[1..]) == "";
    } else {
      assert b[1..] == [];
    }
  }

  /**
   * `splitlines` loses only the boundaries: run together, the lines are the
   * page with its boundary characters deleted.
   */
  lemma {:induction false} SplitLinesText(s: string)
    ensures Concat(SplitLines(s)) == RemoveBreaks(s)
    decreases |s|
  {
    if s != [] {
      if FirstBreak(s) == |s| {
        RemoveBreaksNone(s);
      } else {
        var k, next := SplitLinesStep(s);
        ConcatCons(s[..k], SplitLines(s[next..]));
        SplitLinesText(s[next..]);
        RemoveBreaksPieces(s, k, next);
        RemoveBreaksNone(s[..k]);
        RemoveBreaksBoundary(s, k, next);
      }
    }
  }

  /** No line of `splitlines` holds a line boundary. */
  lemma {:induction false} SplitLinesNoBreaks(s: string)
    ensures forall l :: l in SplitLines(s) ==> forall j :: 0 <= j < |l| ==> !IsLineBreak(l[j])
    decreases |s|
  {
    if s != [] && FirstBreak(s) < |s| {
      var k, next := SplitLinesStep(s);
      SplitLinesNoBreaks(s[next..]);
    }
  }

  /** A non-empty page has at least one line. */
  lemma SplitLinesNonEmpty(s: string)
    requires s != []
    ensures SplitLines(s) != []
  {
  }

  /** Every line boundary in `s` is '\n'. */
  predicate NewlineBreaksOnly(s: string) {
    forall j :: 0 <= j < |s| && IsLineBreak(s[j]) ==> s[j] == '\n'
  }

  lemma NewlineBreaksOnlySuffix(s: string, n: nat)
    requires n <= |s| && NewlineBreaksOnly(s)
    ensures NewlineBreaksOnly(s[n..])
  {
    forall j | 0 <= j < |s| - n && IsLineBreak(s[n..][j])
      ensures s[n..][j] == '\n'
    {
      assert s[n..][j] == s[n + j];
    }
  }

  /**
   * The inverse of `splitlines` on a page whose only boundary is '\n' and
   * that does not end with one: joining its lines with "\n" gives it back.
   */
  lemma {:induction false} SplitLinesJoin(s: string)
    requires NewlineBreaksOnly(s)
    requires s == [] || s[|s| - 1] != '\n'
    ensures Join(SplitLines(s), "\n") == s
    decreases |s|
  {
    if s != [] && FirstBreak(s) < |s| {
      var k, next := SplitLinesStep(s);
      NewlineBreakRest(s, k, next);
      SplitLinesNonEmpty(s[next..]);
      SplitLinesJoin(s[next..]);
      JoinBack(s, k, SplitLines(s[next..]));
    }
  }

  /** After a '\n' boundary that is not the last character, the rest is again such a page. */
  lemma NewlineBreakRest(s: string, k: nat, next: nat)
    requires NewlineBreaksOnly(s) && s != [] && s[|s| - 1] != '\n'
    requires k < |s| && IsLineBreak(s[k]) && next == BreakEnd(s, k)
    ensures s[k] == '\n' && next == k + 1 < |s|
    ensures NewlineBreaksOnly(s[next..]) && s[next..] != [] && s[next..][|s[next..]| - 1] != '\n'
  {
    NewlineBreaksOnlySuffix(s, next);
  }

  /** A line, a '\n' and the join of the lines after it give the page back. */
  lemma JoinBack(s: string, k: nat, rest: seq<string>)
    requires k + 1 < |s| && s[k] == '\n' && rest != []
    requires Join(rest, "\n") == s[k + 1..]
    ensures Join([s[..k]] + rest, "\n") == s
  {
    JoinCons(s[..k], rest, "\n");
    Pieces(s, k, k + 1);
    assert s[k..k + 1] == "\n";
  }

  /** The normalised, non-empty lines among `raw`, in order. */
  function KeepLines(raw: seq<string>): (lines: seq<string>)
    ensures |lines| <= |raw|
  {
    if raw == [] then []
    else
      var n := NormalizeWs(raw[|raw| - 1]);
      KeepLines(raw[..|raw| - 1]) + (if n != "" then [n] else [])
  }

  /** The lines `parse` folds over: every page split, normalised, blanks dropped. */
  function FlattenLines(pages: seq<string>): seq<string> {
    if pages == [] then []
    else FlattenLines(pages[..|pages| - 1]) + KeepLines(SplitLines(pages[|pages| - 1]))
  }

  lemma KeepLinesSnoc(raw: seq<string>, j: nat)
    requires j < |raw|
    ensures KeepLines(raw[..j + 1]) == KeepLines(raw[..j]) + (if NormalizeWs(raw[j]) != "" then [NormalizeWs(raw[j])] else [])
  {
    assert raw[..j + 1][..j] == raw[..j];
  }

  /** Every line kept is non-empty and normalised. */
  lemma {:induction false} KeepLinesNormal(raw: seq<string>)
    ensures forall l :: l in KeepLines(raw) ==> l != "" && IsNormal(l)
    decreases |raw|
  {
    if raw != [] {
      KeepLinesNormal(raw[..|raw| - 1]);
    }
  }

  /** `parse` only ever sees non-empty, normalised lines. */
  lemma {:induction false} FlattenLinesNormal(pages: seq<string>)
    ensures forall l :: l in FlattenLines(pages) ==> l != "" && IsNormal(l)
    decreases |pages|
  {
    if pages != [] {
      FlattenLinesNormal(pages[..|pages| - 1]);
      KeepLinesNormal(SplitLines(pages[|pages| - 1]));
    }
  }

  const NoItemsWarning: string :=
    "OmniaParser: Nenalezeny položky. Ověř, že PDF obsahuje řádky s 'PZ' a cenami s €."

  const OmniaHeader: map<string, string> := map["supplier" := "omnia"]

  /** The result `parse` returns for `pages`. */
  function ParseSpec(pages: seq<string>): ParseResult {
    ResultOf(Run(Idle, FlattenLines(pages)).1)
  }

  /** The result `parse` builds from the items it found (omnia.py:221-224). */
  function ResultOf(items: seq<LineItem>): ParseResult {
    ParseResult(OmniaHeader, items, if items == [] then [NoItemsWarning] else [])
  }

  lemma RunSnoc(start: Pending, lines: seq<string>, i: nat)
    requires i < |lines|
    ensures Run(start, lines[..i + 1])
            == (Step(Run(start, lines[..i]).0, lines[i]).0,
                Run(start, lines[..i]).1 + Emitted(Step(Run(start, lines[..i]).0, lines[i]).1))
  {
    assert lines[..i + 1][..i] == lines[..i];
  }
}
