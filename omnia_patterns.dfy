// The building blocks of the Omnia invoice parser
// (src/pdf2xlsx_enterprise/parsers/omnia.py): number cleaning, the header
// and admissibility tests, and the line patterns.
//
// The patterns are matched against lines that `normalize_ws` has already
// produced, so every `\s+` in them stands for exactly one ' ' and every `\s*`
// for an optional ' '; `\d` is taken to be an ASCII digit.
module OmniaPatterns {
  import opened Types
  import opened Text

  // ---------------------------------------------------------------------
  // clean_number (omnia.py:11-27)

  predicate IsDigit(c: char) { '0' <= c <= '9' }

  /** The class `[0-9,\.]`. */
  predicate IsNumChar(c: char) { IsDigit(c) || c == ',' || c == '.' }

  /** `re.sub(r"[^0-9,\.]", "", s)` */
  function KeepNumChars(s: string): (r: string)
    ensures |r| <= |s|
    ensures forall i :: 0 <= i < |r| ==> IsNumChar(r[i])
  {
    if s == [] then [] else (if IsNumChar(s[0]) then [s[0]] else []) + KeepNumChars(s[1..])
  }

  /** `s.count(c)` */
  function Count(s: string, c: char): nat {
    if s == [] then 0 else (if s[0] == c then 1 else 0) + Count(s[1..], c)
  }

  /** `s.replace(c, "")` */
  function RemoveChar(s: string, c: char): (r: string)
    ensures |r| <= |s|
  {
    if s == [] then [] else (if s[0] == c then [] else [s[0]]) + RemoveChar(s[1..], c)
  }

  /** `s.replace(c, "")` on number characters leaves number characters and no `c`. */
  lemma {:induction false} RemoveCharNumChars(s: string, c: char)
    requires AllNumChars(s)
    ensures AllNumChars(RemoveChar(s, c)) && c !in RemoveChar(s, c)
    decreases |s|
  {
    if s != [] {
      RemoveCharNumChars(s[1..], c);
    }
  }

  lemma {:induction false} CountZero(s: string, c: char)
    ensures Count(s, c) == 0 <==> c !in s
    decreases |s|
  {
    if s != [] {
      CountZero(s[1..], c);
      assert c in s <==> s[0] == c || c in s[1..];
    }
  }

  /**
   * `clean_number(s)`: keeps digits, ',' and '.'; a lone comma with no dot
   * becomes the decimal dot; when both separators occur, every comma goes.
   */
  function CleanNumber(s: string): (r: string)
    ensures forall i :: 0 <= i < |r| ==> IsNumChar(r[i])
    ensures Count(r, ',') == 0 || Count(r, '.') == 0
    ensures !(Count(r, ',') == 1 && Count(r, '.') == 0)
    ensures |r| <= |s|
    ensures s == "" ==> r == ""
  {
    var f := KeepNumChars(Strip(s));
    var g := if Count(f, ',') == 1 && Count(f, '.') == 0 then ReplaceChar(f, ',', '.') else f;
    ReplaceRemoves(f, ',', '.');
    CountZero(g, ',');
    CountZero(g, '.');
    if Count(g, '.') >= 1 && Count(g, ',') >= 1 then
      var r := RemoveChar(g, ',');
      RemoveCharNumChars(g, ',');
      CountZero(r, ',');
      r
    else
      g
  }

  // ---------------------------------------------------------------------
  // _is_header_line and can_parse (omnia.py:76-85)

  /** `str.lower()` on ASCII letters; every other character is kept. */
  function LowerChar(c: char): char {
    if 'A' <= c <= 'Z' then (c as int + 32) as char else c
  }

  function Lower(s: string): (r: string)
    ensures |r| == |s|
  {
    if s == [] then [] else [LowerChar(s[0])] + Lower(s[1..])
  }

  lemma {:induction false} LowerAt(s: string)
    ensures forall i :: 0 <= i < |s| ==> Lower(s)[i] == LowerChar(s[i])
  {
    if s != [] {
      LowerAt(s[1..]);
    }
  }

  /** `s[i:i + len(w)] == w` */
  predicate OccursAt(s: string, w: string, i: int) {
    0 <= i && i + |w| <= |s| && s[i..i + |w|] == w
  }

  /** Python's `w in s` for strings: `w` occurs in `s` as a substring. */
  predicate Contains(s: string, w: string) {
    exists i :: 0 <= i <= |s| && OccursAt(s, w, i)
  }

  const HeaderWords: seq<string> :=
    ["product", "code", "description", "quantity", "prezzo", "sconto", "importo", "totale"]

  /** `sum(1 for w in words if w in lo)` */
  function CountHits(lo: string, words: seq<string>): nat {
    if words == [] then 0 else (if Contains(lo, words[0]) then 1 else 0) + CountHits(lo, words[1..])
  }

  /** `_is_header_line(s)` */
  predicate IsHeaderLine(s: string) {
    CountHits(Lower(s), HeaderWords) >= 3
  }

  predicate MentionsOmnia(lo: string) {
    Contains(lo, "omniacomponents") || Contains(lo, "26vin") || Contains(lo, "product code")
  }

  /** `"\n".join(pages)` */
  function JoinLines(pages: seq<string>): string {
    if pages == [] then ""
    else if |pages| == 1 then pages[0]
    else pages[0] + "\n" + JoinLines(pages[1..])
  }

  /** `can_parse(pages, tables)`; the tables are not consulted. */
  predicate CanParse(pages: seq<string>) {
    MentionsOmnia(Lower(JoinLines(pages)))
  }

  // ---------------------------------------------------------------------
  // The line patterns (omnia.py:55-74, 152, 189)

  predicate IsUpper(c: char) { 'A' <= c <= 'Z' }

  /** The class `[A-Z0-9\-\./]`. */
  predicate IsCodeChar(c: char) { IsUpper(c) || IsDigit(c) || c == '-' || c == '.' || c == '/' }

  /** `_code_token_re`: `^[A-Z0-9][A-Z0-9\-\./]{2,}$` */
  predicate IsCodeToken(t: string) {
    |t| >= 3 && (IsUpper(t[0]) || IsDigit(t[0])) && forall i :: 1 <= i < |t| ==> IsCodeChar(t[i])
  }

  /** `_prefix_only_re`: `^[A-Z]{2,8}-$` */
  predicate IsPrefixOnly(line: string) {
    3 <= |line| <= 9 && line[|line| - 1] == '-' && forall i :: 0 <= i < |line| - 1 ==> IsUpper(line[i])
  }

  /** `\d{6,}` as a full match (omnia.py:152) */
  predicate IsLongNumber(line: string) {
    |line| >= 6 && forall i :: 0 <= i < |line| ==> IsDigit(line[i])
  }

  predicate AllDigits(s: string) { forall i :: 0 <= i < |s| ==> IsDigit(s[i]) }
  predicate AllNumChars(s: string) { forall i :: 0 <= i < |s| ==> IsNumChar(s[i]) }
  predicate AllUpper(s: string) { forall i :: 0 <= i < |s| ==> IsUpper(s[i]) }
  predicate AllCodeChars(s: string) { forall i :: 0 <= i < |s| ==> IsCodeChar(s[i]) }

  /** End of the longest run of digits starting at `i`. */
  function DigitsEnd(s: string, i: nat): (j: nat)
    requires i <= |s|
    ensures i <= j <= |s|
    decreases |s| - i
  {
    if i < |s| && IsDigit(s[i]) then DigitsEnd(s, i + 1) else i
  }
  lemma {:induction false} DigitsEndRun(s: string, i: nat)
    requires i <= |s|
    ensures forall x :: i <= x < DigitsEnd(s, i) ==> IsDigit(s[x])
    ensures DigitsEnd(s, i) < |s| ==> !IsDigit(s[DigitsEnd(s, i)])
    decreases |s| - i
  {
    if i < |s| && IsDigit(s[i]) {
      DigitsEndRun(s, i + 1);
    }
  }


  /** End of the longest run in `[\d.,]` starting at `i`. */
  function NumsEnd(s: string, i: nat): (j: nat)
    requires i <= |s|
    ensures i <= j <= |s|
    decreases |s| - i
  {
    if i < |s| && IsNumChar(s[i]) then NumsEnd(s, i + 1) else i
  }
  lemma {:induction false} NumsEndRun(s: string, i: nat)
    requires i <= |s|
    ensures forall x :: i <= x < NumsEnd(s, i) ==> IsNumChar(s[x])
    ensures NumsEnd(s, i) < |s| ==> !IsNumChar(s[NumsEnd(s, i)])
    decreases |s| - i
  {
    if i < |s| && IsNumChar(s[i]) {
      NumsEndRun(s, i + 1);
    }
  }


  /** End of the longest run in `[A-Z0-9\-\./]` starting at `i`. */
  function CodeCharsEnd(s: string, i: nat): (j: nat)
    requires i <= |s|
    ensures i <= j <= |s|
    decreases |s| - i
  {
    if i < |s| && IsCodeChar(s[i]) then CodeCharsEnd(s, i + 1) else i
  }
  lemma {:induction false} CodeCharsEndRun(s: string, i: nat)
    requires i <= |s|
    ensures forall x :: i <= x < CodeCharsEnd(s, i) ==> IsCodeChar(s[x])
    ensures CodeCharsEnd(s, i) < |s| ==> !IsCodeChar(s[CodeCharsEnd(s, i)])
    decreases |s| - i
  {
    if i < |s| && IsCodeChar(s[i]) {
      CodeCharsEndRun(s, i + 1);
    }
  }


  /** End of the longest run in `[A-Z]` starting at `i`. */
  function UpperEnd(s: string, i: nat): (j: nat)
    requires i <= |s|
    ensures i <= j <= |s|
    decreases |s| - i
  {
    if i < |s| && IsUpper(s[i]) then UpperEnd(s, i + 1) else i
  }
  lemma {:induction false} UpperEndRun(s: string, i: nat)
    requires i <= |s|
    ensures forall x :: i <= x < UpperEnd(s, i) ==> IsUpper(s[x])
    ensures UpperEnd(s, i) < |s| ==> !IsUpper(s[UpperEnd(s, i)])
    decreases |s| - i
  {
    if i < |s| && IsUpper(s[i]) {
      UpperEndRun(s, i + 1);
    }
  }


  /** The quantity, unit price and total of a numeric tail, as matched. */
  datatype Tail = Tail(qty: string, price: string, total: string)

  /** What `\s*€\s+` may match between price and total on a normalised line. */
  const PriceSeps: set<string> := {"€ ", " € "}

  /** What `\s*€?\s*$` may match at the end of a normalised line. */
  const TotalEnds: set<string> := {"", "€", " €"}

  function TailText(t: Tail, sep: string, end: string): string {
    t.qty + " PZ " + t.price + sep + t.total + end
  }

  /**
   * `s` is a whole numeric tail with groups `t`:
   * `(?P<qty>\d+)\s+PZ\s+(?P<price>[\d.,]+)\s*€\s+(?P<total>[\d.,]+)\s*€?\s*$`.
   */
  predicate IsTail(s: string, t: Tail) {
    exists sep, end | sep in PriceSeps && end in TotalEnds :: IsTailWith(s, t, sep, end)
  }

  /** `s` is a numeric tail with groups `t`, price separator `sep` and ending `end`. */
  predicate IsTailWith(s: string, t: Tail, sep: string, end: string) {
    && t.qty != [] && AllDigits(t.qty)
    && t.price != [] && AllNumChars(t.price)
    && t.total != [] && AllNumChars(t.total)
    && sep in PriceSeps && end in TotalEnds && s == TailText(t, sep, end)
  }

  /** `\s+PZ\s+` at position `i`. */
  predicate PzAt(s: string, i: nat) {
    i + 4 <= |s| && s[i] == ' ' && s[i + 1] == 'P' && s[i + 2] == 'Z' && s[i + 3] == ' '
  }

  /** Length of the separator `\s*€\s+` at position `i`, or 0 if there is none. */
  function PriceSepLen(s: string, i: nat): (k: nat)
    ensures k == 0 || k == 2 || k == 3
    ensures k > 0 ==> i + k <= |s| && s[i..i + k] in PriceSeps
  {
    if i + 2 <= |s| && s[i] == '€' && s[i + 1] == ' ' then
      assert s[i..i + 2] == "€ ";
      2
    else if i + 3 <= |s| && s[i] == ' ' && s[i + 1] == '€' && s[i + 2] == ' ' then
      assert s[i..i + 3] == " € ";
      3
    else 0
  }

  /** `\s*€?\s*$` at position `i`. */
  predicate TotalEndAt(s: string, i: nat) {
    || i == |s|
    || (i + 1 == |s| && s[i] == '€')
    || (i + 2 == |s| && s[i] == ' ' && s[i + 1] == '€')
  }

  /** `_qty_line_re`, matched against the suffix of `s` that starts at `i`. */
  function MatchTailAt(s: string, i: nat): Option<Tail>
    requires i <= |s|
  {
    var q := DigitsEnd(s, i);
    if q == i || !PzAt(s, q) then None
    else
      var p := NumsEnd(s, q + 4);
      var k := PriceSepLen(s, p);
      if p == q + 4 || k == 0 then None
      else
        var n := NumsEnd(s, p + k);
        if n == p + k || !TotalEndAt(s, n) then None
        else Some(Tail(s[i..q], s[q + 4..p], s[p + k..n]))
  }

  /** `_qty_line_re.match(s)` on a normalised line. */
  function MatchTail(s: string): Option<Tail> {
    MatchTailAt(s, 0)
  }

  /** The groups of `_row_full_re`. */
  datatype Row = Row(code: string, desc: string, tail: Tail)

  /** Whether a description ending just before `line[j]` would let the tail match. */
  predicate TailAfter(line: string, j: nat) {
    j < |line| && line[j] == ' ' && MatchTailAt(line, j + 1).Some?
  }

  /**
   * `(?P<desc>.+?)\s+` followed by a numeric tail, searched lazily: the first
   * position `j`, `k` or later, where the description may end, or `|line|`.
   */
  function LazyDescEnd(line: string, k: nat): (j: nat)
    requires k <= |line|
    ensures k <= j <= |line|
    ensures j < |line| ==> TailAfter(line, j)
    decreases |line| - k
  {
    if k == |line| || TailAfter(line, k) then k else LazyDescEnd(line, k + 1)
  }

  /** `_row_full_re.match(line)` on a normalised line. */
  function MatchFullRow(line: string): (r: Option<Row>)
  {
    var c := CodeCharsEnd(line, 0);
    if c < 3 || c + 2 > |line| || line[c] != ' ' || !(IsUpper(line[0]) || IsDigit(line[0])) then None
    else RowAfterCode(line, c)
  }

  /** The rest of `_row_full_re` once the code token, ending at `c`, is found. */
  function RowAfterCode(line: string, c: nat): Option<Row>
    requires c + 2 <= |line|
  {
    var j := LazyDescEnd(line, c + 2);
    if j == |line| then None
    else Some(Row(line[..c], line[c + 1..j], MatchTailAt(line, j + 1).value))
  }

  /** `line.split(" ", 1)` when the line has a space: the first token and the rest. */
  function FirstSpace(s: string): (i: nat)
    ensures i <= |s| && (i < |s| ==> s[i] == ' ')
  {
    if s == [] || s[0] == ' ' then 0 else 1 + FirstSpace(s[1..])
  }

  /** The first token of a line has no space in it. */
  lemma {:induction false} FirstSpaceIsFirst(s: string)
    ensures forall j :: 0 <= j < FirstSpace(s) ==> s[j] != ' '
  {
    if s != [] && s[0] != ' ' {
      FirstSpaceIsFirst(s[1..]);
    }
  }

  /** `re.fullmatch(r"(?P<prefix>[A-Z]{2,8}-)(?P<word>[A-Z]{2,})", token)` */
  function SplitMergedPrefix(token: string): (r: Option<(string, string)>)
    ensures r.Some? ==> && token == r.value.0 + r.value.1
                        && IsPrefixOnly(r.value.0)
                        && |r.value.1| >= 2 && AllUpper(r.value.1)
  {
    var k := UpperEnd(token, 0);
    if 2 <= k <= 8 && k < |token| && token[k] == '-' && |token| - k - 1 >= 2
       && AllUpper(token[k + 1..])
    then
      UpperEndRun(token, 0);
      assert token == token[..k + 1] + token[k + 1..];
      Some((token[..k + 1], token[k + 1..]))
    else None
  }

  /** `re.search(r"\d", token)` */
  predicate HasDigit(s: string) { exists i :: 0 <= i < |s| && IsDigit(s[i]) }
}
