// Properties of the building blocks of the Omnia parser
// (src/pdf2xlsx_enterprise/parsers/omnia.py:11-85): number cleaning, the
// header and admissibility tests, and the numeric-tail pattern.
module OmniaPatternProps {
  import opened Types
  import opened Text
  import opened OmniaPatterns

  // ---------------------------------------------------------------------
  // clean_number (omnia.py:11-27)

  lemma {:induction false} KeepNumCharsFixes(s: string)
    requires AllNumChars(s)
    ensures KeepNumChars(s) == s
    decreases |s|
  {
    if s != [] {
      KeepNumCharsFixes(s[1..]);
    }
  }

  /** A string of number characters has no whitespace to strip and nothing to filter out. */
  lemma NumCharsKept(s: string)
    requires AllNumChars(s)
    ensures KeepNumChars(Strip(s)) == s
  {
    if s != [] {
      assert IsNumChar(s[0]) && IsNumChar(s[|s| - 1]);
    }
    StripUntrimmed(s);
    KeepNumCharsFixes(s);
  }

  /** A cleaned number never holds both a comma and a dot. */
  lemma CleanNumberOneSeparatorKind(s: string)
    ensures !(',' in CleanNumber(s) && '.' in CleanNumber(s))
  {
    CountZero(CleanNumber(s), ',');
    CountZero(CleanNumber(s), '.');
  }

  /** Cleaning a cleaned number changes nothing. */
  lemma CleanNumberIdempotent(s: string)
    ensures CleanNumber(CleanNumber(s)) == CleanNumber(s)
  {
    CleanNumberFixes(CleanNumber(s));
  }

  /** A string of digits and separators already in the cleaned form is left as it is. */
  lemma CleanNumberFixes(r: string)
    requires AllNumChars(r) && (Count(r, ',') == 0 || Count(r, '.') == 0) && !(Count(r, ',') == 1 && Count(r, '.') == 0)
    ensures CleanNumber(r) == r
  {
    NumCharsKept(r);
    CountZero(r, ',');
    CountZero(r, '.');
  }

  lemma {:induction false} CountAppend(a: string, b: string, c: char)
    ensures Count(a + b, c) == Count(a, c) + Count(b, c)
    decreases |a|
  {
    if a == [] {
      assert a + b == b;
    } else {
      assert (a + b)[0] == a[0] && (a + b)[1..] == a[1..] + b;
      CountAppend(a[1..], b, c);
    }
  }

  lemma {:induction false} RemoveCharAppend(a: string, b: string, c: char)
    ensures RemoveChar(a + b, c) == RemoveChar(a, c) + RemoveChar(b, c)
    decreases |a|
  {
    if a == [] {
      assert a + b == b;
    } else {
      assert (a + b)[0] == a[0] && (a + b)[1..] == a[1..] + b;
      RemoveCharAppend(a[1..], b, c);
    }
  }

  lemma {:induction false} RemoveCharAbsent(s: string, c: char)
    requires c !in s
    ensures RemoveChar(s, c) == s
    decreases |s|
  {
    if s != [] {
      RemoveCharAbsent(s[1..], c);
    }
  }

  lemma AllNumCharsAppend(a: string, b: string)
    requires AllNumChars(a) && AllNumChars(b)
    ensures AllNumChars(a + b)
  {
    forall i | 0 <= i < |a + b|
      ensures IsNumChar((a + b)[i])
    {
      if i < |a| {
        assert (a + b)[i] == a[i];
      } else {
        assert (a + b)[i] == b[i - |a|];
      }
    }
  }

  lemma ReplaceCharAppend(a: string, b: string, x: char, y: char)
    ensures ReplaceChar(a + b, x, y) == ReplaceChar(a, x, y) + ReplaceChar(b, x, y)
  {
    var l, r := ReplaceChar(a + b, x, y), ReplaceChar(a, x, y) + ReplaceChar(b, x, y);
    forall i | 0 <= i < |l|
      ensures l[i] == r[i]
    {
      if i < |a| {
        assert (a + b)[i] == a[i];
      } else {
        assert (a + b)[i] == b[i - |a|];
      }
    }
  }

  /** A run of digits holds no separator. */
  lemma DigitsHaveNoSeparator(a: string)
    requires AllDigits(a)
    ensures AllNumChars(a) && ',' !in a && '.' !in a && Count(a, ',') == 0 && Count(a, '.') == 0
  {
    CountZero(a, ',');
    CountZero(a, '.');
  }

  /** `clean_number` on a trimmed string of number characters with one comma and no dot. */
  lemma CleanNumberOneComma(s: string)
    requires AllNumChars(s) && Count(s, ',') == 1 && Count(s, '.') == 0
    ensures CleanNumber(s) == ReplaceChar(s, ',', '.')
  {
    NumCharsKept(s);
    var g := ReplaceChar(s, ',', '.');
    ReplaceRemoves(s, ',', '.');
    CountZero(g, ',');
  }

  /** `clean_number` on a trimmed string of number characters with both separators. */
  lemma CleanNumberTwoSeparators(s: string)
    requires AllNumChars(s) && Count(s, ',') >= 1 && Count(s, '.') >= 1
    ensures CleanNumber(s) == RemoveChar(s, ',')
  {
    NumCharsKept(s);
  }

  /** The pieces of "1,23": number characters, one comma, no dot, digits at both ends. */
  lemma CommaJoin(a: string, b: string)
    requires AllDigits(a) && AllDigits(b)
    ensures var s := a + "," + b;
            && AllNumChars(s) && Count(s, ',') == 1 && Count(s, '.') == 0
            && ReplaceChar(s, ',', '.') == a + "." + b
  {
    DigitsHaveNoSeparator(a);
    DigitsHaveNoSeparator(b);
    AllNumCharsAppend(a, ",");
    AllNumCharsAppend(a + ",", b);
    CountAppend(a, ",", ',');
    CountAppend(a + ",", b, ',');
    CountAppend(a, ",", '.');
    CountAppend(a + ",", b, '.');
    ReplaceCharAppend(a, ",", ',', '.');
    ReplaceCharAppend(a + ",", b, ',', '.');
    ReplaceAbsent(a, ',', '.');
    ReplaceAbsent(b, ',', '.');
  }

  /** The pieces of "1.234,56" and "1,234.56": two separators, digits at both ends. */
  lemma TwoSeparatorJoin(a: string, x: char, b: string, y: char, c: string)
    requires AllDigits(a) && AllDigits(b) && AllDigits(c)
    requires (x == '.' && y == ',') || (x == ',' && y == '.')
    ensures var s := a + [x] + b + [y] + c;
            && AllNumChars(s) && Count(s, ',') == 1 && Count(s, '.') == 1
            && RemoveChar(s, ',') == if x == ',' then a + b + [y] + c else a + [x] + b + c
  {
    DigitsHaveNoSeparator(a);
    DigitsHaveNoSeparator(b);
    DigitsHaveNoSeparator(c);
    TwoSeparatorChars(a, x, b, y, c);
    TwoSeparatorCount(a, x, b, y, c, ',');
    TwoSeparatorCount(a, x, b, y, c, '.');
    TwoSeparatorRemove(a, x, b, y, c);
  }

  lemma TwoSeparatorChars(a: string, x: char, b: string, y: char, c: string)
    requires AllNumChars(a) && AllNumChars(b) && AllNumChars(c) && IsNumChar(x) && IsNumChar(y)
    ensures AllNumChars(a + [x] + b + [y] + c)
  {
    AllNumCharsAppend(a, [x]);
    AllNumCharsAppend(a + [x], b);
    AllNumCharsAppend(a + [x] + b, [y]);
    AllNumCharsAppend(a + [x] + b + [y], c);
  }

  lemma TwoSeparatorCount(a: string, x: char, b: string, y: char, c: string, d: char)
    requires Count(a, d) == 0 && Count(b, d) == 0 && Count(c, d) == 0
    ensures Count(a + [x] + b + [y] + c, d) == (if x == d then 1 else 0) + (if y == d then 1 else 0)
  {
    CountAppend(a, [x], d);
    CountAppend(a + [x], b, d);
    CountAppend(a + [x] + b, [y], d);
    CountAppend(a + [x] + b + [y], c, d);
  }

  lemma TwoSeparatorRemove(a: string, x: char, b: string, y: char, c: string)
    requires ',' !in a && ',' !in b && ',' !in c && x != y
    ensures RemoveChar(a + [x] + b + [y] + c, ',') ==
              (if x == ',' then a else a + [x]) + b + (if y == ',' then [] else [y]) + c
  {
    var ax, axb, axby := a + [x], a + [x] + b, a + [x] + b + [y];
    RemoveCharAbsent(a, ',');
    RemoveCharAbsent(b, ',');
    RemoveCharAbsent(c, ',');
    RemoveCharOne(x, ',');
    RemoveCharOne(y, ',');
    RemoveCharAppend(a, [x], ',');
    assert RemoveChar(ax, ',') == if x == ',' then a else ax;
    RemoveCharAppend(ax, b, ',');
    assert RemoveChar(axb, ',') == RemoveChar(ax, ',') + b;
    RemoveCharAppend(axb, [y], ',');
    assert RemoveChar(axby, ',') == RemoveChar(axb, ',') + (if y == ',' then [] else [y]);
    RemoveCharAppend(axby, c, ',');
  }

  lemma RemoveCharOne(x: char, c: char)
    ensures RemoveChar([x], c) == if x == c then [] else [x]
  {
    assert [x][1..] == [];
  }

  /** A lone comma between digits is the decimal separator: "1,23" gives "1.23". */
  lemma CleanNumberDecimalComma(a: string, b: string)
    requires AllDigits(a) && AllDigits(b)
    ensures CleanNumber(a + "," + b) == a + "." + b
  {
    CommaJoin(a, b);
    CleanNumberOneComma(a + "," + b);
  }

  /**
   * With a dot before the comma, the comma goes and the dot stays: "1.234,56"
   * gives "1.23456", not 1234.56.
   */
  lemma CleanNumberDotThenComma(a: string, b: string, c: string)
    requires AllDigits(a) && AllDigits(b) && AllDigits(c)
    ensures CleanNumber(a + "." + b + "," + c) == a + "." + b + c
  {
    TwoSeparatorJoin(a, '.', b, ',', c);
    CleanNumberTwoSeparators(a + "." + b + "," + c);
  }

  /** With a comma before the dot, the comma is a thousands separator: "1,234.56" gives "1234.56". */
  lemma CleanNumberCommaThenDot(a: string, b: string, c: string)
    requires AllDigits(a) && AllDigits(b) && AllDigits(c)
    ensures CleanNumber(a + "," + b + "." + c) == a + b + "." + c
  {
    TwoSeparatorJoin(a, ',', b, '.', c);
    CleanNumberTwoSeparators(a + "," + b + "." + c);
  }

  // ---------------------------------------------------------------------
  // _is_header_line and can_parse (omnia.py:76-85)

  /** The words of `words` that occur in `lo`. */
  function HitSet(lo: string, words: seq<string>): set<string> {
    set w | w in words && Contains(lo, w)
  }

  predicate Distinct(words: seq<string>) {
    forall i, j :: 0 <= i < j < |words| ==> words[i] != words[j]
  }

  /** Counting the hits word by word counts each distinct word that occurs once. */
  lemma {:induction false} CountHitsIsHitSet(lo: string, words: seq<string>)
    requires Distinct(words)
    ensures CountHits(lo, words) == |HitSet(lo, words)|
    decreases |words|
  {
    if words == [] {
      assert HitSet(lo, words) == {};
    } else {
      var rest := words[1..];
      assert Distinct(rest) by {
        forall i, j | 0 <= i < j < |rest| ensures rest[i] != rest[j] {
          assert rest[i] == words[i + 1] && rest[j] == words[j + 1];
        }
      }
      CountHitsIsHitSet(lo, rest);
      assert words[0] !in rest;
      assert HitSet(lo, words) == (if Contains(lo, words[0]) then {words[0]} else {}) + HitSet(lo, rest) by {
        assert forall w :: w in words <==> w == words[0] || w in rest;
      }
    }
  }

  /**
   * A line is a header line exactly when at least three of the eight header
   * words occur in it, ignoring case.
   */
  lemma IsHeaderLineIff(s: string)
    ensures IsHeaderLine(s) <==> |HitSet(Lower(s), HeaderWords)| >= 3
  {
    assert Distinct(HeaderWords);
    CountHitsIsHitSet(Lower(s), HeaderWords);
  }

  lemma {:induction false} LowerAppend(a: string, b: string)
    ensures Lower(a + b) == Lower(a) + Lower(b)
    decreases |a|
  {
    if a == [] {
      assert a + b == b;
    } else {
      assert (a + b)[0] == a[0] && (a + b)[1..] == a[1..] + b;
      LowerAppend(a[1..], b);
    }
  }

  /** A word without a line break occurs in two lines joined by one exactly when it occurs in either. */
  lemma ContainsAcrossBreak(a: string, b: string, w: string)
    requires '\n' !in w
    ensures Contains(a + "\n" + b, w) <==> Contains(a, w) || Contains(b, w)
  {
    var s := a + "\n" + b;
    if Contains(s, w) {
      var i :| 0 <= i <= |s| && OccursAt(s, w, i);
      OccurrenceAvoids(s, w, i, '\n');
      assert s[|a|] == '\n';
      if i + |w| <= |a| {
        assert s[i..i + |w|] == a[i..i + |w|];
        assert OccursAt(a, w, i);
      } else if i > |a| {
        assert s[i..i + |w|] == b[i - |a| - 1..i - |a| - 1 + |w|];
        assert OccursAt(b, w, i - |a| - 1);
      }
    }
    if Contains(a, w) {
      var i :| 0 <= i <= |a| && OccursAt(a, w, i);
      assert s[i..i + |w|] == a[i..i + |w|];
      assert OccursAt(s, w, i);
    }
    if Contains(b, w) {
      var i :| 0 <= i <= |b| && OccursAt(b, w, i);
      assert s[|a| + 1 + i..|a| + 1 + i + |w|] == b[i..i + |w|];
      assert OccursAt(s, w, |a| + 1 + i);
    }
  }

  /** Where `w` occurs, the text holds no character that `w` lacks. */
  lemma OccurrenceAvoids(s: string, w: string, i: int, c: char)
    requires OccursAt(s, w, i) && c !in w
    ensures forall k :: i <= k < i + |w| ==> s[k] != c
  {
    forall k | i <= k < i + |w|
      ensures s[k] != c
    {
      assert s[k] == s[i..i + |w|][k - i] == w[k - i];
    }
  }

  lemma MentionsAcrossBreak(a: string, b: string)
    ensures MentionsOmnia(a + "\n" + b) <==> MentionsOmnia(a) || MentionsOmnia(b)
  {
    ContainsAcrossBreak(a, b, "omniacomponents");
    ContainsAcrossBreak(a, b, "26vin");
    ContainsAcrossBreak(a, b, "product code");
  }

  lemma LowerJoinLines(pages: seq<string>)
    requires |pages| > 1
    ensures Lower(JoinLines(pages)) == Lower(pages[0]) + "\n" + Lower(JoinLines(pages[1..]))
  {
    assert JoinLines(pages) == pages[0] + "\n" + JoinLines(pages[1..]);
    LowerAppend(pages[0] + "\n", JoinLines(pages[1..]));
    LowerAppend(pages[0], "\n");
    LowerBreak();
  }

  lemma LowerBreak()
    ensures Lower("\n") == "\n"
  {
    assert "\n"[1..] == [];
  }

  /**
   * No marker spans a page break: the pages can be parsed exactly when one
   * of them mentions "omniacomponents", "26vin" or "product code", ignoring case.
   */
  lemma {:induction false} CanParseIff(pages: seq<string>)
    ensures CanParse(pages) <==> exists i :: 0 <= i < |pages| && MentionsOmnia(Lower(pages[i]))
    decreases |pages|
  {
    if |pages| == 1 {
      assert JoinLines(pages) == pages[0];
    } else if |pages| > 1 {
      var rest := pages[1..];
      CanParseIff(rest);
      LowerJoinLines(pages);
      MentionsAcrossBreak(Lower(pages[0]), Lower(JoinLines(rest)));
      if exists i :: 0 <= i < |rest| && MentionsOmnia(Lower(rest[i])) {
        var i :| 0 <= i < |rest| && MentionsOmnia(Lower(rest[i]));
        assert pages[i + 1] == rest[i];
      }
      if exists i :: 1 <= i < |pages| && MentionsOmnia(Lower(pages[i])) {
        var i :| 1 <= i < |pages| && MentionsOmnia(Lower(pages[i]));
        assert rest[i - 1] == pages[i];
      }
    }
  }

  // ---------------------------------------------------------------------
  // The numeric tail `_qty_line_re` (omnia.py:64-68)

  lemma SliceSplit(s: string, a: nat, b: nat, c: nat)
    requires a <= b <= c <= |s|
    ensures s[a..c] == s[a..b] + s[b..c]
  {
  }

  lemma TotalEndIn(s: string, n: nat)
    requires n <= |s| && TotalEndAt(s, n)
    ensures s[n..] in TotalEnds
  {
    if n == |s| {
      assert s[n..] == "";
    } else if n + 1 == |s| {
      assert s[n..] == "€";
    } else {
      assert s[n..] == " €";
    }
  }

  lemma PzSlice(s: string, q: nat)
    requires PzAt(s, q)
    ensures s[q..q + 4] == " PZ "
  {
  }

  /** The six pieces of a matched tail, put back together. */
  lemma TailPieces(s: string, i: nat, q: nat, p: nat, k: nat, n: nat)
    requires i <= q && q + 4 <= p <= p + k <= n <= |s| && s[q..q + 4] == " PZ "
    ensures s[i..] == s[i..q] + " PZ " + s[q + 4..p] + s[p..p + k] + s[p + k..n] + s[n..]
  {
    SliceSplit(s, i, q, |s|);
    SliceSplit(s, q, q + 4, |s|);
    SliceSplit(s, q + 4, p, |s|);
    SliceSplit(s, p, p + k, |s|);
    SliceSplit(s, p + k, n, |s|);
  }

  lemma DigitsSlice(s: string, i: nat, j: nat)
    requires i <= j <= |s| && forall x :: i <= x < j ==> IsDigit(s[x])
    ensures AllDigits(s[i..j])
  {
    forall x | 0 <= x < j - i
      ensures IsDigit(s[i..j][x])
    {
      assert s[i..j][x] == s[i + x];
    }
  }

  lemma NumsSlice(s: string, i: nat, j: nat)
    requires i <= j <= |s| && forall x :: i <= x < j ==> IsNumChar(s[x])
    ensures AllNumChars(s[i..j])
  {
    forall x | 0 <= x < j - i
      ensures IsNumChar(s[i..j][x])
    {
      assert s[i..j][x] == s[i + x];
    }
  }

  /** Whatever the matcher returns is a numeric tail with exactly those groups. */
  lemma MatchTailAtSound(s: string, i: nat)
    requires i <= |s| && MatchTailAt(s, i).Some?
    ensures IsTail(s[i..], MatchTailAt(s, i).value)
  {
    MatchTailAtPositions(s, i);
    var q := DigitsEnd(s, i);
    var p := NumsEnd(s, q + 4);
    var k := PriceSepLen(s, p);
    TailAtPositions(s, i, q, p, k, NumsEnd(s, p + k));
  }

  /** Where the matcher's groups start and end. */
  lemma MatchTailAtPositions(s: string, i: nat)
    requires i <= |s| && MatchTailAt(s, i).Some?
    ensures var q := DigitsEnd(s, i);
            var p := NumsEnd(s, q + 4);
            var k := PriceSepLen(s, p);
            var n := NumsEnd(s, p + k);
            i < q && q + 4 < p && k > 0 && p + k < n <= |s| && PzAt(s, q) && TotalEndAt(s, n) &&
            MatchTailAt(s, i).value == Tail(s[i..q], s[q + 4..p], s[p + k..n])
  {
  }

  /** The groups found at those positions make a numeric tail of the rest of `s`. */
  lemma TailAtPositions(s: string, i: nat, q: nat, p: nat, k: nat, n: nat)
    requires i < q && q + 4 < p && k > 0 && p + k < n <= |s|
    requires q == DigitsEnd(s, i) && p == NumsEnd(s, q + 4) && k == PriceSepLen(s, p) && n == NumsEnd(s, p + k)
    requires PzAt(s, q) && TotalEndAt(s, n)
    ensures IsTail(s[i..], Tail(s[i..q], s[q + 4..p], s[p + k..n]))
  {
    DigitsEndRun(s, i);
    DigitsSlice(s, i, q);
    NumsEndRun(s, q + 4);
    NumsSlice(s, q + 4, p);
    NumsEndRun(s, p + k);
    NumsSlice(s, p + k, n);
    TotalEndIn(s, n);
    PzSlice(s, q);
    TailFromPieces(s, i, q, p, k, n);
  }

  lemma TailFromPieces(s: string, i: nat, q: nat, p: nat, k: nat, n: nat)
    requires i < q && q + 4 < p && k > 0 && p + k < n <= |s|
    requires AllDigits(s[i..q]) && AllNumChars(s[q + 4..p]) && AllNumChars(s[p + k..n])
    requires s[q..q + 4] == " PZ " && s[p..p + k] in PriceSeps && s[n..] in TotalEnds
    ensures IsTail(s[i..], Tail(s[i..q], s[q + 4..p], s[p + k..n]))
  {
    TailPieces(s, i, q, p, k, n);
    IsTailIntro(s[i..], Tail(s[i..q], s[q + 4..p], s[p + k..n]), s[p..p + k], s[n..]);
  }

  lemma IsTailIntro(s: string, t: Tail, sep: string, end: string)
    requires t.qty != [] && AllDigits(t.qty) && t.price != [] && AllNumChars(t.price)
    requires t.total != [] && AllNumChars(t.total)
    requires sep in PriceSeps && end in TotalEnds && s == TailText(t, sep, end)
    ensures IsTail(s, t)
  {
  }

  /** A run of digits from `i` that stops at `j` is what `DigitsEnd` finds. */
  lemma {:induction false} DigitsEndAt(s: string, i: nat, j: nat)
    requires i <= j <= |s|
    requires forall x :: i <= x < j ==> IsDigit(s[x])
    requires j < |s| ==> !IsDigit(s[j])
    ensures DigitsEnd(s, i) == j
    decreases j - i
  {
    if i < j {
      DigitsEndAt(s, i + 1, j);
    }
  }

  /** A run of `[\d.,]` from `i` that stops at `j` is what `NumsEnd` finds. */
  lemma {:induction false} NumsEndAt(s: string, i: nat, j: nat)
    requires i <= j <= |s|
    requires forall x :: i <= x < j ==> IsNumChar(s[x])
    requires j < |s| ==> !IsNumChar(s[j])
    ensures NumsEnd(s, i) == j
    decreases j - i
  {
    if i < j {
      NumsEndAt(s, i + 1, j);
    }
  }

  lemma ConcatParts(x: string, y: string)
    ensures (x + y)[..|x|] == x && (x + y)[|x|..] == y
  {
  }

  /** Where the groups of a numeric tail sit in its text. */
  lemma TailTextSlices(t: Tail, sep: string, end: string)
    ensures var s := TailText(t, sep, end);
            var q := |t.qty|;
            var p := q + 4 + |t.price|;
            var n := p + |sep| + |t.total|;
            && n + |end| == |s|
            && s[..q] == t.qty && s[q + 4..p] == t.price
            && s[p..p + |sep|] == sep && s[p + |sep|..n] == t.total && s[n..] == end
            && s[q..q + 4] == " PZ "
  {
    var a := t.qty + " PZ ";
    var b := a + t.price;
    var c := b + sep;
    var d := c + t.total;
    var s := d + end;
    ConcatParts(d, end);
    ConcatParts(c, t.total);
    ConcatParts(b, sep);
    ConcatParts(a, t.price);
    ConcatParts(t.qty, " PZ ");
    assert s[..|t.qty|] == d[..|t.qty|] == c[..|t.qty|] == b[..|t.qty|] == a[..|t.qty|];
    assert s[|a|..|b|] == d[|a|..|b|] == c[|a|..|b|] == b[|a|..];
    assert s[|b|..|c|] == d[|b|..|c|] == c[|b|..];
    assert s[|c|..|d|] == d[|c|..];
    assert s[|t.qty|..|a|] == a[|t.qty|..];
  }

  /** A digit run `s[i..j]` that stops at `j` is what `DigitsEnd` finds. */
  lemma DigitsRunAt(s: string, i: nat, j: nat)
    requires i <= j <= |s| && AllDigits(s[i..j])
    requires j < |s| ==> !IsDigit(s[j])
    ensures DigitsEnd(s, i) == j
  {
    forall x | i <= x < j
      ensures IsDigit(s[x])
    {
      assert s[x] == s[i..j][x - i];
    }
    DigitsEndAt(s, i, j);
  }

  /** A `[\d.,]` run `s[i..j]` that stops at `j` is what `NumsEnd` finds. */
  lemma NumsRunAt(s: string, i: nat, j: nat)
    requires i <= j <= |s| && AllNumChars(s[i..j])
    requires j < |s| ==> !IsNumChar(s[j])
    ensures NumsEnd(s, i) == j
  {
    forall x | i <= x < j
      ensures IsNumChar(s[x])
    {
      assert s[x] == s[i..j][x - i];
    }
    NumsEndAt(s, i, j);
  }

  /** A price separator at `p` is measured whole, and stops the price run. */
  lemma PriceSepAt(s: string, p: nat, sep: string)
    requires sep in PriceSeps && p + |sep| <= |s| && s[p..p + |sep|] == sep
    ensures PriceSepLen(s, p) == |sep| && !IsNumChar(s[p])
  {
    assert s[p] == sep[0] && s[p + 1] == sep[1];
    if sep == " € " {
      assert s[p + 2] == sep[2];
    }
  }

  /** An ending at `n` ends the total run and is accepted. */
  lemma TotalEndOf(s: string, n: nat, end: string)
    requires end in TotalEnds && n <= |s| && s[n..] == end
    ensures TotalEndAt(s, n) && (n < |s| ==> !IsNumChar(s[n]))
  {
    if n < |s| {
      assert s[n] == end[0];
      if end == " €" {
        assert s[n + 1] == end[1];
      }
    }
  }

  /** The matcher finds the groups of a numeric tail with a known separator and ending. */
  lemma MatchTailWith(s: string, t: Tail, sep: string, end: string)
    requires IsTailWith(s, t, sep, end)
    ensures MatchTail(s) == Some(t)
  {
    TailTextSlices(t, sep, end);
    MatchTailFromSlices(s, t, sep, end, |t.qty|, |t.qty| + 4 + |t.price|, |t.qty| + 4 + |t.price| + |sep| + |t.total|);
  }

  /** The same, from where the groups sit in `s`. */
  lemma MatchTailFromSlices(s: string, t: Tail, sep: string, end: string, q: nat, p: nat, n: nat)
    requires t.qty != [] && AllDigits(t.qty) && t.price != [] && AllNumChars(t.price)
    requires t.total != [] && AllNumChars(t.total) && sep in PriceSeps && end in TotalEnds
    requires q == |t.qty| && p == q + 4 + |t.price| && n == p + |sep| + |t.total| && n + |end| == |s|
    requires s[..q] == t.qty && s[q + 4..p] == t.price && s[q..q + 4] == " PZ "
    requires s[p..p + |sep|] == sep && s[p + |sep|..n] == t.total && s[n..] == end
    ensures MatchTail(s) == Some(t)
  {
    assert s[0..q] == t.qty;
    assert PzAt(s, q) by {
      assert s[q] == s[q..q + 4][0] && s[q + 1] == s[q..q + 4][1];
      assert s[q + 2] == s[q..q + 4][2] && s[q + 3] == s[q..q + 4][3];
    }
    DigitsRunAt(s, 0, q);
    PriceSepAt(s, p, sep);
    NumsRunAt(s, q + 4, p);
    TotalEndOf(s, n, end);
    NumsRunAt(s, p + |sep|, n);
    MatchTailAtWhen(s, 0, t, q, p, |sep|, n);
  }

  /** What `MatchTailAt` finds once each of its searches is known to stop where it does. */
  lemma MatchTailAtWhen(s: string, i: nat, t: Tail, q: nat, p: nat, k: nat, n: nat)
    requires i < q && q + 4 < p && k != 0 && p + k < n <= |s|
    requires DigitsEnd(s, i) == q && PzAt(s, q) && NumsEnd(s, q + 4) == p && PriceSepLen(s, p) == k
    requires NumsEnd(s, p + k) == n && TotalEndAt(s, n)
    requires t == Tail(s[i..q], s[q + 4..p], s[p + k..n])
    ensures MatchTailAt(s, i) == Some(t)
  {
  }

  /** The numeric tail `t` at position `i`, given where its groups sit. */
  lemma MatchTailAtOf(s: string, i: nat, t: Tail, sep: string, q: nat, p: nat, n: nat)
    requires t.qty != [] && AllDigits(t.qty) && t.price != [] && AllNumChars(t.price)
    requires t.total != [] && AllNumChars(t.total) && sep in PriceSeps
    requires q == i + |t.qty| && p == q + 4 + |t.price| && n == p + |sep| + |t.total| && n <= |s|
    requires s[n..] in TotalEnds
    requires s[i..q] == t.qty && s[q..q + 4] == " PZ " && s[q + 4..p] == t.price
    requires s[p..p + |sep|] == sep && s[p + |sep|..n] == t.total
    ensures MatchTailAt(s, i) == Some(t)
  {
    assert PzAt(s, q) by {
      assert s[q] == s[q..q + 4][0] && s[q + 1] == s[q..q + 4][1];
      assert s[q + 2] == s[q..q + 4][2] && s[q + 3] == s[q..q + 4][3];
    }
    DigitsRunAt(s, i, q);
    PriceSepAt(s, p, sep);
    NumsRunAt(s, q + 4, p);
    TotalEndOf(s, n, s[n..]);
    NumsRunAt(s, p + |sep|, n);
    MatchTailAtWhen(s, i, t, q, p, |sep|, n);
  }

  /**
   * Every numeric tail is found by the matcher, with its own groups: with
   * `MatchTailAtSound`, `MatchTail(s) == Some(t)` exactly when `IsTail(s, t)`.
   */
  lemma MatchTailComplete(s: string, t: Tail)
    requires IsTail(s, t)
    ensures MatchTail(s) == Some(t)
  {
    var sep, end :| sep in PriceSeps && end in TotalEnds && IsTailWith(s, t, sep, end);
    MatchTailWith(s, t, sep, end);
  }

  // ---------------------------------------------------------------------
  // The full row `_row_full_re` and the merged prefix (omnia.py:55-61, 189)

  /**
   * The description of a full row is as short as it can be: any position `x`,
   * from `k` on, that is followed by a space and a whole numeric tail is at
   * or after the one `LazyDescEnd` picks.
   */
  lemma {:induction false} LazyDescEndLeast(line: string, k: nat, x: nat)
    requires k <= x < |line| && TailAfter(line, x)
    ensures LazyDescEnd(line, k) <= x
    decreases x - k
  {
    if LazyDescEnd(line, k) > k {
      LazyDescEndLeast(line, k + 1, x);
    }
  }

  /**
   * What a full-row match means: the line is the code token, a space, a
   * non-empty description, a space and a whole numeric tail with the row's
   * groups (`LazyDescEndLeast` adds that the description is the shortest
   * one that allows that).
   */
  lemma MatchFullRowSound(line: string)
    requires MatchFullRow(line).Some?
    ensures var r := MatchFullRow(line).value;
            var j := |r.code| + 1 + |r.desc|;
            && IsCodeToken(r.code) && r.desc != "" && j < |line|
            && line[..j + 1] == r.code + " " + r.desc + " "
            && IsTail(line[j + 1..], r.tail)
  {
    MatchFullRowGuard(line);
    RowAfterCodeSound(line, CodeCharsEnd(line, 0));
  }

  /**
   * `line` is laid out as the row `r`: its code token, a space, its non-empty
   * description, a space and a whole numeric tail with its groups.
   */
  predicate RowLaidOut(line: string, r: Row) {
    var j := |r.code| + 1 + |r.desc|;
    && IsCodeToken(r.code) && r.desc != "" && j < |line|
    && line[..j + 1] == r.code + " " + r.desc + " "
    && IsTail(line[j + 1..], r.tail)
  }

  /** `MatchFullRowSound` once the code token, ending at `c`, is found. */
  lemma RowAfterCodeSound(line: string, c: nat)
    requires 3 <= c && c + 2 <= |line| && line[c] == ' ' && (IsUpper(line[0]) || IsDigit(line[0]))
    requires CodeCharsEnd(line, 0) == c && RowAfterCode(line, c).Some?
    ensures RowLaidOut(line, RowAfterCode(line, c).value)
  {
    CodeTokenOfRun(line, c);
    RowAfterCodeLaidOut(line, c);
  }

  /** `RowAfterCodeSound` once the code token is known to be one. */
  lemma RowAfterCodeLaidOut(line: string, c: nat)
    requires 3 <= c && c + 2 <= |line| && line[c] == ' '
    requires IsCodeToken(line[..c]) && RowAfterCode(line, c).Some?
    ensures RowLaidOut(line, RowAfterCode(line, c).value)
  {
    assert LazyDescEnd(line, c + 2) < |line|;
    var j, t := RowAfterCodeParts(line, c);
    RowSoundWhen(line, c, j, t, RowAfterCode(line, c).value);
  }

  /** Where the description of a row after the code token ends, and its tail. */
  lemma RowAfterCodeParts(line: string, c: nat) returns (j: nat, t: Tail)
    requires c + 2 <= |line| && LazyDescEnd(line, c + 2) < |line|
    ensures j == LazyDescEnd(line, c + 2)
    ensures c + 2 <= j < |line| && line[j] == ' ' && MatchTailAt(line, j + 1) == Some(t)
    ensures RowAfterCode(line, c) == Some(Row(line[..c], line[c + 1..j], t))
  {
    j := LazyDescEnd(line, c + 2);
    assert TailAfter(line, j);
    t := MatchTailAt(line, j + 1).value;
  }

  /** The run of code characters at the start of a line is a code token. */
  lemma CodeTokenOfRun(line: string, c: nat)
    requires 3 <= c <= |line| && CodeCharsEnd(line, 0) == c && (IsUpper(line[0]) || IsDigit(line[0]))
    ensures IsCodeToken(line[..c])
  {
    CodeCharsEndRun(line, 0);
  }

  /** The code-token part of `_row_full_re`: what a match needs of the first token. */
  lemma MatchFullRowGuard(line: string)
    requires MatchFullRow(line).Some?
    ensures var c := CodeCharsEnd(line, 0);
            && 3 <= c && c + 2 <= |line| && line[c] == ' ' && (IsUpper(line[0]) || IsDigit(line[0]))
            && MatchFullRow(line) == RowAfterCode(line, c)
  {
  }

  /** A row cut out of `line` at two spaces, with a matched tail, is laid out as `RowLaidOut` says. */
  lemma RowSoundWhen(line: string, c: nat, j: nat, t: Tail, r: Row)
    requires 3 <= c && c + 2 <= j < |line| && line[c] == ' ' && line[j] == ' '
    requires IsCodeToken(line[..c]) && MatchTailAt(line, j + 1) == Some(t)
    requires r == Row(line[..c], line[c + 1..j], t)
    ensures RowLaidOut(line, r) && |r.code| + 1 + |r.desc| == j
  {
    MatchTailAtSound(line, j + 1);
    TwoSpaces(line, c, j);
  }

  lemma MatchFullRowAfterCode(line: string, c: nat)
    requires 3 <= c && c + 2 <= |line| && line[c] == ' ' && (IsUpper(line[0]) || IsDigit(line[0]))
    requires CodeCharsEnd(line, 0) == c
    ensures MatchFullRow(line) == RowAfterCode(line, c)
  {
  }

  lemma RowAfterCodeIs(line: string, c: nat, j: nat, t: Tail)
    requires c + 2 <= j < |line| && LazyDescEnd(line, c + 2) == j && MatchTailAt(line, j + 1) == Some(t)
    ensures RowAfterCode(line, c) == Some(Row(line[..c], line[c + 1..j], t))
  {
  }

  /**
   * Every line laid out as a row is matched: the code token is the same and
   * the description is no longer than that of the layout, and it is the very
   * row when the descriptions are as long. With `MatchFullRowSound`, the match
   * is the laid-out row with the shortest description, as `.+?` asks.
   */
  lemma MatchFullRowComplete(line: string, r: Row)
    requires RowLaidOut(line, r)
    ensures MatchFullRow(line).Some? && MatchFullRow(line).value.code == r.code
    ensures |MatchFullRow(line).value.desc| <= |r.desc|
    ensures |MatchFullRow(line).value.desc| == |r.desc| ==> MatchFullRow(line) == Some(r)
  {
    RowLaidOutParts(line, r);
    TailAtOf(line, |r.code| + 2 + |r.desc|, r.tail);
    MatchFullRowCompleteAt(line, r);
  }

  /** `MatchFullRowComplete` with the layout of `r` read off `line` piece by piece. */
  lemma MatchFullRowCompleteAt(line: string, r: Row)
    requires 3 <= |r.code| && |r.code| + 2 <= |r.code| + 1 + |r.desc| < |line|
    requires line[|r.code|] == ' ' && line[|r.code| + 1 + |r.desc|] == ' '
    requires line[..|r.code|] == r.code && line[|r.code| + 1..|r.code| + 1 + |r.desc|] == r.desc
    requires (IsUpper(line[0]) || IsDigit(line[0])) && forall x :: 0 <= x < |r.code| ==> IsCodeChar(line[x])
    requires MatchTailAt(line, |r.code| + 2 + |r.desc|) == Some(r.tail)
    ensures MatchFullRow(line).Some? && MatchFullRow(line).value.code == r.code
    ensures |MatchFullRow(line).value.desc| <= |r.desc|
    ensures |MatchFullRow(line).value.desc| == |r.desc| ==> MatchFullRow(line) == Some(r)
  {
    var c := |r.code|;
    var j := c + 1 + |r.desc|;
    assert TailAfter(line, j);
    var j0, t0 := MatchFullRowWithin(line, c, j);
    assert |line[c + 1..j0]| == j0 - c - 1;
    if j0 == j {
      SameTail(line, j0 + 1, j + 1, t0, r.tail);
      assert Row(line[..c], line[c + 1..j0], t0) == r;
    }
  }

  /**
   * With the code token ending at `c` and a tail after the space at `j`, the
   * description stops at `j0`, at `j` or before.
   */
  lemma MatchFullRowWithin(line: string, c: nat, j: nat) returns (j0: nat, t0: Tail)
    requires 3 <= c && c + 2 <= j < |line| && line[c] == ' '
    requires (IsUpper(line[0]) || IsDigit(line[0])) && forall x :: 0 <= x < c ==> IsCodeChar(line[x])
    requires TailAfter(line, j)
    ensures c + 2 <= j0 <= j && MatchFullRow(line) == Some(Row(line[..c], line[c + 1..j0], t0))
    ensures MatchTailAt(line, j0 + 1) == Some(t0)
  {
    CodeCharsEndAt(line, 0, c);
    MatchFullRowAfterCode(line, c);
    LazyDescEndLeast(line, c + 2, j);
    j0, t0 := RowAfterCodeParts(line, c);
  }

  /** The matcher finds one tail at a position. */
  lemma SameTail(s: string, i: nat, k: nat, a: Tail, b: Tail)
    requires i == k <= |s| && MatchTailAt(s, i) == Some(a) && MatchTailAt(s, k) == Some(b)
    ensures a == b
  {
  }

  /** A numeric tail at position `i` of `s` is what `MatchTailAt` finds there. */
  lemma TailAtOf(s: string, i: nat, t: Tail)
    requires i <= |s| && IsTail(s[i..], t)
    ensures MatchTailAt(s, i) == Some(t)
  {
    var sep, end :| sep in PriceSeps && end in TotalEnds && IsTailWith(s[i..], t, sep, end);
    TailAtOfText(s, i, t, sep, end);
  }

  /** The pieces of a laid-out row, read off `line`. */
  lemma RowLaidOutParts(line: string, r: Row)
    requires RowLaidOut(line, r)
    ensures var c := |r.code|;
            && 3 <= c && c + 2 <= c + 1 + |r.desc| < |line| && line[c] == ' ' && line[c + 1 + |r.desc|] == ' '
            && line[..c] == r.code && line[c + 1..c + 1 + |r.desc|] == r.desc
            && (IsUpper(line[0]) || IsDigit(line[0])) && (forall x :: 0 <= x < c ==> IsCodeChar(line[x]))
            && !IsCodeChar(line[c])
  {
    var c := |r.code|;
    var j := c + 1 + |r.desc|;
    var head := line[..j + 1];
    assert head == r.code + " " + r.desc + " ";
    assert line[..c] == head[..c] == r.code;
    assert line[c + 1..j] == head[c + 1..j] == r.desc;
    assert line[c] == head[c] && line[j] == head[j];
    forall x | 0 <= x < c
      ensures IsCodeChar(line[x])
    {
      assert line[x] == r.code[x];
    }
  }

  /** The numeric tail `t` written out at position `i` of `s` is what `MatchTailAt` finds there. */
  lemma TailAtOfText(s: string, i: nat, t: Tail, sep: string, end: string)
    requires i <= |s| && IsTailWith(s[i..], t, sep, end)
    ensures MatchTailAt(s, i) == Some(t)
  {
    var q := i + |t.qty|;
    var p := q + 4 + |t.price|;
    var n := p + |sep| + |t.total|;
    TailTextSlices(t, sep, end);
    var u := s[i..];
    assert s[i..q] == u[..|t.qty|];
    assert s[q..q + 4] == u[|t.qty|..|t.qty| + 4];
    assert s[q + 4..p] == u[|t.qty| + 4..p - i];
    assert s[p..p + |sep|] == u[p - i..p - i + |sep|];
    assert s[p + |sep|..n] == u[p - i + |sep|..n - i];
    assert s[n..] == u[n - i..];
    MatchTailAtOf(s, i, t, sep, q, p, n);
  }

  /** A full row is found exactly when the line is laid out as some row. */
  lemma MatchFullRowIff(line: string)
    ensures MatchFullRow(line).Some? <==> exists r :: RowLaidOut(line, r)
  {
    if MatchFullRow(line).Some? {
      MatchFullRowSound(line);
      assert RowLaidOut(line, MatchFullRow(line).value);
    }
    if r :| RowLaidOut(line, r) {
      MatchFullRowComplete(line, r);
    }
  }

  /** A string with spaces at `a` and `b` is the three pieces around them. */
  lemma TwoSpaces(s: string, a: nat, b: nat)
    requires a < b < |s| && s[a] == ' ' && s[b] == ' '
    ensures s == s[..a] + " " + s[a + 1..b] + " " + s[b + 1..]
  {
  }

  /** A run of code characters from `i` that stops at `j` is what `CodeCharsEnd` finds. */
  lemma {:induction false} CodeCharsEndAt(s: string, i: nat, j: nat)
    requires i <= j < |s|
    requires forall x :: i <= x < j ==> IsCodeChar(s[x])
    requires !IsCodeChar(s[j])
    ensures CodeCharsEnd(s, i) == j
    decreases j - i
  {
    if i < j {
      CodeCharsEndAt(s, i + 1, j);
    }
  }

  /** A run of capitals from `i` that stops at `j` is what `UpperEnd` finds. */
  lemma {:induction false} UpperEndAt(s: string, i: nat, j: nat)
    requires i <= j < |s|
    requires forall x :: i <= x < j ==> IsUpper(s[x])
    requires !IsUpper(s[j])
    ensures UpperEnd(s, i) == j
    decreases j - i
  {
    if i < j {
      UpperEndAt(s, i + 1, j);
    }
  }

  /**
   * Every prefix-and-word token splits into its own prefix and word: with the
   * ensures of `SplitMergedPrefix`, the split is `Some((pre, word))` exactly
   * when `token == pre + word` for a prefix `[A-Z]{2,8}-` and a word `[A-Z]{2,}`.
   */
  lemma SplitMergedPrefixComplete(token: string, pre: string, word: string)
    requires token == pre + word && IsPrefixOnly(pre) && |word| >= 2 && AllUpper(word)
    ensures SplitMergedPrefix(token) == Some((pre, word))
  {
    var k := |pre| - 1;
    UpperEndAt(token, 0, k);
    assert token[..k + 1] == pre && token[k + 1..] == word;
  }
}
