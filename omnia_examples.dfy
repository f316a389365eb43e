// The worked examples of the Omnia parser's doc comment
// (src/pdf2xlsx_enterprise/parsers/omnia.py:34-48), evaluated on their
// literal lines.
module OmniaExamples {
  import opened Types
  import opened Text
  import opened OmniaPatterns
  import opened OmniaPatternProps
  import opened OmniaSteps
  import opened OmniaProps

  // ---------------------------------------------------------------------
  // Facts about a line read off its characters

  /** The capital of the lower-case letter `c`. */
  function Capital(c: char): char
    requires 'a' <= c <= 'z'
  {
    (c as int - 32) as char
  }

  /** `s` holds the lower-case letter `c` in neither case. */
  predicate Lacks(s: string, c: char)
    requires 'a' <= c <= 'z'
  {
    forall i :: 0 <= i < |s| ==> s[i] != c && s[i] != Capital(c)
  }

  /** A word that occurs in `s` brings its characters with it. */
  lemma ContainsChar(s: string, w: string, c: char)
    requires Contains(s, w) && c in w
    ensures c in s
  {
    var i :| 0 <= i <= |s| && OccursAt(s, w, i);
    var k :| 0 <= k < |w| && w[k] == c;
    assert s[i + k] == s[i..i + |w|][k];
  }

  /** A word with a letter that `s` lacks does not occur in the lowered `s`. */
  lemma LacksWord(s: string, c: char, w: string)
    requires 'a' <= c <= 'z' && c in w && Lacks(s, c)
    ensures !Contains(Lower(s), w)
  {
    LowerAt(s);
    forall i | 0 <= i < |s|
      ensures Lower(s)[i] != c
    {
      assert LowerChar(s[i]) != c;
    }
    if Contains(Lower(s), w) {
      ContainsChar(Lower(s), w, c);
    }
  }

  /** At most the word at `skip` can be a hit when every other word is absent. */
  lemma {:induction false} CountHitsAtMostOne(lo: string, words: seq<string>, skip: int)
    requires forall k :: 0 <= k < |words| && k != skip ==> !Contains(lo, words[k])
    ensures CountHits(lo, words) <= 1
    ensures skip < 0 ==> CountHits(lo, words) == 0
    decreases |words|
  {
    if words != [] {
      CountHitsAtMostOne(lo, words[1..], skip - 1);
    }
  }

  /**
   * A line is no header when, for every header word but the one at `skip`,
   * it lacks the letter `letters` gives for that word.
   */
  lemma NoHeaderLacking(s: string, letters: string, skip: int)
    requires |letters| == |HeaderWords|
    requires forall k :: 0 <= k < |HeaderWords| && k != skip ==>
               'a' <= letters[k] <= 'z' && letters[k] in HeaderWords[k] && Lacks(s, letters[k])
    ensures !IsHeaderLine(s)
  {
    forall k | 0 <= k < |HeaderWords| && k != skip
      ensures !Contains(Lower(s), HeaderWords[k])
    {
      LacksWord(s, letters[k], HeaderWords[k]);
    }
    CountHitsAtMostOne(Lower(s), HeaderWords, skip);
  }

  /** Without a `Z` there is no ` PZ ` and so no numeric tail. */
  lemma NoZNoTail(s: string, i: nat)
    requires i <= |s| && Lacks(s, 'z')
    ensures MatchTailAt(s, i).None?
  {
  }

  /** Without a `Z` there is no full row either. */
  lemma NoZNoRow(line: string)
    requires Lacks(line, 'z')
    ensures MatchFullRow(line).None?
  {
    var c := CodeCharsEnd(line, 0);
    if !(c < 3 || c + 2 > |line| || line[c] != ' ' || !(IsUpper(line[0]) || IsDigit(line[0]))) {
      NoZDescEnd(line, c + 2);
    }
  }

  lemma {:induction false} NoZDescEnd(line: string, k: nat)
    requires k <= |line| && Lacks(line, 'z')
    ensures LazyDescEnd(line, k) == |line|
    decreases |line| - k
  {
    if k < |line| {
      if line[k] == ' ' {
        NoZNoTail(line, k + 1);
      }
      NoZDescEnd(line, k + 1);
    }
  }

  /** A line whose first token is shorter than three characters is no full row. */
  lemma ShortTokenNoRow(line: string, k: nat)
    requires k < 3 && k < |line| && !IsCodeChar(line[k])
    ensures MatchFullRow(line).None?
  {
    CodeCharsEndRun(line, 0);
  }

  /** The first space of `s` is at `k`. */
  lemma {:induction false} FirstSpaceAt(s: string, k: nat)
    requires k < |s| && s[k] == ' ' && forall j :: 0 <= j < k ==> s[j] != ' '
    ensures FirstSpace(s) == k
  {
    if k > 0 {
      FirstSpaceAt(s[1..], k - 1);
    }
  }

  /** A line split at its first space into a code token and a rest, neither padded. */
  lemma CodeLineParts(line: string, k: nat, token: string, rest: string)
    requires FirstSpace(line) == k && k < |line| && line[..k] == token && line[k + 1..] == rest
    requires IsCodeToken(token) && (rest == [] || (!IsWs(rest[0]) && !IsWs(rest[|rest| - 1])))
    ensures IsCodeLine(line) && LineToken(line) == token && LineRest(line) == rest
  {
    CodeTokenUnpadded(token);
    StripUntrimmed(rest);
    LineTokenOf(line, k, token);
    LineRestOf(line, k, rest);
  }

  lemma LineTokenOf(line: string, k: nat, token: string)
    requires FirstSpace(line) == k && line[..k] == token && Strip(token) == token
    ensures LineToken(line) == token
  {
  }

  lemma LineRestOf(line: string, k: nat, rest: string)
    requires FirstSpace(line) == k && k < |line| && line[k + 1..] == rest && Strip(rest) == rest
    ensures LineRest(line) == rest
  {
    assert line[FirstSpace(line) + 1..] == rest;
  }

  lemma CodeTokenUnpadded(token: string)
    requires IsCodeToken(token)
    ensures Strip(token) == token
  {
    assert IsCodeChar(token[|token| - 1]);
    StripUntrimmed(token);
  }

  /** A line of digits has no description, so it is no full row. */
  lemma DigitsNoRow(line: string)
    requires AllDigits(line)
    ensures MatchFullRow(line).None?
  {
    CodeCharsEndRun(line, 0);
  }

  /** The lazy description search stops at `j`, the first place a tail may follow. */
  lemma {:induction false} LazyDescEndAt(line: string, k: nat, j: nat)
    requires k <= j < |line| && TailAfter(line, j)
    requires forall x :: k <= x < j ==> !TailAfter(line, x)
    ensures LazyDescEnd(line, k) == j
    decreases j - k
  {
    if k < j {
      LazyDescEndAt(line, k + 1, j);
    }
  }

  /**
   * No tail starts at `i` when a non-digit at `m` ends the digits from `i`
   * too early to reach the first `Z`, at `z` or later.
   */
  lemma NoTailBeforeZ(s: string, i: nat, m: nat, z: nat)
    requires i <= m < |s| && m + 2 < z && !IsDigit(s[m])
    requires forall x :: 0 <= x < z && x < |s| ==> s[x] != 'Z'
    ensures MatchTailAt(s, i).None?
  {
    DigitsEndRun(s, i);
  }

  /** No tail starts at `i` without a `Z` two or more places on. */
  lemma NoTailWithoutZ(s: string, i: nat)
    requires i <= |s| && forall x :: i + 2 <= x < |s| ==> s[x] != 'Z'
    ensures MatchTailAt(s, i).None?
  {
  }

  lemma {:induction false} NoZDescEndFrom(line: string, k: nat)
    requires k <= |line| && forall x :: k + 3 <= x < |line| ==> line[x] != 'Z'
    ensures LazyDescEnd(line, k) == |line|
    decreases |line| - k
  {
    if k < |line| {
      if line[k] == ' ' {
        NoTailWithoutZ(line, k + 1);
      }
      NoZDescEndFrom(line, k + 1);
    }
  }

  /**
   * A line whose first run of code characters ends at `k` and that has no `Z`
   * from `k + 5` on is no full row: a description and a tail need one more.
   */
  lemma NoZAfterTokenNoRow(line: string, k: nat)
    requires k < |line| && !IsCodeChar(line[k]) && forall x :: 0 <= x < k ==> IsCodeChar(line[x])
    requires forall x :: k + 5 <= x < |line| ==> line[x] != 'Z'
    ensures MatchFullRow(line).None?
  {
    CodeCharsEndAt(line, 0, k);
    if 3 <= k && k + 2 <= |line| {
      NoZDescEndFrom(line, k + 2);
    }
  }

  /**
   * Where the parts of a full row sit: a code token ending at `c`, the tail
   * `t` after the space at `j` with its groups ending at `q`, `p` and `n`,
   * and a non-digit at `m` soon enough before the first `Z`, at `z`, that no
   * tail starts earlier.
   */
  predicate RowLayout(line: string, c: nat, j: nat, m: nat, z: nat, t: Tail, sep: string, q: nat, p: nat, n: nat) {
    && 3 <= c && c + 2 <= j < |line| && line[c] == ' ' && (IsUpper(line[0]) || IsDigit(line[0]))
    && (forall x :: 0 <= x < c ==> IsCodeChar(line[x]))
    && line[j] == ' '
    && t.qty != [] && AllDigits(t.qty) && t.price != [] && AllNumChars(t.price)
    && t.total != [] && AllNumChars(t.total) && sep in PriceSeps
    && q == j + 1 + |t.qty| && p == q + 4 + |t.price| && n == p + |sep| + |t.total| && n <= |line|
    && line[n..] in TotalEnds
    && line[j + 1..q] == t.qty && line[q..q + 4] == " PZ " && line[q + 4..p] == t.price
    && line[p..p + |sep|] == sep && line[p + |sep|..n] == t.total
    && m < |line| && m + 2 < z && !IsDigit(line[m])
    && (forall x :: 0 <= x < z && x < |line| ==> line[x] != 'Z')
    && (forall x :: c + 2 <= x < j ==> line[x] != ' ' || x + 1 <= m)
  }

  lemma MatchFullRowOfSlices(line: string, c: nat, j: nat, m: nat, z: nat, t: Tail, sep: string, q: nat, p: nat, n: nat)
    requires RowLayout(line, c, j, m, z, t, sep, q, p, n)
    ensures MatchFullRow(line) == Some(Row(line[..c], line[c + 1..j], t))
  {
    MatchTailAtOf(line, j + 1, t, sep, q, p, n);
    MatchFullRowOf(line, c, j, m, z, t);
  }

  lemma MatchFullRowOf(line: string, c: nat, j: nat, m: nat, z: nat, t: Tail)
    requires 3 <= c && c + 2 <= j < |line| && line[c] == ' ' && (IsUpper(line[0]) || IsDigit(line[0]))
    requires forall x :: 0 <= x < c ==> IsCodeChar(line[x])
    requires line[j] == ' ' && MatchTailAt(line, j + 1) == Some(t)
    requires m < |line| && m + 2 < z && !IsDigit(line[m])
    requires forall x :: 0 <= x < z && x < |line| ==> line[x] != 'Z'
    requires forall x :: c + 2 <= x < j ==> line[x] != ' ' || x + 1 <= m
    ensures MatchFullRow(line) == Some(Row(line[..c], line[c + 1..j], t))
  {
    CodeCharsEndAt(line, 0, c);
    NoTailBeforeNonDigit(line, c + 2, j, m, z);
    LazyDescEndAt(line, c + 2, j);
    MatchFullRowWhen(line, c, j, t);
  }

  lemma MatchFullRowWhen(line: string, c: nat, j: nat, t: Tail)
    requires 3 <= c && c + 2 <= j < |line| && line[c] == ' ' && (IsUpper(line[0]) || IsDigit(line[0]))
    requires CodeCharsEnd(line, 0) == c && LazyDescEnd(line, c + 2) == j && MatchTailAt(line, j + 1) == Some(t)
    ensures MatchFullRow(line) == Some(Row(line[..c], line[c + 1..j], t))
  {
    MatchFullRowAfterCode(line, c);
    RowAfterCodeIs(line, c, j, t);
  }

  lemma NoTailBeforeNonDigit(line: string, k: nat, j: nat, m: nat, z: nat)
    requires j <= |line| && m < |line| && m + 2 < z && !IsDigit(line[m])
    requires forall x :: 0 <= x < z && x < |line| ==> line[x] != 'Z'
    requires forall x :: k <= x < j ==> line[x] != ' ' || x + 1 <= m
    ensures forall x :: k <= x < j ==> !TailAfter(line, x)
  {
    forall x | k <= x < j
      ensures !TailAfter(line, x)
    {
      if line[x] == ' ' {
        NoTailBeforeZ(line, x + 1, m, z);
      }
    }
  }

  /** A slice read off character by character. */
  lemma SliceIs(s: string, i: nat, w: string)
    requires i + |w| <= |s| && forall x :: 0 <= x < |w| ==> s[i + x] == w[x]
    ensures s[i..i + |w|] == w
  {
  }

  /** A token that starts with a digit is no merged prefix. */
  lemma DigitFirstNotMerged(token: string)
    requires token != [] && IsDigit(token[0])
    ensures SplitMergedPrefix(token).None?
  {
    UpperEndAt(token, 0, 0);
  }

  /** `clean_number` keeps a string of digits. */
  lemma CleanDigits(a: string)
    requires AllDigits(a)
    ensures CleanNumber(a) == a
  {
    DigitsHaveNoSeparator(a);
    CleanNumberFixes(a);
  }

  /** `clean_number` keeps a dot-decimal number. */
  lemma CleanDotDecimal(a: string, b: string)
    requires AllDigits(a) && AllDigits(b)
    ensures CleanNumber(a + "." + b) == a + "." + b
  {
    DigitsHaveNoSeparator(a);
    DigitsHaveNoSeparator(b);
    CountAppend(a, ".", ',');
    CountAppend(a + ".", b, ',');
    AllNumCharsAppend(a, ".");
    AllNumCharsAppend(a + ".", b);
    CleanNumberFixes(a + "." + b);
  }

  /** A token made of capitals, a hyphen at `k` and a word of capitals splits after the hyphen. */
  lemma SplitMergedPrefixOf(token: string, k: nat, pre: string, word: string)
    requires 2 <= k <= 8 && k + 3 <= |token| && token[k] == '-'
    requires forall x :: 0 <= x < k ==> IsUpper(token[x])
    requires token[..k + 1] == pre && token[k + 1..] == word && AllUpper(word)
    ensures SplitMergedPrefix(token) == Some((pre, word))
  {
    UpperEndAt(token, 0, k);
  }

  // ---------------------------------------------------------------------
  // Which branch a line takes, from facts about its characters

  /**
   * A line told apart from a header line by the letters it lacks, criterion
   * `crit` naming which letters, or by having only digits.
   */
  predicate HeaderFree(line: string, crit: nat) {
    if crit == 0 then Lacks(line, 'c') && Lacks(line, 't')
    else if crit == 1 then Lacks(line, 't') && Lacks(line, 'd')
    else if crit == 2 then Lacks(line, 'r') && Lacks(line, 'd') && Lacks(line, 'a')
    else AllDigits(line)
  }

  lemma HeaderFreeNoHeader(line: string, crit: nat)
    requires HeaderFree(line, crit)
    ensures !IsHeaderLine(line)
  {
    // Every header word but "prezzo" has a `c` or a `t`, and a `t` or a `d`;
    // every one but "sconto" has an `r`, a `d` or an `a`.
    if crit == 0 {
      NoHeaderLacking(line, "ccctcctt", 4);
    } else if crit == 1 {
      NoHeaderLacking(line, "tdtttttt", 4);
    } else if crit == 2 {
      NoHeaderLacking(line, "rddarara", 5);
    } else {
      LongNumberIsNoHeader(line);
    }
  }

  lemma ClassifyPrefixLine(p: Pending, line: string, crit: nat)
    requires HeaderFree(line, crit) && IsPrefixOnly(line)
    ensures Classify(p, line) == PrefixOnly
  {
    HeaderFreeNoHeader(line, crit);
  }

  /** A long line without a `Z` whose first token is code-shaped, with no code or prefix description pending. */
  lemma ClassifyCodeLineOf(p: Pending, line: string, crit: nat, k: nat, token: string, rest: string)
    requires HeaderFree(line, crit) && |line| > 9 && Lacks(line, 'z')
    requires !Truthy(p.prefixDesc) && !Truthy(p.code)
    requires k < |line| && line[k] == ' ' && forall j :: 0 <= j < k ==> line[j] != ' '
    requires line[..k] == token && line[k + 1..] == rest && IsCodeToken(token)
    requires rest == [] || (!IsWs(rest[0]) && !IsWs(rest[|rest| - 1]))
    ensures Classify(p, line) == CodeLine(token, rest)
  {
    HeaderFreeNoHeader(line, crit);
    NoZNoRow(line);
    FirstSpaceAt(line, k);
    CodeLineParts(line, k, token, rest);
    ClassifyCodeLineWhen(p, line, token, rest);
  }

  lemma ClassifyCodeLineWhen(p: Pending, line: string, token: string, rest: string)
    requires !IsHeaderLine(line) && |line| > 9 && MatchFullRow(line).None?
    requires !Truthy(p.prefixDesc) && !Truthy(p.code)
    requires IsCodeLine(line) && LineToken(line) == token && LineRest(line) == rest
    ensures Classify(p, line) == CodeLine(token, rest)
  {
  }

  /** The characters a numeric tail is made of. */
  predicate IsTailChar(ch: char) { IsNumChar(ch) || ch == ' ' || ch == 'P' || ch == 'Z' || ch == '€' }

  predicate AllTailChars(s: string) { forall i :: 0 <= i < |s| ==> IsTailChar(s[i]) }

  lemma AllTailCharsAppend(a: string, b: string)
    requires AllTailChars(a) && AllTailChars(b)
    ensures AllTailChars(a + b)
  {
    forall i | 0 <= i < |a + b|
      ensures IsTailChar((a + b)[i])
    {
      if i >= |a| {
        assert (a + b)[i] == b[i - |a|];
      }
    }
  }

  lemma TailTextChars(t: Tail, sep: string, end: string)
    requires AllDigits(t.qty) && AllNumChars(t.price) && AllNumChars(t.total)
    requires sep in PriceSeps && end in TotalEnds
    ensures AllTailChars(TailText(t, sep, end))
  {
    AllTailCharsAppend(t.qty, " PZ ");
    AllTailCharsAppend(t.qty + " PZ ", t.price);
    AllTailCharsAppend(t.qty + " PZ " + t.price, sep);
    AllTailCharsAppend(t.qty + " PZ " + t.price + sep, t.total);
    AllTailCharsAppend(t.qty + " PZ " + t.price + sep + t.total, end);
  }

  /** A numeric tail has neither a `c` nor a `t`, so it is no header line. */
  lemma TailNoHeader(line: string, t: Tail, sep: string, end: string)
    requires IsTailWith(line, t, sep, end)
    ensures !IsHeaderLine(line)
  {
    TailTextChars(t, sep, end);
    NoHeaderLacking(line, "ccctcctt", 4);
  }

  /**
   * A numeric tail whose quantity ends at `k`, with a code and description
   * pending and no prefix.
   */
  lemma ClassifyQuantityOf(p: Pending, line: string, k: nat, t: Tail, sep: string, end: string)
    requires |line| > 9 && k < |line| && line[k] == ' ' && forall x :: 0 <= x < k ==> IsCodeChar(line[x])
    requires forall x :: k + 5 <= x < |line| ==> line[x] != 'Z'
    requires !Truthy(p.prefix) && Truthy(p.code) && Truthy(p.desc)
    requires IsTailWith(line, t, sep, end)
    ensures Classify(p, line) == Quantity(t)
  {
    TailNoHeader(line, t, sep, end);
    NoZAfterTokenNoRow(line, k);
    MatchTailWith(line, t, sep, end);
    ClassifyQuantityWhen(p, line, t);
  }

  /** A full row, whatever is pending. */
  lemma ClassifyFullRowOf(p: Pending, line: string, crit: nat, row: Row)
    requires HeaderFree(line, crit) && |line| > 9 && MatchFullRow(line) == Some(row)
    ensures Classify(p, line) == FullRow(row)
  {
    HeaderFreeNoHeader(line, crit);
  }

  lemma ClassifyQuantityWhen(p: Pending, line: string, t: Tail)
    requires !IsHeaderLine(line) && !IsPrefixOnly(line) && MatchFullRow(line).None?
    requires !Truthy(p.prefix) && Truthy(p.code) && Truthy(p.desc) && MatchTail(line) == Some(t)
    ensures Classify(p, line) == Quantity(t)
  {
  }

  /** A long number, with a prefix and its description pending. */
  lemma ClassifyLongNumberOf(p: Pending, line: string)
    requires AllDigits(line) && |line| >= 6 && Truthy(p.prefix) && Truthy(p.prefixDesc)
    ensures Classify(p, line) == LongNumber
  {
    LongNumberIsNoHeader(line);
    DigitsNoRow(line);
  }

  // ---------------------------------------------------------------------
  // A prefix-only code split over two lines (omnia.py:40-43)

  const Ven1 := "VEN-"
  const Ven2 := "9161.167 D.35.8 SHOWER"
  const Ven3 := "1 PZ 1.95 € 1.95 €"

  lemma VenLine1()
    ensures Classify(Idle, Ven1) == PrefixOnly
  {
    ClassifyPrefixLine(Idle, Ven1, 0);
  }

  lemma Ven2Letters()
    ensures HeaderFree(Ven2, 0) && Lacks(Ven2, 'z')
  {
  }

  lemma VenLine2()
    ensures Classify(Pending(Some(Ven1), None, None, None), Ven2) == CodeLine("9161.167", "D.35.8 SHOWER")
  {
    Ven2Letters();
    ClassifyCodeLineOf(Pending(Some(Ven1), None, None, None), Ven2, 0, 8, "9161.167", "D.35.8 SHOWER");
  }

  lemma VenLine3()
    ensures Classify(Pending(None, Some("VEN-9161.167"), Some("D.35.8 SHOWER"), None), Ven3)
         == Quantity(Tail("1", "1.95", "1.95"))
  {
    assert Ven3 == TailText(Tail("1", "1.95", "1.95"), " € ", " €");
    ClassifyQuantityOf(Pending(None, Some("VEN-9161.167"), Some("D.35.8 SHOWER"), None), Ven3, 1,
      Tail("1", "1.95", "1.95"), " € ", " €");
  }

  lemma VenCode()
    ensures Ven1 + "9161.167" == "VEN-9161.167" && HasDigit("9161.167")
  {
    assert IsDigit("9161.167"[0]);
  }

  lemma VenNumbers()
    ensures CleanNumber("1") == "1" && CleanNumber("1.95") == "1.95"
  {
    CleanDigits("1");
    assert "1" + "." + "95" == "1.95";
    CleanDotDecimal("1", "95");
  }

  /**
   * The first split-code layout of the doc comment (omnia.py:40-43): the
   * three lines give the one item `VEN-9161.167`, and nothing stays pending.
   */
  lemma VenExample()
    ensures Run(Idle, [Ven1, Ven2, Ven3])
         == (Idle, [LineItem("VEN-9161.167", "D.35.8 SHOWER", "", "", "1", "1.95", "1.95")])
  {
    VenCode();
    VenNumbers();
    VenLine1();
    VenLine2();
    VenLine3();
    PrefixLineThenCodeLine(Idle, Ven1, Ven2, Ven3, "9161.167", "D.35.8 SHOWER", Tail("1", "1.95", "1.95"));
  }

  const Ss1 := "SS-POIGNEE EQUIPEE C&S MULTI"
  const Ss2 := "2230002839"
  const Ss3 := "2 PZ 8.82 € 17.63 €"
  const SsDesc := "POIGNEE EQUIPEE C&S MULTI"

  lemma Ss1LacksR() ensures Lacks(Ss1, 'r') {}
  lemma Ss1LacksD() ensures Lacks(Ss1, 'd') {}
  lemma Ss1LacksA() ensures Lacks(Ss1, 'a') {}
  lemma Ss1LacksZ() ensures Lacks(Ss1, 'z') {}

  lemma SsLine1()
    ensures Classify(Idle, Ss1) == CodeLine("SS-POIGNEE", "EQUIPEE C&S MULTI")
  {
    Ss1LacksR();
    Ss1LacksD();
    Ss1LacksA();
    Ss1LacksZ();
    ClassifyCodeLineOf(Idle, Ss1, 2, 10, "SS-POIGNEE", "EQUIPEE C&S MULTI");
  }

  lemma SsTokenSplit()
    ensures SplitMergedPrefix("SS-POIGNEE") == Some(("SS-", "POIGNEE")) && !HasDigit("SS-POIGNEE")
  {
    SplitMergedPrefixOf("SS-POIGNEE", 2, "SS-", "POIGNEE");
  }

  lemma SsDescJoined()
    ensures Strip("POIGNEE" + " " + "EQUIPEE C&S MULTI") == SsDesc
  {
    assert "POIGNEE" + " " + "EQUIPEE C&S MULTI" == SsDesc;
    StripUntrimmed(SsDesc);
  }

  lemma SsCode()
    ensures "SS-" + Ss2 == "SS-2230002839"
  {
  }

  lemma SsLine2()
    ensures Classify(Pending(Some("SS-"), None, None, Some(SsDesc)), Ss2) == LongNumber
  {
    ClassifyLongNumberOf(Pending(Some("SS-"), None, None, Some(SsDesc)), Ss2);
  }

  lemma SsLine3()
    ensures Classify(Pending(None, Some("SS-2230002839"), Some(SsDesc), None), Ss3)
         == Quantity(Tail("2", "8.82", "17.63"))
  {
    assert Ss3 == TailText(Tail("2", "8.82", "17.63"), " € ", " €");
    ClassifyQuantityOf(Pending(None, Some("SS-2230002839"), Some(SsDesc), None), Ss3, 1,
      Tail("2", "8.82", "17.63"), " € ", " €");
  }

  lemma SsQty()
    ensures CleanNumber("2") == "2"
  {
    CleanDigits("2");
  }

  lemma SsPrice()
    ensures CleanNumber("8.82") == "8.82"
  {
    assert "8" + "." + "82" == "8.82";
    CleanDotDecimal("8", "82");
  }

  lemma SsTotal()
    ensures CleanNumber("17.63") == "17.63"
  {
    assert "17" + "." + "63" == "17.63";
    CleanDotDecimal("17", "63");
  }

  /**
   * The second split-code layout of the doc comment (omnia.py:44-48): the
   * prefix merged into the first description word is split off, the long
   * number is glued to it, and the three lines give the one item
   * `SS-2230002839`.
   */
  lemma SsExample()
    ensures Run(Idle, [Ss1, Ss2, Ss3])
         == (Idle, [LineItem("SS-2230002839", "POIGNEE EQUIPEE C&S MULTI", "", "", "2", "8.82", "17.63")])
  {
    SsTokenSplit();
    SsDescJoined();
    SsCode();
    SsQty();
    SsPrice();
    SsTotal();
    SsLine1();
    SsLine2();
    SsLine3();
    MergedPrefixThenNumber(Idle, Ss1, Ss2, Ss3, "SS-POIGNEE", "EQUIPEE C&S MULTI", "SS-", "POIGNEE",
      Tail("2", "8.82", "17.63"));
  }

  const Two1 := "125709 LAMP ..."
  const Two2 := "100 PZ 1.15 € 115.00 €"
  /** The one-line layout is the two lines of the two-line layout joined by a space. */
  const Row1 := Two1 + " " + Two2
  const LampTail := Tail("100", "1.15", "115.00")

  lemma LampQty()
    ensures CleanNumber("100") == "100"
  {
    CleanDigits("100");
  }

  lemma LampPrice()
    ensures CleanNumber("1.15") == "1.15"
  {
    assert "1" + "." + "15" == "1.15";
    CleanDotDecimal("1", "15");
  }

  lemma LampTotal()
    ensures CleanNumber("115.00") == "115.00"
  {
    assert "115" + "." + "00" == "115.00";
    CleanDotDecimal("115", "00");
  }

  lemma LampStrips()
    ensures Strip("125709") == "125709" && Strip("LAMP ...") == "LAMP ..."
  {
    StripUntrimmed("125709");
    StripUntrimmed("LAMP ...");
  }

  lemma Row1Slices()
    ensures Row1[16..19] == "100" && Row1[19..23] == " PZ " && Row1[23..27] == "1.15"
    ensures Row1[27..30] == " € " && Row1[30..36] == "115.00" && Row1[36..] == " €"
  {
    SliceIs(Row1, 16, "100");
    SliceIs(Row1, 19, " PZ ");
    SliceIs(Row1, 23, "1.15");
    SliceIs(Row1, 27, " € ");
    SliceIs(Row1, 30, "115.00");
    SliceIs(Row1, 36, " €");
  }

  lemma Row1Parts()
    ensures Row1[..6] == "125709" && Row1[7..15] == "LAMP ..."
  {
    SliceIs(Row1, 0, "125709");
    SliceIs(Row1, 7, "LAMP ...");
  }

  lemma Row1Chars()
    ensures Row1[6] == ' ' && (IsUpper(Row1[0]) || IsDigit(Row1[0])) && Row1[15] == ' ' && !IsDigit(Row1[12])
    ensures forall x :: 0 <= x < 6 ==> IsCodeChar(Row1[x])
    ensures forall x :: 0 <= x < 21 && x < |Row1| ==> Row1[x] != 'Z'
    ensures forall x :: 6 + 2 <= x < 15 ==> Row1[x] != ' ' || x + 1 <= 12
  {
  }

  lemma Row1Tail()
    ensures Row1[15] == ' ' && Row1[15 + 1..19] == LampTail.qty && Row1[19..19 + 4] == " PZ "
    ensures Row1[19 + 4..27] == LampTail.price && Row1[27..27 + |" € "|] == " € "
    ensures Row1[27 + |" € "|..36] == LampTail.total && Row1[36..] in TotalEnds
  {
    Row1Slices();
  }

  lemma Row1Layout()
    ensures RowLayout(Row1, 6, 15, 12, 21, LampTail, " € ", 19, 27, 36)
  {
    Row1Chars();
    Row1Tail();
  }

  lemma Row1Match()
    ensures MatchFullRow(Row1) == Some(Row("125709", "LAMP ...", LampTail))
  {
    Row1Layout();
    Row1Parts();
    MatchFullRowOfSlices(Row1, 6, 15, 12, 21, LampTail, " € ", 19, 27, 36);
  }

  lemma Row1LacksT() ensures Lacks(Row1, 't') {}
  lemma Row1LacksD() ensures Lacks(Row1, 'd') {}

  /**
   * The one-line layout of the doc comment (omnia.py:35-36): the row gives
   * its item at once; the lazy description stops before the first tail.
   */
  lemma OneLineExample()
    ensures Run(Idle, [Row1]) == (Idle, [LineItem("125709", "LAMP ...", "", "", "100", "1.15", "115.00")])
  {
    Row1LacksT();
    Row1LacksD();
    Row1Match();
    ClassifyFullRowOf(Idle, Row1, 1, Row("125709", "LAMP ...", LampTail));
    FullRowAlone(Row1, Row("125709", "LAMP ...", LampTail));
    LampStrips();
    LampQty();
    LampPrice();
    LampTotal();
  }

  lemma Two1LacksT() ensures Lacks(Two1, 't') {}
  lemma Two1LacksD() ensures Lacks(Two1, 'd') {}
  lemma Two1LacksZ() ensures Lacks(Two1, 'z') {}

  lemma TwoLine1()
    ensures Classify(Idle, Two1) == CodeLine("125709", "LAMP ...")
  {
    Two1LacksT();
    Two1LacksD();
    Two1LacksZ();
    ClassifyCodeLineOf(Idle, Two1, 1, 6, "125709", "LAMP ...");
  }

  lemma TwoLine2()
    ensures Classify(Pending(None, Some("125709"), Some("LAMP ..."), None), Two2) == Quantity(LampTail)
  {
    assert Two2 == TailText(LampTail, " € ", " €");
    ClassifyQuantityOf(Pending(None, Some("125709"), Some("LAMP ..."), None), Two2, 3, LampTail, " € ", " €");
  }

  /** The two-line layout of the doc comment (omnia.py:37-39). */
  lemma TwoLineExample()
    ensures Run(Idle, [Two1, Two2]) == (Idle, [LineItem("125709", "LAMP ...", "", "", "100", "1.15", "115.00")])
  {
    TwoLine1();
    DigitFirstNotMerged("125709");
    TwoLine2();
    CodeLineThenQuantity(Two1, Two2, "125709", "LAMP ...", LampTail);
    LampQty();
    LampPrice();
    LampTotal();
  }

  // ---------------------------------------------------------------------
  // A description with a number in it (omnia.py:56-61)

  /** The one-line row with a description whose last word starts with digits. */
  const Row2 := "125709 LAMP COVER 40W" + " " + Two2

  lemma Row2LacksT() ensures Lacks(Row2, 't') {}
  lemma Row2LacksD() ensures Lacks(Row2, 'd') {}

  lemma Row2Parts()
    ensures Row2[..6] == "125709" && Row2[7..21] == "LAMP COVER 40W"
  {
    SliceIs(Row2, 0, "125709");
    SliceIs(Row2, 7, "LAMP COVER 40W");
  }

  lemma Row2Chars()
    ensures Row2[6] == ' ' && (IsUpper(Row2[0]) || IsDigit(Row2[0])) && Row2[21] == ' ' && !IsDigit(Row2[20])
    ensures forall x :: 0 <= x < 6 ==> IsCodeChar(Row2[x])
    ensures forall x :: 0 <= x < 27 && x < |Row2| ==> Row2[x] != 'Z'
    ensures forall x :: 6 + 2 <= x < 21 ==> Row2[x] != ' ' || x + 1 <= 20
  {
    Row2NoZ();
  }

  lemma Row2NoZ()
    ensures forall x :: 0 <= x < 27 && x < |Row2| ==> Row2[x] != 'Z'
  {
  }

  lemma Row2Slices()
    ensures Row2[22..25] == "100" && Row2[25..29] == " PZ " && Row2[29..33] == "1.15"
    ensures Row2[33..36] == " € " && Row2[36..42] == "115.00" && Row2[42..] == " €"
  {
    SliceIs(Row2, 22, "100");
    SliceIs(Row2, 25, " PZ ");
    SliceIs(Row2, 29, "1.15");
    SliceIs(Row2, 33, " € ");
    SliceIs(Row2, 36, "115.00");
    SliceIs(Row2, 42, " €");
  }

  lemma Row2Tail()
    ensures Row2[21 + 1..25] == LampTail.qty && Row2[25..25 + 4] == " PZ "
    ensures Row2[25 + 4..33] == LampTail.price && Row2[33..33 + |" € "|] == " € "
    ensures Row2[33 + |" € "|..42] == LampTail.total && Row2[42..] in TotalEnds
  {
    Row2Slices();
  }

  lemma Row2Layout()
    ensures RowLayout(Row2, 6, 21, 20, 27, LampTail, " € ", 25, 33, 42)
  {
    Row2Chars();
    Row2Tail();
  }

  lemma Row2Match()
    ensures MatchFullRow(Row2) == Some(Row("125709", "LAMP COVER 40W", LampTail))
  {
    Row2Layout();
    Row2Parts();
    MatchFullRowOfSlices(Row2, 6, 21, 20, 27, LampTail, " € ", 25, 33, 42);
  }

  lemma Row2Strips()
    ensures Strip("125709") == "125709" && Strip("LAMP COVER 40W") == "LAMP COVER 40W"
  {
    StripUntrimmed("125709");
    StripUntrimmed("LAMP COVER 40W");
  }

  /**
   * The one-line row with the description "LAMP COVER 40W": the lazy
   * description runs past the space before "40W", where "40" is followed by
   * no " PZ ", and the row gives the same item with that description.
   */
  lemma DigitInDescriptionExample()
    ensures Run(Idle, [Row2]) == (Idle, [LineItem("125709", "LAMP COVER 40W", "", "", "100", "1.15", "115.00")])
  {
    Row2LacksT();
    Row2LacksD();
    Row2Match();
    ClassifyFullRowOf(Idle, Row2, 1, Row("125709", "LAMP COVER 40W", LampTail));
    FullRowAlone(Row2, Row("125709", "LAMP COVER 40W", LampTail));
    Row2Strips();
    LampQty();
    LampPrice();
    LampTotal();
  }
}
