// Properties of the Omnia row reconstruction
// (src/pdf2xlsx_enterprise/parsers/omnia.py:87-224): what each rule does to
// the pending state, what every emitted item looks like, and the fold as a whole.
module OmniaProps {
  import opened Types
  import opened Text
  import opened OmniaPatterns
  import opened OmniaSteps

  // ---------------------------------------------------------------------
  // The fold

  /** Folding `a + b` is folding `a`, then folding `b` from where `a` left off. */
  lemma {:induction false} RunAppend(start: Pending, a: seq<string>, b: seq<string>)
    ensures Run(start, a + b).0 == Run(Run(start, a).0, b).0
    ensures Run(start, a + b).1 == Run(start, a).1 + Run(Run(start, a).0, b).1
    decreases |b|
  {
    if b == [] {
      assert a + b == a;
    } else {
      var b' := b[..|b| - 1];
      assert (a + b)[..|a + b| - 1] == a + b';
      RunAppend(start, a, b');
    }
  }

  /** Each line adds at most one item. */
  lemma {:induction false} RunItemsBound(start: Pending, lines: seq<string>)
    ensures |Run(start, lines).1| <= |lines|
    decreases |lines|
  {
    if lines != [] {
      RunItemsBound(start, lines[..|lines| - 1]);
    }
  }

  /** An item as `parse` builds it: a code and a name, and no customs code or weight. */
  predicate WellFormed(item: LineItem) {
    item.productNumber != "" && item.productName != "" && item.customsCode == "" && item.weightG == ""
  }

  /** The item of a full row is well formed when the code and description groups are. */
  lemma FullRowWellFormed(p: Pending, row: Row)
    requires IsCodeToken(row.code) && row.desc != "" && !IsWs(row.desc[0])
    ensures FullRowStep(p, row).1.Some? && WellFormed(FullRowStep(p, row).1.value)
  {
    StripKeepsText(row.code, 0);
    StripStartsWith(row.desc);
    var code := if Truthy(p.prefix) then p.prefix.value + Strip(row.code) else Strip(row.code);
    var desc := if Truthy(p.prefixDesc) then Strip(p.prefixDesc.value + " " + Strip(row.desc)) else Strip(row.desc);
    if Truthy(p.prefixDesc) {
      StripJoin(p.prefixDesc.value, Strip(row.desc));
    }
    assert code != "" && desc != "";
    assert FullRowStep(p, row).1 == Some(ItemOf(code, desc, row.tail));
  }

  lemma StripStartsWith(s: string)
    requires s != "" && !IsWs(s[0])
    ensures Strip(s) != "" && Strip(s)[0] == s[0]
  {
    StripKeepsText(s, 0);
  }

  lemma StripJoin(a: string, b: string)
    requires b != "" && !IsWs(b[0])
    ensures Strip(a + " " + b) != ""
  {
    StripKeepsText(a + " " + b, |a| + 1);
  }

  /** Every item a step emits from a normalised line is well formed. */
  lemma StepWellFormed(p: Pending, line: string)
    requires IsNormal(line)
    ensures Step(p, line).1.Some? ==> WellFormed(Step(p, line).1.value)
  {
    match Classify(p, line)
    case FullRow(row) =>
      StepOfFullRow(p, line, row);
      MatchFullRowParts(line);
      FullRowWellFormed(p, row);
    case Quantity(t) =>
      StepOfQuantity(p, line, t);
      assert WellFormed(QuantityStep(p, t).1.value);
    case CodeLine(token, rest) =>
      StepOfCodeLine(p, line, token, rest);
      assert CodeLineStep(p, token, rest).1 == None;
    case Other =>
      StepOfOther(p, line);
      assert ContinueStep(p, line).1 == None;
    case _ =>
      assert Step(p, line).1 == None;
  }

  /** Every item the fold emits over normalised lines is well formed. */
  lemma {:induction false} RunWellFormed(start: Pending, lines: seq<string>)
    requires forall l :: l in lines ==> IsNormal(l)
    ensures forall it :: it in Run(start, lines).1 ==> WellFormed(it)
    decreases |lines|
  {
    if lines != [] {
      var init := lines[..|lines| - 1];
      assert forall l :: l in init ==> l in lines;
      RunWellFormed(start, init);
      StepWellFormed(Run(start, init).0, lines[|lines| - 1]);
    }
  }

  // ---------------------------------------------------------------------
  // The rules one at a time (omnia.py:104-219)

  /** A header line changes no pending variable and emits nothing (omnia.py:105-107). */
  lemma HeaderLineSkipped(p: Pending, line: string)
    requires IsHeaderLine(line)
    ensures Step(p, line) == (p, None)
  {
  }

  /**
   * A line that is exactly `[A-Z]{2,8}-` becomes the pending prefix and clears
   * the other three pending variables (omnia.py:109-116).
   */
  lemma PrefixOnlyLineStarts(p: Pending, line: string)
    requires !IsHeaderLine(line) && IsPrefixOnly(line)
    ensures Step(p, line) == (Pending(Some(line), None, None, None), None)
  {
  }

  /**
   * A quantity line that is not a full row emits an item exactly when a code
   * and a description are pending; the item is built from them, both are
   * cleared, and the prefix and prefix description survive (omnia.py:159-179).
   */
  lemma QuantityLineEmits(p: Pending, line: string)
    requires !IsHeaderLine(line) && MatchFullRow(line).None? && MatchTail(line).Some?
    ensures Step(p, line).1.Some? <==> Truthy(p.code) && Truthy(p.desc)
    ensures Truthy(p.code) && Truthy(p.desc) ==>
              Step(p, line) == (Pending(p.prefix, None, None, p.prefixDesc),
                                Some(ItemOf(p.code.value, p.desc.value, MatchTail(line).value)))
  {
    TailStartsWithDigits(line);
    match Classify(p, line)
    case Quantity(t) =>
      StepOfQuantity(p, line, t);
    case CodeLine(token, rest) =>
      StepOfCodeLine(p, line, token, rest);
    case Other =>
      StepOfOther(p, line);
    case _ =>
  }

  /** A quantity line starts with a digit and has a 'P' after its first run of digits. */
  lemma TailStartsWithDigits(line: string)
    requires MatchTail(line).Some?
    ensures !IsPrefixOnly(line) && !IsLongNumber(line)
  {
    var q := DigitsEnd(line, 0);
    DigitsEndRun(line, 0);
    assert IsDigit(line[0]) && line[q + 1] == 'P';
  }

  /**
   * Any other line (no earlier rule applies) is appended to the pending
   * description with a single space when a code and a description are pending,
   * and is dropped otherwise; the prefix and prefix description survive
   * (omnia.py:212-217).
   */
  lemma OtherLineContinues(p: Pending, line: string)
    requires !IsHeaderLine(line) && !IsPrefixOnly(line) && MatchFullRow(line).None?
    requires !(Truthy(p.prefix) && Truthy(p.prefixDesc) && IsLongNumber(line))
    requires MatchTail(line).None? && !IsCodeLine(line)
    ensures Step(p, line).1 == None
    ensures Step(p, line).0 == if Truthy(p.code) && Truthy(p.desc)
                               then p.(desc := Some(Strip(p.desc.value + " " + line)))
                               else p
  {
    assert Classify(p, line) == Other;
  }

  /**
   * A line whose first token is code-shaped (such as "40W HALOGEN") and that no
   * earlier rule takes restarts the row: what it leaves pending does not depend
   * on the code and description pending before it, which are discarded
   * (omnia.py:182-210).
   */
  lemma CodeLineRestarts(p: Pending, line: string)
    requires Classify(p, line).CodeLine?
    ensures Step(p, line).1 == None
    ensures Step(p, line) == Step(p.(code := None, desc := None), line)
  {
    var k := Classify(p, line);
    ClassifyIgnoresRow(p, line);
    StepOfCodeLine(p, line, k.token, k.rest);
    StepOfCodeLine(p.(code := None, desc := None), line, k.token, k.rest);
  }

  /** Unless it completes the pending row, the branch a line takes does not depend on that row. */
  lemma ClassifyIgnoresRow(p: Pending, line: string)
    requires !Classify(p, line).Quantity?
    ensures Classify(p, line) == Classify(p.(code := None, desc := None), line)
  {
  }

  /**
   * After a prefix and a prefix description, a line of six or more digits
   * becomes the pending code, glued to the prefix, with the prefix description
   * as the pending description (omnia.py:151-157).
   */
  lemma LongNumberJoinsPrefix(p: Pending, line: string)
    requires Truthy(p.prefix) && Truthy(p.prefixDesc) && IsLongNumber(line)
    ensures Step(p, line) == (Pending(None, Some(p.prefix.value + line), p.prefixDesc, None), None)
  {
    LongNumberIsNoHeader(line);
    assert !IsPrefixOnly(line);
    assert MatchFullRow(line).None? by {
      CodeCharsEndRun(line, 0);
    }
  }

  /** No header word occurs in a run of digits, so such a line is no header. */
  lemma LongNumberIsNoHeader(line: string)
    requires AllDigits(line)
    ensures !IsHeaderLine(line)
  {
    LowerAt(line);
    assert Lower(line) == line;
    forall w | w in HeaderWords
      ensures !Contains(line, w)
    {
      NoWordInDigits(line, w);
    }
    CountHitsNone(line, HeaderWords);
  }

  /** A word that starts with a non-digit does not occur in a run of digits. */
  lemma NoWordInDigits(line: string, w: string)
    requires AllDigits(line) && w != "" && !IsDigit(w[0])
    ensures !Contains(line, w)
  {
    forall i | 0 <= i <= |line|
      ensures !OccursAt(line, w, i)
    {
      if i + |w| <= |line| {
        assert line[i..i + |w|][0] == line[i];
      }
    }
  }

  lemma {:induction false} CountHitsNone(lo: string, words: seq<string>)
    requires forall w :: w in words ==> !Contains(lo, w)
    ensures CountHits(lo, words) == 0
    decreases |words|
  {
    if words != [] {
      CountHitsNone(lo, words[1..]);
    }
  }

  // ---------------------------------------------------------------------
  // Codes split across lines (the two layouts named in omnia.py:38-48)

  /** Folding one line is taking one step. */
  lemma RunOne(p: Pending, line: string, s: (Pending, Option<LineItem>))
    requires Step(p, line) == s
    ensures Run(p, [line]) == (s.0, Emitted(s.1))
  {
    assert [line][..0] == [];
    assert Run(p, []) == (p, []);
    assert [] + Emitted(s.1) == Emitted(s.1);
  }

  /** Two lines folded one after the other. */
  lemma RunTwo(p: Pending, l1: string, l2: string, q1: Pending, q2: Pending, o1: seq<LineItem>, o2: seq<LineItem>)
    requires Run(p, [l1]) == (q1, o1) && Run(q1, [l2]) == (q2, o2)
    ensures Run(p, [l1, l2]) == (q2, o1 + o2)
  {
    RunAppend(p, [l1], [l2]);
    assert [l1] + [l2] == [l1, l2];
  }

  /** Three lines folded one after the other. */
  lemma RunThree(p: Pending, l1: string, l2: string, l3: string, q1: Pending, q2: Pending, q3: Pending,
                 o1: seq<LineItem>, o2: seq<LineItem>, o3: seq<LineItem>)
    requires Run(p, [l1]) == (q1, o1) && Run(q1, [l2]) == (q2, o2) && Run(q2, [l3]) == (q3, o3)
    ensures Run(p, [l1, l2, l3]) == (q3, o1 + o2 + o3)
  {
    RunAppend(p, [l1], [l2]);
    assert [l1] + [l2] == [l1, l2];
    RunAppend(p, [l1, l2], [l3]);
    assert [l1, l2] + [l3] == [l1, l2, l3];
  }

  /** Three lines folded, when only the last of the steps they take emits an item. */
  lemma RunEmitsLast(p: Pending, l1: string, l2: string, l3: string, q1: Pending, q2: Pending, q3: Pending, item: LineItem)
    requires Step(p, l1) == (q1, None)
    requires Step(q1, l2) == (q2, None)
    requires Step(q2, l3) == (q3, Some(item))
    ensures Run(p, [l1, l2, l3]) == (q3, [item])
  {
    RunOne(p, l1, (q1, None));
    RunOne(q1, l2, (q2, None));
    RunOne(q2, l3, (q3, Some(item)));
    RunThree(p, l1, l2, l3, q1, q2, q3, [], [], [item]);
    assert [] + [] + [item] == [item];
  }

  /**
   * After a prefix alone on its line, a code line whose token is not a
   * merged prefix becomes the pending code, glued to the prefix, with the
   * rest of the line as the pending description (omnia.py:189-204).
   */
  lemma CodeLineAfterPrefix(prefix: string, line: string)
    requires prefix != ""
    requires !IsHeaderLine(line) && !IsPrefixOnly(line) && MatchFullRow(line).None? && IsCodeLine(line)
    requires SplitMergedPrefix(LineToken(line)).None? || HasDigit(LineToken(line))
    ensures Step(Pending(Some(prefix), None, None, None), line)
            == (Pending(None, Some(prefix + LineToken(line)), Some(LineRest(line)), None), None)
  {
    var p := Pending(Some(prefix), None, None, None);
    assert Classify(p, line) == CodeLine(LineToken(line), LineRest(line));
    StepOfCodeLine(p, line, LineToken(line), LineRest(line));
  }

  /**
   * A prefix alone on its line, then a code line whose token is not a
   * merged prefix: the code is glued to the prefix and the rest of the line
   * is the pending description (omnia.py:109-116, 189-204).
   */
  lemma PrefixThenCodeSteps(p: Pending, l1: string, l2: string, token: string, rest: string)
    requires Classify(p, l1) == PrefixOnly
    requires Classify(Pending(Some(l1), None, None, None), l2) == CodeLine(token, rest)
    requires SplitMergedPrefix(token).None? || HasDigit(token)
    ensures Step(p, l1) == (Pending(Some(l1), None, None, None), None)
    ensures Step(Pending(Some(l1), None, None, None), l2) == (Pending(None, Some(l1 + token), Some(rest), None), None)
  {
    assert l1 != "";
    StepOfCodeLine(Pending(Some(l1), None, None, None), l2, token, rest);
  }

  /** A quantity line after a pending code and description emits them and leaves nothing pending (omnia.py:159-179). */
  lemma QuantityAfterCodeStep(code: string, desc: string, line: string, t: Tail)
    requires Classify(Pending(None, Some(code), Some(desc), None), line) == Quantity(t)
    ensures Step(Pending(None, Some(code), Some(desc), None), line) == (Idle, Some(ItemOf(code, desc, t)))
  {
    StepOfQuantity(Pending(None, Some(code), Some(desc), None), line, t);
  }

  /**
   * The first split-code layout (omnia.py:38-43): a prefix alone on its line
   * ("VEN-"), a code line whose token is not a merged prefix ("9161.167 D.35.8 SHOWER")
   * and a quantity line ("1 PZ 1.95 € 1.95 €") give one item whose code is the
   * prefix glued to the token and whose name is the rest of the code line, and
   * leave nothing pending. Each line is named by the branch it takes from the
   * state the lines before it leave.
   */
  lemma PrefixLineThenCodeLine(p: Pending, l1: string, l2: string, l3: string, token: string, rest: string, t: Tail)
    requires Classify(p, l1) == PrefixOnly
    requires Classify(Pending(Some(l1), None, None, None), l2) == CodeLine(token, rest)
    requires SplitMergedPrefix(token).None? || HasDigit(token)
    requires Classify(Pending(None, Some(l1 + token), Some(rest), None), l3) == Quantity(t)
    ensures Run(p, [l1, l2, l3]) == (Idle, [ItemOf(l1 + token, rest, t)])
  {
    PrefixThenCodeSteps(p, l1, l2, token, rest);
    QuantityAfterCodeStep(l1 + token, rest, l3, t);
    RunEmitsLast(p, l1, l2, l3, Pending(Some(l1), None, None, None),
                 Pending(None, Some(l1 + token), Some(rest), None), Idle, ItemOf(l1 + token, rest, t));
  }

  /**
   * A code line whose token is a prefix merged with a word of letters, then a
   * line of six or more digits: the digits glued to the prefix become the
   * pending code, and the word and the rest of the first line the pending
   * description (omnia.py:187-196, 151-157).
   */
  lemma MergedPrefixSteps(p: Pending, l1: string, l2: string, token: string, rest: string, pre: string, word: string)
    requires Classify(p, l1) == CodeLine(token, rest)
    requires SplitMergedPrefix(token) == Some((pre, word)) && !HasDigit(token)
    requires Classify(Pending(Some(pre), None, None, Some(Strip(word + " " + rest))), l2) == LongNumber
    ensures Step(p, l1) == (Pending(Some(pre), None, None, Some(Strip(word + " " + rest))), None)
    ensures Step(Pending(Some(pre), None, None, Some(Strip(word + " " + rest))), l2)
            == (Pending(None, Some(pre + l2), Some(Strip(word + " " + rest)), None), None)
  {
    StepOfCodeLine(p, l1, token, rest);
  }

  /**
   * The second split-code layout (omnia.py:44-48): a code line whose token is
   * a prefix merged with the first description word ("SS-POIGNEE EQUIPEE C&S
   * MULTI"), a line of six or more digits ("2230002839") and a quantity line
   * ("2 PZ 8.82 € 17.63 €") give one item whose code is the prefix glued to
   * the digits and whose name is the word and the rest of the first line, and
   * leave nothing pending.
   */
  lemma MergedPrefixThenNumber(p: Pending, l1: string, l2: string, l3: string,
                               token: string, rest: string, pre: string, word: string, t: Tail)
    requires Classify(p, l1) == CodeLine(token, rest)
    requires SplitMergedPrefix(token) == Some((pre, word)) && !HasDigit(token)
    requires Classify(Pending(Some(pre), None, None, Some(Strip(word + " " + rest))), l2) == LongNumber
    requires Classify(Pending(None, Some(pre + l2), Some(Strip(word + " " + rest)), None), l3) == Quantity(t)
    ensures Run(p, [l1, l2, l3]) == (Idle, [ItemOf(pre + l2, Strip(word + " " + rest), t)])
  {
    var desc := Strip(word + " " + rest);
    MergedPrefixSteps(p, l1, l2, token, rest, pre, word);
    QuantityAfterCodeStep(pre + l2, desc, l3, t);
    RunEmitsLast(p, l1, l2, l3, Pending(Some(pre), None, None, Some(desc)),
                 Pending(None, Some(pre + l2), Some(desc), None), Idle, ItemOf(pre + l2, desc, t));
  }

  /**
   * The one-line layout (omnia.py:35-36): a full row read with nothing
   * pending gives its item at once and leaves nothing pending.
   */
  lemma FullRowAlone(line: string, row: Row)
    requires Classify(Idle, line) == FullRow(row)
    ensures Run(Idle, [line]) == (Idle, [ItemOf(Strip(row.code), Strip(row.desc), row.tail)])
  {
    StepOfFullRow(Idle, line, row);
    RunOne(Idle, line, Step(Idle, line));
  }

  /**
   * The two-line layout (omnia.py:37-39): a code line with nothing pending,
   * whose token is not a merged prefix, then a quantity line give one item
   * with the token as code and the rest of the code line as name.
   */
  lemma CodeLineThenQuantity(l1: string, l2: string, token: string, rest: string, t: Tail)
    requires Classify(Idle, l1) == CodeLine(token, rest) && SplitMergedPrefix(token).None?
    requires Classify(Pending(None, Some(token), Some(rest), None), l2) == Quantity(t)
    ensures Run(Idle, [l1, l2]) == (Idle, [ItemOf(token, rest, t)])
  {
    var q := Pending(None, Some(token), Some(rest), None);
    StepOfCodeLine(Idle, l1, token, rest);
    QuantityAfterCodeStep(token, rest, l2, t);
    RunOne(Idle, l1, (q, None));
    RunOne(q, l2, (Idle, Some(ItemOf(token, rest, t))));
    RunTwo(Idle, l1, l2, q, Idle, [], [ItemOf(token, rest, t)]);
  }

  // ---------------------------------------------------------------------
  // The full-row pattern

  /**
   * What a full-row match splits a normalised line into: a code token, a
   * space, a description that starts with a non-whitespace character, a
   * space and the numeric tail.
   */
  lemma MatchFullRowParts(line: string)
    requires IsNormal(line) && MatchFullRow(line).Some?
    ensures IsCodeToken(MatchFullRow(line).value.code)
    ensures MatchFullRow(line).value.desc != "" && !IsWs(MatchFullRow(line).value.desc[0])
  {
    var c := CodeCharsEnd(line, 0);
    CodeCharsEndRun(line, 0);
    var row := MatchFullRow(line).value;
    assert row.code == line[..c];
    assert row.desc[0] == line[c + 1];
    assert line[c] == ' ';
  }

  // ---------------------------------------------------------------------
  // The whole parse

  /** `parse` emits at most one item per kept line, each well formed. */
  lemma ParseSpecItems(pages: seq<string>)
    ensures |ParseSpec(pages).items| <= |FlattenLines(pages)|
    ensures forall it :: it in ParseSpec(pages).items ==> WellFormed(it)
  {
    FlattenLinesNormal(pages);
    RunItemsBound(Idle, FlattenLines(pages));
    RunWellFormed(Idle, FlattenLines(pages));
  }

  /** One warning exactly when no item was found; the header names the supplier. */
  lemma ParseSpecWarnings(pages: seq<string>)
    ensures ParseSpec(pages).header == map["supplier" := "omnia"]
    ensures ParseSpec(pages).items == [] ==> ParseSpec(pages).warnings == [NoItemsWarning]
    ensures ParseSpec(pages).items != [] ==> ParseSpec(pages).warnings == []
  {
  }
}
