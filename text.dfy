// Whitespace and money normalisation (src/pdf2xlsx_enterprise/utils.py),
// together with the `str.strip()` used throughout the parser.
module Text {

  /** Python's `str.isspace()` set; a `\s` in a str pattern matches exactly these. */
  predicate IsWs(c: char) {
    || c == ' '
    || '\t' <= c <= '\r'
    || '\U{1C}' <= c <= '\U{1F}'
    || c == '\U{85}' || c == '\U{A0}' || c == '\U{1680}'
    || '\U{2000}' <= c <= '\U{200A}'
    || c == '\U{2028}' || c == '\U{2029}' || c == '\U{202F}' || c == '\U{205F}' || c == '\U{3000}'
  }

  predicate NoWs(s: string) {
    forall i :: 0 <= i < |s| ==> !IsWs(s[i])
  }

  /** `str.lstrip()`: drops the leading whitespace and nothing else. */
  function TrimLeft(s: string): (r: string)
    ensures |r| <= |s| && r == s[|s| - |r|..]
    ensures r == [] || !IsWs(r[0])
    ensures s != [] && IsWs(s[0]) ==> |r| < |s|
  {
    if s != [] && IsWs(s[0]) then TrimLeft(s[1..]) else s
  }

  /** `str.rstrip()`: drops the trailing whitespace and nothing else. */
  function TrimRight(s: string): (r: string)
    ensures |r| <= |s| && r == s[..|r|]
    ensures r == [] || !IsWs(r[|r| - 1])
  {
    if s != [] && IsWs(s[|s| - 1]) then TrimRight(s[..|s| - 1]) else s
  }

  /** `str.strip()` */
  function Strip(s: string): string {
    TrimRight(TrimLeft(s))
  }

  /** The only whitespace is ' ', and no two spaces are adjacent. */
  predicate Collapsed(s: string) {
    && (forall i :: 0 <= i < |s| && IsWs(s[i]) ==> s[i] == ' ')
    && (forall i, j :: 0 <= i < |s| && 0 <= j < |s| && j == i + 1 ==> s[i] != ' ' || s[j] != ' ')
  }

  /** What `normalize_ws` promises: collapsed, and no whitespace at either end. */
  predicate IsNormal(s: string) {
    Collapsed(s) && (s == [] || (s[0] != ' ' && s[|s| - 1] != ' '))
  }

  /** `re.sub(r"\s+", " ", s)`: each maximal run of whitespace becomes one space. */
  function Collapse(s: string): (r: string)
    ensures |r| <= |s|
    ensures (r == []) == (s == [])
    ensures r != [] ==> (r[0] == ' ' <==> IsWs(s[0]))
    ensures Collapsed(r)
    decreases |s|
  {
    if s == [] then []
    else if IsWs(s[0]) then " " + Collapse(TrimLeft(s))
    else [s[0]] + Collapse(s[1..])
  }

  /** `normalize_ws(s)` (utils.py:4-5) */
  function NormalizeWs(s: string): (r: string)
    ensures IsNormal(r)
    ensures |r| <= |s|
  {
    var c := Collapse(s);
    StripCollapsedIsNormal(c);
    Strip(c)
  }

  lemma StripCollapsedIsNormal(c: string)
    requires Collapsed(c)
    ensures IsNormal(Strip(c))
  {
    var l := TrimLeft(c);
    CollapsedSlice(c, |c| - |l|, |c|);
    CollapsedSlice(l, 0, |TrimRight(l)|);
  }

  /** `s.replace(a, b)` for single characters. */
  function ReplaceChar(s: string, a: char, b: char): string {
    seq(|s|, i requires 0 <= i < |s| => if s[i] == a then b else s[i])
  }

  /** `money_to_str(s)` (utils.py:7-9) */
  function MoneyToStr(s: string): (r: string)
    ensures |r| == |NormalizeWs(s)|
    ensures ',' !in r
    ensures IsNormal(r)
  {
    var n := NormalizeWs(s);
    ReplaceKeepsNormal(n, ',', '.');
    ReplaceRemoves(n, ',', '.');
    ReplaceChar(n, ',', '.')
  }

  /** `money_to_str` changes nothing but commas, which become points. */
  lemma MoneyToStrAt(s: string)
    ensures forall i :: 0 <= i < |MoneyToStr(s)| ==>
              MoneyToStr(s)[i] == if NormalizeWs(s)[i] == ',' then '.' else NormalizeWs(s)[i]
  {
  }

  lemma ReplaceRemoves(s: string, a: char, b: char)
    requires a != b
    ensures a !in ReplaceChar(s, a, b)
  {
  }

  lemma ReplaceKeepsNormal(s: string, a: char, b: char)
    requires IsNormal(s) && !IsWs(a) && !IsWs(b)
    ensures IsNormal(ReplaceChar(s, a, b))
  {
    var r := ReplaceChar(s, a, b);
    forall i | 0 <= i < |r| ensures IsWs(r[i]) ==> r[i] == ' ' {
      if s[i] != a {
        assert r[i] == s[i];
      }
    }
    forall i, j | 0 <= i < |r| && 0 <= j < |r| && j == i + 1 ensures r[i] != ' ' || r[j] != ' ' {
      if r[i] == ' ' {
        assert s[i] == ' ';
      }
    }
  }

  /** The characters of `s` that are not whitespace, in order. */
  function RemoveWs(s: string): string {
    if s == [] then [] else (if IsWs(s[0]) then [] else [s[0]]) + RemoveWs(s[1..])
  }

  lemma CollapsedSlice(s: string, a: nat, b: nat)
    requires a <= b <= |s| && Collapsed(s)
    ensures Collapsed(s[a..b])
  {
    var t := s[a..b];
    forall i, j | 0 <= i < |t| && 0 <= j < |t| && j == i + 1 ensures t[i] != ' ' || t[j] != ' ' {
      assert t[i] == s[a + i] && t[j] == s[a + j];
    }
  }

  lemma {:induction false} CollapseFixesCollapsed(s: string)
    requires Collapsed(s)
    ensures Collapse(s) == s
    decreases |s|
  {
    if s != [] {
      CollapsedSlice(s, 1, |s|);
      if IsWs(s[0]) {
        assert s[0] == ' ';
        assert |s| > 1 ==> !IsWs(s[1]);
        assert TrimLeft(s) == s[1..];
        CollapseFixesCollapsed(s[1..]);
        assert Collapse(s) == " " + s[1..];
      } else {
        CollapseFixesCollapsed(s[1..]);
        assert Collapse(s) == [s[0]] + s[1..];
      }
    }
  }

  /** A normal string is a fixed point of `normalize_ws`. */
  lemma NormalizeWsFixesNormal(s: string)
    requires IsNormal(s)
    ensures NormalizeWs(s) == s
  {
    CollapseFixesCollapsed(s);
  }

  /** `normalize_ws` is idempotent. */
  lemma NormalizeWsIdempotent(s: string)
    ensures NormalizeWs(NormalizeWs(s)) == NormalizeWs(s)
  {
    NormalizeWsFixesNormal(NormalizeWs(s));
  }

  lemma {:induction false} RemoveWsAppend(a: string, b: string)
    ensures RemoveWs(a + b) == RemoveWs(a) + RemoveWs(b)
    decreases |a|
  {
    if a == [] {
      assert a + b == b;
    } else {
      assert (a + b)[1..] == a[1..] + b;
      RemoveWsAppend(a[1..], b);
    }
  }

  lemma {:induction false} RemoveWsAllWs(s: string)
    ensures RemoveWs(s) == [] <==> forall i :: 0 <= i < |s| ==> IsWs(s[i])
    decreases |s|
  {
    if s != [] {
      RemoveWsAllWs(s[1..]);
      assert forall i :: 1 <= i < |s| ==> s[i] == s[1..][i - 1];
    }
  }

  lemma {:induction false} RemoveWsTrimLeft(s: string)
    ensures RemoveWs(TrimLeft(s)) == RemoveWs(s)
    decreases |s|
  {
    if s != [] && IsWs(s[0]) {
      RemoveWsTrimLeft(s[1..]);
    }
  }

  lemma {:induction false} RemoveWsTrimRight(s: string)
    ensures RemoveWs(TrimRight(s)) == RemoveWs(s)
    decreases |s|
  {
    if s != [] && IsWs(s[|s| - 1]) {
      var init := s[..|s| - 1];
      assert s == init + [s[|s| - 1]];
      RemoveWsAppend(init, [s[|s| - 1]]);
      RemoveWsTrimRight(init);
    }
  }

  lemma {:induction false} RemoveWsCollapse(s: string)
    ensures RemoveWs(Collapse(s)) == RemoveWs(s)
    decreases |s|
  {
    if s != [] {
      if IsWs(s[0]) {
        var t := TrimLeft(s);
        RemoveWsAppend(" ", Collapse(t));
        RemoveWsCollapse(t);
        RemoveWsTrimLeft(s);
      } else {
        RemoveWsAppend([s[0]], Collapse(s[1..]));
        RemoveWsCollapse(s[1..]);
      }
    }
  }

  /** `normalize_ws` keeps every non-whitespace character, in order, and adds none. */
  lemma NormalizeWsKeepsText(s: string)
    ensures RemoveWs(NormalizeWs(s)) == RemoveWs(s)
  {
    var c := Collapse(s);
    RemoveWsCollapse(s);
    RemoveWsTrimLeft(c);
    RemoveWsTrimRight(TrimLeft(c));
  }

  /** `normalize_ws(s)` is empty exactly when `s` is all whitespace (how blank lines are dropped). */
  lemma NormalizeWsEmptyIff(s: string)
    ensures NormalizeWs(s) == "" <==> forall i :: 0 <= i < |s| ==> IsWs(s[i])
  {
    var n := NormalizeWs(s);
    NormalizeWsKeepsText(s);
    RemoveWsAllWs(s);
    RemoveWsAllWs(n);
    if n != "" {
      assert !IsWs(n[0]);
    }
  }

  /** `money_to_str` is idempotent. */
  lemma MoneyToStrIdempotent(s: string)
    ensures MoneyToStr(MoneyToStr(s)) == MoneyToStr(s)
  {
    var m := MoneyToStr(s);
    NormalizeWsFixesNormal(m);
    ReplaceAbsent(m, ',', '.');
  }

  lemma ReplaceAbsent(s: string, a: char, b: char)
    requires a !in s
    ensures ReplaceChar(s, a, b) == s
  {
    var r := ReplaceChar(s, a, b);
    forall i | 0 <= i < |s| ensures r[i] == s[i] {
      assert s[i] in s;
    }
  }

  /** `strip` of a string without whitespace at either end changes nothing. */
  lemma StripUntrimmed(s: string)
    requires s == [] || (!IsWs(s[0]) && !IsWs(s[|s| - 1]))
    ensures Strip(s) == s
  {
  }

  /** `lstrip` removes only whitespace. */
  lemma {:induction false} TrimLeftRemovesWs(s: string)
    ensures forall i :: 0 <= i < |s| - |TrimLeft(s)| ==> IsWs(s[i])
    decreases |s|
  {
    if s != [] && IsWs(s[0]) {
      TrimLeftRemovesWs(s[1..]);
    }
  }

  /** `rstrip` removes only whitespace. */
  lemma {:induction false} TrimRightRemovesWs(s: string)
    ensures forall i :: |TrimRight(s)| <= i < |s| ==> IsWs(s[i])
    decreases |s|
  {
    if s != [] && IsWs(s[|s| - 1]) {
      TrimRightRemovesWs(s[..|s| - 1]);
    }
  }

  /** `strip` keeps a string that has a non-whitespace character non-empty. */
  lemma StripKeepsText(s: string, k: nat)
    requires k < |s| && !IsWs(s[k])
    ensures Strip(s) != []
  {
    TrimLeftRemovesWs(s);
    TrimRightRemovesWs(TrimLeft(s));
  }
}
