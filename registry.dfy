// The supplier registry (src/pdf2xlsx_enterprise/parsers/registry.py): a
// table from supplier key to parser, filled by `bootstrap`
// (src/pdf2xlsx_enterprise/parsers/__init__.py:5-8).
module Registry {
  import opened Types
  import opened Parsers

  // ---------------------------------------------------------------------
  // Python's ordering of `str` keys: lexicographic by code point

  /** `a < b` on Python strings. */
  predicate StrLess(a: string, b: string)
    decreases |a|
  {
    if a == [] then b != []
    else if b == [] then false
    else if a[0] != b[0] then a[0] < b[0]
    else StrLess(a[1..], b[1..])
  }

  lemma {:induction false} StrLessIrreflexive(a: string)
    ensures !StrLess(a, a)
    decreases |a|
  {
    if a != [] {
      StrLessIrreflexive(a[1..]);
    }
  }

  lemma {:induction false} StrLessTotal(a: string, b: string)
    requires a != b
    ensures StrLess(a, b) || StrLess(b, a)
    decreases |a|
  {
    if a != [] && b != [] && a[0] == b[0] {
      StrLessTotal(a[1..], b[1..]);
    }
  }

  lemma {:induction false} StrLessTransitive(a: string, b: string, c: string)
    requires StrLess(a, b) && StrLess(b, c)
    ensures StrLess(a, c)
    decreases |a|
  {
    if a != [] && b != [] && c != [] && a[0] == b[0] && b[0] == c[0] {
      StrLessTransitive(a[1..], b[1..], c[1..]);
    }
  }

  lemma StrLessAsymmetric(a: string, b: string)
    requires StrLess(a, b)
    ensures !StrLess(b, a)
  {
    if StrLess(b, a) {
      StrLessTransitive(a, b, a);
      StrLessIrreflexive(a);
    }
  }

  /** Strictly ascending keys: sorted, and each at most once. */
  predicate Ascending(keys: seq<string>) {
    forall i, j :: 0 <= i < j < |keys| ==> StrLess(keys[i], keys[j])
  }

  /** The supplier keys of a list of parsers. */
  function KeysOf(ps: seq<Parser>): (keys: seq<string>)
    ensures |keys| == |ps|
    ensures forall i :: 0 <= i < |ps| ==> keys[i] == SupplierKey(ps[i])
  {
    seq(|ps|, i requires 0 <= i < |ps| => SupplierKey(ps[i]))
  }

  // ---------------------------------------------------------------------
  // The table

  /** The `KeyError` message of `get` (registry.py:13). */
  function UnknownKeyMessage(key: string, order: seq<string>): string {
    "Unknown supplier key: " + key + ". Available: " + ListRepr(order)
  }

  /**
   * The module-level `_REGISTRY` dictionary. `entries` is its content and
   * `order` its keys in insertion order, as a Python dict keeps them.
   */
  class Registry {
    var entries: map<string, Parser>
    var order: seq<string>

    /** Each parser is filed under its own key, and `order` lists every key once. */
    ghost predicate Valid()
      reads this
    {
      && (forall k :: k in entries ==> SupplierKey(entries[k]) == k)
      && (forall k :: k in entries <==> k in order)
      && (forall i, j :: 0 <= i < j < |order| ==> order[i] != order[j])
    }

    /** The empty `_REGISTRY` at import time (registry.py:5). */
    constructor ()
      ensures Valid() && entries == map[] && order == []
    {
      entries := map[];
      order := [];
    }

    /**
     * `register`: file `p` under its supplier key, replacing any parser
     * already there; the key keeps its place if it was already present
     * (registry.py:7-9).
     */
    method Register(p: Parser)
      requires Valid()
      modifies this
      ensures Valid()
      ensures entries == old(entries)[SupplierKey(p) := p]
      ensures order == if SupplierKey(p) in old(entries) then old(order) else old(order) + [SupplierKey(p)]
    {
      var key := SupplierKey(p);
      if key !in entries {
        order := order + [key];
      }
      entries := entries[key := p];
    }

    /**
     * `get`: the parser filed under `key`, or the `KeyError` listing the
     * available keys when there is none (registry.py:11-14).
     */
    method Get(key: string) returns (r: Result<Parser, string>)
      requires Valid()
      ensures key in entries ==> r == Ok(entries[key]) && SupplierKey(r.value) == key
      ensures key !in entries ==> r == Err(UnknownKeyMessage(key, order))
    {
      if key !in entries {
        return Err(UnknownKeyMessage(key, order));
      }
      return Ok(entries[key]);
    }

    /**
     * `all_parsers`: every registered parser once, in ascending key order
     * (registry.py:16-17). The keys are sorted by insertion.
     */
    method AllParsers() returns (ps: seq<Parser>)
      requires Valid()
      ensures Ascending(KeysOf(ps))
      ensures forall k :: k in entries <==> k in KeysOf(ps)
      ensures forall i :: 0 <= i < |ps| ==> ps[i] == entries[SupplierKey(ps[i])]
      ensures |ps| == |entries|
    {
      var sorted: seq<string> := [];
      var i := 0;
      while i < |order|
        invariant 0 <= i <= |order|
        invariant Ascending(sorted)
        invariant forall k :: k in sorted <==> k in order[..i]
      {
        sorted := Insert(sorted, order[i]);
        i := i + 1;
      }
      assert order[..i] == order;
      ps := [];
      var j := 0;
      while j < |sorted|
        invariant 0 <= j <= |sorted|
        invariant |ps| == j
        invariant forall m :: 0 <= m < j ==> ps[m] == entries[sorted[m]]
      {
        ps := ps + [entries[sorted[j]]];
        j := j + 1;
      }
      assert KeysOf(ps) == sorted;
      AscendingDistinctSize(sorted, entries);
    }

    /**
     * `bootstrap`: register the Omnia parser, then the generic one
     * (__init__.py:5-8).
     */
    method Bootstrap()
      requires Valid()
      modifies this
      ensures Valid()
      ensures entries == old(entries)["omnia" := Omnia]["generic" := Generic]
      ensures order == old(order) + (if "omnia" in old(entries) then [] else ["omnia"])
                                  + (if "generic" in old(entries) then [] else ["generic"])
    {
      Register(Omnia);
      Register(Generic);
    }
  }

  /** Insert `k` into strictly ascending `s`, unless it is there already. */
  method Insert(s: seq<string>, k: string) returns (r: seq<string>)
    requires Ascending(s)
    ensures Ascending(r)
    ensures forall x :: x in r <==> x in s || x == k
  {
    if k in s {
      return s;
    }
    var j := 0;
    while j < |s| && StrLess(s[j], k)
      invariant 0 <= j <= |s|
      invariant forall m :: 0 <= m < j ==> StrLess(s[m], k)
    {
      j := j + 1;
    }
    if j < |s| {
      StrLessTotal(s[j], k);
    }
    r := s[..j] + [k] + s[j..];
    forall a, b | 0 <= a < b < |r|
      ensures StrLess(r[a], r[b])
    {
      if b == j {
        assert r[a] == s[a];
      } else if a == j {
        assert r[b] == s[b - 1];
        if b - 1 > j {
          StrLessTransitive(k, s[j], s[b - 1]);
        }
      } else if a < j < b {
        assert r[a] == s[a] && r[b] == s[b - 1];
      } else if b < j {
        assert r[a] == s[a] && r[b] == s[b];
      } else {
        assert r[a] == s[a - 1] && r[b] == s[b - 1];
      }
    }
    assert forall x :: x in r <==> x in s[..j] || x == k || x in s[j..];
    assert s == s[..j] + s[j..];
  }

  /** Strictly ascending keys that are exactly the keys of `m` number `|m|`. */
  lemma AscendingDistinctSize(keys: seq<string>, m: map<string, Parser>)
    requires Ascending(keys)
    requires forall k :: k in m <==> k in keys
    ensures |keys| == |m|
  {
    var ks := set k | k in keys;
    assert ks == m.Keys;
    DistinctCard(keys);
  }

  lemma {:induction false} DistinctCard(keys: seq<string>)
    requires Ascending(keys)
    ensures |set k | k in keys| == |keys|
  {
    if keys != [] {
      var rest := keys[1..];
      DistinctCard(rest);
      assert keys[0] !in rest by {
        if keys[0] in rest {
          var j :| 0 <= j < |rest| && rest[j] == keys[0];
          assert StrLess(keys[0], keys[j + 1]);
          StrLessIrreflexive(keys[0]);
        }
      }
      assert (set k | k in keys) == {keys[0]} + (set k | k in rest);
    }
  }

  /**
   * The registry test: after `bootstrap` there are at least two parsers and
   * `get("omnia")` is the Omnia parser (tests/test_registry.py:4-8).
   */
  method BootstrapScenario() returns (count: nat, omnia: Result<Parser, string>)
    ensures count >= 2
    ensures omnia.Ok? && SupplierKey(omnia.value) == "omnia"
  {
    var reg := new Registry();
    reg.Bootstrap();
    assert reg.entries.Keys == {"omnia", "generic"};
    var ps := reg.AllParsers();
    count := |ps|;
    omnia := reg.Get("omnia");
  }
}
