/** The string operations the travel tools are built from: ASCII lower-casing
    (Python's `str.lower()` restricted to ASCII), the `in` operator on strings
    (substring test), keyword counting, and first-match keyword tables. */
module Text {
  import opened Wrappers

  predicate IsUpperAscii(c: char) {
    'A' <= c <= 'Z'
  }

  /** One character of `str.lower()`: `A`..`Z` become `a`..`z`, everything else is kept. */
  function LowerChar(c: char): (r: char)
    ensures !IsUpperAscii(r)
    ensures IsUpperAscii(c) ==> r as int - c as int == 'a' as int - 'A' as int
    ensures !IsUpperAscii(c) ==> r == c
  {
    if IsUpperAscii(c) then (c as int - 'A' as int + 'a' as int) as char else c
  }

  /** `s.lower()` on ASCII text. */
  function Lower(s: string): (r: string)
    ensures |r| == |s|
    ensures forall i :: 0 <= i < |s| ==> r[i] == LowerChar(s[i])
    ensures forall i :: 0 <= i < |r| ==> !IsUpperAscii(r[i])
  {
    seq(|s|, i requires 0 <= i < |s| => LowerChar(s[i]))
  }

  predicate IsPrefix(p: string, s: string) {
    |p| <= |s| && s[..|p|] == p
  }

  /** Python's `sub in s` for strings: `sub` occurs somewhere in `s`
      (the empty string occurs in every string). */
  predicate Contains(s: string, sub: string)
    decreases |s|
  {
    IsPrefix(sub, s) || (|s| > 0 && Contains(s[1..], sub))
  }

  /** `sub` occurs in `s` starting at index `i`. */
  ghost predicate OccursAt(s: string, sub: string, i: int) {
    0 <= i && i + |sub| <= |s| && s[i..i + |sub|] == sub
  }

  /** `Contains` is exactly "there is a position where `sub` occurs". */
  lemma {:induction false} ContainsIffOccurs(s: string, sub: string)
    ensures Contains(s, sub) <==> exists i :: OccursAt(s, sub, i)
    decreases |s|
  {
    if Contains(s, sub) {
      if IsPrefix(sub, s) {
        assert OccursAt(s, sub, 0);
      } else {
        ContainsIffOccurs(s[1..], sub);
        var j :| OccursAt(s[1..], sub, j);
        assert s[1..][j..j + |sub|] == s[j + 1..j + 1 + |sub|];
        assert OccursAt(s, sub, j + 1);
      }
    }
    if exists i :: OccursAt(s, sub, i) {
      var i :| OccursAt(s, sub, i);
      if i == 0 {
        assert IsPrefix(sub, s);
      } else {
        assert s[1..][i - 1..i - 1 + |sub|] == s[i..i + |sub|];
        assert OccursAt(s[1..], sub, i - 1);
        ContainsIffOccurs(s[1..], sub);
      }
    }
  }

  /** A string containing `a` contains everything `a` contains: for instance a
      text containing "very crowded" also contains "crowded". */
  lemma ContainsTransitive(s: string, a: string, b: string)
    requires Contains(s, a) && Contains(a, b)
    ensures Contains(s, b)
  {
    ContainsIffOccurs(s, a);
    ContainsIffOccurs(a, b);
    var i :| OccursAt(s, a, i);
    var j :| OccursAt(a, b, j);
    assert a == s[i..i + |a|];
    forall k | 0 <= k < |b| ensures s[i + j..i + j + |b|][k] == b[k] {
      assert b[k] == a[j + k] == s[i + j + k];
    }
    assert s[i + j..i + j + |b|] == b;
    assert OccursAt(s, b, i + j);
    ContainsIffOccurs(s, b);
  }

  /** Lower-casing keeps every occurrence: if `t` occurs in `s`, then
      `t.lower()` occurs in `s.lower()`. */
  lemma LowerKeepsContains(s: string, t: string)
    requires Contains(s, t)
    ensures Contains(Lower(s), Lower(t))
  {
    ContainsIffOccurs(s, t);
    var i :| OccursAt(s, t, i);
    assert Lower(s)[i..i + |t|] == Lower(t);
    assert OccursAt(Lower(s), Lower(t), i);
    ContainsIffOccurs(Lower(s), Lower(t));
  }

  /** A string containing a non-empty `sub` contains its first character. */
  lemma {:induction false} ContainsFirstChar(s: string, sub: string)
    requires |sub| > 0 && Contains(s, sub)
    ensures sub[0] in s
    decreases |s|
  {
    if !IsPrefix(sub, s) {
      ContainsFirstChar(s[1..], sub);
    }
  }

  /** A non-empty keyword never occurs in the empty string. */
  lemma NothingInEmpty(sub: string)
    requires |sub| > 0
    ensures !Contains("", sub)
  {
  }

  /** Python's `any(k in s for k in keys)`. */
  predicate AnyContains(s: string, keys: seq<string>) {
    exists i :: 0 <= i < |keys| && Contains(s, keys[i])
  }

  /** `AnyContains` read as membership: some keyword of the list occurs. */
  lemma AnyContainsIffSomeKeyword(s: string, keys: seq<string>)
    ensures AnyContains(s, keys) <==> exists k :: k in keys && Contains(s, k)
  {
    if exists k :: k in keys && Contains(s, k) {
      var k :| k in keys && Contains(s, k);
      var i :| 0 <= i < |keys| && keys[i] == k;
    }
  }

  /** Python's `sum(1 for k in keys if k in s)`. */
  function CountContained(keys: seq<string>, s: string): (n: nat)
    ensures n <= |keys|
    ensures n == 0 <==> !AnyContains(s, keys)
  {
    if |keys| == 0 then 0
    else
      var rest := CountContained(keys[1..], s);
      assert AnyContains(s, keys) <==> Contains(s, keys[0]) || AnyContains(s, keys[1..]) by {
        if AnyContains(s, keys[1..]) {
          var i :| 0 <= i < |keys[1..]| && Contains(s, keys[1..][i]);
          assert Contains(s, keys[i + 1]);
        }
        if AnyContains(s, keys) && !Contains(s, keys[0]) {
          var i :| 0 <= i < |keys| && Contains(s, keys[i]);
          assert keys[1..][i - 1] == keys[i];
        }
      }
      (if Contains(s, keys[0]) then 1 else 0) + rest
  }

  predicate Distinct<T(==)>(xs: seq<T>) {
    forall i, j :: 0 <= i < j < |xs| ==> xs[i] != xs[j]
  }

  /** The keywords of `keys` that occur in `s`, as a set. */
  function Present(keys: seq<string>, s: string): set<string> {
    set k | k in keys && Contains(s, k)
  }

  /** The keywords present in `keys` are those present in its tail, plus its
      head when that occurs. */
  lemma PresentSplit(keys: seq<string>, s: string)
    requires |keys| > 0
    ensures Present(keys, s) == (if Contains(s, keys[0]) then {keys[0]} else {}) + Present(keys[1..], s)
  {
    var head := if Contains(s, keys[0]) then {keys[0]} else {};
    forall k | k in Present(keys, s) ensures k in head + Present(keys[1..], s) {
      var i :| 0 <= i < |keys| && keys[i] == k;
      if i > 0 {
        assert keys[1..][i - 1] == k;
      }
    }
    forall k | k in Present(keys[1..], s) ensures k in Present(keys, s) {
      var i :| 0 <= i < |keys[1..]| && keys[1..][i] == k;
      assert keys[i + 1] == k;
    }
  }

  /** Counting keyword hits counts distinct keywords: with no keyword listed
      twice, the count is the number of keywords that occur, however often
      each occurs. */
  lemma {:induction false} CountIsPresentKeywords(keys: seq<string>, s: string)
    requires Distinct(keys)
    ensures CountContained(keys, s) == |Present(keys, s)|
  {
    if |keys| == 0 {
      assert Present(keys, s) == {};
    } else {
      var rest := keys[1..];
      assert Distinct(rest);
      CountIsPresentKeywords(rest, s);
      assert keys[0] !in rest;
      PresentSplit(keys, s);
      assert keys[0] !in Present(rest, s);
    }
  }

  /** A row of a keyword table: `value` is chosen when any of `keywords` occurs. */
  datatype Rule<V> = Rule(keywords: seq<string>, value: V)

  predicate Fires<V>(rule: Rule<V>, s: string) {
    AnyContains(s, rule.keywords)
  }

  /** An `if`/`elif` chain over a keyword table: the value of the first rule
      that fires, or `None` when none does. */
  function FirstHit<V>(rules: seq<Rule<V>>, s: string): Option<V> {
    if |rules| == 0 then None
    else if Fires(rules[0], s) then Some(rules[0].value)
    else FirstHit(rules[1..], s)
  }

  /** Rule `i` is the one an `if`/`elif` chain takes: it fires and no earlier rule does. */
  ghost predicate FirstFiringAt<V>(rules: seq<Rule<V>>, s: string, i: int) {
    0 <= i < |rules| && Fires(rules[i], s) && forall j :: 0 <= j < i ==> !Fires(rules[j], s)
  }

  /** First-match semantics of `FirstHit`: it answers the value of the first
      firing rule, and `None` exactly when no rule fires. */
  lemma {:induction false} FirstHitIsFirstFiring<V>(rules: seq<Rule<V>>, s: string)
    ensures FirstHit(rules, s).None? <==> forall j :: 0 <= j < |rules| ==> !Fires(rules[j], s)
    ensures forall i :: FirstFiringAt(rules, s, i) ==> FirstHit(rules, s) == Some(rules[i].value)
    ensures FirstHit(rules, s).Some? ==>
      exists i :: FirstFiringAt(rules, s, i) && FirstHit(rules, s).value == rules[i].value
  {
    if |rules| > 0 {
      if Fires(rules[0], s) {
        assert FirstFiringAt(rules, s, 0);
        forall i | FirstFiringAt(rules, s, i) ensures i == 0 {
        }
      } else {
        var tail := rules[1..];
        FirstHitIsFirstFiring(tail, s);
        forall i | FirstFiringAt(rules, s, i)
          ensures FirstHit(rules, s) == Some(rules[i].value)
        {
          assert FirstFiringAt(tail, s, i - 1);
        }
        if FirstHit(tail, s).Some? {
          var i :| FirstFiringAt(tail, s, i) && FirstHit(tail, s).value == tail[i].value;
          assert FirstFiringAt(rules, s, i + 1);
        }
        if forall j :: 0 <= j < |tail| ==> !Fires(tail[j], s) {
          forall j | 0 <= j < |rules| ensures !Fires(rules[j], s) {
            if j > 0 { assert rules[j] == tail[j - 1]; }
          }
        }
      }
    }
  }

  function ValuesOf<V>(rules: seq<Rule<V>>): (vs: seq<V>)
    ensures |vs| == |rules|
    ensures forall i :: 0 <= i < |rules| ==> vs[i] == rules[i].value
  {
    seq(|rules|, i requires 0 <= i < |rules| => rules[i].value)
  }

  /** `a` is `b` with some elements deleted, order kept. */
  predicate IsSubsequence<V(==)>(a: seq<V>, b: seq<V>)
    decreases |b|
  {
    if |a| == 0 then true
    else if |b| == 0 then false
    else (a[0] == b[0] && IsSubsequence(a[1..], b[1..])) || IsSubsequence(a, b[1..])
  }

  /** Every element of a subsequence is an element of the whole. */
  lemma {:induction false} SubsequenceElements<V>(a: seq<V>, b: seq<V>)
    requires IsSubsequence(a, b)
    ensures forall x :: x in a ==> x in b
    decreases |b|
  {
    if |a| > 0 {
      if a[0] == b[0] && IsSubsequence(a[1..], b[1..]) {
        SubsequenceElements(a[1..], b[1..]);
        assert a == [a[0]] + a[1..];
      } else {
        SubsequenceElements(a, b[1..]);
      }
    }
  }

  /** A subsequence of a duplicate-free sequence is duplicate-free. */
  lemma {:induction false} SubsequenceOfDistinct<V>(a: seq<V>, b: seq<V>)
    requires IsSubsequence(a, b) && Distinct(b)
    ensures Distinct(a)
    decreases |b|
  {
    if |a| > 0 {
      assert Distinct(b[1..]);
      if a[0] == b[0] && IsSubsequence(a[1..], b[1..]) {
        SubsequenceOfDistinct(a[1..], b[1..]);
        SubsequenceElements(a[1..], b[1..]);
        assert b[0] !in b[1..];
        forall i, j | 0 <= i < j < |a| ensures a[i] != a[j] {
          if i == 0 {
            assert a[j] == a[1..][j - 1];
            assert a[j] in a[1..];
          } else {
            assert a[i] == a[1..][i - 1] && a[j] == a[1..][j - 1];
          }
        }
      } else {
        SubsequenceOfDistinct(a, b[1..]);
      }
    }
  }

  /** The loop `for value, keywords in table: if any(...): out.append(value)`:
      the values of the firing rules, in table order. */
  function AllHits<V(!new)>(rules: seq<Rule<V>>, s: string): (r: seq<V>)
    ensures IsSubsequence(r, ValuesOf(rules))
    ensures forall i :: 0 <= i < |rules| && Fires(rules[i], s) ==> rules[i].value in r
    ensures forall x :: x in r ==> exists i :: 0 <= i < |rules| && rules[i].value == x && Fires(rules[i], s)
  {
    if |rules| == 0 then []
    else
      var rest := AllHits(rules[1..], s);
      assert ValuesOf(rules)[1..] == ValuesOf(rules[1..]);
      assert forall i :: 1 <= i < |rules| ==> rules[i] == rules[1..][i - 1];
      if Fires(rules[0], s) then [rules[0].value] + rest else rest
  }
}
