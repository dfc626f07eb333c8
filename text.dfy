/**
 * The parts of Python's `str` that the controller relies on: `isspace`,
 * `strip()`, `lower()`, the `in` substring test and `split(sep)`.
 * Lower-casing covers ASCII letters only.
 */
module Text {

  /** `c.isspace()`: the code points Python counts as white space. */
  predicate IsSpace(c: char) {
    || ('\t' <= c <= '\r')
    || ('\U{1C}' <= c <= ' ')
    || c == '\U{85}' || c == '\U{A0}' || c == '\U{1680}'
    || ('\U{2000}' <= c <= '\U{200A}')
    || c == '\U{2028}' || c == '\U{2029}' || c == '\U{202F}'
    || c == '\U{205F}' || c == '\U{3000}'
  }

  /** `s.lstrip()` (what it keeps and drops: `TrimStartSpec`) */
  function TrimStart(s: string): (r: string)
    ensures |r| <= |s|
  {
    if |s| > 0 && IsSpace(s[0]) then TrimStart(s[1..]) else s
  }

  /** `s.rstrip()` (what it keeps and drops: `TrimEndSpec`) */
  function TrimEnd(s: string): (r: string)
    ensures |r| <= |s|
  {
    if |s| > 0 && IsSpace(s[|s| - 1]) then TrimEnd(s[..|s| - 1]) else s
  }

  /** `lstrip` keeps a suffix that starts with a non-space and removes only
      white space. */
  lemma {:induction false} TrimStartSpec(s: string)
    ensures var r := TrimStart(s);
      && r == s[|s| - |r|..]
      && (r == [] || !IsSpace(r[0]))
      && forall i :: 0 <= i < |s| - |r| ==> IsSpace(s[i])
  {
    if |s| > 0 && IsSpace(s[0]) {
      TrimStartSpec(s[1..]);
    }
  }

  /** `rstrip` keeps a prefix that ends with a non-space and removes only
      white space. */
  lemma {:induction false} TrimEndSpec(s: string)
    ensures var r := TrimEnd(s);
      && r == s[..|r|]
      && (r == [] || !IsSpace(r[|r| - 1]))
      && forall i :: |r| <= i < |s| ==> IsSpace(s[i])
  {
    if |s| > 0 && IsSpace(s[|s| - 1]) {
      TrimEndSpec(s[..|s| - 1]);
    }
  }

  /** `s.strip()`: white space removed at both ends. */
  function Strip(s: string): string {
    TrimEnd(TrimStart(s))
  }

  /** Stripping yields a string that begins and ends with a non-space and
      that stripping again leaves alone. */
  lemma {:induction false} StripIsStripped(s: string)
    ensures var r := Strip(s); r == [] || (!IsSpace(r[0]) && !IsSpace(r[|r| - 1]))
    ensures Strip(Strip(s)) == Strip(s)
  {
    var t := TrimStart(s);
    var r := TrimEnd(t);
    TrimStartSpec(s);
    TrimEndSpec(t);
    if r != [] {
      assert r[0] == t[0];
    }
    StripLeavesStripped(r);
  }

  /** A string without white space at either end is its own strip. */
  lemma StripLeavesStripped(s: string)
    requires s == [] || (!IsSpace(s[0]) && !IsSpace(s[|s| - 1]))
    ensures Strip(s) == s
  {
  }

  /** `not s.strip()` holds exactly when `s` is white space only. */
  lemma {:induction false} StripEmptyIffBlank(s: string)
    ensures Strip(s) == [] <==> forall i :: 0 <= i < |s| ==> IsSpace(s[i])
  {
    var t := TrimStart(s);
    TrimStartSpec(s);
    TrimEndSpec(t);
    if Strip(s) == [] {
      // everything TrimEnd removes is white space, but t cannot start with it
      assert t == [];
    } else {
      var r := Strip(s);
      assert r == t[..|r|];
      assert !IsSpace(t[0]);
      assert s[|s| - |t|] == t[0];
    }
  }

  /** `c.lower()` on ASCII letters; every other character is kept. */
  function LowerChar(c: char): char {
    if 'A' <= c <= 'Z' then (c as int + 32) as char else c
  }

  /** `s.lower()` */
  function Lower(s: string): (r: string)
    ensures |r| == |s|
  {
    if s == [] then [] else [LowerChar(s[0])] + Lower(s[1..])
  }

  lemma {:induction false} LowerAt(s: string, i: nat)
    requires i < |s|
    ensures Lower(s)[i] == LowerChar(s[i])
  {
    if i > 0 {
      LowerAt(s[1..], i - 1);
    }
  }

  /** Lower-casing twice is lower-casing once. */
  lemma {:induction false} LowerIdempotent(s: string)
    ensures Lower(Lower(s)) == Lower(s)
  {
    if s != [] {
      LowerIdempotent(s[1..]);
      assert Lower(s)[1..] == Lower(s[1..]);
    }
  }

  /** Lower-casing neither creates nor removes white space. */
  lemma LowerKeepsSpace(c: char)
    ensures IsSpace(LowerChar(c)) == IsSpace(c)
  {
  }

  lemma {:induction false} TrimStartLower(s: string)
    ensures TrimStart(Lower(s)) == Lower(TrimStart(s))
  {
    if s != [] {
      LowerKeepsSpace(s[0]);
      assert Lower(s)[1..] == Lower(s[1..]);
      TrimStartLower(s[1..]);
    }
  }

  lemma {:induction false} TrimEndLower(s: string)
    ensures TrimEnd(Lower(s)) == Lower(TrimEnd(s))
  {
    if s != [] {
      var n := |s|;
      LowerAt(s, n - 1);
      LowerKeepsSpace(s[n - 1]);
      LowerSlice(s, 0, n - 1);
      assert Lower(s)[..n - 1] == Lower(s[..n - 1]);
      TrimEndLower(s[..n - 1]);
    }
  }

  /** Lower-casing commutes with `strip()`. */
  lemma {:induction false} StripLowerCommute(s: string)
    ensures Strip(Lower(s)) == Lower(Strip(s))
  {
    TrimStartLower(s);
    TrimEndLower(TrimStart(s));
  }

  lemma {:induction false} LowerSlice(s: string, lo: nat, hi: nat)
    requires lo <= hi <= |s|
    ensures Lower(s[lo..hi]) == Lower(s)[lo..hi]
  {
    forall i | 0 <= i < hi - lo ensures Lower(s[lo..hi])[i] == Lower(s)[lo..hi][i] {
      LowerAt(s[lo..hi], i);
      LowerAt(s, lo + i);
    }
  }

  /** `sub in s` */
  function Contains(s: string, sub: string): bool
    decreases |s|
  {
    if |s| < |sub| then false
    else s[..|sub|] == sub || Contains(s[1..], sub)
  }

  /** `s.split(sep)`: the pieces between the separators, in order. */
  function Split(s: string, sep: char): (parts: seq<string>)
    ensures |parts| >= 1
    ensures forall k :: 0 <= k < |parts| ==> sep !in parts[k]
    ensures Join(parts, sep) == s
    decreases |s|
  {
    if s == [] then [[]]
    else
      var rest := Split(s[1..], sep);
      if s[0] == sep then
        assert Join([[]] + rest, sep) == [sep] + Join(rest, sep);
        [[]] + rest
      else
        var head := [s[0]] + rest[0];
        JoinConsHead(s[0], rest, sep);
        [head] + rest[1..]
  }

  /** `sep.join(parts)` */
  function Join(parts: seq<string>, sep: char): string
    requires |parts| >= 1
  {
    if |parts| == 1 then parts[0] else parts[0] + [sep] + Join(parts[1..], sep)
  }

  lemma JoinConsHead(c: char, parts: seq<string>, sep: char)
    requires |parts| >= 1
    ensures Join([[c] + parts[0]] + parts[1..], sep) == [c] + Join(parts, sep)
  {
    var ps := [[c] + parts[0]] + parts[1..];
    if |parts| > 1 {
      assert ps[1..] == parts[1..];
    }
  }

  /** A piece free of the separator does not split. */
  lemma {:induction false} SplitNoSep(s: string, sep: char)
    requires sep !in s
    ensures Split(s, sep) == [s]
  {
    if s != [] {
      SplitNoSep(s[1..], sep);
    }
  }

  /** Splitting `a + sep + b` with `a` free of the separator yields `a`
      followed by the pieces of `b`. */
  lemma {:induction false} SplitAfter(a: string, b: string, sep: char)
    requires sep !in a
    ensures Split(a + [sep] + b, sep) == [a] + Split(b, sep)
  {
    var s := a + [sep] + b;
    if a == [] {
      assert s[1..] == b;
    } else {
      assert s[1..] == a[1..] + [sep] + b;
      SplitAfter(a[1..], b, sep);
      assert [a[0]] + a[1..] == a;
    }
  }
}
