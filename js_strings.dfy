/** The few JavaScript string operations the console relies on: `trim`, the regular
    expression class `\s`, `toLowerCase`, `includes`, and the decimal rendering of a number. */
module JsStrings {

  /** The characters `trim` and `\s` treat as white space: the ECMAScript WhiteSpace and
      LineTerminator code points. */
  const WhiteSpace: set<char> := {
    ' ', '\t', '\n', '\r', '\U{000B}', '\U{000C}', '\U{00A0}', '\U{1680}',
    '\U{2000}', '\U{2001}', '\U{2002}', '\U{2003}', '\U{2004}', '\U{2005}', '\U{2006}',
    '\U{2007}', '\U{2008}', '\U{2009}', '\U{200A}',
    '\U{2028}', '\U{2029}', '\U{202F}', '\U{205F}', '\U{3000}', '\U{FEFF}'
  }

  predicate IsWhite(c: char) {
    c in WhiteSpace
  }

  predicate AllWhite(s: string) {
    forall i :: 0 <= i < |s| ==> IsWhite(s[i])
  }

  predicate NoWhite(s: string) {
    forall i :: 0 <= i < |s| ==> !IsWhite(s[i])
  }

  /** `s.trimStart()`: the longest suffix of `s` that does not begin with white space. */
  function TrimStart(s: string): (r: string)
    ensures |r| <= |s| && r == s[|s| - |r|..]
    ensures AllWhite(s[..|s| - |r|])
    ensures r == [] || !IsWhite(r[0])
  {
    if |s| > 0 && IsWhite(s[0]) then TrimStart(s[1..]) else s
  }

  /** `s.trimEnd()`: the longest prefix of `s` that does not end with white space. */
  function TrimEnd(s: string): (r: string)
    ensures |r| <= |s| && r == s[..|r|]
    ensures AllWhite(s[|r|..])
    ensures r == [] || !IsWhite(r[|r| - 1])
  {
    if |s| > 0 && IsWhite(s[|s| - 1]) then TrimEnd(s[..|s| - 1]) else s
  }

  /** `s.trim()`: `s` without its leading and trailing white space. */
  function Trim(s: string): (r: string)
    ensures |r| <= |s|
    ensures r == [] || (!IsWhite(r[0]) && !IsWhite(r[|r| - 1]))
  {
    TrimEnd(TrimStart(s))
  }

  /** `trim` removes white space and nothing else: `s` is a white-space prefix, then
      `Trim(s)`, then a white-space suffix. */
  lemma TrimRemovesOnlyWhite(s: string)
    ensures exists k :: 0 <= k <= |s| - |Trim(s)| && Trimmed(s, k, Trim(s))
  {
    var t := TrimStart(s);
    var r := TrimEnd(t);
    assert r == Trim(s);
    Recompose(s, t, r);
    assert Trimmed(s, |s| - |t|, r);
  }

  /** `s` is `k` white-space characters, then `r`, then white space only. */
  predicate Trimmed(s: string, k: nat, r: string)
    requires k + |r| <= |s|
  {
    s == s[..k] + r + s[k + |r|..] && AllWhite(s[..k]) && AllWhite(s[k + |r|..])
  }

  /** `s` split around a suffix `t` and a prefix `r` of that suffix. */
  lemma Recompose(s: string, t: string, r: string)
    requires |t| <= |s| && t == s[|s| - |t|..] && |r| <= |t| && r == t[..|r|]
    ensures s == s[..|s| - |t|] + r + s[|s| - |t| + |r|..]
    ensures t[|r|..] == s[|s| - |t| + |r|..]
  {
    var k := |s| - |t|;
    assert r == s[k..k + |r|];
    assert s == s[..k] + s[k..k + |r|] + s[k + |r|..];
  }

  /** A string trims to nothing exactly when all of its characters are white space. */
  lemma TrimEmptyIffAllWhite(s: string)
    ensures Trim(s) == [] <==> AllWhite(s)
  {
    var t := TrimStart(s);
    TrimStartEmpty(s);
    TrimEndEmpty(t);
    assert t != [] ==> t[0] == t[0..][0];
  }

  lemma {:induction false} TrimStartEmpty(s: string)
    ensures TrimStart(s) == [] <==> AllWhite(s)
  {
    if |s| > 0 && IsWhite(s[0]) {
      TrimStartEmpty(s[1..]);
      assert forall i :: 1 <= i < |s| ==> s[i] == s[1..][i - 1];
    }
  }

  lemma {:induction false} TrimEndEmpty(s: string)
    ensures TrimEnd(s) == [] <==> AllWhite(s)
  {
    if |s| > 0 && IsWhite(s[|s| - 1]) {
      TrimEndEmpty(s[..|s| - 1]);
      assert forall i :: 0 <= i < |s| - 1 ==> s[i] == s[..|s| - 1][i];
    }
  }

  /** Trailing white space is exactly what `trim` removes from a trimmed core. */
  lemma {:induction false} TrimDropsTrailingWhite(core: string, pad: string)
    requires core != [] && !IsWhite(core[0]) && !IsWhite(core[|core| - 1])
    requires AllWhite(pad)
    ensures Trim(core + pad) == core
  {
    TrimEndDropsWhite(core, pad);
    assert TrimStart(core + pad) == core + pad;
  }

  lemma {:induction false} TrimEndDropsWhite(core: string, pad: string)
    requires core != [] && !IsWhite(core[|core| - 1])
    requires AllWhite(pad)
    ensures TrimEnd(core + pad) == core
    decreases |pad|
  {
    if pad == [] {
      assert core + pad == core;
    } else {
      var shorter := pad[..|pad| - 1];
      assert (core + pad)[..|core + pad| - 1] == core + shorter;
      TrimEndDropsWhite(core, shorter);
    }
  }

  /** `s.replace(/\s+/g, '_')`: every maximal run of white space becomes one underscore. */
  function CollapseWhite(s: string): (r: string)
    ensures NoWhite(r)
    ensures |r| <= |s|
    decreases |s|
  {
    if s == [] then []
    else if IsWhite(s[0]) then
      var rest := TrimStart(s);
      assert |rest| < |s|;
      "_" + CollapseWhite(rest)
    else [s[0]] + CollapseWhite(s[1..])
  }

  /** A string without white space is left unchanged. */
  lemma {:induction false} CollapseNoWhite(s: string)
    requires NoWhite(s)
    ensures CollapseWhite(s) == s
  {
    if s != [] {
      assert NoWhite(s[1..]);
      CollapseNoWhite(s[1..]);
    }
  }

  /** Replacing white-space runs a second time changes nothing. */
  lemma CollapseIdempotent(s: string)
    ensures CollapseWhite(CollapseWhite(s)) == CollapseWhite(s)
  {
    CollapseNoWhite(CollapseWhite(s));
  }

  /** A run of white space followed by a non-white character becomes a single `_`. */
  lemma {:induction false} CollapseRun(run: string, t: string)
    requires run != [] && AllWhite(run)
    requires t == [] || !IsWhite(t[0])
    ensures CollapseWhite(run + t) == "_" + CollapseWhite(t)
  {
    TrimStartDropsWhite(run, t);
  }

  lemma {:induction false} TrimStartDropsWhite(run: string, t: string)
    requires AllWhite(run)
    requires t == [] || !IsWhite(t[0])
    ensures TrimStart(run + t) == t
    decreases |run|
  {
    if run == [] {
      assert run + t == t;
    } else {
      assert (run + t)[1..] == run[1..] + t;
      TrimStartDropsWhite(run[1..], t);
    }
  }

  /** `toLowerCase` on the ASCII letters; every other character is kept. */
  function LowerChar(c: char): char {
    if 'A' <= c <= 'Z' then (c as int + 32) as char else c
  }

  function ToLower(s: string): (r: string)
    ensures |r| == |s|
    ensures forall i :: 0 <= i < |s| ==> r[i] == LowerChar(s[i])
  {
    if s == [] then [] else [LowerChar(s[0])] + ToLower(s[1..])
  }

  /** Lower-casing is idempotent. */
  lemma ToLowerIdempotent(s: string)
    ensures ToLower(ToLower(s)) == ToLower(s)
  {
  }

  /** `s.startsWith(p)` */
  predicate StartsWith(s: string, p: string) {
    |p| <= |s| && s[..|p|] == p
  }

  /** `sub` occurs in `s` starting at index `i`. */
  predicate OccursAt(s: string, sub: string, i: nat) {
    i + |sub| <= |s| && s[i..i + |sub|] == sub
  }

  /** `s.includes(sub)`, computed by trying every position in turn. */
  function Includes(s: string, sub: string): (b: bool)
    ensures b <==> exists i: nat :: OccursAt(s, sub, i)
  {
    if StartsWith(s, sub) then
      assert OccursAt(s, sub, 0);
      true
    else if s == [] then
      assert forall i: nat :: !OccursAt(s, sub, i);
      false
    else
      var b := Includes(s[1..], sub);
      assert forall i: nat :: OccursAt(s[1..], sub, i) <==> OccursAt(s, sub, i + 1) by {
        forall i: nat ensures OccursAt(s[1..], sub, i) <==> OccursAt(s, sub, i + 1) {
          if i + 1 + |sub| <= |s| { assert s[1..][i..i + |sub|] == s[i + 1..i + 1 + |sub|]; }
        }
      }
      assert !OccursAt(s, sub, 0);
      assert forall i: nat :: OccursAt(s, sub, i) ==> i > 0 && OccursAt(s[1..], sub, i - 1);
      b
  }

  /** The decimal digits of a number, as `String(n)` prints a whole number. */
  function DigitChar(d: nat): char
    requires d < 10
  {
    "0123456789"[d]
  }

  predicate IsDigit(c: char) {
    '0' <= c <= '9'
  }

  function NatToString(n: nat): (r: string)
    ensures |r| >= 1
    ensures forall i :: 0 <= i < |r| ==> IsDigit(r[i])
    ensures n < 10 <==> |r| == 1
  {
    if n < 10 then [DigitChar(n)] else NatToString(n / 10) + [DigitChar(n % 10)]
  }

  lemma DigitCharInjective(a: nat, b: nat)
    requires a < 10 && b < 10 && DigitChar(a) == DigitChar(b)
    ensures a == b
  {
  }

  /** Different numbers print differently. */
  lemma {:induction false} NatToStringInjective(a: nat, b: nat)
    requires NatToString(a) == NatToString(b)
    ensures a == b
  {
    var s := NatToString(a);
    if a < 10 {
      DigitCharInjective(a, b);
    } else {
      assert b >= 10;
      assert s[|s| - 1] == DigitChar(a % 10) == DigitChar(b % 10);
      DigitCharInjective(a % 10, b % 10);
      assert NatToString(a / 10) == s[..|s| - 1] == NatToString(b / 10);
      NatToStringInjective(a / 10, b / 10);
    }
  }

  function IntToString(n: int): (r: string)
    ensures |r| >= 1
  {
    if n < 0 then "-" + NatToString(-n) else NatToString(n)
  }
}
