/**
 * The string operations the scripts rely on: `str.endswith`, `str.lower`,
 * `str.capitalize`, `str.replace` of one character, `str.split(sep)[-1]`
 * and `sep.join(parts)`. Case mapping covers ASCII letters only.
 */
module Text {

  predicate IsUpper(c: char) { 'A' <= c <= 'Z' }

  predicate IsLower(c: char) { 'a' <= c <= 'z' }

  /** Python's `s.endswith(suffix)`: `s` is some text followed by `suffix`. */
  function EndsWith(s: string, suffix: string): (r: bool)
    ensures r <==> |suffix| <= |s| && s == s[..|s| - |suffix|] + suffix
  {
    |suffix| <= |s| && s[|s| - |suffix|..] == suffix
  }

  /** Text followed by a suffix ends with that suffix. */
  lemma EndsWithAppend(a: string, suffix: string)
    ensures EndsWith(a + suffix, suffix)
  {
    assert (a + suffix)[|a|..] == suffix;
  }

  /** Upper-cases an ASCII letter; every other character is returned as it is. */
  function UpperChar(c: char): (r: char)
    ensures !IsLower(r)
    ensures !IsLower(c) ==> r == c
    ensures IsLower(c) ==> IsUpper(r) && c as int - r as int == 'a' as int - 'A' as int
  {
    if IsLower(c) then (c as int - ('a' as int - 'A' as int)) as char else c
  }

  /** Lower-cases an ASCII letter; every other character is returned as it is. */
  function LowerChar(c: char): (r: char)
    ensures !IsUpper(r)
    ensures !IsUpper(c) ==> r == c
    ensures IsUpper(c) ==> IsLower(r) && r as int - c as int == 'a' as int - 'A' as int
  {
    if IsUpper(c) then (c as int + ('a' as int - 'A' as int)) as char else c
  }

  /**
   * Python's `s.lower()`: the result has no upper-case letter and agrees with
   * `s` up to case, position by position.
   */
  function Lower(s: string): (r: string)
    ensures |r| == |s|
    ensures forall i :: 0 <= i < |s| ==> !IsUpper(r[i]) && UpperChar(r[i]) == UpperChar(s[i])
  {
    seq(|s|, i requires 0 <= i < |s| => LowerChar(s[i]))
  }

  /**
   * Python's `s.capitalize()`: the first character is upper-cased, every
   * other one lower-cased, and nothing else changes.
   */
  function Capitalize(s: string): (r: string)
    ensures |r| == |s|
    ensures |s| > 0 ==> !IsLower(r[0]) && LowerChar(r[0]) == LowerChar(s[0])
    ensures forall i :: 1 <= i < |s| ==> !IsUpper(r[i]) && UpperChar(r[i]) == UpperChar(s[i])
  {
    if |s| == 0 then "" else [UpperChar(s[0])] + Lower(s[1..])
  }

  /** Python's `s.replace(old, new)` for single characters. */
  function ReplaceChar(s: string, from: char, to: char): (r: string)
    ensures |r| == |s|
    ensures forall i :: 0 <= i < |s| ==> r[i] == (if s[i] == from then to else s[i])
  {
    seq(|s|, i requires 0 <= i < |s| => if s[i] == from then to else s[i])
  }

  /**
   * Python's `s.split(sep)[-1]`: the longest suffix of `s` without `sep`.
   * It is all of `s` when `s` has no `sep`, and otherwise it is preceded by one.
   */
  function LastField(s: string, sep: char): (r: string)
    ensures sep !in r
    ensures |r| <= |s| && r == s[|s| - |r|..]
    ensures |r| < |s| ==> s[|s| - |r| - 1] == sep
  {
    if |s| == 0 then ""
    else if s[|s| - 1] == sep then ""
    else LastField(s[..|s| - 1], sep) + [s[|s| - 1]]
  }

  /** Python's `sep.join(parts)`. */
  function Join(parts: seq<string>, sep: string): string
  {
    if |parts| == 0 then ""
    else if |parts| == 1 then parts[0]
    else parts[0] + sep + Join(parts[1..], sep)
  }

  /** Lower-casing twice is lower-casing once. */
  lemma LowerIdempotent(s: string)
    ensures Lower(Lower(s)) == Lower(s)
  {
    var once := Lower(s);
    forall i | 0 <= i < |s|
      ensures Lower(once)[i] == once[i]
    {
      assert once[i] == LowerChar(s[i]);
    }
  }

  /** Capitalizing twice is capitalizing once. */
  lemma CapitalizeIdempotent(s: string)
    ensures Capitalize(Capitalize(s)) == Capitalize(s)
  {
    if |s| > 0 {
      var once := Capitalize(s);
      assert once[1..] == Lower(s[1..]);
      LowerIdempotent(s[1..]);
    }
  }

  /** Replacing a character that does not occur changes nothing. */
  lemma ReplaceCharAbsent(s: string, from: char, to: char)
    requires from !in s
    ensures ReplaceChar(s, from, to) == s
  {
  }

  /** A string without `sep` is its own last field. */
  lemma {:induction false} LastFieldWhole(s: string, sep: char)
    requires sep !in s
    ensures LastField(s, sep) == s
  {
    if |s| > 0 {
      LastFieldWhole(s[..|s| - 1], sep);
      assert s[..|s| - 1] + [s[|s| - 1]] == s;
    }
  }

  /** Whatever precedes the last `sep` is dropped. */
  lemma {:induction false} LastFieldAfter(p: string, sep: char, t: string)
    requires sep !in t
    ensures LastField(p + [sep] + t, sep) == t
  {
    var s := p + [sep] + t;
    if |t| > 0 {
      assert s[..|s| - 1] == p + [sep] + t[..|t| - 1];
      LastFieldAfter(p, sep, t[..|t| - 1]);
      assert t[..|t| - 1] + [t[|t| - 1]] == t;
    }
  }

  /**
   * A field without `sep` is what `split(sep)[-1]` returns exactly when the
   * string is that field alone or ends with `sep` followed by it.
   */
  lemma LastFieldIs(s: string, sep: char, t: string)
    requires sep !in t
    ensures LastField(s, sep) == t <==> s == t || EndsWith(s, [sep] + t)
  {
    if s == t {
      LastFieldWhole(s, sep);
    } else if EndsWith(s, [sep] + t) {
      var p := s[..|s| - |t| - 1];
      assert s == p + [sep] + t;
      LastFieldAfter(p, sep, t);
    }
    if LastField(s, sep) == t && s != t {
      assert s[|s| - |t| - 1..] == [sep] + t;
    }
  }
}
