/**
  The handful of JavaScript string operations the site relies on, written out with
  their ECMAScript meaning: truthiness and `||` on optional strings, `startsWith`,
  `charAt(0)`, `join`, `split` on one character, `trim`, and the part of
  `toLowerCase` that can matter when the result is compared with ASCII names.
 */
module JsText {
  import opened Wrappers

  /** A string-valued property of a response that may be absent (`undefined` or `null`). */
  type Field = Option<string>

  /** JavaScript truthiness of a string-valued property: present and not the empty string. */
  predicate Truthy(f: Field)
  {
    f.Some? && f.value != ""
  }

  /** `f || fallback` */
  function OrElse(f: Field, fallback: string): string
  {
    if Truthy(f) then f.value else fallback
  }

  /** `s.startsWith(prefix)` */
  predicate StartsWith(s: string, prefix: string)
  {
    prefix <= s
  }

  /** `s.charAt(0)`: a one-character string, or the empty string when `s` is empty. */
  function FirstChar(s: string): (r: string)
    ensures |r| <= 1 && r <= s
    ensures r == "" <==> s == ""
  {
    if s == "" then "" else s[..1]
  }

  /** `xs.join(sep)` on a list of strings. */
  function Join(xs: seq<string>, sep: string): string
    decreases |xs|
  {
    if |xs| == 0 then ""
    else if |xs| == 1 then xs[0]
    else xs[0] + sep + Join(xs[1..], sep)
  }

  /** `s.split(sep)` with a one-character separator: the pieces between separators. */
  function Split(s: string, sep: char): (r: seq<string>)
    ensures |r| >= 1
    ensures forall i :: 0 <= i < |r| ==> sep !in r[i]
    decreases |s|
  {
    if |s| == 0 then [""]
    else
      var rest := Split(s[1..], sep);
      if s[0] == sep then [""] + rest
      else [[s[0]] + rest[0]] + rest[1..]
  }

  lemma JoinCons(x: string, xs: seq<string>, sep: string)
    requires |xs| > 0
    ensures Join([x] + xs, sep) == x + sep + Join(xs, sep)
  {
    assert ([x] + xs)[1..] == xs;
  }

  /** A string without the separator splits into itself. */
  lemma {:induction false} SplitWithoutSeparator(s: string, sep: char)
    requires sep !in s
    ensures Split(s, sep) == [s]
    decreases |s|
  {
    if |s| > 0 {
      SplitWithoutSeparator(s[1..], sep);
      assert [s[0]] + s[1..] == s;
    }
  }

  /** The first separator ends the first piece. */
  lemma {:induction false} SplitAtSeparator(a: string, sep: char, b: string)
    requires sep !in a
    ensures Split(a + [sep] + b, sep) == [a] + Split(b, sep)
    decreases |a|
  {
    if |a| == 0 {
      assert a + [sep] + b == [sep] + b;
      assert ([sep] + b)[1..] == b;
    } else {
      assert (a + [sep] + b)[1..] == a[1..] + [sep] + b;
      SplitAtSeparator(a[1..], sep, b);
      assert [a[0]] + a[1..] == a;
    }
  }

  /** Splitting undoes joining, for a non-empty list of separator-free pieces. */
  lemma {:induction false} SplitJoin(xs: seq<string>, sep: char)
    requires |xs| > 0
    requires forall i :: 0 <= i < |xs| ==> sep !in xs[i]
    ensures Split(Join(xs, [sep]), sep) == xs
    decreases |xs|
  {
    if |xs| == 1 {
      SplitWithoutSeparator(xs[0], sep);
    } else {
      SplitJoin(xs[1..], sep);
      SplitAtSeparator(xs[0], sep, Join(xs[1..], [sep]));
      assert [xs[0]] + xs[1..] == xs;
    }
  }

  /** Joining undoes splitting, for every string. */
  lemma {:induction false} JoinSplit(s: string, sep: char)
    ensures Join(Split(s, sep), [sep]) == s
    decreases |s|
  {
    if |s| > 0 {
      JoinSplit(s[1..], sep);
      var rest := Split(s[1..], sep);
      if s[0] == sep {
        JoinCons("", rest, [sep]);
      } else if |rest| == 1 {
        assert Split(s, sep) == [[s[0]] + rest[0]];
      } else {
        assert [rest[0]] + rest[1..] == rest;
        JoinCons(rest[0], rest[1..], [sep]);
        JoinCons([s[0]] + rest[0], rest[1..], [sep]);
      }
      assert [s[0]] + s[1..] == s;
    }
  }

  /**
    The characters `String.prototype.trim` removes: the ECMAScript WhiteSpace and
    LineTerminator code points (section 12.2 and 12.3 of ECMA-262).
   */
  predicate IsWhitespace(c: char)
  {
    || c == '\t' || c == '\n' || c == '\U{000B}' || c == '\U{000C}' || c == '\r' || c == ' '
    || c == '\U{00A0}' || c == '\U{1680}' || ('\U{2000}' <= c <= '\U{200A}')
    || c == '\U{2028}' || c == '\U{2029}' || c == '\U{202F}' || c == '\U{205F}'
    || c == '\U{3000}' || c == '\U{FEFF}'
  }

  /** `s.trimStart()`: the suffix left after dropping the leading whitespace. */
  function TrimStart(s: string): (r: string)
    ensures |r| <= |s| && r == s[|s| - |r|..]
    ensures forall k :: 0 <= k < |s| - |r| ==> IsWhitespace(s[k])
    ensures r == "" || !IsWhitespace(r[0])
    decreases |s|
  {
    if |s| > 0 && IsWhitespace(s[0]) then TrimStart(s[1..]) else s
  }

  /** `s.trimEnd()`: the prefix left after dropping the trailing whitespace. */
  function TrimEnd(s: string): (r: string)
    ensures r <= s
    ensures forall k :: |r| <= k < |s| ==> IsWhitespace(s[k])
    ensures r == "" || !IsWhitespace(r[|r| - 1])
    decreases |s|
  {
    if |s| > 0 && IsWhitespace(s[|s| - 1]) then TrimEnd(s[..|s| - 1]) else s
  }

  /** `s.trim()` */
  function Trim(s: string): string
  {
    TrimEnd(TrimStart(s))
  }

  /** A string `trim` leaves as it is. */
  predicate Trimmed(s: string)
  {
    Trim(s) == s
  }

  /** One leading space added to a trimmed string is trimmed away again. */
  lemma TrimAfterSpace(x: string)
    requires Trimmed(x)
    ensures Trim(" " + x) == x
  {
    assert (" " + x)[1..] == x;
    var t := TrimStart(x);
    assert |TrimEnd(t)| <= |t| <= |x|;
    assert t == x[|x| - |t|..];
  }

  /**
    `c.toLowerCase()` as far as it decides equality with an all-ASCII name: `A`..`Z`
    and the Kelvin sign lower to one ASCII letter. Every other character is kept:
    another ASCII character lowers to itself, and a non-ASCII one lowers to a form
    that still holds a non-ASCII character (for U+0130, capital I with dot above,
    the two characters `i` U+0307). A name containing one equals no all-ASCII name
    before or after lowering.
   */
  function FoldChar(c: char): char
  {
    if 'A' <= c <= 'Z' then (c as int + 32) as char
    else if c == '\U{212A}' then 'k'
    else c
  }

  /**
    `s.toLowerCase()` for the purpose of comparing with a lower-case ASCII name:
    the two comparisons always agree.
   */
  function FoldCase(s: string): (r: string)
    ensures |r| == |s|
    ensures forall i :: 0 <= i < |s| ==> r[i] == FoldChar(s[i])
  {
    seq(|s|, i requires 0 <= i < |s| => FoldChar(s[i]))
  }
}
