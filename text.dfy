/**
 * Text helpers shared by the front end and the back end:
 * - ASCII case folding, used for `String.prototype.toLowerCase` on HTTP
 *   method names (frontend/src/lib/api.ts) and for Django's `iexact` lookup
 *   on category names (backend/api/expenses/filters.py);
 * - Python's `str.strip` (`TrimStart`, `TrimEnd`, `Strip`), which Django's
 *   form fields apply to the filter values before cleaning them.
 */
module Text {

  predicate IsUpper(c: char) {
    'A' <= c <= 'Z'
  }

  /** The lower-case letter of an upper-case ASCII letter; any other character unchanged. */
  function LowerChar(c: char): (r: char)
    ensures !IsUpper(r)
    ensures IsUpper(c) ==> r as int - c as int == 32
    ensures !IsUpper(c) ==> r == c
  {
    if IsUpper(c) then (c as int + 32) as char else c
  }

  /** `s.toLowerCase()` restricted to ASCII. */
  function Lower(s: string): (r: string)
    ensures |r| == |s|
    ensures forall i :: 0 <= i < |s| ==> r[i] == LowerChar(s[i])
  {
    seq(|s|, i requires 0 <= i < |s| => LowerChar(s[i]))
  }

  /** Two strings are equal once both are folded to lower case. */
  predicate EqualsIgnoringCase(a: string, b: string) {
    Lower(a) == Lower(b)
  }

  /**
   * The characters Python's `str.isspace()` accepts, which `str.strip()`
   * removes: the ASCII controls 9-13 and 28-31, the space, and the Unicode
   * separators.
   */
  predicate IsWhitespace(c: char) {
    var n := c as int;
    || 9 <= n <= 13 || 28 <= n <= 32 || n == 0x85 || n == 0xA0 || n == 0x1680
    || 0x2000 <= n <= 0x200A || n == 0x2028 || n == 0x2029 || n == 0x202F || n == 0x205F || n == 0x3000
  }

  predicate AllWhitespace(s: string) {
    forall i :: 0 <= i < |s| ==> IsWhitespace(s[i])
  }

  /** `s.lstrip()`: the suffix left after the leading whitespace. */
  function TrimStart(s: string): (r: string)
    ensures |r| <= |s| && r == s[|s| - |r|..]
    ensures AllWhitespace(s[..|s| - |r|])
    ensures r == [] || !IsWhitespace(r[0])
  {
    if s != [] && IsWhitespace(s[0]) then TrimStart(s[1..]) else s
  }

  /** `s.rstrip()`: the prefix left before the trailing whitespace. */
  function TrimEnd(s: string): (r: string)
    ensures |r| <= |s| && r == s[..|r|]
    ensures AllWhitespace(s[|r|..])
    ensures r == [] || !IsWhitespace(r[|r| - 1])
  {
    if s != [] && IsWhitespace(s[|s| - 1]) then TrimEnd(s[..|s| - 1]) else s
  }

  /** `s.strip()` */
  function Strip(s: string): string {
    TrimEnd(TrimStart(s))
  }

  /** What `strip` leaves neither starts nor ends with whitespace, and is no longer than the text. */
  lemma StripLeavesNoEdgeWhitespace(s: string)
    ensures var r := Strip(s);
            |r| <= |s| && (r == [] || (!IsWhitespace(r[0]) && !IsWhitespace(r[|r| - 1])))
  {
  }

  /** A text that neither starts nor ends with whitespace is left as it is. */
  lemma StripTrimmed(s: string)
    requires s == [] || (!IsWhitespace(s[0]) && !IsWhitespace(s[|s| - 1]))
    ensures Strip(s) == s
  {
  }

  /** Leading whitespace is all `lstrip` sees of a prefix of whitespace. */
  lemma {:induction false} TrimStartSkipsWhitespace(a: string, t: string)
    requires AllWhitespace(a)
    ensures TrimStart(a + t) == TrimStart(t)
    decreases |a|
  {
    if a == [] {
      assert a + t == t;
    } else {
      var rest := a[1..];
      assert AllWhitespace(rest) by {
        forall i | 0 <= i < |rest| ensures IsWhitespace(rest[i]) {
          assert rest[i] == a[i + 1];
        }
      }
      assert (a + t)[0] == a[0];
      assert (a + t)[1..] == rest + t;
      TrimStartSkipsWhitespace(rest, t);
    }
  }

  /** Trailing whitespace is all `rstrip` sees of a suffix of whitespace. */
  lemma {:induction false} TrimEndSkipsWhitespace(t: string, b: string)
    requires AllWhitespace(b)
    ensures TrimEnd(t + b) == TrimEnd(t)
    decreases |b|
  {
    if b == [] {
      assert t + b == t;
    } else {
      var rest := b[..|b| - 1];
      assert AllWhitespace(rest) by {
        forall i | 0 <= i < |rest| ensures IsWhitespace(rest[i]) {
          assert rest[i] == b[i];
        }
      }
      assert (t + b)[|t + b| - 1] == b[|b| - 1];
      assert (t + b)[..|t + b| - 1] == t + rest;
      TrimEndSkipsWhitespace(t, rest);
    }
  }

  /** Appending whitespace after a text: `lstrip` keeps it behind what it keeps of the text. */
  lemma {:induction false} TrimStartAppend(s: string, b: string)
    requires AllWhitespace(b)
    ensures TrimStart(s + b) == (if TrimStart(s) == [] then [] else TrimStart(s) + b)
    decreases |s|
  {
    if s == [] {
      assert s + b == b;
      TrimStartSkipsWhitespace(b, []);
      assert b + [] == b;
    } else if IsWhitespace(s[0]) {
      assert (s + b)[0] == s[0] && (s + b)[1..] == s[1..] + b;
      TrimStartAppend(s[1..], b);
    }
  }

  /** Whitespace around a text never changes what `strip` leaves of it. */
  lemma StripIgnoresPadding(a: string, s: string, b: string)
    requires AllWhitespace(a) && AllWhitespace(b)
    ensures Strip(a + s + b) == Strip(s)
  {
    assert a + s + b == a + (s + b);
    TrimStartSkipsWhitespace(a, s + b);
    TrimStartAppend(s, b);
    if TrimStart(s) != [] {
      TrimEndSkipsWhitespace(TrimStart(s), b);
    }
  }

  /** `strip` removes only whitespace: every other character of the text survives it. */
  lemma StripKeepsNonWhitespace(s: string, i: nat)
    requires i < |s| && !IsWhitespace(s[i])
    ensures s[i] in Strip(s)
  {
    var front := TrimStart(s);
    var k := |s| - |front|;
    assert front[i - k] == s[i];
    var r := TrimEnd(front);
    assert r[i - k] == s[i];
  }
}
