/** The JavaScript string operations the slides code relies on: `trim`,
    `startsWith`, `slice(0, n)`, `Array.prototype.join` and the decimal
    rendering of a non-negative integer inside a template literal. */
module Text {

  /** The code points ECMAScript's `String.prototype.trim` removes:
      WhiteSpace (tab, vertical tab, form feed, space, no-break space, the
      Unicode space separators and the byte order mark) and LineTerminator. */
  predicate IsJsWhitespace(c: char) {
    || c == '\t' || c == '\n' || c == '\U{B}' || c == '\U{C}' || c == '\r' || c == ' '
    || c == '\U{A0}' || c == '\U{1680}' || ('\U{2000}' <= c <= '\U{200A}')
    || c == '\U{2028}' || c == '\U{2029}' || c == '\U{202F}' || c == '\U{205F}'
    || c == '\U{3000}' || c == '\U{FEFF}'
  }

  predicate AllWhitespace(s: string) {
    forall i | 0 <= i < |s| :: IsJsWhitespace(s[i])
  }

  /** Drops leading whitespace: what is dropped is all whitespace and what is
      kept is a suffix that does not start with whitespace. */
  function TrimStart(s: string): (r: string)
    ensures |r| <= |s| && r == s[|s| - |r|..]
    ensures AllWhitespace(s[..|s| - |r|])
    ensures r != [] ==> !IsJsWhitespace(r[0])
  {
    if s != [] && IsJsWhitespace(s[0]) then
      var r := TrimStart(s[1..]);
      assert s[..|s| - |r|] == [s[0]] + s[1..][..|s| - 1 - |r|];
      r
    else
      s
  }

  /** Drops trailing whitespace: what is dropped is all whitespace and what is
      kept is a prefix that does not end with whitespace. */
  function TrimEnd(s: string): (r: string)
    ensures |r| <= |s| && r == s[..|r|]
    ensures AllWhitespace(s[|r|..])
    ensures r != [] ==> !IsJsWhitespace(r[|r| - 1])
  {
    if s != [] && IsJsWhitespace(s[|s| - 1]) then
      var r := TrimEnd(s[..|s| - 1]);
      assert s[|r|..] == s[..|s| - 1][|r|..] + [s[|s| - 1]];
      r
    else
      s
  }

  /** `s.trim()`. */
  function Trim(s: string): string {
    TrimEnd(TrimStart(s))
  }

  /** Trimming keeps the infix of `s` between its leading and trailing
      whitespace, and the result neither starts nor ends with whitespace. */
  lemma TrimSpec(s: string)
    ensures |Trim(s)| <= |s|
    ensures WhitespaceDelimited(s, |s| - |TrimStart(s)|, Trim(s))
    ensures Trim(s) != [] ==> !IsJsWhitespace(Trim(s)[0]) && !IsJsWhitespace(Trim(s)[|Trim(s)| - 1])
  {
    InfixBetweenWhitespace(s, TrimStart(s), Trim(s));
  }

  /** `r` occurs in `s` at position `a`, with only whitespace before and after it. */
  predicate WhitespaceDelimited(s: string, a: nat, r: string) {
    && a + |r| <= |s|
    && r == s[a..a + |r|] && AllWhitespace(s[..a]) && AllWhitespace(s[a + |r|..])
  }

  /** A prefix `r` of a suffix `t` of `s` that is whitespace-delimited in `t`,
      with `t` whitespace-delimited in `s`, is whitespace-delimited in `s`;
      when `t` does not start with whitespace and `r` does not end with it,
      `r` has whitespace at neither end. */
  lemma InfixBetweenWhitespace(s: string, t: string, r: string)
    requires |t| <= |s| && t == s[|s| - |t|..] && AllWhitespace(s[..|s| - |t|])
    requires |r| <= |t| && r == t[..|r|] && AllWhitespace(t[|r|..])
    requires t != [] ==> !IsJsWhitespace(t[0])
    requires r != [] ==> !IsJsWhitespace(r[|r| - 1])
    ensures WhitespaceDelimited(s, |s| - |t|, r)
    ensures r != [] ==> !IsJsWhitespace(r[0]) && !IsJsWhitespace(r[|r| - 1])
  {
    var a := |s| - |t|;
    assert s[a + |r|..] == t[|r|..];
  }

  /** Trimming yields the empty string exactly when `s` is all whitespace. */
  lemma TrimEmptyIffBlank(s: string)
    ensures Trim(s) == [] <==> AllWhitespace(s)
  {
    var t := TrimStart(s);
    var r := TrimEnd(t);
    var a := |s| - |t|;
    assert t == s[a..];
    if r == [] {
      assert AllWhitespace(s) by {
        forall i | 0 <= i < |s| ensures IsJsWhitespace(s[i]) {
          if i < a { assert s[i] == s[..a][i]; } else { assert s[i] == t[i - a]; }
        }
      }
    } else {
      assert r == t[..|r|];
      assert s[a] == r[0];
    }
  }

  lemma {:induction false} TrimStartOfPadded(pre: string, x: string)
    requires AllWhitespace(pre)
    requires x == [] || !IsJsWhitespace(x[0])
    ensures TrimStart(pre + x) == x
  {
    if pre == [] {
      assert pre + x == x;
    } else {
      assert (pre + x)[1..] == pre[1..] + x;
      TrimStartOfPadded(pre[1..], x);
    }
  }

  lemma {:induction false} TrimEndOfPadded(x: string, post: string)
    requires AllWhitespace(post)
    requires x == [] || !IsJsWhitespace(x[|x| - 1])
    ensures TrimEnd(x + post) == x
  {
    if post == [] {
      assert x + post == x;
    } else {
      var s := x + post;
      assert s[..|s| - 1] == x + post[..|post| - 1];
      TrimEndOfPadded(x, post[..|post| - 1]);
    }
  }

  /** Trimming recovers any text that neither starts nor ends with whitespace
      from that text surrounded by whitespace. */
  lemma TrimOfPadded(pre: string, x: string, post: string)
    requires AllWhitespace(pre) && AllWhitespace(post)
    requires x != [] ==> !IsJsWhitespace(x[0]) && !IsJsWhitespace(x[|x| - 1])
    ensures Trim(pre + x + post) == x
  {
    assert pre + x + post == pre + (x + post);
    if x == [] {
      assert AllWhitespace(pre + x + post);
    } else {
      TrimStartOfPadded(pre, x + post);
      TrimEndOfPadded(x, post);
    }
  }

  lemma AppendAssoc<T>(a: seq<T>, b: seq<T>, c: seq<T>)
    ensures a + b + c == a + (b + c)
  {
  }

  predicate StartsWith(s: string, prefix: string) {
    |prefix| <= |s| && s[..|prefix|] == prefix
  }

  /** `s.slice(0, n)`: the first `n` characters, or all of `s` when it is shorter. */
  function Slice(s: string, n: nat): (r: string)
    ensures |r| == if |s| <= n then |s| else n
    ensures StartsWith(s, r)
  {
    if |s| <= n then s else s[..n]
  }

  /** `parts.join(sep)`. */
  function Join(parts: seq<string>, sep: string): string {
    if |parts| == 0 then ""
    else if |parts| == 1 then parts[0]
    else parts[0] + sep + Join(parts[1..], sep)
  }

  /** Where part `k` starts in `Join(parts, sep)`: the lengths of the parts
      before it, each followed by one separator. */
  function Offset(parts: seq<string>, sep: string, k: nat): nat
    requires k <= |parts|
  {
    if k == 0 then 0 else |parts[0]| + |sep| + Offset(parts[1..], sep, k - 1)
  }

  lemma {:induction false} OffsetStep(parts: seq<string>, sep: string, k: nat)
    requires k < |parts|
    ensures Offset(parts, sep, k + 1) == Offset(parts, sep, k) + |parts[k]| + |sep|
  {
    if k > 0 {
      OffsetStep(parts[1..], sep, k - 1);
    }
  }

  /** A slice of the suffix of `s` from `d` is the slice of `s` shifted by `d`. */
  lemma ShiftSlice<T>(s: seq<T>, d: nat, lo: nat, hi: nat)
    requires d <= |s| && lo <= hi <= |s| - d
    ensures s[d..][lo..hi] == s[d + lo..d + hi]
  {
  }

  /** Joining keeps every part, in order, at its offset; the last part ends
      the joined string. */
  lemma {:induction false} JoinPlacesPart(parts: seq<string>, sep: string, k: nat)
    requires k < |parts|
    ensures Offset(parts, sep, k) + |parts[k]| <= |Join(parts, sep)|
    ensures Join(parts, sep)[Offset(parts, sep, k)..Offset(parts, sep, k) + |parts[k]|] == parts[k]
    ensures k + 1 == |parts| ==> Offset(parts, sep, k) + |parts[k]| == |Join(parts, sep)|
  {
    if |parts| > 1 {
      var j, rest := Join(parts, sep), Join(parts[1..], sep);
      var d := |parts[0]| + |sep|;
      assert j == parts[0] + sep + rest;
      if k == 0 {
        assert j[..|parts[0]|] == parts[0];
      } else {
        JoinPlacesPart(parts[1..], sep, k - 1);
        assert parts[k] == parts[1..][k - 1];
        var o := Offset(parts[1..], sep, k - 1);
        assert j[d..] == rest;
        ShiftSlice(j, d, o, o + |parts[k]|);
      }
    }
  }

  /** Between consecutive parts the joined string holds exactly one separator. */
  lemma {:induction false} JoinPlacesSeparator(parts: seq<string>, sep: string, k: nat)
    requires k + 1 < |parts|
    ensures Offset(parts, sep, k + 1) == Offset(parts, sep, k) + |parts[k]| + |sep|
    ensures Offset(parts, sep, k + 1) <= |Join(parts, sep)|
    ensures Join(parts, sep)[Offset(parts, sep, k) + |parts[k]|..Offset(parts, sep, k + 1)] == sep
  {
    OffsetStep(parts, sep, k);
    var j, rest := Join(parts, sep), Join(parts[1..], sep);
    var d := |parts[0]| + |sep|;
    assert j == parts[0] + sep + rest;
    if k == 0 {
      assert j[|parts[0]|..d] == sep;
    } else {
      JoinPlacesSeparator(parts[1..], sep, k - 1);
      assert parts[k] == parts[1..][k - 1];
      var e := Offset(parts[1..], sep, k - 1) + |parts[k]|;
      var o' := Offset(parts[1..], sep, k);
      assert j[d..] == rest;
      ShiftSlice(j, d, e, o');
    }
  }

  function DigitChar(d: nat): char
    requires d < 10
  {
    ('0' as int + d) as char
  }

  /** The number a decimal digit character stands for. */
  function DigitValue(c: char): nat
    requires '0' <= c <= '9'
  {
    (c as int - '0' as int) as nat
  }

  /** The number a string of decimal digits denotes, most significant digit
      first; the empty string denotes zero. */
  function DecimalValue(s: string): nat
    requires forall i | 0 <= i < |s| :: '0' <= s[i] <= '9'
  {
    if s == [] then 0 else 10 * DecimalValue(s[..|s| - 1]) + DigitValue(s[|s| - 1])
  }

  /** The decimal rendering of `n`, as `${n}` produces it for a non-negative
      integer: one digit for `n < 10`, and no leading zero. */
  function NatToString(n: nat): (r: string)
    ensures |r| >= 1
    ensures n < 10 <==> |r| == 1
    ensures forall i | 0 <= i < |r| :: '0' <= r[i] <= '9'
    ensures |r| > 1 ==> r[0] != '0'
  {
    if n < 10 then [DigitChar(n)] else NatToString(n / 10) + [DigitChar(n % 10)]
  }

  /** The digits of the rendering denote `n`. */
  lemma {:induction false} NatToStringValue(n: nat)
    ensures DecimalValue(NatToString(n)) == n
  {
    var r := NatToString(n);
    assert DigitValue(DigitChar(n % 10)) == n % 10;
    if n < 10 {
      assert r[..0] == [];
    } else {
      NatToStringValue(n / 10);
      assert r[..|r| - 1] == NatToString(n / 10);
    }
  }

  /** Distinct numbers render as distinct strings: reading a rendering back
      gives the number. */
  lemma NatToStringInjective(a: nat, b: nat)
    requires NatToString(a) == NatToString(b)
    ensures a == b
  {
    NatToStringValue(a);
    NatToStringValue(b);
  }
}
