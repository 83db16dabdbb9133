/**
 * Character-level helpers shared by the URL and timestamp code: runs of a
 * character class, literal occurrences, the "literal followed by a run" regular
 * expressions the script uses, and decimal conversion between strings and
 * integers (JavaScript's `parseInt(…, 10)` on a digit string and `String(n)`
 * on an integer).
 */
module Text {
  import opened Wrappers

  predicate IsDigit(c: char) { '0' <= c <= '9' }

  /** The white space `parseInt` skips: ECMAScript's WhiteSpace (tab, vertical
      tab, form feed, space, no-break space, byte order mark and the other
      space separators) and LineTerminator. */
  predicate IsJsSpace(c: char)
  {
    || c == '\t' || c == '\U{000B}' || c == '\U{000C}' || c == ' ' || c == '\U{00A0}' || c == '\U{FEFF}'
    || c == '\U{1680}' || ('\U{2000}' <= c <= '\U{200A}') || c == '\U{202F}' || c == '\U{205F}' || c == '\U{3000}'
    || c == '\n' || c == '\r' || c == '\U{2028}' || c == '\U{2029}'
  }

  /** The character classes the script repeats: `\d` and `[^/]` in its regular
      expressions, and the leading white space of `parseInt`. */
  datatype CharClass = Digit | NotSlash | Space

  predicate InClass(c: char, cls: CharClass)
  {
    match cls
    case Digit => IsDigit(c)
    case NotSlash => c != '/'
    case Space => IsJsSpace(c)
  }

  /** Length of the longest run of `cls` characters starting at index `i`
      (what a greedy `+` or `*` consumes there). */
  function Run(s: string, i: nat, cls: CharClass): (n: nat)
    requires i <= |s|
    decreases |s| - i
    ensures i + n <= |s|
    ensures forall k :: i <= k < i + n ==> InClass(s[k], cls)
    ensures i + n == |s| || !InClass(s[i + n], cls)
  {
    if i < |s| && InClass(s[i], cls) then 1 + Run(s, i + 1, cls) else 0
  }

  /** A run is determined by where it stops. */
  lemma RunIs(s: string, i: nat, cls: CharClass, n: nat)
    requires i + n <= |s|
    requires forall k :: i <= k < i + n ==> InClass(s[k], cls)
    requires i + n == |s| || !InClass(s[i + n], cls)
    ensures Run(s, i, cls) == n
  {
  }

  lemma ConcatAssoc(x: string, y: string, z: string)
    ensures x + (y + z) == x + y + z
  {
  }

  predicate OccursAt(s: string, pat: string, p: nat)
  {
    p + |pat| <= |s| && s[p..p + |pat|] == pat
  }

  /** `s.includes(pat)`, scanning from index `from`. */
  function ContainsFrom(s: string, pat: string, from: nat): (b: bool)
    decreases |s| - from
    ensures b <==> exists p: nat :: from <= p && OccursAt(s, pat, p)
  {
    if from + |pat| > |s| then
      assert forall p: nat :: from <= p ==> !OccursAt(s, pat, p);
      false
    else if OccursAt(s, pat, from) then true
    else
      var b := ContainsFrom(s, pat, from + 1);
      assert forall p: nat :: from <= p && OccursAt(s, pat, p) ==> p == from || from + 1 <= p;
      b
  }

  function Contains(s: string, pat: string): (b: bool)
    ensures b <==> exists p: nat :: OccursAt(s, pat, p)
  {
    ContainsFrom(s, pat, 0)
  }

  /** A string that lacks some character of `pat` cannot contain `pat`. */
  lemma MissingCharExcludes(s: string, pat: string, c: char)
    requires c in pat && c !in s
    ensures !Contains(s, pat)
  {
  }

  /**
   * The regular expressions `lit(run)` and `lit(run)closing` of the script, where
   * `run` is a non-empty greedy repetition of `cls`. The closing character, when
   * there is one, is never in `cls`, so backtracking cannot shorten the run into a
   * match: the match exists exactly when the maximal run is followed by `closing`.
   */
  datatype Pattern = Pattern(lit: string, cls: CharClass, closing: Option<char>)

  predicate MatchesAt(pat: Pattern, s: string, p: nat)
  {
    && OccursAt(s, pat.lit, p)
    && p + |pat.lit| < |s|
    && InClass(s[p + |pat.lit|], pat.cls)
    && (pat.closing.Some? ==>
          var e := p + |pat.lit| + Run(s, p + |pat.lit|, pat.cls);
          e < |s| && s[e] == pat.closing.value)
  }

  /** Leftmost match at or after `from`, as `String.prototype.match` finds it. */
  function FindFirst(pat: Pattern, s: string, from: nat): (r: Option<nat>)
    requires from <= |s|
    decreases |s| - from
    ensures r.Some? ==> from <= r.value < |s| && MatchesAt(pat, s, r.value)
    ensures r.Some? ==> forall q :: from <= q < r.value ==> !MatchesAt(pat, s, q)
    ensures r.None? ==> forall q :: from <= q < |s| ==> !MatchesAt(pat, s, q)
  {
    if from == |s| then None
    else if MatchesAt(pat, s, from) then Some(from)
    else FindFirst(pat, s, from + 1)
  }

  /** When the first match is known to be at `p`, the search finds it there. */
  lemma FindFirstIs(pat: Pattern, s: string, p: nat)
    requires MatchesAt(pat, s, p)
    requires forall q :: 0 <= q < p ==> !MatchesAt(pat, s, q)
    ensures FindFirst(pat, s, 0) == Some(p)
  {
  }

  /** The text of the capture group (the run) of a match at `p`. */
  function Captured(pat: Pattern, s: string, p: nat): (c: string)
    requires MatchesAt(pat, s, p)
    ensures 0 < |c| && forall k :: 0 <= k < |c| ==> InClass(c[k], pat.cls)
  {
    var start := p + |pat.lit|;
    s[start..start + Run(s, start, pat.cls)]
  }

  function DigitValue(c: char): nat
    requires IsDigit(c)
  {
    (c as int) - ('0' as int)
  }

  predicate AllDigits(ds: string)
  {
    forall k :: 0 <= k < |ds| ==> IsDigit(ds[k])
  }

  /** `parseInt(ds, 10)` on a string of decimal digits, as a mathematical integer. */
  function DecimalValue(ds: string): nat
    requires AllDigits(ds)
  {
    if ds == [] then 0 else 10 * DecimalValue(ds[..|ds| - 1]) + DigitValue(ds[|ds| - 1])
  }

  /** The value of the first match's capture, for a digit pattern. */
  function FirstMatchValue(pat: Pattern, s: string): (r: Option<nat>)
    requires pat.cls == Digit
    ensures r.None? <==> forall q :: 0 <= q < |s| ==> !MatchesAt(pat, s, q)
  {
    match FindFirst(pat, s, 0)
    case None => None
    case Some(p) => Some(DecimalValue(Captured(pat, s, p)))
  }

  /**
   * `parseInt(s, 10)`: leading white space, an optional sign, then the longest
   * run of decimal digits; `None` stands for `NaN` (no digit after the sign).
   */
  function ParseInt(s: string): (r: Option<int>)
    ensures r.None? <==> var i := Run(s, 0, Space);
      var j := if i < |s| && (s[i] == '-' || s[i] == '+') then i + 1 else i;
      j == |s| || !IsDigit(s[j])
  {
    var i := Run(s, 0, Space);
    var j := if i < |s| && (s[i] == '-' || s[i] == '+') then i + 1 else i;
    var n := Run(s, j, Digit);
    if n == 0 then None
    else
      var v: int := DecimalValue(s[j..j + n]);
      Some(if i < |s| && s[i] == '-' then -v else v)
  }

  /** A string is the concatenation of its four slices at `i <= j <= k`. */
  lemma SplitFour(s: string, i: nat, j: nat, k: nat)
    requires i <= j <= k <= |s|
    ensures s == s[..i] + s[i..j] + s[j..k] + s[k..]
  {
    assert s == s[..k] + s[k..];
    assert s[..k] == s[..j] + s[j..k];
    assert s[..j] == s[..i] + s[i..j];
  }

  function DigitChar(d: nat): (c: char)
    requires d < 10
    ensures IsDigit(c) && DigitValue(c) == d
  {
    ('0' as int + d) as char
  }

  /** `String(n)` for a non-negative integer. */
  function NatToString(n: nat): string
  {
    if n < 10 then [DigitChar(n)] else NatToString(n / 10) + [DigitChar(n % 10)]
  }

  /** `String(n)` is canonical decimal (digits only, no leading zero) and
      `parseInt` reads `n` back from it. */
  lemma {:induction false} NatToStringDecodes(n: nat)
    ensures var s := NatToString(n);
      && 0 < |s| && AllDigits(s)
      && (s[0] != '0' || s == "0")
      && DecimalValue(s) == n
  {
    if n >= 10 {
      NatToStringDecodes(n / 10);
      var prefix := NatToString(n / 10);
      var s := prefix + [DigitChar(n % 10)];
      assert s[..|s| - 1] == prefix;
    }
  }

  /** `String(n)` for any integer: a minus sign before the digits of a negative one. */
  function IntToString(n: int): string
  {
    var magnitude: nat := if n < 0 then -n else n;
    (if n < 0 then "-" else "") + NatToString(magnitude)
  }

  lemma IntToStringOfNat(n: int)
    requires n >= 0
    ensures IntToString(n) == NatToString(n)
  {
    assert "" + NatToString(n) == NatToString(n);
  }

  /** `String(n)` is never the empty string. */
  lemma IntToStringNonEmpty(n: int)
    ensures |IntToString(n)| > 0
  {
    NatToStringDecodes(if n < 0 then -n else n);
  }

  /** `parseInt` of an unsigned digit string is its decimal value. */
  lemma ParseIntOfDigits(digits: string)
    requires 0 < |digits| && AllDigits(digits)
    ensures ParseInt(digits) == Some(DecimalValue(digits))
  {
    assert !IsJsSpace(digits[0]);
    RunIs(digits, 0, Space, 0);
    RunIs(digits, 0, Digit, |digits|);
    assert digits[0..|digits|] == digits;
  }

  /** `parseInt` of `'-'` and a digit string is the negated decimal value. */
  lemma ParseIntOfNegated(s: string, digits: string)
    requires 0 < |digits| && AllDigits(digits) && s == "-" + digits
    ensures ParseInt(s).Some? && ParseInt(s).value == -(DecimalValue(digits) as int)
  {
    assert !IsJsSpace(s[0]);
    RunIs(s, 0, Space, 0);
    RunIs(s, 1, Digit, |digits|);
    assert s[1..1 + |digits|] == digits;
  }

  /** The white space `parseInt` skips is `ws` when it is followed by something else. */
  lemma SpaceRunOf(s: string, ws: string)
    requires |ws| < |s| && s[..|ws|] == ws && !IsJsSpace(s[|ws|])
    requires forall k :: 0 <= k < |ws| ==> IsJsSpace(ws[k])
    ensures Run(s, 0, Space) == |ws|
  {
    assert forall k :: 0 <= k < |ws| ==> s[k] == ws[k];
    RunIs(s, 0, Space, |ws|);
  }

  /** What `parseInt` sees right after the white space of `ws + sign + digits + rest`. */
  lemma SignCharAt(s: string, ws: string, sign: string, digits: string, rest: string)
    requires s == ws + sign + digits + rest
    requires sign == "" || sign == "+" || sign == "-"
    requires 0 < |digits| && AllDigits(digits)
    ensures |ws| < |s| && s[..|ws|] == ws && !IsJsSpace(s[|ws|])
    ensures (s[|ws|] == '-' || s[|ws|] == '+') <==> sign != ""
    ensures s[|ws|] == '-' <==> sign == "-"
  {
    var t := sign + digits + rest;
    ConcatAssoc(ws, sign + digits, rest);
    ConcatAssoc(ws, sign, digits);
    assert s == ws + t;
    assert s[|ws|] == t[0];
    assert t[0] == if sign == "" then digits[0] else sign[0];
  }

  /** The digits after white space and a sign, and what follows them. */
  lemma SignedDigitsAt(s: string, ws: string, sign: string, digits: string, rest: string)
    requires s == ws + sign + digits + rest
    requires 0 < |digits| && AllDigits(digits)
    requires rest == [] || !IsDigit(rest[0])
    ensures Run(s, |ws| + |sign|, Digit) == |digits|
    ensures s[|ws| + |sign|..|ws| + |sign| + |digits|] == digits
  {
    var j := |ws| + |sign|;
    var u := ws + sign;
    assert s == u + digits + rest;
    assert forall k :: j <= k < j + |digits| ==> s[k] == digits[k - j];
    assert j + |digits| < |s| ==> s[j + |digits|] == rest[0];
    RunIs(s, j, Digit, |digits|);
  }

  /** `parseInt` once the white space, the sign and the digits are located. */
  lemma ParseIntAt(s: string, i: nat, j: nat, digits: string, negative: bool)
    requires Run(s, 0, Space) == i && i < |s|
    requires j == if s[i] == '-' || s[i] == '+' then i + 1 else i
    requires negative == (s[i] == '-')
    requires 0 < |digits| && j + |digits| <= |s| && Run(s, j, Digit) == |digits| && s[j..j + |digits|] == digits
    ensures ParseInt(s) == Some(if negative then -(DecimalValue(digits) as int) else DecimalValue(digits))
  {
    var v: int := DecimalValue(digits);
    if negative {
      assert ParseInt(s) == Some(-v);
    } else {
      assert ParseInt(s) == Some(v);
    }
  }

  /**
   * `parseInt(s, 10)` on any text that has a number in front: white space, an
   * optional sign and a digit run, followed by anything that does not continue
   * the digits, reads as the signed value of the digits.
   */
  lemma ParseIntOfPrefix(s: string, ws: string, sign: string, digits: string, rest: string)
    requires s == ws + sign + digits + rest
    requires forall k :: 0 <= k < |ws| ==> IsJsSpace(ws[k])
    requires sign == "" || sign == "+" || sign == "-"
    requires 0 < |digits| && AllDigits(digits)
    requires rest == [] || !IsDigit(rest[0])
    ensures ParseInt(s) == Some(if sign == "-" then -(DecimalValue(digits) as int) else DecimalValue(digits))
  {
    SignCharAt(s, ws, sign, digits, rest);
    SpaceRunOf(s, ws);
    SignedDigitsAt(s, ws, sign, digits, rest);
    ParseIntAt(s, |ws|, |ws| + |sign|, digits, sign == "-");
  }

  /** `parseInt(String(n), 10)` reads `n` back. */
  lemma ParseIntOfIntToString(n: int)
    ensures ParseInt(IntToString(n)) == Some(n)
  {
    var m: nat := if n < 0 then -n else n;
    NatToStringDecodes(m);
    if n < 0 {
      ParseIntOfNegated(IntToString(n), NatToString(m));
    } else {
      IntToStringOfNat(n);
      ParseIntOfDigits(NatToString(m));
    }
  }
}
