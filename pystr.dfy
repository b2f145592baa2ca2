/** The few Python `str` built-ins that the bot's string handling relies on:
    slicing with clamped bounds, `find`, `strip`, `split`, `replace`, `startswith`,
    and the `str(int)` / `int(str)` conversions. */
module PyStr {
  import opened Wrappers

  /** `c.isspace()`: ASCII whitespace, the four ASCII separators, and the
      Unicode space characters. */
  predicate IsSpace(c: char) {
    || c == ' '
    || ('\t' <= c <= '\r')
    || ('\U{1C}' <= c <= '\U{1F}')
    || c == '\U{85}' || c == '\U{A0}' || c == '\U{1680}'
    || ('\U{2000}' <= c <= '\U{200A}')
    || c == '\U{2028}' || c == '\U{2029}' || c == '\U{202F}' || c == '\U{205F}' || c == '\U{3000}'
  }

  /** `s[:n]` for a non-negative `n`: the bound is clamped to the length. */
  function Take(s: string, n: nat): (r: string)
    ensures |r| == if n < |s| then n else |s|
    ensures r == s[..|r|]
  {
    if n < |s| then s[..n] else s
  }

  /** `s[n:]` for a non-negative `n`; what `Take` leaves over. */
  function Drop(s: string, n: nat): (r: string)
    ensures Take(s, n) + r == s
    ensures n < |s| <==> r != []
  {
    if n < |s| then s[n..] else []
  }

  predicate StartsWith(s: string, prefix: string) {
    |prefix| <= |s| && s[..|prefix|] == prefix
  }

  /** `sub` occurs in `s` at index `k`. */
  predicate OccursAt(s: string, sub: string, k: int) {
    0 <= k && k + |sub| <= |s| && s[k..k + |sub|] == sub
  }

  /** `s.find(sub, start)` for a non-negative `start`: the first index at or after
      `start` where `sub` occurs, or -1 when there is none. */
  function Find(s: string, sub: string, start: nat): (r: int)
    ensures r == -1 || (start <= r && OccursAt(s, sub, r))
    ensures r == -1 ==> forall k :: start <= k ==> !OccursAt(s, sub, k)
    ensures r != -1 ==> forall k :: start <= k < r ==> !OccursAt(s, sub, k)
    decreases |s| - start
  {
    if start + |sub| > |s| then -1
    else if s[start..start + |sub|] == sub then start
    else Find(s, sub, start + 1)
  }

  /** Length of the whitespace run that starts `s`. */
  function LeadingSpace(s: string): (n: nat)
    ensures n <= |s|
    ensures forall i :: 0 <= i < n ==> IsSpace(s[i])
    ensures n < |s| ==> !IsSpace(s[n])
  {
    if s == [] || !IsSpace(s[0]) then 0 else 1 + LeadingSpace(s[1..])
  }

  /** Length of the whitespace run that ends `s`. */
  function TrailingSpace(s: string): (n: nat)
    ensures n <= |s|
    ensures forall i :: |s| - n <= i < |s| ==> IsSpace(s[i])
    ensures n < |s| ==> !IsSpace(s[|s| - n - 1])
  {
    if s == [] || !IsSpace(s[|s| - 1]) then 0 else 1 + TrailingSpace(s[..|s| - 1])
  }

  /** Length of the non-whitespace run that ends `s`. */
  function TrailingWord(s: string): (n: nat)
    ensures n <= |s|
    ensures forall i :: |s| - n <= i < |s| ==> !IsSpace(s[i])
    ensures n < |s| ==> IsSpace(s[|s| - n - 1])
  {
    if s == [] || IsSpace(s[|s| - 1]) then 0 else 1 + TrailingWord(s[..|s| - 1])
  }

  /** `s.strip()`: the slice of `s` left once the maximal whitespace runs at both
      ends are cut off. */
  function Strip(s: string): (r: string)
    ensures LeadingSpace(s) + |r| <= |s|
    ensures r == s[LeadingSpace(s)..LeadingSpace(s) + |r|]
    ensures forall i :: LeadingSpace(s) + |r| <= i < |s| ==> IsSpace(s[i])
    ensures r != [] ==> !IsSpace(r[0]) && !IsSpace(r[|r| - 1])
    ensures r == [] <==> forall i :: 0 <= i < |s| ==> IsSpace(s[i])
  {
    var a := LeadingSpace(s);
    var t := s[a..];
    var r := t[..|t| - TrailingSpace(t)];
    assert r != [] ==> r[0] == s[a];
    r
  }

  /** A string with no whitespace at either end is its own `strip()`. */
  lemma StripUnpadded(s: string)
    requires s != [] && !IsSpace(s[0]) && !IsSpace(s[|s| - 1])
    ensures Strip(s) == s
  {
  }

  /** `s.split('\n')[0]`: everything before the first line feed. */
  function FirstLine(s: string): (r: string)
    ensures |r| <= |s| && r == s[..|r|]
    ensures '\n' !in r
    ensures |r| < |s| ==> s[|r|] == '\n'
  {
    if s == [] || s[0] == '\n' then [] else [s[0]] + FirstLine(s[1..])
  }

  /** `s.split()[-1]`, which raises (here: None) when `s` holds no word: the
      last maximal run of non-whitespace characters. */
  function LastWord(s: string): (r: Option<string>)
    ensures r.None? <==> forall i :: 0 <= i < |s| ==> IsSpace(s[i])
    ensures r.Some? ==>
      var e := |s| - TrailingSpace(s);
      && 0 < |r.value| <= e
      && r.value == s[e - |r.value|..e]
      && (forall c :: c in r.value ==> !IsSpace(c))
      && (e == |r.value| || IsSpace(s[e - |r.value| - 1]))
  {
    var e := |s| - TrailingSpace(s);
    var t := s[..e];
    if t == [] then None
    else
      var k := TrailingWord(t);
      assert t[e - 1] == s[e - 1];
      var w := t[e - k..];
      assert w == s[e - k..e];
      forall c | c in w ensures !IsSpace(c) {
        var j :| 0 <= j < |w| && w[j] == c;
        assert w[j] == t[e - k + j];
      }
      assert k < e ==> t[e - k - 1] == s[e - k - 1];
      Some(w)
  }

  /** `s.replace(c, '')` for a one-character `c`. */
  function RemoveAll(s: string, c: char): (r: string)
    ensures c !in r
    ensures multiset(r) == multiset(s)[c := 0]
  {
    if s == [] then []
    else
      assert s == [s[0]] + s[1..];
      (if s[0] == c then [] else [s[0]]) + RemoveAll(s[1..], c)
  }

  predicate IsDigit(c: char) {
    '0' <= c <= '9'
  }

  predicate AllDigits(s: string) {
    forall i :: 0 <= i < |s| ==> IsDigit(s[i])
  }

  function DigitChar(d: nat): (c: char)
    requires d < 10
    ensures IsDigit(c) && c as int - '0' as int == d
  {
    (48 + d) as char
  }

  /** The value of a non-empty run of decimal digits. */
  function DigitsValue(s: string): nat
    requires AllDigits(s)
  {
    if s == [] then 0
    else DigitsValue(s[..|s| - 1]) * 10 + (s[|s| - 1] as int - '0' as int)
  }

  /** Decimal digits of `n`, most significant first, without leading zeros. */
  function NatToString(n: nat): (s: string)
    ensures s != [] && AllDigits(s)
    ensures s[0] == '0' ==> n == 0
  {
    if n < 10 then [DigitChar(n)] else NatToString(n / 10) + [DigitChar(n % 10)]
  }

  /** `str(n)` for a Python int. */
  function IntToString(n: int): (s: string)
    ensures s != []
    ensures (s[0] == '-' || IsDigit(s[0])) && IsDigit(s[|s| - 1])
  {
    if n < 0 then "-" + NatToString(-n) else NatToString(n)
  }

  /** `int(s)` restricted to an optional sign followed by decimal digits;
      None stands for the ValueError Python raises on anything else. */
  function ParseInt(s: string): (r: Option<int>)
    ensures r.Some? ==> s != [] && AllDigits(if s[0] == '-' || s[0] == '+' then s[1..] else s)
  {
    if s == [] then None
    else if s[0] == '-' || s[0] == '+' then
      var digits := s[1..];
      if digits != [] && AllDigits(digits) then
        var v: int := DigitsValue(digits);
        Some(if s[0] == '-' then -v else v)
      else None
    else if AllDigits(s) then Some(DigitsValue(s))
    else None
  }

  function Pow10(n: nat): (r: nat)
    ensures r > 0
  {
    if n == 0 then 1 else 10 * Pow10(n - 1)
  }

  /** Index of the first `c` in `s`, or the length when there is none. */
  function IndexOfChar(s: string, c: char): (n: nat)
    ensures n <= |s|
    ensures forall k :: 0 <= k < n ==> s[k] != c
    ensures n < |s| ==> s[n] == c
  {
    if s == [] || s[0] == c then 0 else 1 + IndexOfChar(s[1..], c)
  }

  /** `float(t)` for text without surrounding whitespace: an optional sign, then
      decimal digits with at most one decimal point (at least one digit in all);
      None stands for the ValueError Python raises on anything else. */
  function ParseDecimal(t: string): (r: Option<real>)
    ensures r.Some? ==> t != [] && |t| > (if t[0] == '-' || t[0] == '+' then 1 else 0)
  {
    if t == [] then None
    else
      var body := if t[0] == '-' || t[0] == '+' then t[1..] else t;
      var dot := IndexOfChar(body, '.');
      var whole := body[..dot];
      var frac := if dot < |body| then body[dot + 1..] else [];
      if |whole| + |frac| > 0 && AllDigits(whole) && AllDigits(frac) then
        var v := DigitsValue(whole) as real + DigitsValue(frac) as real / Pow10(|frac|) as real;
        Some(if t[0] == '-' then -v else v)
      else None
  }

  /** `float(s)`: `ParseDecimal` of the text once surrounding whitespace is cut off. */
  function ParseFloat(s: string): Option<real> {
    ParseDecimal(Strip(s))
  }

  /** Where `int(t)` succeeds, `float(t)` yields the same number. */
  lemma ParseDecimalExtendsParseInt(t: string, n: int)
    requires ParseInt(t) == Some(n)
    ensures ParseDecimal(t) == Some(n as real)
  {
    var body := if t[0] == '-' || t[0] == '+' then t[1..] else t;
    assert AllDigits(body) && body != [];
    assert IndexOfChar(body, '.') == |body|;
    assert body[..|body|] == body;
    assert DigitsValue([]) as real / Pow10(0) as real == 0.0;
  }

  /** Where `int(s)` succeeds, `float(s)` yields the same number. */
  lemma ParseFloatExtendsParseInt(s: string, n: int)
    requires ParseInt(Strip(s)) == Some(n)
    ensures ParseFloat(s) == Some(n as real)
  {
    ParseDecimalExtendsParseInt(Strip(s), n);
  }

  lemma {:induction false} NatToStringValue(n: nat)
    ensures DigitsValue(NatToString(n)) == n
    decreases n
  {
    if n >= 10 {
      var s := NatToString(n);
      NatToStringValue(n / 10);
      assert s[..|s| - 1] == NatToString(n / 10);
    }
  }

  /** `int(str(n)) == n`: the chat key a watch list is stored under parses back to
      the chat id. */
  lemma IntStringRoundTrip(n: int)
    ensures ParseInt(IntToString(n)) == Some(n)
  {
    if n < 0 {
      NatToStringValue(-n);
      assert IntToString(n)[1..] == NatToString(-n);
    } else {
      NatToStringValue(n);
    }
  }

  /** `int(str(n).strip()) == n`: `str(n)` has no surrounding whitespace. */
  lemma StrippedIntStringRoundTrip(n: int)
    ensures ParseInt(Strip(IntToString(n))) == Some(n)
  {
    StripUnpadded(IntToString(n));
    IntStringRoundTrip(n);
  }

  /** Distinct chat ids never share a key. */
  lemma IntToStringInjective(a: int, b: int)
    requires IntToString(a) == IntToString(b)
    ensures a == b
  {
    IntStringRoundTrip(a);
    IntStringRoundTrip(b);
  }
}
