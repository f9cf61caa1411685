/** Small value types and string helpers shared by every module of the model. */
module Common {

  /** A JavaScript value that may be absent (`undefined`, `null`) or present. */
  datatype Option<+T> = None | Some(value: T)

  /** Outcome of a Mongoose `save()`: the stored document, or the set of paths that failed validation. */
  datatype Validation<+T> = Accepted(value: T) | Rejected(paths: set<string>)

  /** An HTTP reply: a 2xx body, or an error status code with its JSON `message`. */
  datatype Reply<+T> = Ok(body: T) | Fail(code: int, message: string)

  /** JavaScript truthiness of an optional string: present and non-empty. */
  predicate Truthy(s: Option<string>)
  {
    s.Some? && s.value != ""
  }

  predicate StartsWith(s: string, prefix: string)
  {
    |prefix| <= |s| && s[..|prefix|] == prefix
  }

  /** `s.substring(i).startsWith(p)` for `0 <= i <= |s|`. */
  predicate StartsWithAt(s: string, i: nat, p: string)
    requires i <= |s|
  {
    StartsWith(s[i..], p)
  }

  /** `s.includes(p)`: some position of `s` starts an occurrence of `p`. */
  predicate Contains(s: string, p: string)
  {
    exists i :: 0 <= i <= |s| && StartsWithAt(s, i, p)
  }

  predicate IsDigit(c: char)
  {
    '0' <= c <= '9'
  }

  predicate AllDigits(s: string)
  {
    forall i :: 0 <= i < |s| ==> IsDigit(s[i])
  }

  /** The characters of the ECMAScript WhiteSpace and LineTerminator productions (`\s`, `trim`). */
  predicate IsJsWhitespace(c: char)
  {
    c == '\t' || c == '\n' || c == '\U{000B}' || c == '\U{000C}' || c == '\r' || c == ' '
    || c == '\U{00A0}' || c == '\U{1680}' || ('\U{2000}' <= c <= '\U{200A}')
    || c == '\U{2028}' || c == '\U{2029}' || c == '\U{202F}' || c == '\U{205F}'
    || c == '\U{3000}' || c == '\U{FEFF}'
  }

  /** The characters the regular-expression `.` refuses to match. */
  predicate IsLineTerminator(c: char)
  {
    c == '\n' || c == '\r' || c == '\U{2028}' || c == '\U{2029}'
  }

  /** Number of leading characters of `s` that satisfy `IsJsWhitespace`. */
  function LeadingSpace(s: string): (n: nat)
    ensures n <= |s|
    ensures forall i :: 0 <= i < n ==> IsJsWhitespace(s[i])
    ensures n < |s| ==> !IsJsWhitespace(s[n])
  {
    if s == [] || !IsJsWhitespace(s[0]) then 0 else 1 + LeadingSpace(s[1..])
  }

  /** Number of trailing characters of `s` that satisfy `IsJsWhitespace`. */
  function TrailingSpace(s: string): (n: nat)
    ensures n <= |s|
    ensures forall i :: |s| - n <= i < |s| ==> IsJsWhitespace(s[i])
    ensures n < |s| ==> !IsJsWhitespace(s[|s| - n - 1])
  {
    if s == [] || !IsJsWhitespace(s[|s| - 1]) then 0 else 1 + TrailingSpace(s[..|s| - 1])
  }

  /** Every character of `s` before position `i` or from position `j` on is white space. */
  predicate OnlySpaceOutside(s: string, i: int, j: int)
  {
    forall k :: 0 <= k < |s| && (k < i || j <= k) ==> IsJsWhitespace(s[k])
  }

  /** `String.prototype.trim`, applied by Mongoose to every schema path declared with `trim: true`. */
  function Trim(s: string): (t: string)
    ensures |t| <= |s|
    ensures t != [] ==> !IsJsWhitespace(t[0]) && !IsJsWhitespace(t[|t| - 1])
    ensures forall c :: c in s && !IsJsWhitespace(c) ==> c in t
  {
    var lead := LeadingSpace(s);
    if lead == |s| then
      assert forall c :: c in s ==> IsJsWhitespace(c);
      ""
    else
      var rest := s[lead..];
      var trail := TrailingSpace(rest);
      assert !IsJsWhitespace(rest[0]);
      assert forall i :: 0 <= i < |s| && !IsJsWhitespace(s[i]) ==> lead <= i < lead + |rest| - trail;
      rest[..|rest| - trail]
  }

  /** Taking a prefix of a suffix is taking a middle slice. */
  lemma SuffixPrefix(s: string, i: nat, m: nat)
    requires i + m <= |s|
    ensures s[i..][..m] == s[i..i + m]
  {
  }

  /** `Trim` drops the leading white space, then the trailing white space of what is left. */
  lemma TrimUnfold(s: string)
    ensures LeadingSpace(s) == |s| ==> Trim(s) == ""
    ensures LeadingSpace(s) < |s| ==>
      var rest := s[LeadingSpace(s)..];
      Trim(s) == rest[..|rest| - TrailingSpace(rest)]
  {
  }

  /** What `TrailingSpace` counts on the suffix from `lead` is white space in `s` itself. */
  lemma SpaceAfterTrail(s: string, lead: nat)
    requires lead <= |s|
    ensures forall k :: lead + |s[lead..]| - TrailingSpace(s[lead..]) <= k < |s| ==> IsJsWhitespace(s[k])
  {
    var rest := s[lead..];
    forall k | lead + |rest| - TrailingSpace(rest) <= k < |s|
      ensures IsJsWhitespace(s[k])
    {
      assert s[k] == rest[k - lead];
    }
  }

  /** The part of `s` between its leading and its trailing white space is a slice of `s`. */
  lemma KeptPartIsSlice(s: string)
    requires LeadingSpace(s) < |s|
    ensures var lead := LeadingSpace(s);
      var rest := s[lead..];
      var m := |rest| - TrailingSpace(rest);
      && lead + m <= |s| && rest[..m] == s[lead..lead + m]
      && OnlySpaceOutside(s, lead, lead + m)
  {
    var lead := LeadingSpace(s);
    SuffixPrefix(s, lead, |s[lead..]| - TrailingSpace(s[lead..]));
    SpaceAfterTrail(s, lead);
  }

  /**
   * Trimming cuts only white space, and only from the two ends: the result is the
   * contiguous slice of `s` that starts at the first non-space character.
   */
  lemma {:induction false} TrimIsSlice(s: string)
    ensures LeadingSpace(s) + |Trim(s)| <= |s|
    ensures Trim(s) == s[LeadingSpace(s)..LeadingSpace(s) + |Trim(s)|]
    ensures OnlySpaceOutside(s, LeadingSpace(s), LeadingSpace(s) + |Trim(s)|)
  {
    TrimUnfold(s);
    if LeadingSpace(s) < |s| {
      KeptPartIsSlice(s);
    }
  }

  /** Trimming twice is trimming once. */
  lemma TrimIdempotent(s: string)
    ensures Trim(Trim(s)) == Trim(s)
  {
    var t := Trim(s);
    if t != [] {
      assert LeadingSpace(t) == 0;
      assert t[0..] == t;
      assert TrailingSpace(t) == 0;
      assert t[..|t| - 0] == t;
    }
  }

  /** A required string path after its `trim` setter: present and non-empty once trimmed. */
  predicate RequiredText(s: Option<string>)
  {
    s.Some? && Trim(s.value) != ""
  }

  predicate EndsWith(s: string, suffix: string)
  {
    |suffix| <= |s| && s[|s| - |suffix|..] == suffix
  }

  /**
   * A concatenation of three parts starts with the first, ends with the last and holds the
   * middle one, from any position `k` of it on, right after the first.
   */
  lemma ThreeParts(a: string, m: string, z: string, k: nat)
    requires k <= |m|
    ensures StartsWith(a + m + z, a) && EndsWith(a + m + z, z)
    ensures |a + m + z| == |a| + |m| + |z|
    ensures (a + m + z)[|a| + k..|a| + |m|] == m[k..]
    ensures k < |m| ==> (a + m + z)[|a| + k] == m[k]
  {
    var t := a + m + z;
    assert t[..|a|] == a;
    assert t[|t| - |z|..] == z;
    assert t[|a|..|a| + |m|] == m;
    assert t[|a| + k..|a| + |m|] == t[|a|..|a| + |m|][k..];
  }

  function DigitChar(d: int): char
    requires 0 <= d < 10
  {
    ['0', '1', '2', '3', '4', '5', '6', '7', '8', '9'][d]
  }

  /** Decimal text of a natural number, as template literals render it. */
  function NatToString(n: nat): (s: string)
    ensures |s| >= 1 && AllDigits(s)
    ensures n >= 10 ==> s[0] != '0'
    ensures n < 10 ==> s == [DigitChar(n)]
  {
    if n < 10 then [DigitChar(n)] else NatToString(n / 10) + [DigitChar(n % 10)]
  }

  /** Value of `c` as a digit in base `radix` (10 or 16), or -1 when it is not one. */
  function DigitValue(c: char, radix: int): (v: int)
    ensures -1 <= v < 16
    ensures radix == 10 ==> (v >= 0 <==> IsDigit(c))
  {
    if '0' <= c <= '9' then (if (c as int) - ('0' as int) < radix then (c as int) - ('0' as int) else -1)
    else if radix == 16 && 'a' <= c <= 'f' then (c as int) - ('a' as int) + 10
    else if radix == 16 && 'A' <= c <= 'F' then (c as int) - ('A' as int) + 10
    else -1
  }

  /** Length of the longest prefix of `s` made of digits in base `radix`. */
  function DigitRun(s: string, radix: int): (n: nat)
    ensures n <= |s|
    ensures forall i :: 0 <= i < n ==> DigitValue(s[i], radix) >= 0
    ensures n < |s| ==> DigitValue(s[n], radix) < 0
  {
    if s == [] || DigitValue(s[0], radix) < 0 then 0 else 1 + DigitRun(s[1..], radix)
  }

  /** Value of a string of base-`radix` digits, most significant first. */
  function DigitsValue(s: string, radix: int): int
    requires forall i :: 0 <= i < |s| ==> DigitValue(s[i], radix) >= 0
  {
    if s == [] then 0 else DigitsValue(s[..|s| - 1], radix) * radix + DigitValue(s[|s| - 1], radix)
  }

  /** A string of digits has a non-negative value. */
  lemma {:induction false} DigitsValueNonNegative(s: string, radix: int)
    requires forall i :: 0 <= i < |s| ==> DigitValue(s[i], radix) >= 0
    ensures DigitsValue(s, radix) >= 0
  {
    if s != [] {
      var front := s[..|s| - 1];
      DigitsValueNonNegative(front, radix);
      if front != [] {
        assert DigitValue(front[0], radix) >= 0;
        assert radix >= 1;
      }
    }
  }

  /** The longest run of base-`radix` digits at the start of `body`, converted; `None` if empty. */
  function ParseRun(body: string, radix: int): (r: Option<int>)
    ensures r.None? <==> body == [] || DigitValue(body[0], radix) < 0
    ensures r.Some? ==> r.value >= 0
  {
    var n := DigitRun(body, radix);
    if n == 0 then None
    else
      DigitsValueNonNegative(body[..n], radix);
      Some(DigitsValue(body[..n], radix))
  }

  /** An unsigned numeral: base 16 after a `0x` or `0X` prefix, base 10 otherwise. */
  function ParseUnsigned(u: string): (r: Option<int>)
    ensures r.Some? ==> r.value >= 0
  {
    if |u| >= 2 && u[0] == '0' && (u[1] == 'x' || u[1] == 'X') then ParseRun(u[2..], 16)
    else ParseRun(u, 10)
  }

  /**
   * `parseInt(s)` with no radix: leading white space is skipped, one sign is read, a `0x` or
   * `0X` prefix selects base 16, and the longest run of digits that follows is converted.
   * `None` stands for `NaN`, the result when that run is empty.
   */
  function JsParseInt(s: string): (r: Option<int>)
    ensures LeadingSpace(s) == |s| ==> r.None?
    ensures r.Some? && r.value < 0 ==> s[LeadingSpace(s)] == '-'
    ensures LeadingSpace(s) < |s| && '1' <= s[LeadingSpace(s)] <= '9' ==> r.Some? && r.value >= 0
  {
    var t := s[LeadingSpace(s)..];
    if |t| > 0 && t[0] == '-' then
      var v := ParseUnsigned(t[1..]);
      if v.Some? then Some(-v.value) else None
    else if |t| > 0 && t[0] == '+' then ParseUnsigned(t[1..])
    else ParseUnsigned(t)
  }

  /** The digit character of `d` reads back as `d`. */
  lemma DigitCharValue(d: int)
    requires 0 <= d < 10
    ensures DigitValue(DigitChar(d), 10) == d
  {
  }

  /** Decimal text of `n` is read back as `n`. */
  lemma {:induction false} DecimalValue(n: nat)
    ensures DigitsValue(NatToString(n), 10) == n
  {
    if n >= 10 {
      var s := NatToString(n);
      var front := NatToString(n / 10);
      assert s == front + [DigitChar(n % 10)];
      assert s[..|s| - 1] == front;
      DecimalValue(n / 10);
      DigitCharValue(n % 10);
      assert DigitsValue(s, 10) == DigitsValue(front, 10) * 10 + n % 10;
    }
  }

  lemma {:induction false} DigitRunOfDigits(s: string, radix: int)
    requires forall i :: 0 <= i < |s| ==> DigitValue(s[i], radix) >= 0
    ensures DigitRun(s, radix) == |s|
  {
    if s != [] {
      DigitRunOfDigits(s[1..], radix);
    }
  }

  /** `parseInt` reads back the decimal text of every natural number. */
  lemma ParseIntOfDecimal(n: nat)
    ensures JsParseInt(NatToString(n)) == Some(n)
  {
    var s := NatToString(n);
    assert IsDigit(s[0]);
    assert LeadingSpace(s) == 0;
    assert s[0..] == s;
    assert JsParseInt(s) == ParseUnsigned(s);
    assert |s| >= 2 ==> s[0] != '0';
    assert ParseUnsigned(s) == ParseRun(s, 10);
    DigitRunOfDigits(s, 10);
    assert s[..|s|] == s;
    DecimalValue(n);
  }

  lemma AppendAssociative(a: string, b: string, c: string)
    ensures a + (b + c) == (a + b) + c
  {
  }

  /** Number of occurrences of `c` in `s`. */
  function CountChar(s: string, c: char): nat
  {
    if s == [] then 0 else (if s[0] == c then 1 else 0) + CountChar(s[1..], c)
  }

  lemma {:induction false} CountCharConcat(a: string, b: string, c: char)
    ensures CountChar(a + b, c) == CountChar(a, c) + CountChar(b, c)
  {
    if a != [] {
      assert (a + b)[1..] == a[1..] + b;
      CountCharConcat(a[1..], b, c);
    } else {
      assert a + b == b;
    }
  }

  /** `Math.min` over reals. */
  function Min(a: real, b: real): (m: real)
    ensures m <= a && m <= b && (m == a || m == b)
  {
    if a <= b then a else b
  }

  /** `Math.abs` over reals. */
  function Abs(x: real): (a: real)
    ensures a >= 0.0 && (a == x || a == -x)
  {
    if x < 0.0 then -x else x
  }
}
