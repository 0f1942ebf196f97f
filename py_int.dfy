/** Python's `int(text)` on a string, base 10, and its inverse `str(n)`.
    `int` strips the surrounding whitespace it recognises (`IsSpace`), accepts one optional sign and a run
    of decimal digits in which single underscores may separate digits;
    anything else raises ValueError. */
module PyInt {
  import opened Errors

  /** The characters `int` strips around a literal: the six ASCII
      whitespace characters, and the non-ASCII characters `str.isspace`
      accepts. The ASCII separators U+001C to U+001F count as whitespace
      for `str.isspace` but not for `int`, which rejects them. */
  predicate IsSpace(c: char) {
    || ('\t' <= c <= '\r')
    || c == ' '
    || c == '\U{85}' || c == '\U{a0}' || c == '\U{1680}'
    || ('\U{2000}' <= c <= '\U{200a}')
    || c == '\U{2028}' || c == '\U{2029}' || c == '\U{202f}' || c == '\U{205f}' || c == '\U{3000}'
  }

  predicate IsDigit(c: char) {
    '0' <= c <= '9'
  }

  predicate AllSpace(s: string) {
    forall i :: 0 <= i < |s| ==> IsSpace(s[i])
  }

  predicate AllDigits(s: string) {
    forall i :: 0 <= i < |s| ==> IsDigit(s[i])
  }

  /** `s` without its leading whitespace. */
  function StripLeading(s: string): (r: string)
    ensures r == [] || !IsSpace(r[0])
    ensures |r| <= |s|
  {
    if s != [] && IsSpace(s[0]) then StripLeading(s[1..]) else s
  }

  /** `s` without its trailing whitespace. */
  function StripTrailing(s: string): (r: string)
    ensures r == [] || !IsSpace(r[|r| - 1])
    ensures |r| <= |s|
  {
    if s != [] && IsSpace(s[|s| - 1]) then StripTrailing(s[..|s| - 1]) else s
  }

  function Strip(s: string): string {
    StripTrailing(StripLeading(s))
  }

  /** A digit run as `int` accepts it: starts and ends with a digit, and
      every underscore stands alone between two digits. */
  predicate IsDigitGroups(body: string) {
    && |body| > 0
    && IsDigit(body[0])
    && IsDigit(body[|body| - 1])
    && (forall i :: 0 <= i < |body| ==> IsDigit(body[i]) || body[i] == '_')
    && (forall i :: 0 <= i < |body| - 1 ==> body[i] == '_' ==> body[i + 1] != '_')
  }

  /** `body` with its underscores removed. */
  function DropUnderscores(body: string): (ds: string)
    ensures |ds| <= |body|
  {
    if body == [] then []
    else if body[0] == '_' then DropUnderscores(body[1..])
    else [body[0]] + DropUnderscores(body[1..])
  }

  function DigitValue(c: char): nat
    requires IsDigit(c)
  {
    c as int - '0' as int
  }

  /** The value of a run of decimal digits, most significant first. */
  function DigitsValue(ds: string): nat
    requires AllDigits(ds)
  {
    if ds == [] then 0
    else 10 * DigitsValue(ds[..|ds| - 1]) + DigitValue(ds[|ds| - 1])
  }

  lemma {:induction false} DropUnderscoresDigits(body: string)
    requires forall i :: 0 <= i < |body| ==> IsDigit(body[i]) || body[i] == '_'
    ensures AllDigits(DropUnderscores(body))
  {
    if body != [] {
      DropUnderscoresDigits(body[1..]);
    }
  }

  /** The text between the optional sign and the end of a stripped literal. */
  function Unsigned(t: string): string {
    if |t| > 0 && (t[0] == '+' || t[0] == '-') then t[1..] else t
  }

  /** True when `int(s)` returns a value rather than raising. */
  predicate IsIntLiteral(s: string) {
    IsDigitGroups(Unsigned(Strip(s)))
  }

  /** The value of a digit run with its separating underscores. */
  function GroupsValue(body: string): nat
    requires IsDigitGroups(body)
  {
    DropUnderscoresDigits(body);
    DigitsValue(DropUnderscores(body))
  }

  /** `int(s)`. */
  function ParseInt(s: string): (r: Result<int>)
    ensures r.Ok? <==> IsIntLiteral(s)
    ensures r.Err? ==> r.error.ValueError?
  {
    var t := Strip(s);
    if !IsDigitGroups(Unsigned(t)) then Err(ValueError(s))
    else if t[0] == '-' then Ok(-(GroupsValue(Unsigned(t)) as int))
    else Ok(GroupsValue(Unsigned(t)))
  }

  /** `str(n)` for a natural number: its decimal digits, no leading zero. */
  function FormatNat(n: nat): (ds: string)
    ensures |ds| > 0 && AllDigits(ds)
    ensures |ds| > 1 ==> ds[0] != '0'
  {
    if n < 10 then ['0' + n as char]
    else FormatNat(n / 10) + ['0' + (n % 10) as char]
  }

  /** `str(n)`: a minus sign exactly for negative `n`, then the digits of
      its magnitude. */
  function FormatInt(n: int): (r: string)
    ensures |r| > 0 && (r[0] == '-' <==> n < 0)
    ensures n < 0 ==> |r| > 1 && AllDigits(r[1..])
    ensures n >= 0 ==> AllDigits(r)
  {
    if n < 0 then "-" + FormatNat(-n) else FormatNat(n)
  }

  lemma {:induction false} FormatNatValue(n: nat)
    ensures DigitsValue(FormatNat(n)) == n
  {
    var ds := FormatNat(n);
    if n >= 10 {
      FormatNatValue(n / 10);
      assert ds[..|ds| - 1] == FormatNat(n / 10);
    }
  }

  lemma {:induction false} DropUnderscoresNone(ds: string)
    requires AllDigits(ds)
    ensures DropUnderscores(ds) == ds
  {
    if ds != [] {
      DropUnderscoresNone(ds[1..]);
    }
  }

  lemma StripNoSpace(s: string)
    requires |s| > 0 && !IsSpace(s[0]) && !IsSpace(s[|s| - 1])
    ensures Strip(s) == s
  {
    assert StripLeading(s) == s;
  }

  lemma DigitsAreGroups(ds: string)
    requires |ds| > 0 && AllDigits(ds)
    ensures IsDigitGroups(ds) && !IsSpace(ds[0]) && !IsSpace(ds[|ds| - 1])
    ensures GroupsValue(ds) == DigitsValue(ds)
  {
    DropUnderscoresNone(ds);
  }

  /** A plain digit run is a literal of its own value. */
  lemma ParseDigits(ds: string)
    requires |ds| > 0 && AllDigits(ds)
    ensures ParseInt(ds) == Ok(DigitsValue(ds))
  {
    DigitsAreGroups(ds);
    StripNoSpace(ds);
    assert Strip(ds) == ds;
    assert Unsigned(ds) == ds;
    assert IsDigitGroups(Unsigned(Strip(ds)));
    assert ds[0] != '-';
  }

  lemma ParseStripped(t: string)
    requires Strip(t) == t && IsDigitGroups(Unsigned(t))
    ensures ParseInt(t) == Ok(if t[0] == '-' then -(GroupsValue(Unsigned(t)) as int) else GroupsValue(Unsigned(t)))
  {
  }

  /** A digit run after a minus sign is a literal of the negated value. */
  lemma ParseNegatedDigits(ds: string, t: string)
    requires |ds| > 0 && AllDigits(ds) && t == ['-'] + ds
    ensures ParseInt(t) == Ok(-(DigitsValue(ds) as int))
  {
    DigitsAreGroups(ds);
    assert t[|t| - 1] == ds[|ds| - 1];
    StripNoSpace(t);
    assert t[0] == '-' && Unsigned(t) == ds;
    ParseStripped(t);
  }

  /** `int(str(n)) == n` for every integer. */
  lemma ParseFormatRoundTrip(n: int)
    ensures ParseInt(FormatInt(n)) == Ok(n)
  {
    var m: nat := if n < 0 then -n else n;
    FormatNatValue(m);
    if n < 0 {
      ParseNegatedDigits(FormatNat(m), FormatInt(n));
    } else {
      ParseDigits(FormatNat(m));
    }
  }

  lemma {:induction false} StripLeadingSpaces(pre: string, s: string)
    requires AllSpace(pre)
    ensures StripLeading(pre + s) == StripLeading(s)
  {
    if pre != [] {
      assert IsSpace(pre[0]) && AllSpace(pre[1..]);
      assert (pre + s)[0] == pre[0];
      assert (pre + s)[1..] == pre[1..] + s;
      StripLeadingSpaces(pre[1..], s);
    } else {
      assert pre + s == s;
    }
  }

  lemma {:induction false} StripTrailingSpaces(s: string, post: string)
    requires AllSpace(post)
    ensures StripTrailing(s + post) == StripTrailing(s)
  {
    if post != [] {
      var p := post[..|post| - 1];
      assert IsSpace(post[|post| - 1]) && AllSpace(p);
      assert (s + post)[|s + post| - 1] == post[|post| - 1];
      assert (s + post)[..|s + post| - 1] == s + p;
      StripTrailingSpaces(s, p);
    } else {
      assert s + post == s;
    }
  }

  lemma {:induction false} StripTrailingOfLeading(s: string, post: string)
    requires AllSpace(post)
    ensures StripLeading(s + post) == StripLeading(s) + post || (AllSpace(s) && StripLeading(s + post) == [])
    decreases |s|
  {
    if s != [] && IsSpace(s[0]) {
      assert (s + post)[1..] == s[1..] + post;
      StripTrailingOfLeading(s[1..], post);
    } else if s == [] {
      assert s + post == post;
      StripLeadingAllSpace(post);
    }
  }

  lemma {:induction false} StripLeadingAllSpace(s: string)
    requires AllSpace(s)
    ensures StripLeading(s) == []
  {
    if s != [] {
      StripLeadingAllSpace(s[1..]);
    }
  }

  lemma {:induction false} StripSurrounding(pre: string, s: string, post: string)
    requires AllSpace(pre) && AllSpace(post)
    ensures Strip(pre + s + post) == Strip(s)
  {
    StripLeadingSpaces(pre, s + post);
    assert pre + s + post == pre + (s + post);
    StripTrailingOfLeading(s, post);
    if AllSpace(s) {
      StripLeadingAllSpace(s);
    } else {
      StripTrailingSpaces(StripLeading(s), post);
    }
  }

  /** `int` ignores whitespace around the literal. */
  lemma ParseIgnoresSurroundingSpace(pre: string, s: string, post: string)
    requires AllSpace(pre) && AllSpace(post)
    ensures ParseInt(pre + s + post).Ok? <==> ParseInt(s).Ok?
    ensures ParseInt(s).Ok? ==> ParseInt(pre + s + post) == ParseInt(s)
  {
    StripSurrounding(pre, s, post);
  }

  /** An ASCII information separator before the digits is not stripped,
      so `int` rejects the text. */
  lemma SeparatorIsNotSpace()
    ensures ParseInt("\U{1c}5").Err?
  {
    assert !IsSpace('\U{1c}');
    assert StripLeading("\U{1c}5") == "\U{1c}5";
    assert Strip("\U{1c}5") == "\U{1c}5";
  }
}
