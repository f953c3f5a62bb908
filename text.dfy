/** The crawler's two small text parsers: the count cleaner applied to the view,
    like and dislike counts shown on a watch page (`clean_count`), and the reader
    of the page's `duration` meta field, which holds an ISO 8601 "duration with
    designators" of the form `PT#H#M#S` (section 4.4.3.2 of ISO 8601:2004) with
    every component optional. Also the Python string primitives they rely on. */
module TextParse {
  import opened Common

  datatype ParseError =
    | NoCount      // `re.findall(...)[0]` on an empty list of matches: IndexError
    | NotANumber   // `int(...)` on a text that is not an integer literal: ValueError

  predicate IsDigit(c: char)
  {
    '0' <= c <= '9'
  }

  /** A character of the pattern `[\d,]+` once the text is ASCII. */
  predicate IsCountChar(c: char)
  {
    IsDigit(c) || c == ','
  }

  predicate IsAscii(c: char)
  {
    c as int < 128
  }

  predicate AllDigits(s: string)
  {
    forall i :: 0 <= i < |s| ==> IsDigit(s[i])
  }

  function DigitValue(c: char): nat
    requires IsDigit(c)
  {
    c as int - '0' as int
  }

  function DigitChar(d: nat): (c: char)
    requires d < 10
    ensures IsDigit(c) && DigitValue(c) == d
  {
    ('0' as int + d) as char
  }

  /** The value of a string of decimal digits. */
  function DecimalValue(s: string): nat
    requires AllDigits(s)
  {
    if s == [] then 0 else DecimalValue(s[..|s| - 1]) * 10 + DigitValue(s[|s| - 1])
  }

  function Pow10(n: nat): (r: nat)
    ensures r >= 1
  {
    if n == 0 then 1 else 10 * Pow10(n - 1)
  }

  lemma AllDigitsAppend(a: string, b: string)
    requires AllDigits(a) && AllDigits(b)
    ensures AllDigits(a + b)
  {
    forall i | 0 <= i < |a + b| ensures IsDigit((a + b)[i]) {
      if i < |a| { assert (a + b)[i] == a[i]; } else { assert (a + b)[i] == b[i - |a|]; }
    }
  }

  lemma MulAssoc(x: int, p: int, y: int, d: int)
    ensures (x * p + y) * 10 + d == x * (10 * p) + (y * 10 + d)
  {
  }

  lemma {:induction false} DecimalValueAppend(a: string, b: string)
    requires AllDigits(a) && AllDigits(b)
    ensures AllDigits(a + b)
    ensures DecimalValue(a + b) == DecimalValue(a) * Pow10(|b|) + DecimalValue(b)
    decreases |b|
  {
    AllDigitsAppend(a, b);
    if b == [] {
      assert a + b == a;
    } else {
      var init := b[..|b| - 1];
      assert (a + b)[..|a + b| - 1] == a + init;
      assert (a + b)[|a + b| - 1] == b[|b| - 1];
      assert b[..|b| - 1] == init;
      DecimalValueAppend(a, init);
      MulAssoc(DecimalValue(a), Pow10(|init|), DecimalValue(init), DigitValue(b[|b| - 1]));
    }
  }

  /** Decimal rendering of a natural number, without leading zeros. */
  function Digits(n: nat): (s: string)
    ensures |s| > 0 && AllDigits(s)
    ensures forall i :: 0 <= i < |s| ==> IsAscii(s[i])
    ensures DecimalValue(s) == n
  {
    if n < 10 then [DigitChar(n)]
    else
      var s := Digits(n / 10) + [DigitChar(n % 10)];
      assert s[..|s| - 1] == Digits(n / 10);
      s
  }

  /** A group of exactly three digits, zero-padded. */
  function Group(k: nat): (s: string)
    requires k < 1000
    ensures |s| == 3 && AllDigits(s)
    ensures forall i :: 0 <= i < |s| ==> IsAscii(s[i])
  {
    [DigitChar(k / 100), DigitChar(k % 100 / 10), DigitChar(k % 10)]
  }

  /** The count as it is displayed, with a comma between groups of three digits ("1,234,567"). */
  function Grouped(n: nat): (s: string)
    ensures |s| > 0 && IsDigit(s[0])
    ensures forall i :: 0 <= i < |s| ==> IsCountChar(s[i]) && IsAscii(s[i])
  {
    if n < 1000 then Digits(n)
    else Grouped(n / 1000) + "," + Group(n % 1000)
  }

  /** `s.encode('ascii', 'ignore')`: the text without its non-ASCII characters. */
  function AsciiOnly(s: string): (r: string)
    ensures forall i :: 0 <= i < |r| ==> IsAscii(r[i])
  {
    if s == [] then [] else (if IsAscii(s[0]) then [s[0]] else []) + AsciiOnly(s[1..])
  }

  lemma {:induction false} AsciiOnlyAppend(a: string, b: string)
    ensures AsciiOnly(a + b) == AsciiOnly(a) + AsciiOnly(b)
  {
    if a == [] {
      assert a + b == b;
    } else {
      assert (a + b)[1..] == a[1..] + b;
      AsciiOnlyAppend(a[1..], b);
    }
  }

  lemma {:induction false} AsciiOnlyOfAscii(s: string)
    requires forall i :: 0 <= i < |s| ==> IsAscii(s[i])
    ensures AsciiOnly(s) == s
  {
    if s != [] {
      AsciiOnlyOfAscii(s[1..]);
    }
  }

  /** The text from its first count character on. */
  function SkipToCount(s: string): (r: string)
    ensures |r| <= |s| && r == s[|s| - |r|..]
    ensures r == [] || IsCountChar(r[0])
    ensures forall i :: 0 <= i < |s| - |r| ==> !IsCountChar(s[i])
  {
    if s == [] || IsCountChar(s[0]) then s
    else
      var r := SkipToCount(s[1..]);
      assert forall i :: 1 <= i < |s| - |r| ==> s[i] == s[1..][i - 1];
      r
  }

  /** The longest prefix made of count characters. */
  function CountRun(s: string): (r: string)
    ensures |r| <= |s| && r == s[..|r|]
    ensures forall i :: 0 <= i < |r| ==> IsCountChar(r[i])
    ensures |r| == |s| || !IsCountChar(s[|r|])
  {
    if s == [] || !IsCountChar(s[0]) then [] else [s[0]] + CountRun(s[1..])
  }

  /** `s.replace(',', '')`. */
  function RemoveCommas(s: string): (r: string)
    ensures forall i :: 0 <= i < |r| ==> r[i] != ','
    ensures (forall i :: 0 <= i < |s| ==> IsCountChar(s[i])) ==> AllDigits(r)
  {
    if s == [] then [] else (if s[0] == ',' then [] else [s[0]]) + RemoveCommas(s[1..])
  }

  lemma {:induction false} RemoveCommasAppend(a: string, b: string)
    ensures RemoveCommas(a + b) == RemoveCommas(a) + RemoveCommas(b)
  {
    if a == [] {
      assert a + b == b;
    } else {
      assert (a + b)[1..] == a[1..] + b;
      RemoveCommasAppend(a[1..], b);
    }
  }

  lemma {:induction false} RemoveCommasOfDigits(s: string)
    requires AllDigits(s)
    ensures RemoveCommas(s) == s
  {
    if s != [] {
      RemoveCommasOfDigits(s[1..]);
    }
  }

  /** `int(re.compile(r'[\d,]+').findall(ascii_text)[0].replace(',', ''))`. */
  function CleanCount(text: string): (r: Result<nat, ParseError>)
    ensures r == Err(NoCount) <==> forall i :: 0 <= i < |AsciiOnly(text)| ==> !IsCountChar(AsciiOnly(text)[i])
  {
    var run := CountRun(SkipToCount(AsciiOnly(text)));
    if run == [] then Err(NoCount)
    else
      var digits := RemoveCommas(run);
      if digits == [] then Err(NotANumber) else Ok(DecimalValue(digits))
  }

  lemma GroupValue(k: nat)
    requires k < 1000
    ensures DecimalValue(Group(k)) == k
  {
    var c0, c1, c2 := DigitChar(k / 100), DigitChar(k % 100 / 10), DigitChar(k % 10);
    var t := Group(k);
    assert t[..2] == [c0, c1];
    assert [c0, c1][..1] == [c0];
    assert [c0][..0] == [];
    assert DecimalValue([c0]) == k / 100;
    assert DecimalValue([c0, c1]) == k / 100 * 10 + k % 100 / 10;
    assert DecimalValue(t) == (k / 100 * 10 + k % 100 / 10) * 10 + k % 10;
  }

  /** Removing the commas of a displayed count leaves the digits of its value. */
  lemma {:induction false} GroupedValue(n: nat)
    ensures AllDigits(RemoveCommas(Grouped(n)))
    ensures |RemoveCommas(Grouped(n))| > 0
    ensures DecimalValue(RemoveCommas(Grouped(n))) == n
  {
    if n < 1000 {
      RemoveCommasOfDigits(Digits(n));
    } else {
      var tail := Group(n % 1000);
      GroupedValue(n / 1000);
      RemoveCommasAppend(Grouped(n / 1000) + ",", tail);
      RemoveCommasAppend(Grouped(n / 1000), ",");
      RemoveCommasOfDigits(tail);
      var head := RemoveCommas(Grouped(n / 1000));
      assert RemoveCommas(Grouped(n)) == head + tail;
      DecimalValueAppend(head, tail);
      GroupValue(n % 1000);
      assert Pow10(3) == 1000;
      assert n == n / 1000 * 1000 + n % 1000;
    }
  }

  lemma {:induction false} SkipToCountOver(p: string, rest: string)
    requires forall i :: 0 <= i < |p| ==> !IsCountChar(p[i])
    requires rest != [] && IsCountChar(rest[0])
    ensures SkipToCount(p + rest) == rest
  {
    if p == [] {
      assert p + rest == rest;
    } else {
      assert (p + rest)[1..] == p[1..] + rest;
      SkipToCountOver(p[1..], rest);
    }
  }

  lemma {:induction false} CountRunOver(g: string, q: string)
    requires forall i :: 0 <= i < |g| ==> IsCountChar(g[i])
    requires q == [] || !IsCountChar(q[0])
    ensures CountRun(g + q) == g
  {
    if g == [] {
      assert g + q == q;
    } else {
      assert (g + q)[1..] == g[1..] + q;
      CountRunOver(g[1..], q);
    }
  }

  lemma RunBetween(pre: string, g: string, post: string)
    requires forall i :: 0 <= i < |pre| ==> !IsCountChar(pre[i])
    requires g != [] && forall i :: 0 <= i < |g| ==> IsCountChar(g[i])
    requires post == [] || !IsCountChar(post[0])
    ensures CountRun(SkipToCount(pre + g + post)) == g
  {
    assert pre + g + post == pre + (g + post);
    assert (g + post)[0] == g[0];
    SkipToCountOver(pre, g + post);
    CountRunOver(g, post);
  }

  lemma AsciiSplice(before: string, g: string, after: string)
    requires forall i :: 0 <= i < |g| ==> IsAscii(g[i])
    ensures AsciiOnly(before + g + after) == AsciiOnly(before) + g + AsciiOnly(after)
  {
    AsciiOnlyOfAscii(g);
    AsciiOnlyAppend(before, g);
    AsciiOnlyAppend(before + g, after);
  }

  /** The run of count characters found in a displayed count. */
  lemma DisplayedRun(before: string, n: nat, after: string)
    requires forall i :: 0 <= i < |AsciiOnly(before)| ==> !IsCountChar(AsciiOnly(before)[i])
    requires AsciiOnly(after) == [] || !IsCountChar(AsciiOnly(after)[0])
    ensures CountRun(SkipToCount(AsciiOnly(before + Grouped(n) + after))) == Grouped(n)
  {
    var g := Grouped(n);
    AsciiSplice(before, g, after);
    RunBetween(AsciiOnly(before), g, AsciiOnly(after));
  }

  /** A count displayed with its thousands separators, between a text without
      digits or commas and a text that does not continue the number, is read back
      exactly: `clean_count("1,234,567 views") == 1234567`. */
  lemma CleanCountOfDisplayed(before: string, n: nat, after: string)
    requires forall i :: 0 <= i < |AsciiOnly(before)| ==> !IsCountChar(AsciiOnly(before)[i])
    requires AsciiOnly(after) == [] || !IsCountChar(AsciiOnly(after)[0])
    ensures CleanCount(before + Grouped(n) + after) == Ok(n)
  {
    DisplayedRun(before, n, after);
    GroupedValue(n);
  }

  /** Python's `int(text)` on the texts met here: an optional sign and ASCII digits. */
  function PyInt(s: string): (r: Result<int, ParseError>)
    ensures AllDigits(s) && |s| > 0 ==> r == Ok(DecimalValue(s))
    ensures |s| == 0 ==> r == Err(NotANumber)
  {
    if |s| > 0 && (s[0] == '+' || s[0] == '-') then
      if |s| > 1 && AllDigits(s[1..]) then
        var v: int := DecimalValue(s[1..]);
        Ok(if s[0] == '-' then -v else v)
      else Err(NotANumber)
    else if |s| > 0 && AllDigits(s) then Ok(DecimalValue(s))
    else Err(NotANumber)
  }

  /** `s.replace(pat, rep)`: every non-overlapping occurrence, from the left. */
  function ReplaceAll(s: string, pat: string, rep: string): string
    decreases |s|
  {
    if pat == [] || |s| < |pat| then s
    else if s[..|pat|] == pat then rep + ReplaceAll(s[|pat|..], pat, rep)
    else [s[0]] + ReplaceAll(s[1..], pat, rep)
  }

  /** A text that does not contain the pattern's first character is left as it is. */
  lemma {:induction false} ReplaceAllAbsent(s: string, pat: string, rep: string)
    requires pat != [] && pat[0] !in s
    ensures ReplaceAll(s, pat, rep) == s
    decreases |s|
  {
    if |s| >= |pat| {
      assert s[..|pat|][0] == s[0];
      ReplaceAllAbsent(s[1..], pat, rep);
    }
  }

  /** The text before the first `c` (all of it if there is none): `s.split(c)[0]`. */
  function BeforeChar(s: string, c: char): (r: string)
    ensures c !in r
    ensures c !in s ==> r == s
  {
    if s == [] || s[0] == c then [] else [s[0]] + BeforeChar(s[1..], c)
  }

  /** The text after the first `c`. */
  function AfterChar(s: string, c: char): string
  {
    if s == [] then [] else if s[0] == c then s[1..] else AfterChar(s[1..], c)
  }

  lemma {:induction false} SplitAtFirst(a: string, c: char, b: string)
    requires c !in a
    ensures BeforeChar(a + [c] + b, c) == a
    ensures AfterChar(a + [c] + b, c) == b
  {
    if a == [] {
      assert a + [c] + b == [c] + b;
    } else {
      assert (a + [c] + b)[1..] == a[1..] + [c] + b;
      SplitAtFirst(a[1..], c, b);
    }
  }

  /** One `if c in dur:` step of the duration reader: `int(contents[0]) * unit`
      and `contents[1]`, the text between the first and the second `c`. */
  function DurationPart(dur: string, c: char, unit: int): Result<(int, string), ParseError>
  {
    if c !in dur then Ok((0, dur))
    else
      match PyInt(BeforeChar(dur, c))
      case Err(e) => Err(e)
      case Ok(k) => Ok((k * unit, BeforeChar(AfterChar(dur, c), c)))
  }

  /** The number of seconds in the `content` of the page's duration meta field. */
  function ParseDuration(content: string): Result<int, ParseError>
  {
    ReadDesignators(ReplaceAll(content, "PT", ""))
  }

  /** The `H`, `M` and `S` steps, on the text without its `PT`. */
  function ReadDesignators(dur: string): Result<int, ParseError>
  {
    match DurationPart(dur, 'H', 3600)
    case Err(e) => Err(e)
    case Ok(hours) =>
      match DurationPart(hours.1, 'M', 60)
      case Err(e) => Err(e)
      case Ok(minutes) =>
        match DurationPart(minutes.1, 'S', 1)
        case Err(e) => Err(e)
        case Ok(seconds) => Ok(hours.0 + minutes.0 + seconds.0)
  }

  /** One optional `<n><designator>` component of an ISO 8601 duration. */
  function Component(n: Option<nat>, designator: char): string
  {
    match n
    case None => ""
    case Some(k) => Digits(k) + [designator]
  }

  /** The ISO 8601 duration `PT[<h>H][<m>M][<s>S]`. */
  function IsoDuration(h: Option<nat>, m: Option<nat>, s: Option<nat>): string
  {
    "PT" + Component(h, 'H') + Component(m, 'M') + Component(s, 'S')
  }

  lemma ComponentChars(n: Option<nat>, d: char, c: char)
    requires !IsDigit(c)
    ensures c in Component(n, d) <==> n.Some? && c == d
  {
    if n.Some? {
      var k := n.value;
      assert Component(n, d) == Digits(k) + [d];
      assert forall i :: 0 <= i < |Digits(k)| ==> Digits(k)[i] != c;
    }
  }

  /** Reading one component back: the value times its unit, and the rest. */
  lemma DurationPartOfComponent(n: Option<nat>, d: char, unit: int, rest: string)
    requires !IsDigit(d) && d !in rest
    ensures DurationPart(Component(n, d) + rest, d, unit) == Ok((n.GetOr(0) * unit, rest))
  {
    ComponentChars(n, d, d);
    if n.Some? {
      var k := n.value;
      assert Component(n, d) + rest == Digits(k) + [d] + rest;
      assert d !in Digits(k) by { ComponentChars(None, d, d); }
      SplitAtFirst(Digits(k), d, rest);
      assert d in Component(n, d) + rest by {
        assert (Component(n, d) + rest)[|Digits(k)|] == d;
      }
    } else {
      assert Component(n, d) + rest == rest;
    }
  }

  lemma StripPT(body: string)
    requires 'P' !in body
    ensures ReplaceAll("PT" + body, "PT", "") == body
  {
    ReplaceAllAbsent(body, "PT", "");
    assert ("PT" + body)[..2] == "PT" && ("PT" + body)[2..] == body;
  }

  lemma ReadSteps(dur: string, afterH: string, afterM: string, hv: int, mv: int, sv: int)
    requires DurationPart(dur, 'H', 3600) == Ok((hv, afterH))
    requires DurationPart(afterH, 'M', 60) == Ok((mv, afterM))
    requires DurationPart(afterM, 'S', 1) == Ok((sv, ""))
    ensures ReadDesignators(dur) == Ok(hv + mv + sv)
  {
  }

  lemma HoursStep(h: Option<nat>, m: Option<nat>, s: Option<nat>)
    ensures DurationPart(Component(h, 'H') + Component(m, 'M') + Component(s, 'S'), 'H', 3600)
         == Ok((h.GetOr(0) * 3600, Component(m, 'M') + Component(s, 'S')))
  {
    assert Component(h, 'H') + Component(m, 'M') + Component(s, 'S') == Component(h, 'H') + (Component(m, 'M') + Component(s, 'S'));
    ComponentChars(m, 'M', 'H');
    ComponentChars(s, 'S', 'H');
    DurationPartOfComponent(h, 'H', 3600, Component(m, 'M') + Component(s, 'S'));
  }

  lemma MinutesStep(m: Option<nat>, s: Option<nat>)
    ensures DurationPart(Component(m, 'M') + Component(s, 'S'), 'M', 60) == Ok((m.GetOr(0) * 60, Component(s, 'S')))
  {
    ComponentChars(s, 'S', 'M');
    DurationPartOfComponent(m, 'M', 60, Component(s, 'S'));
  }

  lemma SecondsStep(s: Option<nat>)
    ensures DurationPart(Component(s, 'S'), 'S', 1) == Ok((s.GetOr(0) * 1, ""))
  {
    DurationPartOfComponent(s, 'S', 1, "");
    assert Component(s, 'S') + "" == Component(s, 'S');
  }

  lemma ReadComponents(h: Option<nat>, m: Option<nat>, s: Option<nat>)
    ensures ReadDesignators(Component(h, 'H') + Component(m, 'M') + Component(s, 'S'))
         == Ok(3600 * h.GetOr(0) + 60 * m.GetOr(0) + s.GetOr(0))
  {
    var hc, mc, sc := Component(h, 'H'), Component(m, 'M'), Component(s, 'S');
    var hv, mv, sv := h.GetOr(0) * 3600, m.GetOr(0) * 60, s.GetOr(0) * 1;
    assert ReadDesignators(hc + mc + sc) == Ok(hv + mv + sv) by {
      HoursStep(h, m, s);
      MinutesStep(m, s);
      SecondsStep(s);
      ReadSteps(hc + mc + sc, mc + sc, sc, hv, mv, sv);
    }
    assert hv + mv + sv == 3600 * h.GetOr(0) + 60 * m.GetOr(0) + s.GetOr(0);
  }

  /** Every duration in the `PT#H#M#S` form, with any component left out, is read
      as its number of seconds. */
  lemma ParseIsoDuration(h: Option<nat>, m: Option<nat>, s: Option<nat>)
    ensures ParseDuration(IsoDuration(h, m, s)) == Ok(3600 * h.GetOr(0) + 60 * m.GetOr(0) + s.GetOr(0))
  {
    var body := Component(h, 'H') + Component(m, 'M') + Component(s, 'S');
    IsoStrip(h, m, s);
    ReadComponents(h, m, s);
    ParseDurationOf(IsoDuration(h, m, s), body, 3600 * h.GetOr(0) + 60 * m.GetOr(0) + s.GetOr(0));
  }

  /** Removing `PT` leaves the components. */
  lemma IsoStrip(h: Option<nat>, m: Option<nat>, s: Option<nat>)
    ensures ReplaceAll(IsoDuration(h, m, s), "PT", "") == Component(h, 'H') + Component(m, 'M') + Component(s, 'S')
  {
    var hc, mc, sc := Component(h, 'H'), Component(m, 'M'), Component(s, 'S');
    var body := hc + mc + sc;
    assert IsoDuration(h, m, s) == "PT" + body by {
      ConcatAssoc("PT", hc, mc, sc);
    }
    ComponentChars(h, 'H', 'P');
    ComponentChars(m, 'M', 'P');
    ComponentChars(s, 'S', 'P');
    StripPT(body);
  }

  lemma ParseDurationOf(content: string, body: string, v: int)
    requires ReplaceAll(content, "PT", "") == body && ReadDesignators(body) == Ok(v)
    ensures ParseDuration(content) == Ok(v)
  {
  }

  lemma ConcatAssoc(a: string, b: string, c: string, d: string)
    ensures a + b + c + d == a + (b + c + d)
  {
  }
}
