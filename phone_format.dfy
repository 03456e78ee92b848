/** The pure string logic of the phone widget: the separator branches of the
    typing handler, the unused `formatPhoneNumber` helper, the value shown in
    the text field and the dial-code splice done on a country switch. */
module PhoneFormat {
  import opened Wrappers
  import opened Strings
  import opened CountryTables

  /** Pakistan: one `-` after the third digit, once there are more than three. */
  function FormatPk(d: string): (r: string) {
    if |d| > 3 then Slice(d, 0, 3) + "-" + SliceFrom(d, 3) else d
  }

  /** United States, Canada and the handler's default: `XXX-XXX-XXXX`. */
  function FormatNanp(d: string): (r: string) {
    if |d| > 6 then Slice(d, 0, 3) + "-" + Slice(d, 3, 6) + "-" + SliceFrom(d, 6)
    else if |d| > 3 then Slice(d, 0, 3) + "-" + SliceFrom(d, 3)
    else d
  }

  function Min(a: int, b: int): (m: int) {
    if a < b then a else b
  }

  /** United Kingdom, as written: both conditions test `> 4`, so the second
      branch is never taken and 5 to 7 digits keep a trailing space. */
  function FormatGb(d: string): (r: string) {
    if |d| > 4 then Slice(d, 0, 4) + " " + Slice(d, 4, 7) + " " + SliceFrom(d, 7)
    else if |d| > 4 then Slice(d, 0, 4) + " " + SliceFrom(d, 4)
    else d
  }

  /** The branch chain of the typing handler, selected by country code. */
  function FormatAsTyped(code: string, d: string): (r: string) {
    if code == "PK" then FormatPk(d)
    else if code == "US" || code == "CA" then FormatNanp(d)
    else if code == "GB" then FormatGb(d)
    else FormatNanp(d)
  }

  /** The typing handler on the text `input` of the field: `None` when the
      digits exceed the country's limit (the owner is not notified), otherwise
      the value handed to the owner: the dial code followed by text from which
      removing the separators gives back the typed digits. */
  function HandleInput(country: Country, input: string): (r: Option<string>)
    ensures r.None? <==> |DigitsOnly(input)| > GetCountryInfo(country.code).digits
    ensures r.Some? ==>
      |country.dialCode| <= |r.value|
      && r.value[..|country.dialCode|] == country.dialCode
      && StripSeparators(r.value[|country.dialCode|..]) == DigitsOnly(input)
  {
    var digits := DigitsOnly(input);
    if |digits| > GetCountryInfo(country.code).digits then None
    else
      var formatted := FormatAsTyped(country.code, digits);
      FormatRoundTrip(country.code, digits);
      assert (country.dialCode + formatted)[|country.dialCode|..] == formatted;
      Some(country.dialCode + formatted)
  }

  lemma StripSeparator(sep: string)
    requires sep == "-" || sep == " "
    ensures StripSeparators(sep) == ""
  {
  }

  /** Removing separators from `a + sep + b`, for digit strings `a`, `b`. */
  lemma StripJoined(a: string, sep: string, b: string)
    requires AllDigits(a) && AllDigits(b) && (sep == "-" || sep == " ")
    ensures StripSeparators(a + sep + b) == a + b
  {
    KeepConcat(a + sep, b, NotSeparator);
    KeepConcat(a, sep, NotSeparator);
    StripSeparator(sep);
    StripDigits(a);
    StripDigits(b);
  }

  lemma StripJoined3(a: string, b: string, c: string, sep: string)
    requires AllDigits(a) && AllDigits(b) && AllDigits(c) && (sep == "-" || sep == " ")
    ensures StripSeparators(a + sep + b + sep + c) == a + b + c
  {
    KeepConcat(a + sep + b + sep, c, NotSeparator);
    StripJoined(a, sep, b);
    KeepConcat(a + sep + b, sep, NotSeparator);
    StripSeparator(sep);
    StripDigits(c);
  }

  /** The round trip of every branch: stripping `-` and ` ` from the formatted
      digits gives back exactly the digits. */
  lemma FormatRoundTrip(code: string, d: string)
    requires AllDigits(d)
    ensures StripSeparators(FormatAsTyped(code, d)) == d
  {
    var n := |d|;
    if code == "GB" {
      if n > 4 {
        var m := Min(7, n);
        StripJoined3(d[..4], d[4..m], d[m..], " ");
        assert d[..4] + d[4..m] + d[m..] == d;
      } else {
        StripDigits(d);
      }
    } else if code == "PK" {
      if n > 3 {
        StripJoined(d[..3], "-", d[3..]);
        assert d[..3] + d[3..] == d;
      } else {
        StripDigits(d);
      }
    } else {
      NanpRoundTrip(d);
    }
  }

  lemma NanpRoundTrip(d: string)
    requires AllDigits(d)
    ensures StripSeparators(FormatNanp(d)) == d
  {
    if |d| > 6 {
      StripJoined3(d[..3], d[3..6], d[6..], "-");
      assert d[..3] + d[3..6] + d[6..] == d;
    } else if |d| > 3 {
      StripJoined(d[..3], "-", d[3..]);
      assert d[..3] + d[3..] == d;
    } else {
      StripDigits(d);
    }
  }

  /** Two filters that agree on every character of `s` keep the same text. */
  lemma {:induction false} KeepAgree(s: string, p: char -> bool, q: char -> bool)
    requires forall i :: 0 <= i < |s| ==> p(s[i]) == q(s[i])
    ensures Keep(s, p) == Keep(s, q)
  {
    if s != [] {
      KeepAgree(s[1..], p, q);
    }
  }

  /** The formatted text holds digits and separators only. */
  lemma FormatCharset(code: string, d: string)
    requires AllDigits(d)
    ensures var f := FormatAsTyped(code, d);
      forall i :: 0 <= i < |f| ==> IsDigit(f[i]) || IsSeparator(f[i])
  {
    if code == "PK" {
      PkSeparators(d);
    } else if code == "GB" {
      GbSeparators(d);
    } else {
      NanpSeparators(d);
    }
  }

  /** Re-reading the formatted text gives back the digits it was made from. */
  lemma ReformatStable(code: string, d: string)
    requires AllDigits(d)
    ensures DigitsOnly(FormatAsTyped(code, d)) == d
  {
    var f := FormatAsTyped(code, d);
    FormatCharset(code, d);
    KeepAgree(f, IsDigit, NotSeparator);
    FormatRoundTrip(code, d);
  }

  /** Feeding the field's own text back to the handler (an edit that changes
      nothing) emits the same value again. */
  lemma RetypeDisplayed(country: Country, input: string)
    requires HandleInput(country, input).Some?
    ensures var v := HandleInput(country, input).value;
      HandleInput(country, DisplayValue(v, country.dialCode)) == Some(v)
  {
    var d := DigitsOnly(input);
    var f := FormatAsTyped(country.code, d);
    DisplayOfEmitted(country.dialCode, f);
    ReformatStable(country.code, d);
  }

  /** Where the separator lands in `a + [sep] + b`, for digit strings. */
  lemma JoinedChars(a: string, sep: char, b: string)
    requires AllDigits(a) && AllDigits(b) && !IsDigit(sep)
    ensures var r := a + [sep] + b;
      forall i :: 0 <= i < |r| ==> (r[i] == sep <==> i == |a|) && (r[i] == sep || IsDigit(r[i]))
  {
    var r := a + [sep] + b;
    forall i | 0 <= i < |r|
      ensures (r[i] == sep <==> i == |a|) && (r[i] == sep || IsDigit(r[i]))
    {
      if i < |a| {
        assert r[i] == a[i];
      } else if i > |a| {
        assert r[i] == b[i - |a| - 1];
      }
    }
  }

  /** Where the separators land in `a + [sep] + b + [sep] + c`. */
  lemma Joined3Chars(a: string, b: string, c: string, sep: char)
    requires AllDigits(a) && AllDigits(b) && AllDigits(c) && !IsDigit(sep)
    ensures var r := a + [sep] + b + [sep] + c;
      forall i :: 0 <= i < |r| ==>
        (r[i] == sep <==> i == |a| || i == |a| + 1 + |b|) && (r[i] == sep || IsDigit(r[i]))
  {
    var ab := a + [sep] + b;
    JoinedChars(a, sep, b);
    assert AllDigits(c);
    forall i | 0 <= i < |ab| + 1 + |c|
      ensures var r := ab + [sep] + c;
        (r[i] == sep <==> i == |a| || i == |a| + 1 + |b|) && (r[i] == sep || IsDigit(r[i]))
    {
      var r := ab + [sep] + c;
      if i < |ab| {
        assert r[i] == ab[i];
      } else if i > |ab| {
        assert r[i] == c[i - |ab| - 1];
      }
    }
  }

  /** Where the US/CA and default branches put their dashes: after the third
      digit once there are more than three, and after the sixth once there are
      more than six; nothing else is inserted. */
  lemma NanpSeparators(d: string)
    requires AllDigits(d)
    ensures var r := FormatNanp(d);
      |r| == |d| + (if |d| > 6 then 2 else if |d| > 3 then 1 else 0)
      && (forall i :: 0 <= i < |r| ==>
            (r[i] == '-' <==> (|d| > 3 && i == 3) || (|d| > 6 && i == 7)))
      && (forall i :: 0 <= i < |r| ==> r[i] == '-' || IsDigit(r[i]))
  {
    if |d| > 6 {
      Joined3Chars(d[..3], d[3..6], d[6..], '-');
      assert FormatNanp(d) == d[..3] + ['-'] + d[3..6] + ['-'] + d[6..];
    } else if |d| > 3 {
      JoinedChars(d[..3], '-', d[3..]);
      assert FormatNanp(d) == d[..3] + ['-'] + d[3..];
    }
  }

  /** The Pakistan branch: a single dash, after the third digit, and only
      when there are more than three digits. */
  lemma PkSeparators(d: string)
    requires AllDigits(d)
    ensures var r := FormatPk(d);
      |r| == |d| + (if |d| > 3 then 1 else 0)
      && (forall i :: 0 <= i < |r| ==> (r[i] == '-' <==> |d| > 3 && i == 3))
      && (forall i :: 0 <= i < |r| ==> r[i] == '-' || IsDigit(r[i]))
  {
    if |d| > 3 {
      JoinedChars(d[..3], '-', d[3..]);
      assert FormatPk(d) == d[..3] + ['-'] + d[3..];
    }
  }

  /** The GB branch as written: up to four digits are unchanged; beyond that
      there are always exactly two spaces, after the fourth digit and after
      the seventh (or after the last digit when there are fewer than seven),
      so the single-space branch never contributes. */
  lemma GbSeparators(d: string)
    requires AllDigits(d)
    ensures var r := FormatGb(d);
      (|d| <= 4 ==> r == d)
      && (|d| > 4 ==>
            |r| == |d| + 2
            && forall i :: 0 <= i < |r| ==>
                 (r[i] == ' ' <==> i == 4 || i == Min(7, |d|) + 1)
                 && (r[i] == ' ' || IsDigit(r[i])))
  {
    if |d| > 4 {
      var m := Min(7, |d|);
      Joined3Chars(d[..4], d[4..m], d[m..], ' ');
      assert FormatGb(d) == d[..4] + [' '] + d[4..m] + [' '] + d[m..];
    }
  }

  /** Five to seven digits under GB end in a space. */
  lemma GbTrailingSpace(d: string)
    requires AllDigits(d) && 5 <= |d| <= 7
    ensures var r := FormatGb(d); |r| > 0 && r[|r| - 1] == ' '
  {
    GbSeparators(d);
  }

  /** What the GB branch evidently means (`XXXX XXX XXX` filled as far as the
      digits go): the first condition should test more than seven digits. */
  function FormatGbIntended(d: string): (r: string) {
    if |d| > 7 then Slice(d, 0, 4) + " " + Slice(d, 4, 7) + " " + SliceFrom(d, 7)
    else if |d| > 4 then Slice(d, 0, 4) + " " + SliceFrom(d, 4)
    else d
  }

  /** The intended GB format never ends in a separator and keeps the round
      trip. */
  lemma GbIntendedNoTrailingSpace(d: string)
    requires AllDigits(d)
    ensures var r := FormatGbIntended(d);
      (|r| > 0 ==> IsDigit(r[|r| - 1]))
      && StripSeparators(r) == d
  {
    if |d| > 7 {
      StripJoined3(d[..4], d[4..7], d[7..], " ");
      assert d[..4] + d[4..7] + d[7..] == d;
    } else if |d| > 4 {
      StripJoined(d[..4], " ", d[4..]);
      assert d[..4] + d[4..] == d;
    } else {
      StripDigits(d);
    }
  }

  /** The unused helper `formatPhoneNumber(phoneNumber, countryCode)`. */
  function FormatPhoneNumber(phone: string, code: string): (r: string)
    ensures phone == "" || code == "" ==> r == phone
    ensures (phone != "" && code != "" && |DigitsOnly(phone)| > GetCountryInfo(code).digits)
            ==> r == phone[..|phone| - 1]
    ensures (phone != "" && code != "" && |DigitsOnly(phone)| <= GetCountryInfo(code).digits)
            ==> StripSeparators(r) == DigitsOnly(phone)
                && (code !in {"PK", "US", "CA", "GB"} ==> r == DigitsOnly(phone))
  {
    if phone == "" || code == "" then phone
    else
      var digits := DigitsOnly(phone);
      if |digits| > GetCountryInfo(code).digits then phone[..|phone| - 1]
      else
        FormatRoundTrip(code, digits);
        StripDigits(digits);
        if code == "PK" then FormatPk(digits)
        else if code == "US" || code == "CA" then FormatNanp(digits)
        else if code == "GB" then FormatGb(digits)
        else digits
  }

  /** The text shown in the field: the value with the FIRST occurrence of
      the dial code removed, wherever it is (a missing value shows as empty). */
  function DisplayValue(value: string, dialCode: string): (r: string)
    ensures Includes(value, dialCode) ==> |r| == |value| - |dialCode|
    ensures Includes(value, dialCode) ==>
      exists i: nat :: OccursAt(value, dialCode, i) && (forall j: nat :: j < i ==> !OccursAt(value, dialCode, j))
        && r == value[..i] + value[i + |dialCode|..]
    ensures !Includes(value, dialCode) ==> r == value
  {
    ReplaceFirst(value, dialCode, "")
  }

  /** What a value emitted by the handler shows: the formatted digits. */
  lemma DisplayOfEmitted(dialCode: string, formatted: string)
    ensures DisplayValue(dialCode + formatted, dialCode) == formatted
  {
    ReplacePrefix(dialCode, formatted, "");
  }

  /** How many leading characters `/^\+\d+/` matches: 0 when it does not
      match. */
  function DialRun(s: string): (n: nat)
    ensures n == 0 || (2 <= n <= |s| && s[0] == '+')
    ensures n > 0 ==> AllDigits(s[1..n]) && (n == |s| || !IsDigit(s[n]))
    ensures n == 0 <==> |s| < 2 || s[0] != '+' || !IsDigit(s[1])
  {
    if |s| >= 2 && s[0] == '+' && IsDigit(s[1]) then
      assert s[1..][..LeadingDigits(s[1..])] == s[1..1 + LeadingDigits(s[1..])];
      1 + LeadingDigits(s[1..])
    else 0
  }

  /** `value.replace(/^\+\d+/, dialCode)`. */
  function ReplaceDialRun(value: string, dialCode: string): (r: string)
    ensures DialRun(value) == 0 ==> r == value
    ensures DialRun(value) > 0 ==>
      |dialCode| <= |r| && r[..|dialCode|] == dialCode
      && r[|dialCode|..] == value[DialRun(value)..]
  {
    var n := DialRun(value);
    if n == 0 then value else dialCode + value[n..]
  }

  /** The value `handleCountrySelect` emits: the new dial code alone when the
      value is empty, otherwise the value with its leading `+digits` run
      replaced. */
  function CountrySwitchValue(value: string, dialCode: string): (r: string)
    ensures value == "" ==> r == dialCode
    ensures value != "" && (value[0] != '+' || |value| < 2 || !IsDigit(value[1])) ==> r == value
  {
    if value == "" then dialCode else ReplaceDialRun(value, dialCode)
  }

  lemma {:induction false} DialRunConcat(dialCode: string, rest: string)
    requires IsDialCode(dialCode)
    ensures DialRun(dialCode + rest) == |dialCode| + LeadingDigits(rest)
  {
    var s := dialCode + rest;
    assert s[1..] == dialCode[1..] + rest;
    LeadingDigitsConcat(dialCode[1..], rest);
  }

  /** Switching to the same country twice is switching once. */
  lemma SwitchIdempotent(value: string, dialCode: string)
    requires IsDialCode(dialCode)
    ensures CountrySwitchValue(CountrySwitchValue(value, dialCode), dialCode)
      == CountrySwitchValue(value, dialCode)
  {
    var once := CountrySwitchValue(value, dialCode);
    if value == "" {
      DialRunConcat(dialCode, "");
      assert dialCode + "" == dialCode;
    } else if DialRun(value) > 0 {
      var rest := value[DialRun(value)..];
      assert once == dialCode + rest;
      DialRunConcat(dialCode, rest);
      assert rest == [] || !IsDigit(rest[0]);
    }
  }

  /** Switching from one country to another and then to a third lands where
      switching straight to the third would. */
  lemma SwitchTwice(value: string, d1: string, d2: string)
    requires IsDialCode(d1) && IsDialCode(d2)
    ensures CountrySwitchValue(CountrySwitchValue(value, d1), d2)
      == CountrySwitchValue(value, d2)
  {
    if value == "" {
      DialRunConcat(d1, "");
      assert d1 + "" == d1;
      assert d1[|d1|..] == "";
      assert d2 + "" == d2;
    } else if DialRun(value) > 0 {
      var rest := value[DialRun(value)..];
      DialRunConcat(d1, rest);
      assert rest == [] || !IsDigit(rest[0]);
      assert (d1 + rest)[|d1|..] == rest;
    }
  }

  /** The first character of the formatted digits is the first digit. */
  lemma FormatStartsWithDigit(code: string, d: string)
    requires AllDigits(d) && d != []
    ensures var f := FormatAsTyped(code, d); f != [] && f[0] == d[0]
  {
  }

  /** The switch as written swallows the first group of typed digits: the
      handler emitted the dial code followed directly by a digit, so the
      greedy `\d+` runs past the old dial code into the national number, and
      all of that run is replaced. */
  lemma SwitchEatsFirstGroup(country: Country, input: string, newDialCode: string)
    requires IsDialCode(country.dialCode)
    requires HandleInput(country, input).Some? && DigitsOnly(input) != []
    ensures var v := HandleInput(country, input).value;
      DialRun(v) > |country.dialCode|
      && CountrySwitchValue(v, newDialCode) == newDialCode + v[DialRun(v)..]
  {
    var d := DigitsOnly(input);
    var f := FormatAsTyped(country.code, d);
    assert HandleInput(country, input).value == country.dialCode + f;
    FormatStartsWithDigit(country.code, d);
    DialRunConcat(country.dialCode, f);
  }

  /** Typing any text whose digits are `5551234567` (`(555) 123-4567`, say)
      under the United States emits `+1555-123-4567`. */
  lemma TypingExample(country: Country, input: string)
    requires country == UnitedStates && DigitsOnly(input) == "5551234567"
    ensures HandleInput(country, input) == Some("+1555-123-4567")
  {
    var d := DigitsOnly(input);
    assert "US" in Limits;
    assert GetCountryInfo(country.code).digits == 10;
    assert d[..3] == "555" && d[3..6] == "123" && d[6..] == "4567";
    assert FormatAsTyped(country.code, d) == "555" + "-" + "123" + "-" + "4567";
    assert "+1" + ("555" + "-" + "123" + "-" + "4567") == "+1555-123-4567";
  }

  /** Choosing the United Kingdom after that emits `+44-123-4567`: the
      typed `555` is lost. */
  lemma SwitchEatsFirstGroupExample()
    ensures CountrySwitchValue("+1555-123-4567", "+44") == "+44-123-4567"
  {
    var tail := "-123-4567";
    var v := "+1" + ("555" + tail);
    assert "+1555-123-4567" == v;
    LeadingDigitsConcat("555", tail);
    assert LeadingDigits(tail) == 0;
    DialRunConcat("+1", "555" + tail);
    assert DialRun(v) == 5;
    assert v[5..] == tail;
    assert "+44" + tail == "+44-123-4567";
  }

  /** The evident intent of the switch: exchange the old dial code for the
      new one and keep the national part. */
  function SwitchDialCode(value: string, oldDialCode: string, newDialCode: string): (r: string)
    ensures value == "" ==> r == newDialCode
    ensures value != "" && |oldDialCode| <= |value| && value[..|oldDialCode|] == oldDialCode ==>
      r == newDialCode + value[|oldDialCode|..]
  {
    if value == "" then newDialCode
    else if |oldDialCode| <= |value| && value[..|oldDialCode|] == oldDialCode then
      newDialCode + value[|oldDialCode|..]
    else value
  }

  /** With the intended switch, the field still shows what was typed. */
  lemma SwitchKeepsDisplay(oldDialCode: string, newDialCode: string, formatted: string)
    requires oldDialCode + formatted != ""
    ensures DisplayValue(SwitchDialCode(oldDialCode + formatted, oldDialCode, newDialCode), newDialCode)
      == formatted
  {
    assert (oldDialCode + formatted)[..|oldDialCode|] == oldDialCode;
    assert (oldDialCode + formatted)[|oldDialCode|..] == formatted;
    DisplayOfEmitted(newDialCode, formatted);
  }
}
