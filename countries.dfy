/** The two static tables of the phone widget and the country-picker search:
    `getCountryInfo` (digit limit and display mask per country code) and the
    `countries` list the picker shows, filtered by the search term. */
module CountryTables {
  import opened Strings

  /** What `getCountryInfo` returns: the national digit limit and a display
      mask.  The mask is informative only; nothing in the widget reads it. */
  datatype Info = Info(digits: nat, format: string)

  /** A picker entry (the flag glyph is left out). */
  datatype Country = Country(code: string, name: string, dialCode: string)

  /** The per-country limits, keyed by two-letter code. */
  const Limits: map<string, Info> := map[
      "US" := Info(10, "XXX-XXX-XXXX"),
      "CA" := Info(10, "XXX-XXX-XXXX"),
      "GB" := Info(10, "XXXX XXX XXX"),
      "AU" := Info(9, "XXXX XXX XXX"),
      "DE" := Info(11, "XXX XXXXXXXX"),
      "FR" := Info(9, "XX XX XX XX XX"),
      "IT" := Info(10, "XXX XXX XXXX"),
      "ES" := Info(9, "XXX XX XX XX"),
      "PK" := Info(10, "XXX-XXXXXXX"),
      "IN" := Info(10, "XXXXX XXXXX"),
      "BD" := Info(10, "XXXX-XXXXXX"),
      "CN" := Info(11, "XXX XXXX XXXX"),
      "JP" := Info(10, "XX-XXXX-XXXX"),
      "KR" := Info(10, "XXX-XXXX-XXXX"),
      "BR" := Info(10, "XX XXXXX-XXXX"),
      "MX" := Info(10, "XXX XXX XXXX"),
      "RU" := Info(10, "XXX XXX-XX-XX"),
      "SA" := Info(9, "XXX XXX XXX"),
      "AE" := Info(9, "XX XXX XXXX"),
      "EG" := Info(10, "XXX XXX XXXX"),
      "ZA" := Info(9, "XX XXX XXXX"),
      "NG" := Info(10, "XXX XXX XXXX"),
      "KE" := Info(9, "XXX XXX XXX"),
      "TR" := Info(10, "XXX XXX XX XX"),
      "IR" := Info(10, "XXX XXX XXXX"),
      "IQ" := Info(10, "XXX XXX XXXX"),
      "JO" := Info(9, "XX XXX XXXX"),
      "LB" := Info(8, "XX XXX XXX"),
      "SY" := Info(9, "XXX XXX XXX"),
      "IL" := Info(9, "XX-XXX-XXXX"),
      "PS" := Info(9, "XX XXX XXXX")
    ]

  /** The entry for any code the table does not list. */
  const DefaultInfo: Info := Info(10, "XXX XXX XXXX")

  /** `getCountryInfo`: the table entry, or the default for an unlisted code. */
  function GetCountryInfo(code: string): (r: Info)
    ensures code in Limits ==> r == Limits[code]
    ensures code !in Limits ==> r == DefaultInfo
    ensures 8 <= r.digits <= 11
  {
    if code in Limits then Limits[code] else DefaultInfo
  }

  /** The picker's list, in display order. */
  const Countries: seq<Country> := [
      Country("US", "United States", "+1"),
      Country("CA", "Canada", "+1"),
      Country("GB", "United Kingdom", "+44"),
      Country("AU", "Australia", "+61"),
      Country("DE", "Germany", "+49"),
      Country("FR", "France", "+33"),
      Country("IT", "Italy", "+39"),
      Country("ES", "Spain", "+34"),
      Country("NL", "Netherlands", "+31"),
      Country("BE", "Belgium", "+32"),
      Country("CH", "Switzerland", "+41"),
      Country("AT", "Austria", "+43"),
      Country("SE", "Sweden", "+46"),
      Country("NO", "Norway", "+47"),
      Country("DK", "Denmark", "+45"),
      Country("FI", "Finland", "+358"),
      Country("PL", "Poland", "+48"),
      Country("CZ", "Czech Republic", "+420"),
      Country("HU", "Hungary", "+36"),
      Country("RO", "Romania", "+40"),
      Country("BG", "Bulgaria", "+359"),
      Country("HR", "Croatia", "+385"),
      Country("SI", "Slovenia", "+386"),
      Country("SK", "Slovakia", "+421"),
      Country("LT", "Lithuania", "+370"),
      Country("LV", "Latvia", "+371"),
      Country("EE", "Estonia", "+372"),
      Country("IE", "Ireland", "+353"),
      Country("PT", "Portugal", "+351"),
      Country("GR", "Greece", "+30"),
      Country("CY", "Cyprus", "+357"),
      Country("MT", "Malta", "+356"),
      Country("LU", "Luxembourg", "+352"),
      Country("IS", "Iceland", "+354"),
      Country("LI", "Liechtenstein", "+423"),
      Country("MC", "Monaco", "+377"),
      Country("SM", "San Marino", "+378"),
      Country("VA", "Vatican City", "+379"),
      Country("AD", "Andorra", "+376"),
      Country("JP", "Japan", "+81"),
      Country("KR", "South Korea", "+82"),
      Country("CN", "China", "+86"),
      Country("IN", "India", "+91"),
      Country("TH", "Thailand", "+66"),
      Country("SG", "Singapore", "+65"),
      Country("MY", "Malaysia", "+60"),
      Country("ID", "Indonesia", "+62"),
      Country("PH", "Philippines", "+63"),
      Country("VN", "Vietnam", "+84"),
      Country("TW", "Taiwan", "+886"),
      Country("HK", "Hong Kong", "+852"),
      Country("MO", "Macau", "+853"),
      Country("BR", "Brazil", "+55"),
      Country("AR", "Argentina", "+54"),
      Country("CL", "Chile", "+56"),
      Country("CO", "Colombia", "+57"),
      Country("PE", "Peru", "+51"),
      Country("VE", "Venezuela", "+58"),
      Country("EC", "Ecuador", "+593"),
      Country("BO", "Bolivia", "+591"),
      Country("PY", "Paraguay", "+595"),
      Country("UY", "Uruguay", "+598"),
      Country("GY", "Guyana", "+592"),
      Country("SR", "Suriname", "+597"),
      Country("GF", "French Guiana", "+594"),
      Country("FK", "Falkland Islands", "+500"),
      Country("MX", "Mexico", "+52"),
      Country("GT", "Guatemala", "+502"),
      Country("BZ", "Belize", "+501"),
      Country("SV", "El Salvador", "+503"),
      Country("HN", "Honduras", "+504"),
      Country("NI", "Nicaragua", "+505"),
      Country("CR", "Costa Rica", "+506"),
      Country("PA", "Panama", "+507"),
      Country("CU", "Cuba", "+53"),
      Country("JM", "Jamaica", "+1876"),
      Country("HT", "Haiti", "+509"),
      Country("DO", "Dominican Republic", "+1809"),
      Country("PR", "Puerto Rico", "+1787"),
      Country("TT", "Trinidad and Tobago", "+1868"),
      Country("BB", "Barbados", "+1246"),
      Country("AG", "Antigua and Barbuda", "+1268"),
      Country("DM", "Dominica", "+1767"),
      Country("GD", "Grenada", "+1473"),
      Country("KN", "Saint Kitts and Nevis", "+1869"),
      Country("LC", "Saint Lucia", "+1758"),
      Country("VC", "Saint Vincent and the Grenadines", "+1784"),
      Country("BS", "Bahamas", "+1242"),
      Country("RU", "Russia", "+7"),
      Country("UA", "Ukraine", "+380"),
      Country("BY", "Belarus", "+375"),
      Country("MD", "Moldova", "+373"),
      Country("GE", "Georgia", "+995"),
      Country("AM", "Armenia", "+374"),
      Country("AZ", "Azerbaijan", "+994"),
      Country("KZ", "Kazakhstan", "+7"),
      Country("UZ", "Uzbekistan", "+998"),
      Country("TM", "Turkmenistan", "+993"),
      Country("TJ", "Tajikistan", "+992"),
      Country("KG", "Kyrgyzstan", "+996"),
      Country("MN", "Mongolia", "+976"),
      Country("AF", "Afghanistan", "+93"),
      Country("PK", "Pakistan", "+92"),
      Country("BD", "Bangladesh", "+880"),
      Country("LK", "Sri Lanka", "+94"),
      Country("MV", "Maldives", "+960"),
      Country("BT", "Bhutan", "+975"),
      Country("NP", "Nepal", "+977"),
      Country("MM", "Myanmar", "+95"),
      Country("LA", "Laos", "+856"),
      Country("KH", "Cambodia", "+855"),
      Country("BN", "Brunei", "+673"),
      Country("TL", "East Timor", "+670"),
      Country("PG", "Papua New Guinea", "+675"),
      Country("FJ", "Fiji", "+679"),
      Country("SB", "Solomon Islands", "+677"),
      Country("VU", "Vanuatu", "+678"),
      Country("NC", "New Caledonia", "+687"),
      Country("PF", "French Polynesia", "+689"),
      Country("WS", "Samoa", "+685"),
      Country("TO", "Tonga", "+676"),
      Country("KI", "Kiribati", "+686"),
      Country("TV", "Tuvalu", "+688"),
      Country("NR", "Nauru", "+674"),
      Country("PW", "Palau", "+680"),
      Country("FM", "Micronesia", "+691"),
      Country("MH", "Marshall Islands", "+692"),
      Country("NZ", "New Zealand", "+64"),
      Country("ZA", "South Africa", "+27"),
      Country("EG", "Egypt", "+20"),
      Country("LY", "Libya", "+218"),
      Country("TN", "Tunisia", "+216"),
      Country("DZ", "Algeria", "+213"),
      Country("MA", "Morocco", "+212"),
      Country("SD", "Sudan", "+249"),
      Country("SS", "South Sudan", "+211"),
      Country("ET", "Ethiopia", "+251"),
      Country("ER", "Eritrea", "+291"),
      Country("DJ", "Djibouti", "+253"),
      Country("SO", "Somalia", "+252"),
      Country("KE", "Kenya", "+254"),
      Country("UG", "Uganda", "+256"),
      Country("TZ", "Tanzania", "+255"),
      Country("RW", "Rwanda", "+250"),
      Country("BI", "Burundi", "+257"),
      Country("CD", "Democratic Republic of the Congo", "+243"),
      Country("CG", "Republic of the Congo", "+242"),
      Country("CF", "Central African Republic", "+236"),
      Country("TD", "Chad", "+235"),
      Country("CM", "Cameroon", "+237"),
      Country("GQ", "Equatorial Guinea", "+240"),
      Country("GA", "Gabon", "+241"),
      Country("ST", "S\U{E3}o Tom\U{E9} and Pr\U{ED}ncipe", "+239"),
      Country("AO", "Angola", "+244"),
      Country("ZM", "Zambia", "+260"),
      Country("ZW", "Zimbabwe", "+263"),
      Country("BW", "Botswana", "+267"),
      Country("NA", "Namibia", "+264"),
      Country("SZ", "Eswatini", "+268"),
      Country("LS", "Lesotho", "+266"),
      Country("MG", "Madagascar", "+261"),
      Country("MU", "Mauritius", "+230"),
      Country("SC", "Seychelles", "+248"),
      Country("KM", "Comoros", "+269"),
      Country("YT", "Mayotte", "+262"),
      Country("RE", "R\U{E9}union", "+262"),
      Country("MZ", "Mozambique", "+258"),
      Country("MW", "Malawi", "+265"),
      Country("GH", "Ghana", "+233"),
      Country("TG", "Togo", "+228"),
      Country("BJ", "Benin", "+229"),
      Country("BF", "Burkina Faso", "+226"),
      Country("NE", "Niger", "+227"),
      Country("NG", "Nigeria", "+234"),
      Country("CI", "Ivory Coast", "+225"),
      Country("LR", "Liberia", "+231"),
      Country("SL", "Sierra Leone", "+232"),
      Country("GN", "Guinea", "+224"),
      Country("GW", "Guinea-Bissau", "+245"),
      Country("GM", "Gambia", "+220"),
      Country("SN", "Senegal", "+221"),
      Country("ML", "Mali", "+223"),
      Country("MR", "Mauritania", "+222"),
      Country("CV", "Cape Verde", "+238"),
      Country("SA", "Saudi Arabia", "+966"),
      Country("AE", "United Arab Emirates", "+971"),
      Country("QA", "Qatar", "+974"),
      Country("BH", "Bahrain", "+973"),
      Country("KW", "Kuwait", "+965"),
      Country("OM", "Oman", "+968"),
      Country("YE", "Yemen", "+967"),
      Country("IQ", "Iraq", "+964"),
      Country("IR", "Iran", "+98"),
      Country("TR", "Turkey", "+90"),
      Country("IL", "Israel", "+972"),
      Country("PS", "Palestine", "+970"),
      Country("JO", "Jordan", "+962"),
      Country("LB", "Lebanon", "+961"),
      Country("SY", "Syria", "+963"),
      Country("CY", "Cyprus", "+357")
    ]

  /** The country selected when the widget mounts. */
  const UnitedStates: Country := Country("US", "United States", "+1")

  /** A dial code as the table writes them: `+` and at least one digit. */
  predicate IsDialCode(s: string) {
    |s| >= 2 && s[0] == '+' && AllDigits(s[1..])
  }

  /** The search predicate: the lower-cased name contains the lower-cased
      term, or the dial code contains the term as typed. */
  predicate Matches(c: Country, term: string)
    ensures term == "" ==> Matches(c, term)
  {
    IncludesEmpty(ToLower(c.name));
    Includes(ToLower(c.name), ToLower(term)) || Includes(c.dialCode, term)
  }

  /** `countries.filter(...)`: the entries that match, in table order. */
  function Filter(cs: seq<Country>, term: string): (r: seq<Country>)
    ensures |r| <= |cs|
    ensures forall i :: 0 <= i < |r| ==> r[i] in cs && Matches(r[i], term)
    ensures forall c :: c in cs && Matches(c, term) ==> c in r
  {
    if cs == [] then []
    else (if Matches(cs[0], term) then [cs[0]] else []) + Filter(cs[1..], term)
  }

  /** The filter is a homomorphism over concatenation: it keeps table order. */
  lemma {:induction false} FilterConcat(a: seq<Country>, b: seq<Country>, term: string)
    ensures Filter(a + b, term) == Filter(a, term) + Filter(b, term)
  {
    if a == [] {
      assert a + b == b;
    } else {
      assert (a + b)[1..] == a[1..] + b;
      FilterConcat(a[1..], b, term);
    }
  }

  /** An empty search term keeps every entry. */
  lemma {:induction false} FilterEmptyTerm(cs: seq<Country>)
    ensures Filter(cs, "") == cs
  {
    if cs != [] {
      IncludesEmpty(ToLower(cs[0].name));
      FilterEmptyTerm(cs[1..]);
    }
  }

  /** A term made only of dial-code characters is its own lower case. */
  lemma {:induction false} LowerOfDialChars(t: string)
    requires forall i :: 0 <= i < |t| ==> IsDigit(t[i]) || t[i] == '+'
    ensures ToLower(t) == t
  {
  }

  /** Lower-casing the term first does not change what the search finds,
      for an entry whose dial code is well formed. */
  lemma SearchIgnoresCase(c: Country, term: string)
    requires IsDialCode(c.dialCode)
    ensures Matches(c, term) == Matches(c, ToLower(term))
  {
    ToLowerIdempotent(term);
    if Includes(c.dialCode, term) {
      var j: nat :| OccursAt(c.dialCode, term, j);
      DialSubstringChars(c.dialCode, term, j);
      LowerOfDialChars(term);
    }
    if Includes(c.dialCode, ToLower(term)) {
      var j: nat :| OccursAt(c.dialCode, ToLower(term), j);
      DialSubstringChars(c.dialCode, ToLower(term), j);
      forall i | 0 <= i < |term|
        ensures IsDigit(term[i]) || term[i] == '+'
      {
        assert ToLower(term)[i] == LowerChar(term[i]);
      }
      LowerOfDialChars(term);
    }
  }

  /** Whatever occurs inside a dial code is made of `+` and digits. */
  lemma DialSubstringChars(d: string, t: string, j: nat)
    requires IsDialCode(d) && OccursAt(d, t, j)
    ensures forall i :: 0 <= i < |t| ==> IsDigit(t[i]) || t[i] == '+'
  {
    forall i | 0 <= i < |t|
      ensures IsDigit(t[i]) || t[i] == '+'
    {
      assert t[i] == d[j + i];
      if j + i > 0 {
        assert d[j + i] == d[1..][j + i - 1];
      }
    }
  }
}
