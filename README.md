# Cira onboarding widgets in Dafny

This project models the two pieces of sequential logic in the Cira web
prototype and proves properties of them.

The first is the country-aware phone-number field
(`src/components/PhoneNumberInput.jsx`). It has:

- a per-country table of digit limits and display masks (`getCountryInfo`);
- a 200-entry country list that the country picker filters by a search term;
- the change handler of the telephone field, which strips non-digits, refuses
  input with more digits than the selected country allows, inserts `-` or ` `
  separators by country and hands the owner the dial code followed by the
  formatted digits;
- the country switch, which splices the new dial code onto the owner's value;
- the text shown in the field;
- the unused helper `formatPhoneNumber`.

The second is the four-cell verification-code entry of the e-mail
confirmation page (`src/pages/EmailConfirmPage.jsx`). Its parts are the code
cells with their per-cell, paste and focus handlers, the completeness check
behind "continue", the resend countdown and the resend reset.

Layout:

- `wrappers.dfy`: the `Option` type.
- `strings.dfy` (module `Strings`): the JavaScript string operations the code
  uses, on `seq<char>`. These are `\D` stripping, `toLowerCase`, `includes` and
  `indexOf`, `slice`, `replace` with a string pattern, and the greedy `\d+` run.
- `countries.dfy` (module `CountryTables`): `getCountryInfo`, the country
  list and the picker's filter.
- `phone_format.dfy` (module `PhoneFormat`): the separator branches, the
  handler's result, `formatPhoneNumber`, the displayed value and the
  country-switch splice, all as functions with lemmas. It also holds the two
  findings below.
- `phone_input.dfy` (module `PhoneInput`): the widget as a class. Its fields
  are `value` (the owner's value), `selectedCountry`, `showModal` and
  `searchTerm`. Its methods are the handlers, each specified by the functions
  of `PhoneFormat`.
- `email_confirm.dfy` (module `EmailConfirm`): the confirmation page as a
  class. Its fields are a four-element `code` array, `countdown`, `canResend`,
  `isLoading`, `error` and a focus index. A `Valid()` invariant says that the
  array has four cells of at most one character and that `canResend` holds
  exactly when the countdown is zero. Every handler keeps that invariant.

The owning form is modelled as a controlled input: whatever the widget passes
to `onChange` becomes its `value`.

Some of the code's behaviour is easy to mistake for a friendlier one:

- Over-limit input is refused as a whole. It is not truncated to the limit.
- The value handed to the owner keeps the `-` and ` ` separators.
- A country switch neither truncates nor regroups the digits.
- The widget never re-selects the country from the `value` it is given.

## Model

| member | source | states |
|---|---|---|
| `CountryTables.GetCountryInfo` | src/components/PhoneNumberInput.jsx:18-53 | each of the 31 listed codes yields its table entry, every other code yields 10 digits with mask `XXX XXX XXXX`, and every limit lies between 8 and 11 |
| `CountryTables.Matches` | src/components/PhoneNumberInput.jsx:259-261 | an empty search term matches every entry |
| `CountryTables.Filter` | src/components/PhoneNumberInput.jsx:259-262 | the result holds only entries of the list that match the term, and every matching entry of the list is in it |
| `CountryTables.FilterConcat` | src/components/PhoneNumberInput.jsx:259-262 | the filter distributes over concatenation, so the result keeps the list's order (a stable filter) |
| `CountryTables.FilterEmptyTerm` | src/components/PhoneNumberInput.jsx:259-262 | an empty search term keeps every entry, in order |
| `CountryTables.SearchIgnoresCase` | src/components/PhoneNumberInput.jsx:260-261 | for an entry whose dial code is `+` and digits, lower-casing the term first finds the same entries: the name match ignores case and the case-sensitive dial-code match cannot see letters |
| `Strings.DigitsOnly` | src/components/PhoneNumberInput.jsx:386 | stripping non-digits leaves only ASCII digits, never lengthens the text, and leaves an all-digit text unchanged |
| `Strings.DigitsOnlyConcat` | src/components/PhoneNumberInput.jsx:386 | the digits of a concatenation are the digits of each part, in order |
| `Strings.DigitsOnlyChar` | src/components/PhoneNumberInput.jsx:386 | a single character is kept exactly when it is an ASCII digit (with `DigitsOnlyConcat`, this fixes the result for every input: every digit kept, in order) |
| `Strings.LowerChar` | src/components/PhoneNumberInput.jsx:260 | an ASCII capital becomes its lower-case letter, only capitals change, and digits and `+` are never changed or produced by lower-casing |
| `Strings.ToLowerChars` | src/components/PhoneNumberInput.jsx:260 | no ASCII capital survives `toLowerCase`, and every digit and `+` stays in place |
| `Strings.IndexOf` | src/components/PhoneNumberInput.jsx:260-261 | the result is the first position where the term occurs, or -1 exactly when it occurs nowhere |
| `Strings.Includes` | src/components/PhoneNumberInput.jsx:260-261 | `includes` holds exactly when the term occurs at some position |
| `Strings.ReplaceFirst` | src/components/PhoneNumberInput.jsx:383 | a string-pattern `replace` leaves the text unchanged when the pattern does not occur, and otherwise replaces the first occurrence, keeping the text before and after it |
| `Strings.ReplacePrefix` | src/components/PhoneNumberInput.jsx:383 | replacing a pattern that starts the text replaces exactly that prefix |
| `Strings.LeadingDigits` | src/components/PhoneNumberInput.jsx:343 | the run is all digits and maximal: it ends at the end of the text or before a non-digit |
| `Strings.Slice` | src/components/PhoneNumberInput.jsx:399-413 | `slice` with in-range bounds is the subsequence between them; an end past the length is clamped to it (the GB branch's `slice(4, 7)` on 5 or 6 digits); an end not after the start gives the empty text |
| `PhoneFormat.HandleInput` | src/components/PhoneNumberInput.jsx:384-426 | the owner is notified exactly when the digit count is within the selected country's limit, and then receives the dial code followed by text whose separators removed give back the typed digits |
| `PhoneFormat.FormatRoundTrip` | src/components/PhoneNumberInput.jsx:395-422 | in every country branch, removing each `-` and ` ` from the formatted text yields the digits exactly |
| `PhoneFormat.NanpSeparators` | src/components/PhoneNumberInput.jsx:401-421 | US, CA and the default: up to 3 digits are unchanged, 4 to 6 get one dash after the third digit, more than 6 get dashes after the third and sixth digits, and nothing else is inserted |
| `PhoneFormat.PkSeparators` | src/components/PhoneNumberInput.jsx:396-400 | Pakistan: one dash after the third digit, present only when there are more than 3 digits |
| `PhoneFormat.GbSeparators` | src/components/PhoneNumberInput.jsx:408-414 | GB: up to 4 digits are unchanged; beyond that there are always exactly two spaces, after the fourth digit and after the seventh (or the last), so the single-space branch is never taken |
| `PhoneFormat.GbTrailingSpace` | src/components/PhoneNumberInput.jsx:410-411 | under GB, 5 to 7 digits are shown with a trailing space |
| `PhoneFormat.GbIntendedNoTrailingSpace` | src/components/PhoneNumberInput.jsx:408-414 | the evidently intended GB format never ends in a separator and keeps the round trip |
| `PhoneFormat.FormatCharset` | src/components/PhoneNumberInput.jsx:395-422 | every branch's output consists of digits and separators only |
| `PhoneFormat.ReformatStable` | src/components/PhoneNumberInput.jsx:386-422 | stripping non-digits from the formatted text gives back the digits it was made from |
| `PhoneFormat.RetypeDisplayed` | src/components/PhoneNumberInput.jsx:383-425 | handing the field's own text back to the handler emits the same value again |
| `PhoneFormat.TypingExample` | src/components/PhoneNumberInput.jsx:384-425 | any text whose digits are 5551234567, typed under the United States, emits `+1555-123-4567` |
| `PhoneFormat.FormatPhoneNumber` | src/components/PhoneNumberInput.jsx:265-299 | an empty number or code returns the input; too many digits drops the input's last character; otherwise the separators removed give the digits, and codes other than PK, US, CA and GB give the bare digits |
| `PhoneFormat.DisplayValue` | src/components/PhoneNumberInput.jsx:383 | the shown text is the value with the first occurrence of the dial code removed, or the value itself when the dial code does not occur |
| `PhoneFormat.DisplayOfEmitted` | src/components/PhoneNumberInput.jsx:383 | a value made of the dial code and the formatted digits shows the formatted digits |
| `PhoneFormat.DialRun` | src/components/PhoneNumberInput.jsx:343 | the regular expression matches exactly when the value starts with `+` and a digit, and the match is `+` followed by the maximal digit run |
| `PhoneFormat.ReplaceDialRun` | src/components/PhoneNumberInput.jsx:343 | without a match the value is unchanged; with one, the new dial code is followed by everything after the run |
| `PhoneFormat.CountrySwitchValue` | src/components/PhoneNumberInput.jsx:342-347 | an empty value becomes the new dial code, and a value that does not start with `+` and a digit is emitted unchanged |
| `PhoneFormat.SwitchIdempotent` | src/components/PhoneNumberInput.jsx:337-348 | for a well-formed dial code (`+` and digits), selecting the same country twice emits what selecting it once does |
| `PhoneFormat.SwitchTwice` | src/components/PhoneNumberInput.jsx:337-348 | for well-formed dial codes, switching to a first and then a second country emits what switching straight to the second does |
| `PhoneFormat.SwitchEatsFirstGroup` | src/components/PhoneNumberInput.jsx:343 | for a country with a well-formed dial code, on a value the handler emitted with at least one digit, the replaced run is longer than the old dial code: it takes in the first typed digit group |
| `PhoneFormat.SwitchEatsFirstGroupExample` | src/components/PhoneNumberInput.jsx:343 | switching `+1555-123-4567` to the United Kingdom emits `+44-123-4567` |
| `PhoneFormat.SwitchDialCode` | src/components/PhoneNumberInput.jsx:337-348 | the intended switch exchanges the old dial code for the new one and keeps the national part |
| `PhoneFormat.SwitchKeepsDisplay` | src/components/PhoneNumberInput.jsx:337-348 | with the intended switch, the field still shows the digits that were typed |
| `PhoneInput.PhoneNumberInput.constructor` | src/components/PhoneNumberInput.jsx:6-15 | on mount the United States is selected, the picker is closed and the search term is empty |
| `PhoneInput.PhoneNumberInput.OpenPicker` | src/components/PhoneNumberInput.jsx:370 | the country button opens the picker and changes nothing else |
| `PhoneInput.PhoneNumberInput.ClosePicker` | src/components/PhoneNumberInput.jsx:482 | the Select button closes the picker and keeps the search term |
| `PhoneInput.PhoneNumberInput.Search` | src/components/PhoneNumberInput.jsx:452 | typing in the search box sets the term, and the list shown becomes the filter of the country list by it |
| `PhoneInput.PhoneNumberInput.Type` | src/components/PhoneNumberInput.jsx:384-426 | over-limit input leaves all state unchanged; otherwise the owner's value becomes the emitted value, and the field then shows the formatted digits, whose separators removed are the typed digits |
| `PhoneInput.PhoneNumberInput.SelectCountry` | src/components/PhoneNumberInput.jsx:337-348 | sets the country, closes the picker, clears the search (so every entry is listed again) and emits the spliced value, or the dial code alone for an empty value |
| `EmailConfirm.Join` | src/pages/EmailConfirmPage.jsx:66 | the joined code is empty exactly when every cell is empty |
| `EmailConfirm.JoinLength` | src/pages/EmailConfirmPage.jsx:66-71 | with cells of at most one character, the joined code has length 4 exactly when no cell is empty |
| `EmailConfirm.PasteDigits` | src/pages/EmailConfirmPage.jsx:50 | a paste keeps only digits, at most four, and they are the first digits of the pasted text |
| `EmailConfirm.Pasted` | src/pages/EmailConfirmPage.jsx:51-55 | the cells after a paste: cell `i` holds the `i`-th pasted digit for `i` below the paste's length, and every later cell keeps its contents |
| `EmailConfirm.PasteFour` | src/pages/EmailConfirmPage.jsx:50-57 | pasting four digits makes the joined code exactly those digits |
| `EmailConfirm.EmailConfirmPage.constructor` | src/pages/EmailConfirmPage.jsx:8-12 | the page starts with cells 1, 2, 5, 0, a countdown of 10, no resend offer, no loading and no error |
| `EmailConfirm.EmailConfirmPage.ContinueDisabled` | src/pages/EmailConfirmPage.jsx:183 | continue is disabled exactly when verifying is under way or some cell is empty |
| `EmailConfirm.EmailConfirmPage.InputChange` | src/pages/EmailConfirmPage.jsx:26-38 | a value longer than one character changes nothing; otherwise only cell `index` changes, the error is cleared, and the focus advances to `index + 1` only for a non-empty value with `index < 3` |
| `EmailConfirm.EmailConfirmPage.KeyDown` | src/pages/EmailConfirmPage.jsx:41-45 | Backspace in an empty cell other than the first moves the focus to `index - 1`; nothing else changes |
| `EmailConfirm.EmailConfirmPage.Paste` | src/pages/EmailConfirmPage.jsx:48-62 | cells `0..n-1` receive the pasted digits, cells from `n` keep their contents, and the focus goes to `min(n, 3)` |
| `EmailConfirm.EmailConfirmPage.Continue` | src/pages/EmailConfirmPage.jsx:65-75 | an incomplete code sets the "complete 4-digit code" error and leaves `isLoading` alone; a complete code clears the error, sets `isLoading` and starts verifying with that four-character code |
| `EmailConfirm.EmailConfirmPage.FinishVerification` | src/pages/EmailConfirmPage.jsx:76-90 | a four-character code navigates to the permission page and any other sets the "invalid" error; loading ends either way (only the first can follow `Continue`) |
| `EmailConfirm.EmailConfirmPage.Tick` | src/pages/EmailConfirmPage.jsx:16-23 | the countdown drops by exactly one while positive, never goes below zero, and resending is offered exactly when it is zero |
| `EmailConfirm.EmailConfirmPage.Resend` | src/pages/EmailConfirmPage.jsx:94-103 | the countdown goes back to 10, the resend offer is withdrawn, the cells return to 1, 2, 5, 0, the error is cleared and the first cell is focused |

## Findings

| source | as written | input that shows it | evidently intended | confidence | as-written member | corrected member |
|---|---|---|---|---|---|---|
| src/components/PhoneNumberInput.jsx:343 | the country switch replaces the leading `+` and the whole digit run after it, but the handler emits the dial code directly followed by the first digit group, so that group is replaced too | type 5551234567 under the United States (value `+1555-123-4567`), then choose the United Kingdom: the value becomes `+44-123-4567` | exchange only the old dial code and keep the typed digits | high (not executed) | `PhoneFormat.SwitchEatsFirstGroup` | `PhoneFormat.SwitchKeepsDisplay` |
| src/components/PhoneNumberInput.jsx:410-412 | both GB conditions test for more than 4 digits, so the two-space form is used from 5 digits on | 12345 under GB shows `1234 5 ` with a trailing space | two spaces only beyond 7 digits, one space for 5 to 7 | medium (not executed) | `PhoneFormat.GbTrailingSpace` | `PhoneFormat.GbIntendedNoTrailingSpace` |

The component classes use the code as written, because they model what the
program does. The corrected definitions (`SwitchDialCode`, `FormatGbIntended`)
are stated next to the as-written ones, with their intended properties proved.

## Left out

- `handlePhoneChange`, `parsePhoneNumber` and `isValidPhoneNumber` are left
  out. They call into libphonenumber-js, and the handler is never wired into
  the rendered markup.
- The effect that copies `value` into `formattedValue` is left out:
  `formattedValue` is never read when rendering.
- The markup, styling, flag glyphs and the modal layout are left out. The
  picker's state (open or closed, search term, list shown) is modelled.
- Timers, `async`/`await` and the 1.5-second simulated verification are left
  out. A timer firing is the `Tick` method. The code after the delay is
  `FinishVerification`, applied to the code captured when continue was
  clicked. Navigation is a returned destination.
- The `catch` branch of `handleContinue` is left out: the simulated delay
  never fails. The resend's console message is left out too.
- DOM focus through `inputRefs` is left out. The focus is an optional cell
  index, and `None` means no handler has placed it yet.
- The other pages, the sidebar and the route table are left out. They are
  static markup or routing.
- Strings are sequences of characters, while JavaScript counts UTF-16 code
  units. A character outside the Basic Multilingual Plane therefore has length
  1 here and 2 in the source. This matters to `handleInputChange`'s
  one-character test and to `formatPhoneNumber`'s removal of the last
  character.
- `Strings.LowerChar`: only ASCII and Latin-1 capitals are lower-cased. Full
  Unicode case mapping is not modelled.
- `Strings.ReplaceFirst`: `$` patterns in the replacement text are not
  modelled. No replacement used by the widget contains `$`.
- `CountryTables.GetCountryInfo`: lookups of inherited object properties
  (such as `constructor`) are not modelled. The widget only looks up codes
  from its own list.
- `CountryTables.SearchIgnoresCase`, `PhoneFormat.SwitchIdempotent`,
  `PhoneFormat.SwitchTwice` and `PhoneFormat.SwitchEatsFirstGroup` take a
  well-formed dial code (`+` followed by digits) as a precondition. The claim
  that every entry of the 200-entry list has one is not proved, because it is
  too large for the solver.
- A `null` or `undefined` `value` prop is modelled as the empty string, which
  the code treats the same way.
