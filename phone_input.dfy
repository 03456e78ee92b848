/** The phone-number widget as a component with state: the selected country,
    whether the country picker is open, the picker's search term, and the
    value held by the owning form.  The owner is modelled as a controlled
    input: whatever the widget hands to `onChange` becomes its `value`. */
module PhoneInput {
  import opened Wrappers
  import opened Strings
  import opened CountryTables
  import opened PhoneFormat

  class PhoneNumberInput {
    /** The owner's value, as passed back through the `value` prop. */
    var value: string
    var selectedCountry: Country
    var showModal: bool
    var searchTerm: string

    /** Mounting: the United States is selected and the picker is closed. */
    constructor (initialValue: string)
      ensures value == initialValue && selectedCountry == UnitedStates
      ensures !showModal && searchTerm == ""
    {
      value := initialValue;
      selectedCountry := UnitedStates;
      showModal := false;
      searchTerm := "";
    }

    /** The text shown in the telephone field. */
    function Displayed(): (shown: string)
      reads this
    {
      DisplayValue(value, selectedCountry.dialCode)
    }

    /** The entries the open picker lists. */
    function VisibleCountries(): (listed: seq<Country>)
      reads this
    {
      Filter(Countries, searchTerm)
    }

    /** The country button: opens the picker. */
    method OpenPicker()
      modifies this
      ensures showModal
      ensures value == old(value) && selectedCountry == old(selectedCountry)
      ensures searchTerm == old(searchTerm)
    {
      showModal := true;
    }

    /** The picker's "Select" button: closes it and keeps the search term. */
    method ClosePicker()
      modifies this
      ensures !showModal
      ensures value == old(value) && selectedCountry == old(selectedCountry)
      ensures searchTerm == old(searchTerm)
    {
      showModal := false;
    }

    /** Typing in the picker's search box. */
    method Search(term: string)
      modifies this
      ensures searchTerm == term && VisibleCountries() == Filter(Countries, searchTerm)
      ensures value == old(value) && selectedCountry == old(selectedCountry)
      ensures showModal == old(showModal)
    {
      searchTerm := term;
    }

    /** The telephone field's change handler on the field's new text.  Too
        many digits: nothing happens.  Otherwise the owner receives the dial
        code and the formatted digits, and the field then shows the formatted
        digits. */
    method Type(input: string) returns (emitted: Option<string>)
      modifies this
      ensures emitted == HandleInput(selectedCountry, input)
      ensures emitted.None? <==> |DigitsOnly(input)| > GetCountryInfo(selectedCountry.code).digits
      ensures emitted.None? ==> value == old(value)
      ensures emitted.Some? ==>
                value == emitted.value
                && Displayed() == FormatAsTyped(selectedCountry.code, DigitsOnly(input))
                && StripSeparators(Displayed()) == DigitsOnly(input)
      ensures selectedCountry == old(selectedCountry) && showModal == old(showModal)
      ensures searchTerm == old(searchTerm)
    {
      emitted := HandleInput(selectedCountry, input);
      if emitted.Some? {
        var digits := DigitsOnly(input);
        DisplayOfEmitted(selectedCountry.dialCode, FormatAsTyped(selectedCountry.code, digits));
        FormatRoundTrip(selectedCountry.code, digits);
        value := emitted.value;
      }
    }

    /** `handleCountrySelect`: selects the country, closes the picker, clears
        the search and hands the owner the value with the new dial code
        spliced in (the dial code alone when the value is empty). */
    method SelectCountry(country: Country) returns (emitted: string)
      modifies this
      ensures selectedCountry == country && !showModal && searchTerm == ""
      ensures emitted == CountrySwitchValue(old(value), country.dialCode) && value == emitted
      ensures old(value) == "" ==> value == country.dialCode
      ensures VisibleCountries() == Filter(Countries, "")
    {
      selectedCountry := country;
      showModal := false;
      searchTerm := "";
      emitted := CountrySwitchValue(value, country.dialCode);
      value := emitted;
    }
  }
}
