/**
 * The coverage search form: two independent checkboxes choose coordinate or
 * address search, the change and input handlers keep the fields' and the
 * button's `disabled` flags in step, and the button's click handler either
 * alerts or makes one coverage search call. The DOM elements are fields of a
 * class; the alert and the network call become the click's outcome.
 */
module SearchForm {
  import opened Wrappers
  import opened JsText

  const CoordinatesKind: string := "coordinates"
  const AddressKind: string := "address"

  const InvalidCoordinatesAlert: string := "Please enter valid latitude and longitude."
  const NoMediumAlert: string := "Please select at least one connection medium."
  const InvalidAddressAlert: string := "Please enter a valid address."

  /** An `<option>` of the medium `<select>`. */
  datatype MediumOption = MediumOption(value: string, selected: bool)

  /** The number `parseFloat(text)` yields; its value is left opaque. */
  datatype Number = ParseFloatOf(text: string)

  /** The arguments of `searchCoverage(lat, lng, address, selectedMediums)`; `None` is `null`. */
  datatype SearchCall = SearchCall(latitude: Option<Number>, longitude: Option<Number>,
                                   address: Option<string>, mediums: seq<string>)

  /** What a click does: an alert, one search call, or nothing. */
  datatype ClickOutcome = Alert(message: string) | Search(call: SearchCall) | NoAction

  /** `Array.from(select.selectedOptions).map(o => o.value)`: the selected values, in option order. */
  function SelectedValues(options: seq<MediumOption>): (r: seq<string>)
    ensures |r| <= |options|
    ensures forall v :: v in r <==> exists i :: 0 <= i < |options| && options[i].selected && options[i].value == v
    ensures r == [] <==> forall i :: 0 <= i < |options| ==> !options[i].selected
  {
    if options == [] then []
    else
      var rest := SelectedValues(options[1..]);
      assert forall i :: 1 <= i < |options| ==> options[i] == options[1..][i - 1];
      if options[0].selected then [options[0].value] + rest else rest
  }

  /** A single option contributes its value exactly when it is selected. */
  lemma SelectedValuesOfOne(o: MediumOption)
    ensures SelectedValues([o]) == if o.selected then [o.value] else []
  {
  }

  /**
   * Selection distributes over concatenation, so the values keep the options'
   * order and appear once per selected option.
   */
  lemma {:induction false} SelectedValuesAppend(a: seq<MediumOption>, b: seq<MediumOption>)
    ensures SelectedValues(a + b) == SelectedValues(a) + SelectedValues(b)
  {
    if a == [] {
      assert a + b == b;
    } else {
      assert (a + b)[1..] == a[1..] + b;
      SelectedValuesAppend(a[1..], b);
    }
  }

  class Form {
    var coordinateChecked: bool
    var addressChecked: bool
    var latitudeValue: string
    var longitudeValue: string
    var addressValue: string
    var latitudeDisabled: bool
    var longitudeDisabled: bool
    var addressDisabled: bool
    var searchDisabled: bool
    var mediumOptions: seq<MediumOption>

    /** The page as loaded; its markup is not part of this model, so every field is given. */
    constructor (coordinateChecked: bool, addressChecked: bool,
                 latitudeValue: string, longitudeValue: string, addressValue: string,
                 latitudeDisabled: bool, longitudeDisabled: bool, addressDisabled: bool,
                 searchDisabled: bool, mediumOptions: seq<MediumOption>)
      ensures this.coordinateChecked == coordinateChecked && this.addressChecked == addressChecked
      ensures this.latitudeValue == latitudeValue && this.longitudeValue == longitudeValue
      ensures this.addressValue == addressValue
      ensures this.latitudeDisabled == latitudeDisabled && this.longitudeDisabled == longitudeDisabled
      ensures this.addressDisabled == addressDisabled && this.searchDisabled == searchDisabled
      ensures this.mediumOptions == mediumOptions
    {
      this.coordinateChecked, this.addressChecked := coordinateChecked, addressChecked;
      this.latitudeValue, this.longitudeValue, this.addressValue := latitudeValue, longitudeValue, addressValue;
      this.latitudeDisabled, this.longitudeDisabled := latitudeDisabled, longitudeDisabled;
      this.addressDisabled, this.searchDisabled := addressDisabled, searchDisabled;
      this.mediumOptions := mediumOptions;
    }

    /** The condition `validateInputs` tests: a checked mode whose fields are non-empty. */
    predicate InputsFilled()
      reads this
    {
      || (coordinateChecked && latitudeValue != "" && longitudeValue != "")
      || (addressChecked && addressValue != "")
    }

    /** The button is enabled exactly when the inputs are filled. */
    predicate ButtonAgrees()
      reads this
    {
      searchDisabled == !InputsFilled()
    }

    /** `validateInputs()`. */
    method ValidateInputs()
      modifies this`searchDisabled
      ensures searchDisabled <==> !InputsFilled()
    {
      if InputsFilled() {
        searchDisabled := false;
      } else {
        searchDisabled := true;
      }
    }

    /** `toggleInputs(isChecked, type)`. */
    method ToggleInputs(isChecked: bool, kind: string)
      modifies this`latitudeDisabled, this`longitudeDisabled, this`addressDisabled, this`searchDisabled
      ensures kind == CoordinatesKind ==>
        latitudeDisabled == !isChecked && longitudeDisabled == !isChecked && addressDisabled == isChecked
      ensures kind != CoordinatesKind && kind == AddressKind ==>
        addressDisabled == !isChecked && latitudeDisabled == isChecked && longitudeDisabled == isChecked
      ensures kind != CoordinatesKind && kind != AddressKind ==>
        latitudeDisabled == old(latitudeDisabled) && longitudeDisabled == old(longitudeDisabled)
        && addressDisabled == old(addressDisabled)
      ensures ButtonAgrees()
    {
      if kind == CoordinatesKind {
        latitudeDisabled := !isChecked;
        longitudeDisabled := !isChecked;
        addressDisabled := isChecked;
      } else if kind == AddressKind {
        addressDisabled := !isChecked;
        latitudeDisabled := isChecked;
        longitudeDisabled := isChecked;
      }
      ValidateInputs();
    }

    /** The user sets the coordinate checkbox; its `change` listener toggles the inputs. */
    method CoordinateCheckboxChanged(checked: bool)
      modifies this`coordinateChecked, this`latitudeDisabled, this`longitudeDisabled,
               this`addressDisabled, this`searchDisabled
      ensures coordinateChecked == checked
      ensures latitudeDisabled == !checked && longitudeDisabled == !checked && addressDisabled == checked
      ensures ButtonAgrees()
    {
      coordinateChecked := checked;
      ToggleInputs(coordinateChecked, CoordinatesKind);
    }

    /** The user sets the address checkbox; its `change` listener toggles the inputs. */
    method AddressCheckboxChanged(checked: bool)
      modifies this`addressChecked, this`latitudeDisabled, this`longitudeDisabled,
               this`addressDisabled, this`searchDisabled
      ensures addressChecked == checked
      ensures addressDisabled == !checked && latitudeDisabled == checked && longitudeDisabled == checked
      ensures ButtonAgrees()
    {
      addressChecked := checked;
      ToggleInputs(addressChecked, AddressKind);
    }

    /** Typing in the latitude field; its `input` listener validates. */
    method LatitudeInput(value: string)
      modifies this`latitudeValue, this`searchDisabled
      ensures latitudeValue == value && ButtonAgrees()
    {
      latitudeValue := value;
      ValidateInputs();
    }

    /** Typing in the longitude field; its `input` listener validates. */
    method LongitudeInput(value: string)
      modifies this`longitudeValue, this`searchDisabled
      ensures longitudeValue == value && ButtonAgrees()
    {
      longitudeValue := value;
      ValidateInputs();
    }

    /** Typing in the address field; its `input` listener validates. */
    method AddressInput(value: string)
      modifies this`addressValue, this`searchDisabled
      ensures addressValue == value && ButtonAgrees()
    {
      addressValue := value;
      ValidateInputs();
    }

    /**
     * The search button's click listener. Coordinate mode wins when both boxes
     * are checked; it needs two numbers and a medium. Address mode needs a
     * non-blank address and sends the medium list whatever it holds.
     */
    method SearchClicked() returns (outcome: ClickOutcome)
      ensures coordinateChecked ==>
        (outcome.Search? <==> ParsesAsNumber(latitudeValue) && ParsesAsNumber(longitudeValue)
                              && SelectedValues(mediumOptions) != [])
      ensures coordinateChecked && outcome.Search? ==>
        outcome.call == SearchCall(Some(ParseFloatOf(latitudeValue)), Some(ParseFloatOf(longitudeValue)),
                                   None, SelectedValues(mediumOptions))
      ensures coordinateChecked && !(ParsesAsNumber(latitudeValue) && ParsesAsNumber(longitudeValue)) ==>
        outcome == Alert(InvalidCoordinatesAlert)
      ensures coordinateChecked && ParsesAsNumber(latitudeValue) && ParsesAsNumber(longitudeValue)
              && SelectedValues(mediumOptions) == [] ==>
        outcome == Alert(NoMediumAlert)
      ensures !coordinateChecked && addressChecked ==>
        outcome == if Trim(addressValue) == [] then Alert(InvalidAddressAlert)
                   else Search(SearchCall(None, None, Some(Trim(addressValue)), SelectedValues(mediumOptions)))
      ensures outcome == NoAction <==> !coordinateChecked && !addressChecked
      ensures outcome.Search? ==> InputsFilled()
    {
      var selectedMediums := SelectedValues(mediumOptions);
      if coordinateChecked {
        if !ParsesAsNumber(latitudeValue) || !ParsesAsNumber(longitudeValue) {
          return Alert(InvalidCoordinatesAlert);
        }
        if |selectedMediums| == 0 {
          return Alert(NoMediumAlert);
        }
        NumberTextIsNotBlank(latitudeValue);
        NumberTextIsNotBlank(longitudeValue);
        return Search(SearchCall(Some(ParseFloatOf(latitudeValue)), Some(ParseFloatOf(longitudeValue)),
                                 None, selectedMediums));
      } else if addressChecked {
        var address := Trim(addressValue);
        if address == [] {
          return Alert(InvalidAddressAlert);
        }
        TrimEmptyIffBlank(addressValue);
        return Search(SearchCall(None, None, Some(address), selectedMediums));
      }
      return NoAction;
    }
  }
}
