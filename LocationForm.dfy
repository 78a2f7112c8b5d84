/** The admin location form: address suggestions, the city table that fills in the
    coordinates of a chosen address, and the submit handler with its reset. */
module LocationForm {
  import opened Common
  import opened Text

  datatype LocationFields = LocationFields(
    name: string,
    kind: string,
    description: string,
    address: string,
    latitude: string,
    longitude: string,
    material: string,
    era: string)

  const EmptyFields := LocationFields("", "", "", "", "", "", "", "")

  /** The fields edited by plain inputs (the address input also searches). */
  datatype Field = Name | Kind | Description | Latitude | Longitude | Material | Era

  /** `setFormData(prev => ({ ...prev, [field]: value }))` for one of the plain inputs. */
  function WithField(f: LocationFields, field: Field, value: string): (r: LocationFields)
    ensures r.address == f.address
  {
    match field
    case Name => f.(name := value)
    case Kind => f.(kind := value)
    case Description => f.(description := value)
    case Latitude => f.(latitude := value)
    case Longitude => f.(longitude := value)
    case Material => f.(material := value)
    case Era => f.(era := value)
  }

  // ---------------------------------------------------------------------------
  // Address suggestions
  // ---------------------------------------------------------------------------

  /** The five places suggestions are made for, in order. */
  const Places: seq<string> := [", Rome, Italy", ", Florence, Italy", ", Paris, France", ", London, UK", ", New York, USA"]

  /** `handleAddressSearch`: nothing for a query under three characters, otherwise the
      query followed by each of the first three places. */
  function AddressSuggestions(query: string): (r: seq<string>)
    ensures |query| < 3 ==> r == []
    ensures |query| >= 3 ==> |r| == 3
    ensures forall i :: 0 <= i < |r| ==> r[i] == query + Places[i]
  {
    if |query| < 3 then [] else [query + Places[0], query + Places[1], query + Places[2]]
  }

  /** Every suggestion begins with the query, and London and New York are never offered. */
  lemma SuggestionsExtendQuery(query: string)
    ensures forall s :: s in AddressSuggestions(query) ==> query <= s
    ensures query + Places[3] !in AddressSuggestions(query)
    ensures query + Places[4] !in AddressSuggestions(query)
  {
    var r := AddressSuggestions(query);
    forall s | s in r ensures query <= s {
      var i :| 0 <= i < |r| && r[i] == s;
      assert s[..|query|] == query;
    }
    if |query| >= 3 {
      forall i | 0 <= i < 3 ensures r[i] != query + Places[3] && r[i] != query + Places[4] {
        assert Places[i] != Places[3] && Places[i] != Places[4];
        assert r[i][|query|..] == Places[i];
        assert (query + Places[3])[|query|..] == Places[3];
        assert (query + Places[4])[|query|..] == Places[4];
      }
    }
  }

  // ---------------------------------------------------------------------------
  // The city table
  // ---------------------------------------------------------------------------

  /** A row of `mockCoordinates`: the key is `city + ", " + country`; the coordinates
      are kept as the strings `toString` gives them. */
  datatype City = City(city: string, country: string, lat: string, lng: string)

  function Key(c: City): string
  {
    c.city + ", " + c.country
  }

  const Cities: seq<City> := [
    City("Rome", "Italy", "41.9028", "12.4964"),
    City("Florence", "Italy", "43.7696", "11.2558"),
    City("Paris", "France", "48.8566", "2.3522"),
    City("London", "UK", "51.5074", "-0.1278"),
    City("New York", "USA", "40.7128", "-74.006")
  ]

  /** `key.split(',')[0]` is the city: no city name holds a comma. */
  lemma KeyPrefixIsCity(c: City)
    requires ',' !in c.city
    ensures Split(Key(c), ",")[0] == c.city
  {
    assert Key(c) == c.city + [','] + (" " + c.country);
    SplitAround(c.city, ',', " " + c.country);
    ContainsHead(c.city, ",");
    assert !Contains(c.city, ",");
    SplitWithoutSeparator(c.city, ",");
    assert Split(Key(c), ",") == [c.city] + Split(" " + c.country, ",");
  }

  lemma TableKeysSplitToCities()
    ensures forall i :: 0 <= i < |Cities| ==> Split(Key(Cities[i]), ",")[0] == Cities[i].city
  {
    forall i | 0 <= i < |Cities| ensures Split(Key(Cities[i]), ",")[0] == Cities[i].city {
      KeyPrefixIsCity(Cities[i]);
    }
  }

  /** `Object.entries(mockCoordinates).find(([key]) => address.includes(key.split(',')[0]))`,
      as the index of the first row whose city occurs in the address. */
  function FindCity(cities: seq<City>, address: string, from: nat): (r: Option<nat>)
    requires from <= |cities|
    ensures r.Some? ==> from <= r.value < |cities| && Contains(address, cities[r.value].city)
    ensures r.Some? ==> forall j :: from <= j < r.value ==> !Contains(address, cities[j].city)
    ensures r.None? ==> forall j :: from <= j < |cities| ==> !Contains(address, cities[j].city)
    decreases |cities| - from
  {
    if from == |cities| then None
    else if Contains(address, cities[from].city) then Some(from)
    else FindCity(cities, address, from + 1)
  }

  /** The coordinates `handleAddressSelect` stores, if any row matches. */
  function Geocode(address: string): Option<City>
  {
    match FindCity(Cities, address, 0)
    case Some(i) => Some(Cities[i])
    case None => None
  }

  /** A string contains itself placed anywhere inside a longer one. */
  lemma ContainsInside(a: string, sub: string, b: string)
    ensures Contains(a + sub + b, sub)
  {
    var s := a + sub + b;
    assert s[|a|..|a| + |sub|] == sub;
    assert OccursAt(s, sub, |a|);
    ContainsIff(s, sub);
  }

  /** The first row wins: an address naming Rome gets Rome's coordinates, even the
      Florence or Paris suggestion of a query that mentions Rome. */
  lemma RomeWins(address: string)
    requires Contains(address, "Rome")
    ensures Geocode(address) == Some(Cities[0])
  {
  }

  /** Every suggestion can be geocoded: each names a city of the table. */
  lemma SuggestionsGeocode(query: string)
    ensures forall s :: s in AddressSuggestions(query) ==> Geocode(s).Some?
  {
    var r := AddressSuggestions(query);
    if |query| >= 3 {
      assert r[0] == query + ", " + "Rome" + ", Italy";
      ContainsInside(query + ", ", "Rome", ", Italy");
      assert r[1] == query + ", " + "Florence" + ", Italy";
      ContainsInside(query + ", ", "Florence", ", Italy");
      assert r[2] == query + ", " + "Paris" + ", France";
      ContainsInside(query + ", ", "Paris", ", France");
    }
  }

  /** Where the address names no city of the table, the coordinates are not touched. */
  lemma NoCityNoCoordinates(address: string)
    requires forall i :: 0 <= i < |Cities| ==> !Contains(address, Cities[i].city)
    ensures Geocode(address) == None
  {
  }

  /** The fields after an address is chosen. */
  function SelectedFields(f: LocationFields, address: string): (r: LocationFields)
    ensures r.address == address
    ensures Geocode(address).None? ==> r == f.(address := address)
    ensures Geocode(address).Some? ==>
      r == f.(address := address, latitude := Geocode(address).value.lat,
              longitude := Geocode(address).value.lng)
  {
    match Geocode(address)
    case None => f.(address := address)
    case Some(c) => f.(address := address, latitude := c.lat, longitude := c.lng)
  }

  // ---------------------------------------------------------------------------
  // Submit
  // ---------------------------------------------------------------------------

  /** `!formData.name || !formData.type || !formData.address` negated. */
  predicate RequiredFilled(f: LocationFields)
  {
    f.name != "" && f.kind != "" && f.address != ""
  }

  /** Only name, type and address decide: the other fields never affect acceptance. */
  lemma OnlyRequiredFieldsDecide(f: LocationFields, g: LocationFields)
    requires f.name == g.name && f.kind == g.kind && f.address == g.address
    ensures RequiredFilled(f) == RequiredFilled(g)
  {
  }

  /** The payload handed to `onSave`. */
  datatype SavedLocation = SavedLocation(fields: LocationFields, status: string, createdAt: string)

  const MissingRequired := MissingInformation("Please fill in all required fields.")
  const LocationAdded := Toast("Location Added", "The new location has been successfully added.", false)

  // ---------------------------------------------------------------------------
  // The component state
  // ---------------------------------------------------------------------------

  class LocationFormState {
    var formData: LocationFields
    var addressSuggestions: seq<string>

    constructor ()
      ensures formData == EmptyFields && addressSuggestions == []
    {
      formData := EmptyFields;
      addressSuggestions := [];
    }

    /** A plain input's `onChange`. */
    method SetField(field: Field, value: string)
      modifies this
      ensures formData == WithField(old(formData), field, value)
      ensures addressSuggestions == old(addressSuggestions)
    {
      formData := WithField(formData, field, value);
    }

    /** The address input's `onChange`: the address is stored and suggestions are made
      for it. */
    method TypeAddress(value: string)
      modifies this
      ensures formData == old(formData).(address := value)
      ensures addressSuggestions == AddressSuggestions(value)
    {
      formData := formData.(address := value);
      addressSuggestions := AddressSuggestions(value);
    }

    /** `handleAddressSelect`: the address is stored, the suggestions close, and the
      coordinates of the first matching city, if any, are filled in. */
    method SelectAddress(address: string)
      modifies this
      ensures formData == SelectedFields(old(formData), address)
      ensures addressSuggestions == []
    {
      formData := formData.(address := address);
      addressSuggestions := [];
      var found := FindCity(Cities, address, 0);
      if found.Some? {
        var c := Cities[found.value];
        formData := formData.(latitude := c.lat, longitude := c.lng);
      }
    }

    /** `handleSubmit`, given the current time in place of the clock. */
    method HandleSubmit(now: string) returns (saved: Option<SavedLocation>, toast: Toast)
      modifies this
      ensures !RequiredFilled(old(formData)) ==>
        saved == None && toast == MissingRequired && formData == old(formData)
      ensures RequiredFilled(old(formData)) ==>
        saved == Some(SavedLocation(old(formData), "active", now))
        && toast == LocationAdded && formData == EmptyFields
      ensures addressSuggestions == old(addressSuggestions)
    {
      if formData.name == "" || formData.kind == "" || formData.address == "" {
        return None, MissingRequired;
      }
      saved := Some(SavedLocation(formData, "active", now));
      toast := LocationAdded;
      formData := EmptyFields;
    }
  }
}
