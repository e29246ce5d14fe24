/** `ApplicationData`: the local lists of countries and cities, the requests
    sent to the CloudKit database and the handlers that run when the server
    answers. The server's answers and the fresh UUID are parameters. */
module ApplicationModel {
  import opened Records
  import opened Text

  const CountriesType := "Countries"
  const CitiesType := "Cities"
  const CountryIDPrefix := "idcountry-"
  const CityIDPrefix := "idcity-"
  const CountryNameKey := "countryName"
  const CityNameKey := "cityName"
  /** The field of a city that refers to its country. */
  const CountryKey := "country"

  predicate IsPrefix(p: string, s: string)
  {
    |p| <= |s| && s[..|p|] == p
  }

  /** The record `insertCountry(name:)` asks the server to save; `None` when
      the trimmed name is empty, in which case nothing is saved. */
  function NewCountry(name: string, uuid: string): (r: Option<Record>)
    ensures r.None? <==> AllWhitespace(name)
    ensures r.Some? ==>
      && r.value.recordType == CountriesType
      && IsPrefix(CountryIDPrefix, r.value.recordID.recordName)
      && r.value.recordID.recordName[|CountryIDPrefix|..] == uuid
      && r.value.fields == map[CountryNameKey := Text(Trim(name))]
  {
    var text := Trim(name);
    if text != "" then
      Some(Record(CountriesType, RecordID(CountryIDPrefix + uuid), map[CountryNameKey := Text(text)]))
    else
      None
  }

  /** What `insertCity(name:)` builds before it saves. */
  datatype CityDraft =
    | BlankName
      /** The name is not blank and no country is selected: the source
          force-unwraps `selectedCountry` here and stops the program. */
    | NoSelectedCountry
    | CityRecord(record: Record)

  /** The city record `insertCity(name:)` asks the server to save, for the
      country selected at that moment. */
  function NewCity(name: string, uuid: string, selectedCountry: Option<RecordID>): (r: CityDraft)
    ensures r.BlankName? <==> AllWhitespace(name)
    ensures r.NoSelectedCountry? <==> !AllWhitespace(name) && selectedCountry.None?
    ensures r.CityRecord? ==>
      && r.record.recordType == CitiesType
      && IsPrefix(CityIDPrefix, r.record.recordID.recordName)
      && r.record.recordID.recordName[|CityIDPrefix|..] == uuid
      && r.record.fields.Keys == {CityNameKey, CountryKey}
      && r.record.fields[CityNameKey] == Text(Trim(name))
      && r.record.fields[CountryKey] == Ref(Reference(selectedCountry.value, DeleteSelf))
  {
    var text := Trim(name);
    if text == "" then
      BlankName
    else if selectedCountry.None? then
      NoSelectedCountry
    else
      var reference := Reference(selectedCountry.value, DeleteSelf);
      CityRecord(Record(CitiesType, RecordID(CityIDPrefix + uuid),
                        map[CityNameKey := Text(text), CountryKey := Ref(reference)]))
  }

  /** A country record and a city record never share a record ID, whatever
      UUIDs they were given. */
  lemma CountryAndCityIDsDiffer(countryName: string, countryUUID: string,
                                cityName: string, cityUUID: string, selectedCountry: Option<RecordID>)
    requires NewCountry(countryName, countryUUID).Some?
    requires NewCity(cityName, cityUUID, selectedCountry).CityRecord?
    ensures NewCountry(countryName, countryUUID).value.recordID
            != NewCity(cityName, cityUUID, selectedCountry).record.recordID
  {
    var country := NewCountry(countryName, countryUUID).value.recordID.recordName;
    var city := NewCity(cityName, cityUUID, selectedCountry).record.recordID.recordName;
    assert country[3] == CountryIDPrefix[3] == 'o';
    assert city[3] == CityIDPrefix[3] == 'i';
  }

  /** Two countries built with different UUIDs have different record IDs. */
  lemma CountryIDsDistinct(name1: string, uuid1: string, name2: string, uuid2: string)
    requires NewCountry(name1, uuid1).Some? && NewCountry(name2, uuid2).Some?
    requires uuid1 != uuid2
    ensures NewCountry(name1, uuid1).value.recordID != NewCountry(name2, uuid2).value.recordID
  {
  }

  /** Two cities built with different UUIDs have different record IDs. */
  lemma CityIDsDistinct(name1: string, uuid1: string, name2: string, uuid2: string,
                        selectedCountry: Option<RecordID>)
    requires NewCity(name1, uuid1, selectedCountry).CityRecord?
    requires NewCity(name2, uuid2, selectedCountry).CityRecord?
    requires uuid1 != uuid2
    ensures NewCity(name1, uuid1, selectedCountry).record.recordID
            != NewCity(name2, uuid2, selectedCountry).record.recordID
  {
  }

  /** The server's answer to `database.save`: the saved record, which the
      handler does not use, or an error. */
  datatype SaveOutcome = Saved(recordSaved: Option<Record>) | SaveFailed

  /** The `NSPredicate` of a query. */
  datatype QueryPredicate = TruePredicate | CountryIs(country: RecordID)

  datatype Query = Query(recordType: string, filter: QueryPredicate)

  /** The server's answer to `database.perform`: an error, or the records
      (which may be absent even without an error). */
  datatype QueryOutcome = QueryFailed | QueryAnswered(records: Option<seq<Record>>)

  /** The `country` field of `r` refers to `country`. */
  predicate RefersTo(r: Record, country: RecordID)
  {
    CountryKey in r.fields && r.fields[CountryKey].Ref?
    && r.fields[CountryKey].reference.recordID == country
  }

  /** A record the server returns for query `q`. */
  predicate Matches(q: Query, r: Record)
  {
    && r.recordType == q.recordType
    && match q.filter
       case TruePredicate => true
       case CountryIs(country) => RefersTo(r, country)
  }

  /** Every record of the answer matches the query. */
  predicate Honours(q: Query, outcome: QueryOutcome)
  {
    outcome.QueryAnswered? && outcome.records.Some? ==>
      forall r :: r in outcome.records.value ==> Matches(q, r)
  }

  /** The query of `readCountries`: every record of type Countries. */
  const CountriesQuery := Query(CountriesType, TruePredicate)

  /** The query of `readCities`: the cities of the selected country, or no
      query at all when no country is selected. */
  function CitiesQuery(selectedCountry: Option<RecordID>): (q: Option<Query>)
    ensures q.None? <==> selectedCountry.None?
    ensures q.Some? ==> forall r :: Matches(q.value, r) <==>
      r.recordType == CitiesType && RefersTo(r, selectedCountry.value)
  {
    match selectedCountry
    case None => None
    case Some(country) => Some(Query(CitiesType, CountryIs(country)))
  }

  /** A saved country is among the records `readCountries` asks for. */
  lemma NewCountryIsQueried(name: string, uuid: string)
    requires NewCountry(name, uuid).Some?
    ensures Matches(CountriesQuery, NewCountry(name, uuid).value)
  {
  }

  /** A saved city is among the records `readCities` asks for while the same
      country is selected. */
  lemma NewCityIsQueried(name: string, uuid: string, selectedCountry: Option<RecordID>)
    requires NewCity(name, uuid, selectedCountry).CityRecord?
    ensures CitiesQuery(selectedCountry).Some?
    ensures Matches(CitiesQuery(selectedCountry).value, NewCity(name, uuid, selectedCountry).record)
  {
  }

  class ApplicationData {
    /** The country the user picked; `nil` until one is picked. */
    var selectedCountry: Option<RecordID>
    var listCountries: seq<Record>
    var listCities: seq<Record>

    constructor ()
      ensures selectedCountry == None && listCountries == [] && listCities == []
      ensures Valid()
    {
      selectedCountry := None;
      listCountries := [];
      listCities := [];
    }

    /** The list invariant: every listed country is a record `readCountries`
        asks for (type Countries), and every listed city has type Cities. The
        constructor establishes it and every `Insert*`/`Read*` method keeps it
        (the `Read*` methods when the server honours the query); no operation
        needs it as a precondition. */
    ghost predicate Valid()
      reads this
    {
      && (forall r :: r in listCountries ==> Matches(CountriesQuery, r))
      && (forall r :: r in listCities ==> r.recordType == CitiesType)
    }

    /** The completion handler of `database.save` in `insertCountry`: on
        success the record that was sent (not the one the server returned) is
        appended and the interface is told to update. */
    method CountrySaveCompleted(record: Record, outcome: SaveOutcome) returns (updateInterface: bool)
      modifies this`listCountries
      ensures listCountries == if outcome.Saved? then old(listCountries) + [record] else old(listCountries)
      ensures updateInterface <==> outcome.Saved?
    {
      if outcome.SaveFailed? {
        updateInterface := false;
      } else {
        listCountries := listCountries + [record];
        updateInterface := true;
      }
    }

    /** `insertCountry(name:)`, with the server's answer given as `outcome`. */
    method InsertCountry(name: string, uuid: string, outcome: SaveOutcome)
      returns (request: Option<Record>, updateInterface: bool)
      modifies this`listCountries
      ensures request == NewCountry(name, uuid)
      ensures AllWhitespace(name) ==> listCountries == old(listCountries) && !updateInterface
      ensures request.Some? && outcome.Saved? ==> listCountries == old(listCountries) + [request.value]
      ensures outcome.SaveFailed? ==> listCountries == old(listCountries)
      ensures updateInterface <==> request.Some? && outcome.Saved?
      ensures old(Valid()) ==> Valid()
    {
      request := NewCountry(name, uuid);
      updateInterface := false;
      if request.Some? {
        updateInterface := CountrySaveCompleted(request.value, outcome);
      }
    }

    /** The completion handler of `database.save` in `insertCity`. */
    method CitySaveCompleted(record: Record, outcome: SaveOutcome) returns (updateInterface: bool)
      modifies this`listCities
      ensures listCities == if outcome.Saved? then old(listCities) + [record] else old(listCities)
      ensures updateInterface <==> outcome.Saved?
    {
      if outcome.SaveFailed? {
        updateInterface := false;
      } else {
        listCities := listCities + [record];
        updateInterface := true;
      }
    }

    /** `insertCity(name:)`, with the server's answer given as `outcome`. */
    method InsertCity(name: string, uuid: string, outcome: SaveOutcome)
      returns (request: Option<Record>, updateInterface: bool)
      requires selectedCountry.Some? || AllWhitespace(name)
      modifies this`listCities
      ensures NewCity(name, uuid, selectedCountry).CityRecord? <==> request.Some?
      ensures request.Some? ==> request.value == NewCity(name, uuid, selectedCountry).record
      ensures AllWhitespace(name) ==> listCities == old(listCities) && !updateInterface
      ensures request.Some? && outcome.Saved? ==> listCities == old(listCities) + [request.value]
      ensures outcome.SaveFailed? ==> listCities == old(listCities)
      ensures updateInterface <==> request.Some? && outcome.Saved?
      ensures old(Valid()) ==> Valid()
    {
      var draft := NewCity(name, uuid, selectedCountry);
      request := None;
      updateInterface := false;
      if draft.CityRecord? {
        request := Some(draft.record);
        updateInterface := CitySaveCompleted(draft.record, outcome);
      }
    }

    /** The completion handler of `database.perform` in `readCountries`: on
        an answer with records the list is emptied and refilled in the order
        received. */
    method CountriesReceived(outcome: QueryOutcome) returns (updateInterface: bool)
      modifies this`listCountries
      ensures outcome.QueryAnswered? && outcome.records.Some? ==> listCountries == outcome.records.value
      ensures !(outcome.QueryAnswered? && outcome.records.Some?) ==> listCountries == old(listCountries)
      ensures updateInterface <==> outcome.QueryAnswered? && outcome.records.Some?
    {
      updateInterface := false;
      if outcome.QueryAnswered? && outcome.records.Some? {
        var list := outcome.records.value;
        listCountries := [];
        for i := 0 to |list|
          invariant listCountries == list[..i]
        {
          listCountries := listCountries + [list[i]];
        }
        updateInterface := true;
      }
    }

    /** `readCountries()`, with the server's answer given as `outcome`. */
    method ReadCountries(outcome: QueryOutcome) returns (query: Query, updateInterface: bool)
      modifies this`listCountries
      ensures query == CountriesQuery
      ensures outcome.QueryAnswered? && outcome.records.Some? ==> listCountries == outcome.records.value
      ensures !(outcome.QueryAnswered? && outcome.records.Some?) ==> listCountries == old(listCountries)
      ensures updateInterface <==> outcome.QueryAnswered? && outcome.records.Some?
      ensures old(Valid()) && Honours(query, outcome) ==> Valid()
    {
      query := CountriesQuery;
      updateInterface := CountriesReceived(outcome);
    }

    /** The completion handler of `database.perform` in `readCities`. */
    method CitiesReceived(outcome: QueryOutcome) returns (updateInterface: bool)
      modifies this`listCities
      ensures outcome.QueryAnswered? && outcome.records.Some? ==> listCities == outcome.records.value
      ensures !(outcome.QueryAnswered? && outcome.records.Some?) ==> listCities == old(listCities)
      ensures updateInterface <==> outcome.QueryAnswered? && outcome.records.Some?
    {
      updateInterface := false;
      if outcome.QueryAnswered? && outcome.records.Some? {
        var list := outcome.records.value;
        listCities := [];
        for i := 0 to |list|
          invariant listCities == list[..i]
        {
          listCities := listCities + [list[i]];
        }
        updateInterface := true;
      }
    }

    /** `readCities()`, with the server's answer given as `outcome`; without a
        selected country no query is sent and nothing changes. */
    method ReadCities(outcome: QueryOutcome) returns (query: Option<Query>, updateInterface: bool)
      modifies this`listCities
      ensures query == CitiesQuery(selectedCountry)
      ensures selectedCountry.None? ==> listCities == old(listCities) && !updateInterface
      ensures query.Some? && outcome.QueryAnswered? && outcome.records.Some? ==>
        listCities == outcome.records.value
      ensures query.Some? && !(outcome.QueryAnswered? && outcome.records.Some?) ==>
        listCities == old(listCities)
      ensures updateInterface <==> query.Some? && outcome.QueryAnswered? && outcome.records.Some?
      ensures old(Valid()) && (query.Some? ==> Honours(query.value, outcome)) ==> Valid()
    {
      query := CitiesQuery(selectedCountry);
      updateInterface := false;
      if selectedCountry.Some? {
        updateInterface := CitiesReceived(outcome);
      }
    }
  }
}
