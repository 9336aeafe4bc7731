/**
 * The DB-IP API location provider: it turns the answer of the DB-IP lookup
 * service into a location record, backfills the ISO region code from a
 * per-country table of region names, reports which fields it can supply,
 * tests itself against a fixed IP address and describes itself to the host.
 *
 * The lookup service is a parameter: a function from an IP address to either
 * the decoded response or the message of the exception the client threw.
 */
module DBIPApi {
  import opened Wrappers
  import opened Php

  const Id: string := "dbipapi"
  const Title: string := "db-ip.com API"
  /** The address used for the self-test and for probing the capabilities. */
  const TestIp: string := "194.57.91.215"
  /** Where the host ranks this provider among the others. */
  const Order: int := 15

  /** The keys of a location record, as the host defines them. */
  datatype Key =
    | ContinentCode | ContinentName | CountryCode | CountryName
    | RegionCode | RegionName | CityName
    | Latitude | Longitude | PostalCode | Isp | Org

  const AllKeys: set<Key> := {
    ContinentCode, ContinentName, CountryCode, CountryName, RegionCode, RegionName,
    CityName, Latitude, Longitude, PostalCode, Isp, Org }

  /** The keys every successful lookup produces, whatever the response holds. */
  const BaseKeys: set<Key> := {ContinentCode, ContinentName, CountryCode, CountryName, CityName}

  /**
   * The decoded answer of the lookup service: each property is `None` when
   * the response object does not have it and `Some` otherwise (possibly
   * holding null).
   */
  datatype Response = Response(
    continentCode: Option<Value>,
    continentName: Option<Value>,
    countryCode: Option<Value>,
    countryName: Option<Value>,
    city: Option<Value>,
    stateProv: Option<Value>,
    latitude: Option<Value>,
    longitude: Option<Value>,
    zipCode: Option<Value>,
    isp: Option<Value>,
    organization: Option<Value>)

  /** The lookup service: an IP address to a response, or the message of a thrown exception. */
  type Lookup = string -> Result<Response, string>

  /** Per country code, the region table in order: pairs of ISO region code and region name. */
  type RegionTable = map<string, seq<(string, string)>>

  /** What `getLocation` returns: `false`, or a location record. */
  datatype LocationResult = NoLocation | Record(fields: map<Key, Value>)

  /** Reading a property: an absent property reads as null. */
  function Read(property: Option<Value>): Value {
    property.GetOr(Null)
  }

  // ---------------------------------------------------------------------
  // Region-code backfill
  // ---------------------------------------------------------------------

  /** A table name matches the region name when both agree after lower-casing. */
  predicate NameMatches(name: string, regionName: Value) {
    match StringOf(regionName)
    case Some(s) => Lower(name) == Lower(s)
    case None => false
  }

  /** No entry of the country's table matches `regionName`. */
  predicate NoMatch(entry: seq<(string, string)>, regionName: Value) {
    forall j :: 0 <= j < |entry| ==> !NameMatches(entry[j].1, regionName)
  }

  /** Entry `i` matches `regionName` and no earlier entry does. */
  predicate IsFirstMatch(entry: seq<(string, string)>, regionName: Value, i: int) {
    && 0 <= i < |entry|
    && NameMatches(entry[i].1, regionName)
    && forall j :: 0 <= j < i ==> !NameMatches(entry[j].1, regionName)
  }

  /** The position of the first entry, in table order, whose name matches `regionName`. */
  function FirstMatch(entry: seq<(string, string)>, regionName: Value): (i: Option<nat>)
    ensures i.Some? ==> IsFirstMatch(entry, regionName, i.value)
    ensures i.None? ==> NoMatch(entry, regionName)
    decreases |entry|
  {
    if entry == [] then None
    else if NameMatches(entry[0].1, regionName) then Some(0)
    else
      match FirstMatch(entry[1..], regionName)
      case None => None
      case Some(k) => Some(k + 1)
  }

  /**
   * The ISO code of the region called `regionName` in the country
   * `countryCode`: the code of the first matching entry of that country's
   * table, or '' when the country has no (or an empty) entry or no name matches.
   */
  function RegionCodeOf(regions: RegionTable, regionName: Value, countryCode: Value): (code: string)
    ensures StringOf(countryCode).None? ==> code == ""
    ensures StringOf(countryCode).Some? && StringOf(countryCode).value !in regions ==> code == ""
    ensures StringOf(countryCode).Some? && StringOf(countryCode).value in regions ==>
      NoMatch(regions[StringOf(countryCode).value], regionName) ==> code == ""
    ensures StringOf(countryCode).Some? && StringOf(countryCode).value in regions ==>
      forall i :: IsFirstMatch(regions[StringOf(countryCode).value], regionName, i) ==>
        code == regions[StringOf(countryCode).value][i].0
  {
    match StringOf(countryCode)
    case None => ""
    case Some(country) =>
      if country !in regions || regions[country] == [] then ""
      else
        match FirstMatch(regions[country], regionName)
        case None => ""
        case Some(i) => regions[country][i].0
  }

  /** The table lookup of `determineRegionIsoCodeByNameAndCountryCode`, entry by entry. */
  method DetermineRegionIsoCode(regions: RegionTable, regionName: Value, countryCode: Value)
    returns (code: string)
    ensures code == RegionCodeOf(regions, regionName, countryCode)
  {
    var country := StringOf(countryCode);
    if country.None? || country.value !in regions || regions[country.value] == [] {
      return "";
    }
    var entry := regions[country.value];
    var i := 0;
    while i < |entry|
      invariant 0 <= i <= |entry|
      invariant forall j :: 0 <= j < i ==> !NameMatches(entry[j].1, regionName)
    {
      if NameMatches(entry[i].1, regionName) {
        return entry[i].0;
      }
      i := i + 1;
    }
    return "";
  }

  // ---------------------------------------------------------------------
  // Result mapping
  // ---------------------------------------------------------------------

  /** Whether a response leads to key `k` in the record and in the capability map. */
  predicate Reported(resp: Response, k: Key) {
    match k
    case ContinentCode | ContinentName | CountryCode | CountryName | CityName => true
    case Latitude | Longitude => resp.longitude.Some?
    case RegionName | RegionCode => resp.stateProv.Some?
    case PostalCode => resp.zipCode.Some?
    case Isp => resp.isp.Some?
    case Org => resp.organization.Some?
  }

  /** The keys a response gives rise to. */
  function ReportedKeys(resp: Response): set<Key> {
    set k | k in AllKeys && Reported(resp, k)
  }

  /** The value stored under key `k` of the record built from `resp`. */
  function FieldValue(resp: Response, regions: RegionTable, k: Key): Value {
    match k
    case ContinentCode => Read(resp.continentCode)
    case ContinentName => Read(resp.continentName)
    case CountryCode => Read(resp.countryCode)
    case CountryName => Read(resp.countryName)
    case CityName => Read(resp.city)
    case Latitude => Read(resp.latitude)
    case Longitude => Read(resp.longitude)
    case PostalCode => Read(resp.zipCode)
    case Isp => Read(resp.isp)
    case Org => Read(resp.organization)
    case RegionName => Read(resp.stateProv)
    case RegionCode => Str(RegionCodeOf(regions, Read(resp.stateProv), Read(resp.countryCode)))
  }

  /** The location record for a response: each reported key with its value. */
  function LocationOf(resp: Response, regions: RegionTable): map<Key, Value> {
    map k | k in ReportedKeys(resp) :: FieldValue(resp, regions, k)
  }

  /**
   * The same record assembled as `getLocation` assembles it: the five base
   * keys, then each optional group of keys under its presence test.
   */
  ghost function StagedLocation(resp: Response, regions: RegionTable): map<Key, Value> {
    var base := map[
      ContinentCode := Read(resp.continentCode), ContinentName := Read(resp.continentName),
      CountryCode := Read(resp.countryCode), CountryName := Read(resp.countryName),
      CityName := Read(resp.city)];
    var coordinates :=
      if resp.longitude.Some? then base[Latitude := Read(resp.latitude)][Longitude := resp.longitude.value]
      else base;
    var postal := if resp.zipCode.Some? then coordinates[PostalCode := resp.zipCode.value] else coordinates;
    var isp := if resp.isp.Some? then postal[Isp := resp.isp.value] else postal;
    var org := if resp.organization.Some? then isp[Org := resp.organization.value] else isp;
    if resp.stateProv.Some? then
      var code := RegionCodeOf(regions, resp.stateProv.value, Read(resp.countryCode));
      org[RegionName := resp.stateProv.value][RegionCode := Str(code)]
    else org
  }

  /** Key `k` is in `m` exactly when the response reports it, holding the record's value. */
  ghost predicate EntryAgrees(m: map<Key, Value>, resp: Response, regions: RegionTable, k: Key) {
    && (k in m <==> Reported(resp, k))
    && (k in m ==> m[k] == FieldValue(resp, regions, k))
  }

  lemma StagedContinentEntries(resp: Response, regions: RegionTable)
    ensures EntryAgrees(StagedLocation(resp, regions), resp, regions, ContinentCode)
    ensures EntryAgrees(StagedLocation(resp, regions), resp, regions, ContinentName)
  {
  }

  lemma StagedCountryEntries(resp: Response, regions: RegionTable)
    ensures EntryAgrees(StagedLocation(resp, regions), resp, regions, CountryCode)
    ensures EntryAgrees(StagedLocation(resp, regions), resp, regions, CountryName)
    ensures EntryAgrees(StagedLocation(resp, regions), resp, regions, CityName)
  {
  }

  lemma StagedCoordinateEntries(resp: Response, regions: RegionTable)
    ensures EntryAgrees(StagedLocation(resp, regions), resp, regions, Latitude)
    ensures EntryAgrees(StagedLocation(resp, regions), resp, regions, Longitude)
    ensures EntryAgrees(StagedLocation(resp, regions), resp, regions, PostalCode)
  {
  }

  lemma StagedNetworkEntries(resp: Response, regions: RegionTable)
    ensures EntryAgrees(StagedLocation(resp, regions), resp, regions, Isp)
    ensures EntryAgrees(StagedLocation(resp, regions), resp, regions, Org)
  {
  }

  lemma StagedRegionEntries(resp: Response, regions: RegionTable)
    ensures EntryAgrees(StagedLocation(resp, regions), resp, regions, RegionName)
    ensures EntryAgrees(StagedLocation(resp, regions), resp, regions, RegionCode)
  {
  }

  /** A map that agrees with the record built from `resp` key by key is that record. */
  lemma AgreeingRecord(m: map<Key, Value>, resp: Response, regions: RegionTable)
    requires EntryAgrees(m, resp, regions, ContinentCode) && EntryAgrees(m, resp, regions, ContinentName)
    requires EntryAgrees(m, resp, regions, CountryCode) && EntryAgrees(m, resp, regions, CountryName)
    requires EntryAgrees(m, resp, regions, CityName) && EntryAgrees(m, resp, regions, Latitude)
    requires EntryAgrees(m, resp, regions, Longitude) && EntryAgrees(m, resp, regions, PostalCode)
    requires EntryAgrees(m, resp, regions, Isp) && EntryAgrees(m, resp, regions, Org)
    requires EntryAgrees(m, resp, regions, RegionName) && EntryAgrees(m, resp, regions, RegionCode)
    ensures m == LocationOf(resp, regions)
  {
    forall k ensures k in AllKeys && EntryAgrees(m, resp, regions, k) {
      match k
      case ContinentCode =>
      case ContinentName =>
      case CountryCode =>
      case CountryName =>
      case CityName =>
      case Latitude =>
      case Longitude =>
      case PostalCode =>
      case Isp =>
      case Org =>
      case RegionName =>
      case RegionCode =>
    }
    assert m.Keys == LocationOf(resp, regions).Keys;
  }

  /** Assembling the record group by group yields exactly the record of reported keys. */
  lemma StagedLocationIsLocation(resp: Response, regions: RegionTable)
    ensures StagedLocation(resp, regions) == LocationOf(resp, regions)
  {
    StagedContinentEntries(resp, regions);
    StagedCountryEntries(resp, regions);
    StagedCoordinateEntries(resp, regions);
    StagedNetworkEntries(resp, regions);
    StagedRegionEntries(resp, regions);
    AgreeingRecord(StagedLocation(resp, regions), resp, regions);
  }

  /**
   * `getLocation`: `false` for an address that is empty in PHP's sense
   * (`''` or `'0'`), before and without any lookup; otherwise the record
   * built from the lookup's answer, or the exception the lookup threw.
   */
  method GetLocation(ip: string, lookup: Lookup, regions: RegionTable)
    returns (r: Result<LocationResult, string>)
    ensures !Truthy(Str(ip)) ==> r == Success(NoLocation)
    ensures Truthy(Str(ip)) && lookup(ip).Failure? ==> r == Failure(lookup(ip).error)
    ensures Truthy(Str(ip)) && lookup(ip).Success? ==> r == Success(Record(LocationOf(lookup(ip).value, regions)))
  {
    if !Truthy(Str(ip)) {
      return Success(NoLocation);
    }
    var addrInfo :- lookup(ip);
    var result: map<Key, Value> := map[];
    result := result[ContinentCode := Read(addrInfo.continentCode)];
    result := result[ContinentName := Read(addrInfo.continentName)];
    result := result[CountryCode := Read(addrInfo.countryCode)];
    result := result[CountryName := Read(addrInfo.countryName)];
    result := result[CityName := Read(addrInfo.city)];
    if addrInfo.longitude.Some? {
      result := result[Latitude := Read(addrInfo.latitude)];
      result := result[Longitude := addrInfo.longitude.value];
    }
    if addrInfo.zipCode.Some? {
      result := result[PostalCode := addrInfo.zipCode.value];
    }
    if addrInfo.isp.Some? {
      result := result[Isp := addrInfo.isp.value];
    }
    if addrInfo.organization.Some? {
      result := result[Org := addrInfo.organization.value];
    }
    if addrInfo.stateProv.Some? {
      result := result[RegionName := addrInfo.stateProv.value];
      var code := DetermineRegionIsoCode(regions, addrInfo.stateProv.value, Read(addrInfo.countryCode));
      result := result[RegionCode := Str(code)];
    }
    assert result == StagedLocation(addrInfo, regions);
    StagedLocationIsLocation(addrInfo, regions);
    return Success(Record(result));
  }

  // ---------------------------------------------------------------------
  // Capability map
  // ---------------------------------------------------------------------

  /** The capability map for a response to the test address: `true` under every reported key. */
  function Capabilities(resp: Response): map<Key, bool> {
    map k | k in ReportedKeys(resp) :: true
  }

  /** A map of `true` flags over exactly the reported keys is the capability map. */
  lemma CapabilitiesUnique(caps: map<Key, bool>, resp: Response)
    requires caps.Keys == ReportedKeys(resp)
    requires forall k :: k in caps ==> caps[k]
    ensures caps == Capabilities(resp)
  {
  }

  /** `getSupportedLocationInfo`: probes the test address and flags what its answer carries. */
  method GetSupportedLocationInfo(lookup: Lookup) returns (r: Result<map<Key, bool>, string>)
    ensures lookup(TestIp).Failure? ==> r == Failure(lookup(TestIp).error)
    ensures lookup(TestIp).Success? ==> r.Success?
    ensures r.Success? ==> r.value.Keys == ReportedKeys(lookup(TestIp).value)
    ensures r.Success? ==> forall k :: k in r.value ==> r.value[k]
  {
    var addrInfo :- lookup(TestIp);
    var result: map<Key, bool> := map[];
    result := result[ContinentCode := true];
    result := result[ContinentName := true];
    result := result[CountryCode := true];
    result := result[CountryName := true];
    result := result[CityName := true];
    if addrInfo.stateProv.Some? {
      result := result[RegionCode := true];
      result := result[RegionName := true];
    }
    if addrInfo.longitude.Some? {
      result := result[Latitude := true];
      result := result[Longitude := true];
    }
    if addrInfo.zipCode.Some? {
      result := result[PostalCode := true];
    }
    if addrInfo.isp.Some? {
      result := result[Isp := true];
    }
    if addrInfo.organization.Some? {
      result := result[Org := true];
    }
    return Success(result);
  }

  // ---------------------------------------------------------------------
  // Self-test
  // ---------------------------------------------------------------------

  /** Why the self-test failed: no usable data for the test address, or an exception's message. */
  datatype TestFailure = TestIpLocatorFailed(ip: string) | Thrown(message: string)

  /** What `isWorking` returns: `true`, or a message. */
  datatype Verdict = Working | NotWorking(reason: TestFailure)

  /** Some entry of the record survives `array_filter`. */
  predicate HasTruthyField(fields: map<Key, Value>) {
    exists k :: k in fields && Truthy(fields[k])
  }

  /**
   * The verdict on the test address's location: working exactly when
   * something truthy is left after filtering.
   */
  function TestVerdict(location: LocationResult): (v: Verdict)
    ensures v == Working <==> location.Record? && HasTruthyField(location.fields)
    ensures v != Working ==> v == NotWorking(TestIpLocatorFailed(TestIp))
  {
    match location
    case NoLocation => NotWorking(TestIpLocatorFailed(TestIp))
    case Record(fields) =>
      if ArrayFilter(fields) != map[] then Working
      else NotWorking(TestIpLocatorFailed(TestIp))
  }

  /** `isWorking`: locates the test address; an exception becomes its message. */
  method IsWorking(lookup: Lookup, regions: RegionTable) returns (v: Verdict)
    ensures lookup(TestIp).Failure? ==> v == NotWorking(Thrown(lookup(TestIp).error))
    ensures lookup(TestIp).Success? ==>
      (v == Working <==> HasTruthyField(LocationOf(lookup(TestIp).value, regions)))
    ensures lookup(TestIp).Success? && v != Working ==> v == NotWorking(TestIpLocatorFailed(TestIp))
  {
    var location := GetLocation(TestIp, lookup, regions);
    match location
    case Failure(message) =>
      v := NotWorking(Thrown(message));
    case Success(found) =>
      v := TestVerdict(found);
  }

  /** `isAvailable`: always `true`. */
  function IsAvailable(): (available: bool)
    ensures available
  {
    true
  }

  // ---------------------------------------------------------------------
  // Provider description
  // ---------------------------------------------------------------------

  /** The kinds of data the provider can announce, in the order it lists them. */
  datatype DatabaseType = City | Region | Country | IspDatabase

  /** The capability key that announces each database type. */
  function KeyOf(t: DatabaseType): Key {
    match t
    case City => CityName
    case Region => RegionCode
    case Country => CountryName
    case IspDatabase => Isp
  }

  /** A type is listed when its key is set in the capability map and its flag is true. */
  predicate Listed(caps: map<Key, bool>, t: DatabaseType) {
    KeyOf(t) in caps && caps[KeyOf(t)]
  }

  /** The order in which the provider lists the database types. */
  const ListingOrder: seq<DatabaseType> := [City, Region, Country, IspDatabase]

  /** Position of each type in `ListingOrder`. */
  function Rank(t: DatabaseType): nat {
    match t
    case City => 0
    case Region => 1
    case Country => 2
    case IspDatabase => 3
  }

  /** The types of `order`, in that order, that the capability map lists. */
  function ListedAmong(caps: map<Key, bool>, order: seq<DatabaseType>): seq<DatabaseType> {
    if order == [] then []
    else (if Listed(caps, order[0]) then [order[0]] else []) + ListedAmong(caps, order[1..])
  }

  /** The database types announced for a capability map. */
  function DatabaseTypes(caps: map<Key, bool>): seq<DatabaseType> {
    ListedAmong(caps, ListingOrder)
  }

  /** `DatabaseTypes` written out over the four types, as `getInfo` tests them. */
  lemma DatabaseTypesUnfolded(caps: map<Key, bool>)
    ensures DatabaseTypes(caps) ==
      (if Listed(caps, City) then [City] else [])
      + (if Listed(caps, Region) then [Region] else [])
      + (if Listed(caps, Country) then [Country] else [])
      + (if Listed(caps, IspDatabase) then [IspDatabase] else [])
  {
    var isp := if Listed(caps, IspDatabase) then [IspDatabase] else [];
    var country := if Listed(caps, Country) then [Country] else [];
    var region := if Listed(caps, Region) then [Region] else [];
    assert [IspDatabase][1..] == [];
    assert ListedAmong(caps, [IspDatabase]) == isp;
    assert [Country, IspDatabase][1..] == [IspDatabase];
    assert ListedAmong(caps, [Country, IspDatabase]) == country + isp;
    assert [Region, Country, IspDatabase][1..] == [Country, IspDatabase];
    assert ListedAmong(caps, [Region, Country, IspDatabase]) == region + (country + isp);
    assert ListingOrder[1..] == [Region, Country, IspDatabase];
  }

  /** The note shown with the provider: empty, or the list of types it has access to. */
  datatype ExtraMessage = NoExtraMessage | HasAccessTo(types: seq<DatabaseType>)

  /** The fields of `getInfo`'s answer that do not depend on translations. */
  datatype ProviderInfo = ProviderInfo(
    id: string,
    title: string,
    installDocs: string,
    extraMessage: ExtraMessage,
    order: int)

  /**
   * The quota report of the DB-IP client (`\DBIP\APIKey::info`). Its fields
   * only feed the translated description, which is not modelled.
   */
  datatype KeyInfo = KeyInfo(queriesLeft: Value, queriesPerDay: Value)

  /**
   * `getInfo`: the identity of the provider and the note listing what it can
   * supply. `keyInfo` is the outcome of the quota query, which happens first;
   * an exception it throws leaves `getInfo` before the probe is made.
   */
  method GetInfo(keyInfo: Result<KeyInfo, string>, lookup: Lookup) returns (r: Result<ProviderInfo, string>)
    ensures keyInfo.Failure? ==> r == Failure(keyInfo.error)
    ensures keyInfo.Success? && lookup(TestIp).Failure? ==> r == Failure(lookup(TestIp).error)
    ensures keyInfo.Success? && lookup(TestIp).Success? ==> r.Success?
    ensures r.Success? ==>
      && r.value.id == Id && r.value.title == Title && r.value.installDocs == "" && r.value.order == Order
    ensures r.Success? ==>
      var types := DatabaseTypes(Capabilities(lookup(TestIp).value));
      && (r.value.extraMessage == NoExtraMessage <==> types == [])
      && (r.value.extraMessage.HasAccessTo? ==> r.value.extraMessage.types == types)
  {
    var info :- keyInfo;
    var availableInfo :- GetSupportedLocationInfo(lookup);
    CapabilitiesUnique(availableInfo, lookup(TestIp).value);
    DatabaseTypesUnfolded(availableInfo);
    var availableDatabaseTypes: seq<DatabaseType> := [];
    if CityName in availableInfo && availableInfo[CityName] {
      availableDatabaseTypes := availableDatabaseTypes + [City];
    }
    if RegionCode in availableInfo && availableInfo[RegionCode] {
      availableDatabaseTypes := availableDatabaseTypes + [Region];
    }
    if CountryName in availableInfo && availableInfo[CountryName] {
      availableDatabaseTypes := availableDatabaseTypes + [Country];
    }
    if Isp in availableInfo && availableInfo[Isp] {
      availableDatabaseTypes := availableDatabaseTypes + [IspDatabase];
    }
    var extraMessage := NoExtraMessage;
    if availableDatabaseTypes != [] {
      extraMessage := HasAccessTo(availableDatabaseTypes);
    }
    return Success(ProviderInfo(Id, Title, "", extraMessage, Order));
  }
}
