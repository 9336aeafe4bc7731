/**
 * Properties of the DB-IP API location provider that relate several of its
 * operations or hold for all inputs: the shape of the location record, the
 * case-insensitivity of the region-code backfill, the agreement between the
 * record and the capability map, the database-type listing and the self-test.
 */
module DBIPApiProperties {
  import opened Wrappers
  import opened Php
  import opened DBIPApi

  // ---------------------------------------------------------------------
  // Result mapping
  // ---------------------------------------------------------------------

  /**
   * The five base keys are always present; latitude and longitude are both
   * present or both absent, as the response has `longitude` or not; the
   * region code is present exactly when the region name is, which is when
   * the response has `stateProv`; the other keys follow their own property.
   */
  lemma LocationKeys(resp: Response, regions: RegionTable)
    ensures BaseKeys <= LocationOf(resp, regions).Keys
    ensures Latitude in LocationOf(resp, regions) <==> resp.longitude.Some?
    ensures Longitude in LocationOf(resp, regions) <==> resp.longitude.Some?
    ensures RegionCode in LocationOf(resp, regions) <==> RegionName in LocationOf(resp, regions)
    ensures RegionName in LocationOf(resp, regions) <==> resp.stateProv.Some?
    ensures PostalCode in LocationOf(resp, regions) <==> resp.zipCode.Some?
    ensures Isp in LocationOf(resp, regions) <==> resp.isp.Some?
    ensures Org in LocationOf(resp, regions) <==> resp.organization.Some?
  {
  }

  /**
   * Every value is copied unchanged from the response (an absent base
   * property reads as null, and so does an absent latitude next to a present
   * longitude); the region code is the looked-up ISO code, always a string.
   */
  lemma LocationValues(resp: Response, regions: RegionTable)
    ensures LocationOf(resp, regions)[ContinentCode] == Read(resp.continentCode)
    ensures LocationOf(resp, regions)[ContinentName] == Read(resp.continentName)
    ensures LocationOf(resp, regions)[CountryCode] == Read(resp.countryCode)
    ensures LocationOf(resp, regions)[CountryName] == Read(resp.countryName)
    ensures LocationOf(resp, regions)[CityName] == Read(resp.city)
    ensures resp.longitude.Some? ==>
      && LocationOf(resp, regions)[Latitude] == Read(resp.latitude)
      && LocationOf(resp, regions)[Longitude] == resp.longitude.value
    ensures resp.zipCode.Some? ==> LocationOf(resp, regions)[PostalCode] == resp.zipCode.value
    ensures resp.isp.Some? ==> LocationOf(resp, regions)[Isp] == resp.isp.value
    ensures resp.organization.Some? ==> LocationOf(resp, regions)[Org] == resp.organization.value
    ensures resp.stateProv.Some? ==>
      && LocationOf(resp, regions)[RegionName] == resp.stateProv.value
      && LocationOf(resp, regions)[RegionCode] ==
           Str(RegionCodeOf(regions, resp.stateProv.value, Read(resp.countryCode)))
  {
  }

  // ---------------------------------------------------------------------
  // Region-code backfill
  // ---------------------------------------------------------------------

  /** Two region names with the same lower-cased form find the same first match. */
  lemma {:induction false} FirstMatchCaseInsensitive(entry: seq<(string, string)>, a: string, b: string)
    requires Lower(a) == Lower(b)
    ensures FirstMatch(entry, Str(a)) == FirstMatch(entry, Str(b))
    decreases |entry|
  {
    if entry != [] {
      FirstMatchCaseInsensitive(entry[1..], a, b);
    }
  }

  /** The region code depends on the region name only through its lower-cased form. */
  lemma RegionCodeCaseInsensitive(regions: RegionTable, a: string, b: string, countryCode: Value)
    requires Lower(a) == Lower(b)
    ensures RegionCodeOf(regions, Str(a), countryCode) == RegionCodeOf(regions, Str(b), countryCode)
  {
    match StringOf(countryCode)
    case None =>
    case Some(country) =>
      if country in regions {
        FirstMatchCaseInsensitive(regions[country], a, b);
      }
  }

  /**
   * Upper-casing or lower-casing the region name does not change its ISO code.
   * This rests on the ASCII case mapping of `Php.Lower` and `Php.Upper`.
   */
  lemma RegionCodeIgnoresCase(regions: RegionTable, name: string, countryCode: Value)
    ensures RegionCodeOf(regions, Str(Upper(name)), countryCode) == RegionCodeOf(regions, Str(name), countryCode)
    ensures RegionCodeOf(regions, Str(Lower(name)), countryCode) == RegionCodeOf(regions, Str(name), countryCode)
  {
    LowerOfUpper(name);
    RegionCodeCaseInsensitive(regions, Upper(name), name, countryCode);
    LowerIdempotent(name);
    RegionCodeCaseInsensitive(regions, Lower(name), name, countryCode);
  }

  // ---------------------------------------------------------------------
  // Capability map
  // ---------------------------------------------------------------------

  /**
   * For one response, the capability map flags exactly the keys of the
   * location record, and every flag is `true`. Both specification functions
   * range over `ReportedKeys`, so this holds by their definitions; what ties
   * the two PHP methods together is that `GetLocation` and
   * `GetSupportedLocationInfo` are each proved against them.
   */
  lemma CapabilitiesMatchLocation(resp: Response, regions: RegionTable)
    ensures Capabilities(resp).Keys == LocationOf(resp, regions).Keys
    ensures forall k :: k in Capabilities(resp) ==> Capabilities(resp)[k]
  {
  }

  // ---------------------------------------------------------------------
  // Database-type listing
  // ---------------------------------------------------------------------

  /** A type is in the listing exactly when it is in the order and its flag is set and true. */
  lemma {:induction false} ListedAmongMembers(caps: map<Key, bool>, order: seq<DatabaseType>, t: DatabaseType)
    ensures t in ListedAmong(caps, order) <==> t in order && Listed(caps, t)
    decreases |order|
  {
    if order != [] {
      ListedAmongMembers(caps, order[1..], t);
      assert order == [order[0]] + order[1..];
    }
  }

  /** Types in strictly increasing rank. */
  predicate Ascending(types: seq<DatabaseType>) {
    forall i, j :: 0 <= i < j < |types| ==> Rank(types[i]) < Rank(types[j])
  }

  /** The listing keeps the order it filters. */
  lemma {:induction false} ListedAmongAscending(caps: map<Key, bool>, order: seq<DatabaseType>)
    requires Ascending(order)
    ensures Ascending(ListedAmong(caps, order))
    decreases |order|
  {
    if order != [] {
      var rest := ListedAmong(caps, order[1..]);
      ListedAmongAscending(caps, order[1..]);
      forall t | t in rest ensures Rank(order[0]) < Rank(t) {
        ListedAmongMembers(caps, order[1..], t);
      }
      if Listed(caps, order[0]) {
        var types := [order[0]] + rest;
        forall i, j | 0 <= i < j < |types| ensures Rank(types[i]) < Rank(types[j]) {
          if i == 0 {
            assert types[j] == rest[j - 1];
          } else {
            assert types[i] == rest[i - 1] && types[j] == rest[j - 1];
          }
        }
      }
    }
  }

  /**
   * `getInfo` lists a database type exactly when its flag is set and true,
   * in the fixed order City, Region, Country, ISP.
   */
  lemma DatabaseTypesListed(caps: map<Key, bool>)
    ensures forall t :: t in DatabaseTypes(caps) <==> Listed(caps, t)
    ensures Ascending(DatabaseTypes(caps))
  {
    forall t ensures t in DatabaseTypes(caps) <==> Listed(caps, t) {
      ListedAmongMembers(caps, ListingOrder, t);
      assert t in ListingOrder by {
        match t
        case City => assert ListingOrder[0] == City;
        case Region => assert ListingOrder[1] == Region;
        case Country => assert ListingOrder[2] == Country;
        case IspDatabase => assert ListingOrder[3] == IspDatabase;
      }
    }
    ListedAmongAscending(caps, ListingOrder);
  }

  /**
   * For the capability map of a response: City and Country are always
   * listed, Region exactly when the response has `stateProv`, ISP exactly
   * when it has `isp`; so the note of `getInfo` is never empty after a
   * successful probe.
   */
  lemma DatabaseTypesOfResponse(resp: Response)
    ensures DatabaseTypes(Capabilities(resp)) ==
      [City] + (if resp.stateProv.Some? then [Region] else [])
      + [Country] + (if resp.isp.Some? then [IspDatabase] else [])
    ensures DatabaseTypes(Capabilities(resp)) != []
  {
    DatabaseTypesUnfolded(Capabilities(resp));
  }

  // ---------------------------------------------------------------------
  // Self-test
  // ---------------------------------------------------------------------

  /** One truthy base field in the test address's answer is enough for the self-test to pass. */
  lemma TruthyBaseFieldPasses(resp: Response, regions: RegionTable)
    requires
      || Truthy(Read(resp.continentCode)) || Truthy(Read(resp.continentName))
      || Truthy(Read(resp.countryCode)) || Truthy(Read(resp.countryName))
      || Truthy(Read(resp.city))
    ensures TestVerdict(Record(LocationOf(resp, regions))) == Working
  {
    var m := LocationOf(resp, regions);
    LocationValues(resp, regions);
    LocationKeys(resp, regions);
    if Truthy(Read(resp.continentCode)) {
      assert ContinentCode in m && Truthy(m[ContinentCode]);
    } else if Truthy(Read(resp.continentName)) {
      assert ContinentName in m && Truthy(m[ContinentName]);
    } else if Truthy(Read(resp.countryCode)) {
      assert CountryCode in m && Truthy(m[CountryCode]);
    } else if Truthy(Read(resp.countryName)) {
      assert CountryName in m && Truthy(m[CountryName]);
    } else {
      assert CityName in m && Truthy(m[CityName]);
    }
  }

  /**
   * An answer with no optional property and only empty base fields leaves
   * nothing after filtering: the self-test reports that the test address
   * could not be located.
   */
  lemma EmptyAnswerFails(resp: Response, regions: RegionTable)
    requires resp.stateProv.None? && resp.longitude.None? && resp.zipCode.None?
    requires resp.isp.None? && resp.organization.None?
    requires !Truthy(Read(resp.continentCode)) && !Truthy(Read(resp.continentName))
    requires !Truthy(Read(resp.countryCode)) && !Truthy(Read(resp.countryName))
    requires !Truthy(Read(resp.city))
    ensures TestVerdict(Record(LocationOf(resp, regions))) == NotWorking(TestIpLocatorFailed(TestIp))
  {
    var m := LocationOf(resp, regions);
    LocationValues(resp, regions);
    LocationKeys(resp, regions);
    forall k | k in m ensures !Truthy(m[k]) {
      assert k in BaseKeys;
    }
  }
}
