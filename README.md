# DB-IP API location provider, modelled in Dafny

This model covers the location provider `LocationProvider/DBIPApi.php` of the Matomo plugin
LocationProviderDBIPApi. The provider resolves a visitor's IP address through the db-ip.com
lookup service and maps the answer onto the host's location record. The record has the keys
continent code and name, country code and name, region code and name, city, latitude,
longitude, postal code, ISP and organisation. Beyond that the provider:

- backfills the ISO region code by a case-insensitive search of a per-country table of
  region names;
- reports which keys it can supply, as a map of flags;
- tests itself against the fixed address `194.57.91.215`;
- describes itself to the host: its identifier, its rank, and a note that lists the database
  types it can serve.

Files:

- `wrappers.dfy` (module `Wrappers`): `Option`, and `Result`. `Result` stands for a call that
  either returns a value or throws an exception with a message.
- `php.dfy` (module `Php`): the bits of PHP semantics the provider relies on: truthiness,
  `array_filter`, how null becomes an array key or a string, and lower-casing.
- `dbip_api.dfy` (module `DBIPApi`): response, record and table types, the specification
  functions, and the operations of the provider as methods that build their results step by
  step, as the PHP code does.
- `dbip_api_properties.dfy` (module `DBIPApiProperties`): lemmas that relate the operations
  to each other or hold for every response.

How the model is set up:

- The lookup service is a parameter `lookup: string -> Result<Response, string>`. A
  `Response` has one `Option<Value>` per property of the decoded answer. `None` means the
  object does not have that property, which is what `property_exists` tests.
- Reading a property that is absent gives null, as PHP does.
- The region-name table of the GeoIp2 plugin is a parameter: a map from country code to an
  ordered sequence of (ISO code, name) pairs.
- `getLocation` returns `false` or an array. The model returns `NoLocation` or `Record(map)`,
  wrapped in `Failure(message)` when the lookup throws.
- `isWorking` returns `true` or a message. The model returns `Working` or `NotWorking(reason)`,
  where the reason is either the untranslated "test IP locator failed" message for the test
  address or the message of a caught exception.
- `getLocation` does not validate the address. It returns `false` only when the normalised
  address is `''` or `'0'`, the strings PHP's `empty` accepts.
- A base field that the answer lacks is stored as null, not left out.

## Model

| member | source | states |
|---|---|---|
| `DBIPApi.GetLocation` | LocationProvider/DBIPApi.php:38-84 | A normalised address that PHP's `empty` accepts (`''` or `'0'`) gives `false` whatever the lookup service would answer, so no lookup takes part. Otherwise the result is the exception the lookup threw, or the record `LocationOf` of its answer. |
| `DBIPApi.StagedLocationIsLocation` | LocationProvider/DBIPApi.php:55-81 | Building the record field by field under the presence tests, in the source's order, gives exactly the per-key record `LocationOf`. |
| `DBIPApiProperties.LocationKeys` | LocationProvider/DBIPApi.php:55-81 | The five base keys are always present. Latitude and longitude are both present or both absent, exactly as the answer has `longitude`. The region code is present exactly when the region name is, and that is exactly when the answer has `stateProv`. Postal code, ISP and organisation each follow their own property. |
| `DBIPApiProperties.LocationValues` | LocationProvider/DBIPApi.php:55-81 | Each value is copied unchanged from the answer. An absent base property gives null, and so does an absent latitude next to a present longitude. The region code is `Str` of the looked-up ISO code, so it is always a string, possibly empty. |
| `DBIPApi.FirstMatch` | LocationProvider/DBIPApi.php:101-105 | Returns the first position, in table order, whose name equals the region name after lower-casing, with no earlier match. When it finds nothing, no entry matches. |
| `DBIPApi.RegionCodeOf` | LocationProvider/DBIPApi.php:93-108 | Gives `''` when the country has no table entry, when its entry is empty, or when no name matches. Otherwise it gives the ISO code of the first matching entry. |
| `DBIPApi.DetermineRegionIsoCode` | LocationProvider/DBIPApi.php:93-108 | The loop with its early return computes exactly `RegionCodeOf`. |
| `DBIPApiProperties.FirstMatchCaseInsensitive` | LocationProvider/DBIPApi.php:101-105 | Two region names with the same lower-cased form find the same first match. |
| `DBIPApiProperties.RegionCodeCaseInsensitive` | LocationProvider/DBIPApi.php:97-107 | The ISO code depends on the region name only through its lower-cased form. |
| `DBIPApiProperties.RegionCodeIgnoresCase` | LocationProvider/DBIPApi.php:102 | Upper-casing or lower-casing the region name (ASCII letters) does not change the ISO code found. |
| `Php.Lower` | LocationProvider/DBIPApi.php:102 | Lower-casing keeps the length and leaves no upper-case letter. |
| `Php.LowerIdempotent` | LocationProvider/DBIPApi.php:102 | Lower-casing twice is the same as lower-casing once. |
| `Php.LowerOfUpper` | LocationProvider/DBIPApi.php:102 | Upper-casing first does not change the lower-cased form. |
| `DBIPApi.GetSupportedLocationInfo` | LocationProvider/DBIPApi.php:229-270 | A thrown exception propagates. Otherwise the map has exactly the keys the test address's answer reports, and every flag is `true`. |
| `DBIPApi.CapabilitiesUnique` | LocationProvider/DBIPApi.php:241-266 | Any map of `true` flags over exactly the reported keys is the capability map. |
| `DBIPApiProperties.CapabilitiesMatchLocation` | LocationProvider/DBIPApi.php:241-266 | For the same answer, the capability map has exactly the keys of the location record, and all its flags are `true`. Both functions are defined over the same reported keys, so the link between the two PHP methods comes from the contracts of `GetLocation` and `GetSupportedLocationInfo`. |
| `Php.ArrayFilter` | LocationProvider/DBIPApi.php:132 | `array_filter` keeps exactly the truthy entries, with their values. |
| `DBIPApi.TestVerdict` | LocationProvider/DBIPApi.php:132-140 | The verdict is `Working` if and only if some entry of the record is truthy. Any other verdict is the "test IP locator failed" message for the test address. |
| `DBIPApi.IsWorking` | LocationProvider/DBIPApi.php:125-144 | A lookup exception becomes its message. Otherwise the verdict is `Working` if and only if the test address's record has a truthy entry, and the failure message when it has none. |
| `DBIPApiProperties.TruthyBaseFieldPasses` | LocationProvider/DBIPApi.php:131-140 | One truthy base field in the test address's answer makes the self-test pass. |
| `DBIPApiProperties.EmptyAnswerFails` | LocationProvider/DBIPApi.php:131-140 | An answer with no optional property and only falsy base fields makes the self-test fail with the test-IP message. |
| `DBIPApi.IsAvailable` | LocationProvider/DBIPApi.php:115-118 | The provider is always available. |
| `DBIPApi.DatabaseTypesUnfolded` | LocationProvider/DBIPApi.php:185-199 | Filtering the listing order equals the four successive flag tests of `getInfo`. |
| `DBIPApiProperties.ListedAmongMembers` | LocationProvider/DBIPApi.php:185-199 | A type is in the listing if and only if it is in the order and its flag is set and true. |
| `DBIPApiProperties.ListedAmongAscending` | LocationProvider/DBIPApi.php:185-199 | Filtering a sequence in ascending rank keeps it in ascending rank. |
| `DBIPApiProperties.DatabaseTypesListed` | LocationProvider/DBIPApi.php:185-199 | A database type is listed if and only if its flag is set and true. The list is in the fixed order City, Region, Country, ISP, with no repeats. |
| `DBIPApiProperties.DatabaseTypesOfResponse` | LocationProvider/DBIPApi.php:182-199 | For the probe's capability map, City and Country are always listed. Region is listed exactly when the answer has `stateProv`, and ISP exactly when it has `isp`. So the list is never empty. |
| `DBIPApi.GetInfo` | LocationProvider/DBIPApi.php:151-215 | An exception from the quota query `APIKey::info` comes first and propagates, and so does a probe exception after it. Otherwise `id` is `'dbipapi'`, `title` is `'db-ip.com API'`, `install_docs` is empty and `order` is 15. The extra message is empty if and only if the database-type list is empty. When it is not empty, it carries exactly that list. |

## Left out

- `getIpFromInfo` and `\Matomo\Network\IP::fromStringIP` are not modelled. They belong to a
  foreign address parser. `GetLocation` takes the normalised address as its argument, and
  `IsWorking` uses the test address `194.57.91.215` as its own normal form.
- `getApiKey`, `SystemSettings` and `\DBIP\APIKey::set` are left out. They are host settings
  and global state inside the DB-IP client. The `lookup` parameter stands for the client in
  whatever key state it is in, so the model does not show that an empty key leaves a
  previously set key in force.
- The DB-IP client `\DBIP\Address::lookup` is left out because it is a network call whose code
  is not part of this model. It is the `lookup` parameter. Only exceptions it throws are
  modelled. PHP `Error`s that `catch (\Exception)` would not catch are not.
- `\DBIP\APIKey::info` is a parameter of `GetInfo`: its exception is modelled, but its
  quota figures (queries left, queries per day) only feed the `description` of `getInfo`
  (translated strings, HTML, the settings URL), which is left out as presentation.
  The `install_docs` value is kept. The note of `extra_message` is modelled as the list of
  types it names.
- Translations are left out. Failure messages are values (`TestIpLocatorFailed(ip)`,
  `Thrown(message)`), not translated strings.
- Php.Lower: lower-cases ASCII letters only. `mb_strtolower` also folds other Unicode
  letters, and Unicode case mapping is out of scope here.
- DBIPApi.RegionCodeOf: a numeric country code is treated as having no table entry, and a
  numeric region name as matching nothing. PHP's conversion of floats to array keys and of
  numbers to strings is not modelled. Null is modelled as `''`, as PHP does.
- Region ISO codes are kept as strings. PHP turns an array key such as `'1'` into the
  integer 1, and the model does not show that change of type.
- The key order of PHP arrays is not modelled. The record and the capability map are
  unordered maps.
- Floating-point coordinates are exact reals. They are only copied and tested for zero.
- DBIPApi.TestVerdict: `false` from `getLocation` (an empty normalised address) is given the
  failure message. Under PHP 8, `array_filter(false)` raises a `TypeError` instead. This case
  cannot arise from `IsWorking`, because the test address is not empty.
- `LocationProviderDBIPApi.php` (deactivation hook) and `SystemSettings.php` (setting
  registration) are host-framework glue with no logic to state.
