# CloudKitDash model in Dafny

CloudKitDash is an iOS app that keeps a list of countries and, for each
country, a list of cities in a CloudKit private database. This project models
the two pieces of its model layer that hold logic:

- **`CloudErrors.processErrors`** (module `CloudErrors`, file `cloud_errors.dfy`):
  the reaction to a `CKError`. The error code is a datatype. The
  `UserDefaults` store is a class whose `values` field is a
  `map<string, Value>`. What the switch sets in motion is returned as an
  `Effect`:
  - a one-shot (non-repeating) timer scheduled for 30 seconds later, whose
    selector is `checkUpdates(finishClosure:)` (`ScheduleResync(30, false)`);
  - one call of `uploadFailedRecords` (`Resubmit(records)`);
  - a console message (`Log`, `LogCode`);
  - or nothing (`NoAction`).
  For a partial failure, the per-item error dictionary is a
  `map<ItemID, ItemError>`, keyed by the full record ID including the zone. The loop walks it in an unspecified order, so
  its result is specified as a multiset (`ServerRecordBag`).
- **`ApplicationData`** (module `ApplicationModel`, file `application_data.dfy`):
  - Building requests is pure: trimming the name (module `Text`, file
    `text.dfy`), rejecting a blank name, and building the `idcountry-`/`idcity-`
    record with its fields and its `deleteSelf` reference to the selected
    country (`NewCountry`, `NewCity`, `CitiesQuery`).
  - The completion handlers are methods of the class `ApplicationData`, which
    has the fields `selectedCountry`, `listCountries` and `listCities`. A
    successful save appends the record that was sent. A query that returns
    records empties the list and refills it in the order received. An error
    changes nothing.
  - Each handler returns whether it posts the "Update Interface" notification.
  - The `Insert*`/`Read*` methods run a whole source function, with the
    server's answer passed in as a parameter.

Records (`CKRecord`, `CKRecord.ID`, `CKRecord.Reference`) are values in module
`Records` (file `records.dfy`).

Facts about the code that the model keeps:
- The settings keys are `iCloudAvailable`, `changeToken` and `changeZoneToken`.
- A partial failure resubmits the server record of every per-item `CKError`
  that carries one. The item's own error code is not checked.
- `notAuthenticated` only sets `iCloudAvailable` to false. Nothing else happens.
- `quotaExceeded`, `networkFailure` and `networkUnavailable` only print a
  message.

## Model

| member | source | states |
|---|---|---|
| `Text.LeadingWhitespace` | CloudKitDash/Models/ApplicationData.swift:39 | the count covers only whitespace, and the character after it (if any) is not whitespace |
| `Text.TrailingWhitespace` | CloudKitDash/Models/ApplicationData.swift:39 | the count covers only whitespace, and the character before it (if any) is not whitespace |
| `Text.Trim` | CloudKitDash/Models/ApplicationData.swift:39 | the result is empty exactly when the name is all whitespace; otherwise it is the infix of the name starting after the leading whitespace, it has no whitespace at either end, and every character of the name outside it is whitespace |
| `Text.TrimmedIsFixed` | CloudKitDash/Models/ApplicationData.swift:70 | a name with no whitespace at either end is stored as it is |
| `Text.TrimIdempotent` | CloudKitDash/Models/ApplicationData.swift:70 | trimming twice gives the same result as trimming once |
| `CloudErrors.SettingsAfter` | CloudKitDash/Models/CloudErrors.swift:16-28 | `notAuthenticated` sets `iCloudAvailable` to false; `changeTokenExpired` removes `changeToken` and `changeZoneToken`; every other key is untouched, and every other code leaves the settings as they were |
| `CloudErrors.ServerRecordOf` | CloudKitDash/Models/CloudErrors.swift:46-54 | an item error gives at most one record, and gives `r` exactly when it is a `CKError` whose server record is `r` |
| `CloudErrors.ServerRecordBagRemove` | CloudKitDash/Models/CloudErrors.swift:45 | the multiset of collected server records does not depend on the order in which the dictionary is enumerated |
| `CloudErrors.ServerRecordBagSize` | CloudKitDash/Models/CloudErrors.swift:44-53 | no more records are collected than the dictionary has entries |
| `CloudErrors.ServerRecordBagContents` | CloudKitDash/Models/CloudErrors.swift:45-56 | a record is collected if and only if some entry is a `CKError` that carries it as its server record; other entries are skipped |
| `CloudErrors.ListingServerRecordBag` | CloudKitDash/Models/CloudErrors.swift:44-56 | any list holding exactly the collected records is no longer than the dictionary and contains exactly the carried server records |
| `CloudErrors.CollectFailedRecords` | CloudKitDash/Models/CloudErrors.swift:44-56 | the loop's list holds, as a multiset, exactly the server records of the per-item errors, is no longer than the dictionary, and contains a record exactly when some entry carries it |
| `CloudErrors.UserDefaults.Set` | CloudKitDash/Models/CloudErrors.swift:19 | the key maps to the new value and every other key is unchanged |
| `CloudErrors.UserDefaults.RemoveObject` | CloudKitDash/Models/CloudErrors.swift:24-25 | the key is removed and every other key is unchanged |
| `CloudErrors.ProcessErrors` | CloudKitDash/Models/CloudErrors.swift:13-69 | the settings become `SettingsAfter` of the code; a resync is scheduled once, after 30 seconds and without repeating, exactly for `changeTokenExpired`; `uploadFailedRecords` is called exactly for a partial failure that has a per-item dictionary, even when nothing is collected, with the collected server records; quota, network and other codes only log |
| `ApplicationModel.NewCountry` | CloudKitDash/Models/ApplicationData.swift:39-48 | no record exactly when the name is blank; otherwise a `Countries` record whose ID is `idcountry-` followed by the UUID and whose only field `countryName` is the trimmed name |
| `ApplicationModel.NewCity` | CloudKitDash/Models/ApplicationData.swift:70-85 | no record when the name is blank; a stop when no country is selected; otherwise a `Cities` record with ID `idcity-` followed by the UUID, `cityName` the trimmed name and `country` a `deleteSelf` reference to the selected country |
| `ApplicationModel.CountryAndCityIDsDiffer` | CloudKitDash/Models/ApplicationData.swift:44-78 | a country ID and a city ID are never equal, whatever the UUIDs |
| `ApplicationModel.CountryIDsDistinct` | CloudKitDash/Models/ApplicationData.swift:44 | countries built with different UUIDs get different IDs |
| `ApplicationModel.CityIDsDistinct` | CloudKitDash/Models/ApplicationData.swift:75 | cities built with different UUIDs get different IDs |
| `ApplicationModel.CitiesQuery` | CloudKitDash/Models/ApplicationData.swift:136-138 | no query exactly when no country is selected; otherwise the query selects exactly the `Cities` records whose `country` refers to the selected country |
| `ApplicationModel.NewCountryIsQueried` | CloudKitDash/Models/ApplicationData.swift:113-114 | a newly built country record is among the records `readCountries` asks for |
| `ApplicationModel.NewCityIsQueried` | CloudKitDash/Models/ApplicationData.swift:137-138 | a newly built city record is among the records `readCities` asks for while the same country is selected |
| `ApplicationModel.ApplicationData.constructor` | CloudKitDash/Models/ApplicationData.swift:20-26 | no country is selected, both lists are empty, and so the list invariant `Valid()` holds from the start |
| `ApplicationModel.ApplicationData.CountrySaveCompleted` | CloudKitDash/Models/ApplicationData.swift:51-64 | on success the record that was sent is appended at the end and earlier entries are kept; on error the list is unchanged; the interface is told to update exactly on success |
| `ApplicationModel.ApplicationData.InsertCountry` | CloudKitDash/Models/ApplicationData.swift:38-66 | a blank name changes nothing and sends nothing; otherwise the request is `NewCountry`, a successful save appends exactly it, a failed save changes nothing; the list invariant is kept |
| `ApplicationModel.ApplicationData.CitySaveCompleted` | CloudKitDash/Models/ApplicationData.swift:88-101 | on success the record that was sent is appended at the end and earlier entries are kept; on error the list is unchanged; the interface is told to update exactly on success |
| `ApplicationModel.ApplicationData.InsertCity` | CloudKitDash/Models/ApplicationData.swift:69-103 | a blank name changes nothing and sends nothing; otherwise the request is `NewCity` for the selected country, a successful save appends exactly it, a failed save changes nothing; the list invariant is kept |
| `ApplicationModel.ApplicationData.CountriesReceived` | CloudKitDash/Models/ApplicationData.swift:116-129 | an answer with records replaces the list by those records in the order received, with nothing of the old list kept; an error, or an answer with no records array (`nil`), leaves it unchanged; an empty array empties the list and signals; the interface is told to update exactly on replacement |
| `ApplicationModel.ApplicationData.ReadCountries` | CloudKitDash/Models/ApplicationData.swift:108-130 | asks for every `Countries` record and handles the answer as `CountriesReceived`; when the server honours the query, the list invariant is kept |
| `ApplicationModel.ApplicationData.CitiesReceived` | CloudKitDash/Models/ApplicationData.swift:139-150 | an answer with records replaces the list by those records in the order received; an error, or an answer with no records array (`nil`), leaves it unchanged; an empty array empties the list and signals; the interface is told to update exactly on replacement |
| `ApplicationModel.ApplicationData.ReadCities` | CloudKitDash/Models/ApplicationData.swift:133-152 | without a selected country, no query is sent, nothing changes and nothing is signalled; otherwise it asks for the selected country's cities and handles the answer as `CitiesReceived` |

## Left out

- The CloudKit transport is not modelled: `database.save`, `database.perform`, and the server's evaluation of `CKQuery`/`NSPredicate`. Their answers are parameters (`SaveOutcome`, `QueryOutcome`). `Matches`/`Honours` state what a server that honours the query returns.
- The handlers run asynchronously in the source. The model runs each as a separate method. The `Insert*`/`Read*` methods run a whole request and its handler in one step.
- `UUID()` is a string parameter. The model assumes nothing about its format or freshness; the ID lemmas are stated for distinct UUIDs.
- `updateInterface()` dispatches to `OperationQueue.main` and posts through `NotificationCenter`. It is modelled only as the returned `updateInterface` flag.
- `Timer.scheduledTimer` is modelled only as `ScheduleResync(30, false)`. The timer's target is the `CloudErrors` class, not `AppData`; whether firing it reaches `checkUpdates` is not modelled.
- The bodies of `checkUpdates`, `configureDatabase`, `uploadFailedRecords` and `setAlert` are not part of this model. Only the call of `uploadFailedRecords` is modelled, as an `Effect`.
- In `processErrors`, `print` output is modelled as `Log`/`LogCode` effects. The default branch's text `Error: <code>` is represented by the code itself.
- The four error messages that the `ApplicationData` completion handlers print (ApplicationData.swift lines 54, 91, 119 and 142) are not modelled. The handlers only return the `updateInterface` flag.
- `ApplicationModel.ApplicationData.InsertCity` requires a selected country when the name is not blank. The source force-unwraps `selectedCountry` there and stops the program. The pure `NewCity` returns `NoSelectedCountry` for that case.
- `CKRecord` is a class in the source but a value in the model. Later mutation of a record through another reference is not modelled. The records `ApplicationData` builds and reads are in the default zone, so their `RecordID` has no zone. The keys of the per-item error dictionary (`ItemID`) do carry a zone.
- Trimming works on Unicode scalar values with the members of `CharacterSet.whitespaces` (general category Zs and U+0009). Foundation's handling of composed character sequences is not modelled.
- The `database` field and the `CKContainer` lookup in `init()` are not modelled, because they are I/O.
- The view controllers, the older controllers and `AppDelegate` are not modelled, because they are UI and app lifecycle code.
