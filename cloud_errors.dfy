/** `CloudErrors.processErrors`: the reaction of the app to a CloudKit error.
    The settings store is `UserDefaults.standard`; the timer, the resubmission
    of failed records and the console messages are returned as an `Effect`. */
module CloudErrors {
  import opened Records

  /** `CKError.Code`. The six codes the switch names, and every other code:
      `OtherCode` carries the raw value that the default branch prints, and is
      only used for raw values other than those of the six named codes. */
  datatype ErrorCode =
    | NotAuthenticated
    | ChangeTokenExpired
    | QuotaExceeded
    | PartialFailure
    | NetworkFailure
    | NetworkUnavailable
    | OtherCode(rawValue: int)

  /** A value stored in the settings: a flag, or an archived change token. */
  datatype Value = Flag(flag: bool) | Data(bytes: seq<bv8>)

  type Settings = map<string, Value>

  const ICloudAvailableKey := "iCloudAvailable"
  const ChangeTokenKey := "changeToken"
  const ChangeZoneTokenKey := "changeZoneToken"

  /** Delay, in seconds, of the one-shot timer scheduled after an expired
      change token. */
  const ResyncDelay: nat := 30

  /** A key of the per-item error dictionary: the full ID of a record that
      failed, zone included. The loop never reads the keys. */
  datatype ItemID = ItemID(zoneName: string, recordName: string)

  /** A value of the per-item error dictionary of a partial failure: either a
      `CKError`, whose `CKRecordChangedErrorServerRecordKey` entry may hold the
      server's copy of the record, or an object that is not a `CKError`. */
  datatype ItemError =
    | ItemCloudError(code: ErrorCode, serverRecord: Option<Record>)
    | NotCloudError

  /** A `CKError`: its code and the `CKPartialErrorsByItemIDKey` entry of its
      user info (`None` when the entry is missing or is not a dictionary). */
  datatype CloudError = CloudError(code: ErrorCode, partialErrors: Option<map<ItemID, ItemError>>)

  /** What `processErrors` sets in motion besides writing the settings. */
  datatype Effect =
    | NoAction
      /** `Timer.scheduledTimer`: a timer for `seconds` later, repeating or not,
          whose selector is `checkUpdates(finishClosure:)`. */
    | ScheduleResync(seconds: nat, repeats: bool)
      /** One call of `uploadFailedRecords` with these records. */
    | Resubmit(records: seq<Record>)
      /** A console message. */
    | Log(message: string)
      /** The default branch's message, which prints the code. */
    | LogCode(code: ErrorCode)

  /** `m` and `m'` agree on every key outside `keys`. */
  predicate UnchangedOutside(m: Settings, m': Settings, keys: set<string>)
  {
    && (forall k :: k in m && k !in keys ==> k in m' && m'[k] == m[k])
    && (forall k :: k in m' && k !in keys ==> k in m)
  }

  /** The settings after the error with code `code` has been processed. */
  function SettingsAfter(code: ErrorCode, s: Settings): (s': Settings)
    ensures code == NotAuthenticated ==>
      ICloudAvailableKey in s' && s'[ICloudAvailableKey] == Flag(false)
      && UnchangedOutside(s, s', {ICloudAvailableKey})
    ensures code == ChangeTokenExpired ==>
      ChangeTokenKey !in s' && ChangeZoneTokenKey !in s'
      && UnchangedOutside(s, s', {ChangeTokenKey, ChangeZoneTokenKey})
    ensures code != NotAuthenticated && code != ChangeTokenExpired ==> s' == s
  {
    match code
    case NotAuthenticated => s[ICloudAvailableKey := Flag(false)]
    case ChangeTokenExpired => s - {ChangeTokenKey, ChangeZoneTokenKey}
    case _ => s
  }

  /** The item error is a `CKError` whose server record is `r`. */
  predicate Carries(item: ItemError, r: Record)
  {
    item.ItemCloudError? && item.serverRecord == Some(r)
  }

  /** The server record an item error carries, as a multiset of at most one. */
  function ServerRecordOf(item: ItemError): (b: multiset<Record>)
    ensures |b| <= 1
    ensures forall r :: r in b <==> Carries(item, r)
  {
    match item
    case ItemCloudError(_, Some(r)) => multiset{r}
    case _ => multiset{}
  }

  /** All server records carried by the values of a per-item error dictionary,
      regardless of the order in which the dictionary is enumerated. */
  ghost function ServerRecordBag(m: map<ItemID, ItemError>): multiset<Record>
    decreases |m|
  {
    if m == map[] then multiset{}
    else
      var id :| id in m;
      ServerRecordOf(m[id]) + ServerRecordBag(m - {id})
  }

  /** `ServerRecordBag` does not depend on which key it takes first. */
  lemma {:induction false} ServerRecordBagRemove(m: map<ItemID, ItemError>, id: ItemID)
    requires id in m
    ensures ServerRecordBag(m) == ServerRecordOf(m[id]) + ServerRecordBag(m - {id})
    decreases |m|
  {
    assert m != map[];
    var first :| first in m && ServerRecordBag(m) == ServerRecordOf(m[first]) + ServerRecordBag(m - {first});
    if first != id {
      var both := m - {first} - {id};
      assert (m - {first})[id] == m[id] && (m - {id})[first] == m[first];
      assert m - {id} - {first} == both;
      assert |m - {first}| < |m| && |m - {id}| < |m|;
      ServerRecordBagRemove(m - {first}, id);
      ServerRecordBagRemove(m - {id}, first);
    }
  }

  /** At most one record is resubmitted per entry of the dictionary. */
  lemma {:induction false} ServerRecordBagSize(m: map<ItemID, ItemError>)
    ensures |ServerRecordBag(m)| <= |m|
    decreases |m|
  {
    if m != map[] {
      var id :| id in m;
      ServerRecordBagRemove(m, id);
      ServerRecordBagSize(m - {id});
    }
  }

  /** A record is resubmitted exactly when some entry of the dictionary is a
      `CKError` that carries it as the server record. */
  lemma {:induction false} ServerRecordBagContents(m: map<ItemID, ItemError>, r: Record)
    ensures r in ServerRecordBag(m) <==>
      exists id :: id in m && Carries(m[id], r)
    decreases |m|
  {
    if m != map[] {
      var id :| id in m;
      ServerRecordBagRemove(m, id);
      ServerRecordBagContents(m - {id}, r);
      if r in ServerRecordBag(m - {id}) {
        var other :| other in m - {id} && Carries((m - {id})[other], r);
        assert Carries(m[other], r);
      }
      if other :| other in m && Carries(m[other], r) {
        if other != id {
          assert other in m - {id} && Carries((m - {id})[other], r);
        }
      }
    }
  }

  /** `m` restricted to the keys in `keys`. */
  function Restrict(m: map<ItemID, ItemError>, keys: set<ItemID>): (m': map<ItemID, ItemError>)
    ensures m'.Keys == m.Keys * keys
    ensures forall id :: id in m' ==> m'[id] == m[id]
  {
    map id | id in m && id in keys :: m[id]
  }

  /** Taking one more key out of the part of the dictionary still to visit. */
  lemma ServerRecordBagRestrict(m: map<ItemID, ItemError>, keys: set<ItemID>, id: ItemID)
    requires id in keys && keys <= m.Keys
    ensures ServerRecordBag(Restrict(m, keys))
            == ServerRecordOf(m[id]) + ServerRecordBag(Restrict(m, keys - {id}))
  {
    var rest := Restrict(m, keys);
    ServerRecordBagRemove(rest, id);
    assert rest - {id} == Restrict(m, keys - {id});
  }

  /** The loop of the partial-failure branch: walks the per-item errors in an
      unspecified order and keeps every server record found. */
  method CollectFailedRecords(listErrors: map<ItemID, ItemError>) returns (listFailedRecords: seq<Record>)
    ensures multiset(listFailedRecords) == ServerRecordBag(listErrors)
    ensures |listFailedRecords| <= |listErrors|
    ensures forall r :: r in listFailedRecords <==>
      exists id :: id in listErrors && Carries(listErrors[id], r)
  {
    listFailedRecords := [];
    var remaining := listErrors.Keys;
    assert Restrict(listErrors, remaining) == listErrors;
    while remaining != {}
      invariant remaining <= listErrors.Keys
      invariant multiset(listFailedRecords) + ServerRecordBag(Restrict(listErrors, remaining))
                == ServerRecordBag(listErrors)
      decreases remaining
    {
      var id :| id in remaining;
      var error := listErrors[id];
      ghost var before := listFailedRecords;
      if error.ItemCloudError? && error.serverRecord.Some? {
        listFailedRecords := listFailedRecords + [error.serverRecord.value];
      }
      assert multiset(listFailedRecords) == multiset(before) + ServerRecordOf(error);
      ServerRecordBagRestrict(listErrors, remaining, id);
      remaining := remaining - {id};
    }
    assert Restrict(listErrors, {}) == map[];
    ListingServerRecordBag(listFailedRecords, listErrors);
  }

  /** What any enumeration of the server records of `m` holds. */
  lemma ListingServerRecordBag(list: seq<Record>, m: map<ItemID, ItemError>)
    requires multiset(list) == ServerRecordBag(m)
    ensures |list| <= |m|
    ensures forall r :: r in list <==> exists id :: id in m && Carries(m[id], r)
  {
    ServerRecordBagSize(m);
    forall r ensures r in list <==> exists id :: id in m && Carries(m[id], r)
    {
      ServerRecordBagContents(m, r);
      assert r in list <==> r in multiset(list);
    }
  }

  /** `UserDefaults`: a key/value store written in place. */
  class UserDefaults {
    var values: Settings

    constructor (initial: Settings)
      ensures values == initial
    {
      values := initial;
    }

    /** `set(_:forKey:)` */
    method Set(value: Value, key: string)
      modifies this
      ensures values == old(values)[key := value]
    {
      values := values[key := value];
    }

    /** `removeObject(forKey:)` */
    method RemoveObject(key: string)
      modifies this
      ensures values == old(values) - {key}
    {
      values := values - {key};
    }
  }

  /** `processErrors(error:)`: writes the settings the error calls for and
      returns the one effect it sets in motion. */
  method ProcessErrors(error: CloudError, userSettings: UserDefaults) returns (effect: Effect)
    modifies userSettings
    ensures userSettings.values == SettingsAfter(error.code, old(userSettings.values))
    ensures effect.ScheduleResync? <==> error.code == ChangeTokenExpired
    ensures effect.ScheduleResync? ==> effect == ScheduleResync(ResyncDelay, false)
    ensures effect.Resubmit? <==> error.code == PartialFailure && error.partialErrors.Some?
    ensures effect.Resubmit? ==>
      multiset(effect.records) == ServerRecordBag(error.partialErrors.value)
      && |effect.records| <= |error.partialErrors.value|
    ensures effect.NoAction? <==>
      error.code == NotAuthenticated || (error.code == PartialFailure && error.partialErrors.None?)
    ensures error.code == QuotaExceeded ==> effect == Log("There is no space in your iCloud Account")
    ensures error.code == NetworkFailure ==> effect == Log("Network Failure")
    ensures error.code == NetworkUnavailable ==> effect == Log("Network Unavailable")
    ensures error.code.OtherCode? ==> effect == LogCode(error.code)
  {
    match error.code {
      case NotAuthenticated =>
        userSettings.Set(Flag(false), ICloudAvailableKey);
        effect := NoAction;
      case ChangeTokenExpired =>
        userSettings.RemoveObject(ChangeTokenKey);
        userSettings.RemoveObject(ChangeZoneTokenKey);
        effect := ScheduleResync(ResyncDelay, false);
      case QuotaExceeded =>
        effect := Log("There is no space in your iCloud Account");
      case PartialFailure =>
        if error.partialErrors.Some? {
          var listFailedRecords := CollectFailedRecords(error.partialErrors.value);
          effect := Resubmit(listFailedRecords);
        } else {
          effect := NoAction;
        }
      case NetworkFailure =>
        effect := Log("Network Failure");
      case NetworkUnavailable =>
        effect := Log("Network Unavailable");
      case OtherCode(_) =>
        effect := LogCode(error.code);
    }
  }
}
