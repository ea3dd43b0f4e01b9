/** The event builder `GameAnalytics._data` and the field merge done by
    `event_business` before it calls the builder. */
module EventBuilder {
  import opened Records

  const Design: string := "design"
  const Business: string := "business"

  /** The keys of the class-level category table; membership is what `_data` checks. */
  const Categories: set<string> := {Business, Design}

  /** The keys of the mandatory-field dictionary built by `_data`. */
  const MandatoryKeys: set<string> := {
    "category", "event_id", "user_id", "sdk_version", "os_version", "manufacturer",
    "device", "platform", "session_id", "session_num", "v"
  }

  /** The key under which `_data` stamps the current time into the caller's fields. */
  const TimeKey: string := "time"

  /** The two ways `_data` refuses to build a record (both raise ValueError). */
  datatype BuildError = InvalidCategory | UnknownEventId

  datatype Result<T> = Ok(value: T) | Err(error: BuildError)

  /** How a check or an entry point ends: normally, or by raising a builder error. */
  datatype Outcome = Pass | Fail(error: BuildError)

  /** The validation of `_data`, in its order: the category first, then the event name.
      `Pass` means both checks passed. */
  function Validate(category: string, eventId: string, lookup: map<string, string>): (e: Outcome)
    ensures e == Fail(InvalidCategory) <==> category !in Categories
    ensures e == Fail(UnknownEventId) <==> category in Categories && eventId !in lookup
    ensures e == Pass <==> category in Categories && eventId in lookup
  {
    if category !in Categories then Fail(InvalidCategory)
    else if eventId !in lookup then Fail(UnknownEventId)
    else Pass
  }

  /** The caller's field map after `custom_field['time'] = now`. */
  function StampTime(customField: Record, now: int): (r: Record)
    ensures r.Keys == customField.Keys + {TimeKey}
    ensures r[TimeKey] == Int(now)
    ensures forall k :: k in customField && k != TimeKey ==> r[k] == customField[k]
  {
    customField[TimeKey := Int(now)]
  }

  /** The mandatory-field dictionary of `_data`: the category, the event id resolved
      through the lookup table, the user id, the fixed SDK/OS/device descriptors, the
      injected session id, the session number 20 and the schema version 2. */
  function NecessaryFields(category: string, eventId: string, userUuid: string,
                           lookup: map<string, string>, sessionId: string): (r: Record)
    requires eventId in lookup
    ensures r.Keys == MandatoryKeys
    ensures r["event_id"] == Str(lookup[eventId])
  {
    map[
      "category" := Str(category),
      "event_id" := Str(lookup[eventId]),
      "user_id" := Str(userUuid),
      "sdk_version" := Str("rest api v2"),
      "os_version" := Str("ios 11.4"),
      "manufacturer" := Str("apple"),
      "device" := Str("x86_64"),
      "platform" := Str("ios"),
      "session_id" := Str(sessionId),
      "session_num" := Int(20),
      "v" := Int(2)
    ]
  }

  /** `_data`: validate, then overlay the caller's (time-stamped) fields on the
      mandatory fields, so that the caller's keys win. The lookup table, the session
      id and the clock reading are parameters. */
  function Data(category: string, eventId: string, userUuid: string, customField: Record,
                lookup: map<string, string>, sessionId: string, now: int): (r: Result<Record>)
    // the category is checked first, whatever the event name
    ensures category !in Categories ==> r == Err(InvalidCategory)
    ensures category in Categories && eventId !in lookup ==> r == Err(UnknownEventId)
    ensures r.Ok? <==> category in Categories && eventId in lookup
    // the merge rule
    ensures r.Ok? ==> r.value.Keys == MandatoryKeys + customField.Keys + {TimeKey}
    ensures r.Ok? ==> r.value[TimeKey] == Int(now)
    ensures r.Ok? ==> forall k :: k in customField && k != TimeKey ==> r.value[k] == customField[k]
    ensures r.Ok? ==> forall k :: k in MandatoryKeys && k !in customField && k != TimeKey ==>
                        r.value[k] == NecessaryFields(category, eventId, userUuid, lookup, sessionId)[k]
    ensures r.Ok? && "event_id" !in customField ==> r.value["event_id"] == Str(lookup[eventId])
  {
    match Validate(category, eventId, lookup)
    case Fail(e) => Err(e)
    case Pass =>
      Ok(NecessaryFields(category, eventId, userUuid, lookup, sessionId) + StampTime(customField, now))
  }

  /** The caller's `custom_field` dictionary once `_data` returns or raises: it is
      stamped in place with the time only when both checks pass, because the stamp
      comes after them. */
  function CallerFieldAfter(category: string, eventId: string, customField: Record,
                            lookup: map<string, string>, now: int): (r: Record)
    ensures category !in Categories || eventId !in lookup ==> r == customField
    ensures category in Categories && eventId in lookup ==>
              r.Keys == customField.Keys + {TimeKey} && r[TimeKey] == Int(now) &&
              forall k :: k in customField && k != TimeKey ==> r[k] == customField[k]
  {
    if Validate(category, eventId, lookup).Pass? then StampTime(customField, now) else customField
  }

  /** The built record is the caller's map as `_data` leaves it, overlaid on the
      mandatory fields. */
  lemma DataOverlaysCallerField(category: string, eventId: string, userUuid: string, customField: Record,
                                lookup: map<string, string>, sessionId: string, now: int)
    requires category in Categories && eventId in lookup
    ensures var r := Data(category, eventId, userUuid, customField, lookup, sessionId, now);
            var after := CallerFieldAfter(category, eventId, customField, lookup, now);
            r.Ok? && forall k :: k in after ==> k in r.value && r.value[k] == after[k]
  {
  }

  const Amount: string := "amount"
  const TransactionNum: string := "transaction_num"
  const Currency: string := "currency"

  /** The names of the parameters of `event_business` before `**kwargs`. Python binds
      an argument of one of these names to the parameter (or raises on a duplicate),
      so none of them can be a key of `kwargs`. */
  const BusinessParameters: set<string> := {"self", "event_id", "user_uuid", Amount, Currency, TransactionNum}

  /** The keyword-argument dictionaries `event_business` can receive. */
  predicate IsBusinessKwargs(kwargs: Record)
  {
    forall k :: k in kwargs ==> k !in BusinessParameters
  }

  /** The custom fields `event_business` hands to `_data`: the keyword arguments with
      the explicit amount, transaction number and currency merged over them. */
  function BusinessFields(kwargs: Record, amount: Value, transactionNum: Value, currency: Value): (r: Record)
    ensures r.Keys == kwargs.Keys + {Amount, TransactionNum, Currency}
    ensures r[Amount] == amount && r[TransactionNum] == transactionNum && r[Currency] == currency
    ensures forall k :: k in kwargs && k !in {Amount, TransactionNum, Currency} ==> r[k] == kwargs[k]
  {
    kwargs + map[Amount := amount, TransactionNum := transactionNum, Currency := currency]
  }

  /** A business record always carries the explicit amount, transaction number and
      currency, whatever the keyword arguments said under those keys. */
  lemma BusinessRecordCarriesExplicitFields(eventId: string, userUuid: string, kwargs: Record,
                                            amount: Value, transactionNum: Value, currency: Value,
                                            lookup: map<string, string>, sessionId: string, now: int)
    requires eventId in lookup
    ensures var r := Data(Business, eventId, userUuid, BusinessFields(kwargs, amount, transactionNum, currency),
                          lookup, sessionId, now);
            r.Ok? && r.value[Amount] == amount && r.value[TransactionNum] == transactionNum &&
            r.value[Currency] == currency
  {
    var custom := BusinessFields(kwargs, amount, transactionNum, currency);
    var r := Data(Business, eventId, userUuid, custom, lookup, sessionId, now);
    assert Amount in custom && Amount != TimeKey;
    assert TransactionNum in custom && TransactionNum != TimeKey;
    assert Currency in custom && Currency != TimeKey;
  }
}
