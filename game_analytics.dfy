/** The `GameAnalytics` client: two category buffers that flush a whole batch to the
    transport when they reach their capacity, and the two public entry points that
    build a record and store it. The transport is the pair of ghost logs `sent` and
    `posted`. */
module Analytics {
  import opened Records
  import opened EventBuilder
  import Wire
  import Buffers

  /** The event URL chosen in `__init__`: the given one when it is set, otherwise the
      default built from the base URL and the game key. The empty string stands for
      both of Python's false values here, `None` and `''`. */
  function ResolveEventUrl(baseUrl: string, eventUrl: string, gameKey: string): string
  {
    if eventUrl != "" then eventUrl else baseUrl + "/v2/" + gameKey + "/events"
  }

  class GameAnalytics {
    const eventIdJson: map<string, string>
    const gameKey: string
    const secretKey: string
    const designCapacity: int
    const businessCapacity: int
    const activation: bool
    const baseUrl: string
    const eventUrl: string
    const intervalSeconds: int
    const codec: Wire.Codec

    var eventDesignStorage: seq<Record>
    var eventBusinessStorage: seq<Record>
    /** Every batch handed to the transport, oldest first. */
    ghost var sent: seq<seq<Record>>
    /** The request posted for each of them, in the same order. */
    ghost var posted: seq<Wire.Post>

    /** Between calls no buffer rests at or above its capacity. */
    ghost predicate Valid()
      reads this
    {
      && |eventDesignStorage| < Buffers.Limit(designCapacity)
      && |eventBusinessStorage| < Buffers.Limit(businessCapacity)
    }

    /** The request the client posts for a batch. */
    ghost function Request(batch: seq<Record>): (p: Wire.Post)
    {
      Wire.SendEvent(codec, eventUrl, gameKey, secretKey, intervalSeconds, batch)
    }

    /** Each logged batch went out as exactly the request `send_event` builds for it. */
    ghost predicate Logged()
      reads this
    {
      && |posted| == |sent|
      && forall i :: 0 <= i < |sent| ==> posted[i] == Request(sent[i])
    }

    /** Every batch in the log went out gzip-compressed after the quote substitution,
        signed with the secret key over exactly the bytes that were posted. */
    lemma LoggedBatchesAreSigned(i: int)
      requires Logged() && 0 <= i < |sent|
      ensures posted[i].url == eventUrl
      ensures posted[i].body == codec.compress(codec.utf8(Wire.SwapQuotes(codec.repr(sent[i]))))
      ensures posted[i].headers["authorization"] ==
                codec.base64(codec.hmacSha256(codec.utf8(secretKey), posted[i].body))
    {
    }

    /** `__init__` with the lookup table given instead of read from a file and the
        foreign calls given as a codec instead of an HTTP session. */
    constructor (baseUrl: string, eventUrl: string, intervalSeconds: int, gameKey: string,
                 secretKey: string, designCapacity: int, businessCapacity: int, activation: bool,
                 eventIdJson: map<string, string>, codec: Wire.Codec)
      ensures Valid()
      ensures this.eventIdJson == eventIdJson && this.gameKey == gameKey && this.secretKey == secretKey
      ensures this.designCapacity == designCapacity && this.businessCapacity == businessCapacity
      ensures this.activation == activation && this.baseUrl == baseUrl && this.intervalSeconds == intervalSeconds
      ensures this.codec == codec
      ensures eventUrl != "" ==> this.eventUrl == eventUrl
      ensures eventUrl == "" ==> this.eventUrl == baseUrl + "/v2/" + gameKey + "/events"
      ensures eventDesignStorage == [] && eventBusinessStorage == [] && sent == [] && posted == []
      ensures Logged()
    {
      this.eventIdJson := eventIdJson;
      this.gameKey := gameKey;
      this.secretKey := secretKey;
      this.designCapacity := designCapacity;
      this.businessCapacity := businessCapacity;
      this.activation := activation;
      this.baseUrl := baseUrl;
      this.eventUrl := ResolveEventUrl(baseUrl, eventUrl, gameKey);
      this.intervalSeconds := intervalSeconds;
      this.codec := codec;
      eventDesignStorage := [];
      eventBusinessStorage := [];
      sent := [];
      posted := [];
    }

    /** `send_event`: hands one request for the batch to the transport and returns it. */
    method SendEvent(data: seq<Record>) returns (p: Wire.Post)
      modifies this`sent, this`posted
      ensures sent == old(sent) + [data] && posted == old(posted) + [p]
      ensures p == Wire.SendEvent(codec, eventUrl, gameKey, secretKey, intervalSeconds, data)
      ensures old(Logged()) ==> Logged()
    {
      p := Wire.SendEvent(codec, eventUrl, gameKey, secretKey, intervalSeconds, data);
      sent := sent + [data];
      posted := posted + [p];
    }

    /** `store_events`: a design record goes to the design buffer, any other category to
        the business buffer; the chosen buffer is flushed and cleared once its length
        reaches its capacity, and the other buffer is left alone. */
    method StoreEvents(category: string, content: Record)
      modifies this`eventDesignStorage, this`eventBusinessStorage, this`sent, this`posted
      ensures category == Design ==>
                var s := Buffers.Append(old(eventDesignStorage), designCapacity, content);
                && eventDesignStorage == s.buffer
                && eventBusinessStorage == old(eventBusinessStorage)
                && sent == old(sent) + s.flushed
      ensures category != Design ==>
                var s := Buffers.Append(old(eventBusinessStorage), businessCapacity, content);
                && eventBusinessStorage == s.buffer
                && eventDesignStorage == old(eventDesignStorage)
                && sent == old(sent) + s.flushed
      ensures old(Valid()) ==> Valid()
      ensures old(Logged()) ==> Logged()
    {
      if category == Design {
        eventDesignStorage := eventDesignStorage + [content];
        if |eventDesignStorage| >= designCapacity {
          var _ := SendEvent(eventDesignStorage);
          eventDesignStorage := [];
        }
      } else {
        eventBusinessStorage := eventBusinessStorage + [content];
        if |eventBusinessStorage| >= businessCapacity {
          var _ := SendEvent(eventBusinessStorage);
          eventBusinessStorage := [];
        }
      }
    }

    /** `event_business`: a no-op when the client is deactivated; otherwise the explicit
        amount, transaction number and currency are merged over the keyword arguments,
        the record is built for the business category and stored. Only the event-name
        check can fail here. */
    method EventBusiness(eventId: string, userUuid: string, amount: Value, currency: Value,
                         transactionNum: Value, kwargs: Record, sessionId: string, now: int)
      returns (status: Outcome)
      requires IsBusinessKwargs(kwargs)
      modifies this`eventDesignStorage, this`eventBusinessStorage, this`sent, this`posted
      ensures !activation ==> status == Pass && unchanged(this)
      ensures activation && eventId !in eventIdJson ==> status == Fail(UnknownEventId) && unchanged(this)
      ensures activation && eventId in eventIdJson ==>
                var r := Data(Business, eventId, userUuid, BusinessFields(kwargs, amount, transactionNum, currency),
                              eventIdJson, sessionId, now);
                var s := Buffers.Append(old(eventBusinessStorage), businessCapacity, r.value);
                && status == Pass
                && eventBusinessStorage == s.buffer
                && eventDesignStorage == old(eventDesignStorage)
                && sent == old(sent) + s.flushed
      ensures old(Valid()) ==> Valid()
      ensures old(Logged()) ==> Logged()
    {
      if !activation {
        return Pass;
      }
      var customField := BusinessFields(kwargs, amount, transactionNum, currency);
      var category := Business;
      var content := Data(category, eventId, userUuid, customField, eventIdJson, sessionId, now);
      if content.Err? {
        return Fail(content.error);
      }
      StoreEvents(category, content.value);
      status := Pass;
    }

    /** `event_design`: a no-op when the client is deactivated; otherwise the record is
        built for the design category and stored. The caller's field map comes back as
        `_data` leaves it, stamped with the time once validation passed. */
    method EventDesign(eventId: string, userUuid: string, customField: Record, sessionId: string, now: int)
      returns (status: Outcome, customFieldAfter: Record)
      modifies this`eventDesignStorage, this`eventBusinessStorage, this`sent, this`posted
      ensures !activation ==> status == Pass && customFieldAfter == customField && unchanged(this)
      ensures activation ==> customFieldAfter == CallerFieldAfter(Design, eventId, customField, eventIdJson, now)
      ensures activation && eventId !in eventIdJson ==> status == Fail(UnknownEventId) && unchanged(this)
      ensures activation && eventId in eventIdJson ==>
                var r := Data(Design, eventId, userUuid, customField, eventIdJson, sessionId, now);
                var s := Buffers.Append(old(eventDesignStorage), designCapacity, r.value);
                && status == Pass
                && eventDesignStorage == s.buffer
                && eventBusinessStorage == old(eventBusinessStorage)
                && sent == old(sent) + s.flushed
      ensures old(Valid()) ==> Valid()
      ensures old(Logged()) ==> Logged()
    {
      customFieldAfter := customField;
      if !activation {
        return Pass, customFieldAfter;
      }
      var category := Design;
      var content := Data(category, eventId, userUuid, customField, eventIdJson, sessionId, now);
      customFieldAfter := CallerFieldAfter(category, eventId, customField, eventIdJson, now);
      if content.Err? {
        return Fail(content.error), customFieldAfter;
      }
      StoreEvents(category, content.value);
      status := Pass;
    }
  }

  /** Two design events into a fresh client with design capacity 2: the first is
      buffered, the second flushes both in one batch, the first record first. */
  method TwoDesignEventsScenario(codec: Wire.Codec, userUuid: string)
  {
    var lookup := map["one" := "coin:one", "two" := "coin:two"];
    var client := new GameAnalytics("https://api.gameanalytics.com", "", 100, "game", "secret",
                                    2, 100, true, lookup, codec);
    var first, _ := client.EventDesign("one", userUuid, map[], "session-1", 1);
    assert first == Pass && |client.eventDesignStorage| == 1 && client.sent == [];
    var second, _ := client.EventDesign("two", userUuid, map[], "session-2", 2);
    assert second == Pass && client.eventDesignStorage == [] && |client.sent| == 1;
    // both records, the first one first
    assert |client.sent[0]| == 2 && client.sent[0][0]["event_id"] == Str("coin:one");
  }
}
