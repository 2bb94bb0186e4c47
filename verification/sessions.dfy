/** The `Session` collection: the shape of a stored login record, the defaults and required
    fields applied when one is created, the unique index on `sessionId`, and the 24-hour TTL index. */
module Sessions {
  import opened Js

  /** Seconds after `timestamp` at which the TTL index removes a record. */
  const TtlSeconds: nat := 24 * 60 * 60

  /** A stored record. `timestamp` is in milliseconds, as `Date.now` gives it. */
  datatype SessionRecord = SessionRecord(
    sessionId: string,
    phoneNumber: string,
    sessionString: string,
    timestamp: int,
    isPending: bool,
    phoneCodeHash: Option<string>)

  /** The fields handed to `Session.create`; each may be left out. */
  datatype SessionDoc = SessionDoc(
    sessionId: Option<string>,
    phoneNumber: Option<string>,
    sessionString: Option<string>,
    timestamp: Option<int>,
    isPending: Option<bool>,
    phoneCodeHash: Option<string>)

  /** Stand-in for the error the document store throws when a required field is missing. */
  const ValidationFailed: JsError := PlainError("ValidationError", "Session validation failed")

  /** Stand-in for the error the document store throws when the unique index on `sessionId` is violated. */
  const DuplicateSessionId: JsError := PlainError("MongoServerError", "E11000 duplicate key error")

  /** The document a `create` stores: required string fields must be present and non-empty;
      `timestamp` defaults to the creation time and `isPending` to false; `phoneCodeHash` is optional. */
  function Build(doc: SessionDoc, now: int): (r: Result<SessionRecord, JsError>)
    ensures r.Ok? <==> Truthy(doc.sessionId) && Truthy(doc.phoneNumber) && Truthy(doc.sessionString)
    ensures r.Err? ==> r.error == ValidationFailed
    ensures r.Ok? ==>
              && r.value.sessionId == doc.sessionId.value
              && r.value.phoneNumber == doc.phoneNumber.value
              && r.value.sessionString == doc.sessionString.value
              && r.value.phoneCodeHash == doc.phoneCodeHash
    ensures r.Ok? && doc.timestamp.None? ==> r.value.timestamp == now
    ensures r.Ok? && doc.timestamp.Some? ==> r.value.timestamp == doc.timestamp.value
    ensures r.Ok? && doc.isPending.None? ==> !r.value.isPending
    ensures r.Ok? && doc.isPending.Some? ==> r.value.isPending == doc.isPending.value
  {
    if !Truthy(doc.sessionId) || !Truthy(doc.phoneNumber) || !Truthy(doc.sessionString) then
      Err(ValidationFailed)
    else
      Ok(SessionRecord(doc.sessionId.value, doc.phoneNumber.value, doc.sessionString.value,
                       doc.timestamp.GetOr(now), doc.isPending.GetOr(false), doc.phoneCodeHash))
  }

  /** The collection as a map keyed by `sessionId`: each record sits under its own id, so no two
      records share one. */
  ghost predicate KeyedById(store: map<string, SessionRecord>) {
    forall id :: id in store ==> store[id].sessionId == id
  }

  /** `Session.create(doc)`: validate, then insert unless the id is already taken. */
  function Create(store: map<string, SessionRecord>, doc: SessionDoc, now: int): (r: Result<map<string, SessionRecord>, JsError>)
    ensures r.Ok? <==> Build(doc, now).Ok? && doc.sessionId.value !in store
    ensures r.Ok? ==> r.value == store[doc.sessionId.value := Build(doc, now).value]
    ensures KeyedById(store) && r.Ok? ==> KeyedById(r.value)
  {
    match Build(doc, now)
    case Err(e) => Err(e)
    case Ok(rec) =>
      if rec.sessionId in store then Err(DuplicateSessionId) else Ok(store[rec.sessionId := rec])
  }

  /** `Session.findOne({ sessionId: id, isPending: true })`. */
  function FindPending(store: map<string, SessionRecord>, id: string): (r: Option<SessionRecord>)
    ensures r.Some? <==> id in store && store[id].isPending
    ensures r.Some? ==> r.value == store[id] && r.value.isPending
  {
    if id in store && store[id].isPending then Some(store[id]) else None
  }

  /** The TTL index removes a record once more than `TtlSeconds` have passed since its timestamp. */
  predicate Expired(rec: SessionRecord, now: int) {
    rec.timestamp + TtlSeconds * 1000 < now
  }

  /** The collection after the TTL monitor has run at time `now`: exactly the unexpired records remain,
      untouched, pending or not. */
  function SweepExpired(store: map<string, SessionRecord>, now: int): (r: map<string, SessionRecord>)
    ensures forall id :: id in r <==> id in store && !Expired(store[id], now)
    ensures forall id :: id in r ==> r[id] == store[id]
    ensures KeyedById(store) ==> KeyedById(r)
  {
    map id | id in store && !Expired(store[id], now) :: store[id]
  }

  /** A record expires a day after it was made, whether or not its login was completed. */
  lemma ExpiryIgnoresPending(rec: SessionRecord, now: int)
    ensures Expired(rec, now) == Expired(rec.(isPending := !rec.isPending), now)
    ensures Expired(rec, now) <==> now - rec.timestamp > 86400000
  {
  }
}
