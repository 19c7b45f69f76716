/** Saving a premium tracking session, server/controllers/trackController.ts.

    `saveSession` is a fixed sequence of guards, each ending the request with a
    status, followed by one insert into `premium_sessions`. The insert is returned as
    the row it would write, together with the reply. */
module TrackController {
  import opened Js

  /** The request body fields the handler reads. */
  datatype SessionBody = SessionBody(
    startTime: JsValue,
    endTime: JsValue,
    totalSteps: JsValue,
    totalDistanceKm: JsValue,
    calories: JsValue,
    path: JsValue)

  /** A row of `premium_sessions`; `path` is the array serialised into `path_json`. */
  datatype SessionRow = SessionRow(
    userId: int,
    startTime: JsValue,
    endTime: JsValue,
    totalSteps: real,
    totalDistanceKm: real,
    calories: real,
    path: seq<JsValue>)

  datatype Reply =
    | Unauthorized                  // 401
    | BadRequest(message: string)   // 400
    | Forbidden                     // 403
    | Saved(sessionId: int)         // 200

  datatype Outcome = Outcome(reply: Reply, inserted: Option<SessionRow>)

  const InvalidTotalSteps := "Invalid totalSteps"
  const InvalidTotalDistance := "Invalid totalDistanceKm"
  const InvalidCalories := "Invalid calories"
  const InvalidPath := "Invalid path data"

  /** `v != null && (typeof v !== 'number' || v < 0)`. */
  predicate BadCount(v: JsValue)
  {
    Present(v) && (!v.Number? || v.n < 0.0)
  }

  /** The first failing body check, in the order the handler makes them. */
  function ValidationError(body: SessionBody): (r: Option<string>)
    ensures r.None? <==>
              !BadCount(body.totalSteps) && !BadCount(body.totalDistanceKm) && !BadCount(body.calories) &&
              !(Present(body.path) && !body.path.Array?)
    ensures r == Some(InvalidTotalSteps) <==> BadCount(body.totalSteps)
    ensures r == Some(InvalidTotalDistance) <==> !BadCount(body.totalSteps) && BadCount(body.totalDistanceKm)
    ensures r == Some(InvalidCalories) <==>
              !BadCount(body.totalSteps) && !BadCount(body.totalDistanceKm) && BadCount(body.calories)
    ensures r == Some(InvalidPath) <==>
              !BadCount(body.totalSteps) && !BadCount(body.totalDistanceKm) && !BadCount(body.calories) &&
              Present(body.path) && !body.path.Array?
  {
    if BadCount(body.totalSteps) then Some(InvalidTotalSteps)
    else if BadCount(body.totalDistanceKm) then Some(InvalidTotalDistance)
    else if BadCount(body.calories) then Some(InvalidCalories)
    else if Present(body.path) && !body.path.Array? then Some(InvalidPath)
    else None
  }

  /** `v != null ? v : 0` for a number that passed its check. */
  function CountOrZero(v: JsValue): (r: real)
    requires !BadCount(v)
    ensures r >= 0.0
    ensures Present(v) ==> r == v.n
    ensures !Present(v) ==> r == 0.0
  {
    if Present(v) then v.n else 0.0
  }

  /** The row written for a body that passed every check. */
  function RowFor(userId: int, body: SessionBody): (row: SessionRow)
    requires ValidationError(body).None?
    ensures row.userId == userId
    ensures row.startTime == Or(body.startTime, Null) && row.endTime == Or(body.endTime, Null)
    ensures row.totalSteps == CountOrZero(body.totalSteps)
    ensures row.totalDistanceKm == CountOrZero(body.totalDistanceKm)
    ensures row.calories == CountOrZero(body.calories)
    ensures body.path.Array? ==> row.path == body.path.items
    ensures !body.path.Array? ==> row.path == []
  {
    var path := Or(body.path, Array([]));
    SessionRow(userId, Or(body.startTime, Null), Or(body.endTime, Null),
               CountOrZero(body.totalSteps), CountOrZero(body.totalDistanceKm), CountOrZero(body.calories),
               if path.Array? then path.items else [])
  }

  /** `saveSession`. `userId` is the authenticated user, `isPremium` the `is_premium`
      column of that user's row (`None` when there is no row), `nextId` the row id the
      insert receives. */
  function SaveSession(userId: Option<int>, body: SessionBody, isPremium: Option<int>, nextId: int): (o: Outcome)
    ensures (userId.None? || userId.value == 0) ==> o == Outcome(Unauthorized, None)
    ensures userId.Some? && userId.value != 0 && ValidationError(body).Some? ==>
              o == Outcome(BadRequest(ValidationError(body).value), None)
    ensures userId.Some? && userId.value != 0 && ValidationError(body).None? && (isPremium.None? || isPremium.value == 0) ==>
              o == Outcome(Forbidden, None)
    ensures userId.Some? && userId.value != 0 && ValidationError(body).None? && isPremium.Some? && isPremium.value != 0 ==>
              o == Outcome(Saved(nextId), Some(RowFor(userId.value, body)))
    ensures o.inserted.Some? <==> o.reply.Saved?
    ensures o.reply.Saved? ==>
              userId.Some? && userId.value != 0 && ValidationError(body).None? &&
              isPremium.Some? && isPremium.value != 0 &&
              o.reply.sessionId == nextId && o.inserted.value == RowFor(userId.value, body)
  {
    if userId.None? || userId.value == 0 then Outcome(Unauthorized, None)
    else if ValidationError(body).Some? then Outcome(BadRequest(ValidationError(body).value), None)
    else if isPremium.None? || isPremium.value == 0 then Outcome(Forbidden, None)
    else Outcome(Saved(nextId), Some(RowFor(userId.value, body)))
  }

  /** The body is validated before the premium lookup: a bad body gets the same 400
      whatever the user's premium status, never a 403. */
  lemma ValidationPrecedesPremium(userId: Option<int>, body: SessionBody, premium1: Option<int>, premium2: Option<int>, nextId: int)
    requires userId.Some? && userId.value != 0
    requires ValidationError(body).Some?
    ensures SaveSession(userId, body, premium1, nextId) == SaveSession(userId, body, premium2, nextId)
    ensures SaveSession(userId, body, premium1, nextId).reply.BadRequest?
  {
  }
}
