/** The read-through path of `GET /`: the caching middleware reads the key
    `items` from Redis and either renders what it finds or hands over to the
    route, which queries MySQL, writes the rows back to Redis for an hour and
    renders them. Everything here is a value; the store that `SETEX`
    overwrites in place is the class in module ReadThrough. */
module CacheAside {
  import opened Wrappers

  /** The one key the middleware reads and the route writes. */
  const CacheKey: string := "items"

  /** Seconds a written entry stays readable. */
  const TtlSeconds: int := 3600

  /** A database row: column name to value. The cache layer never looks inside. */
  type Row = map<string, string>

  /** A string value stored in Redis. The application only ever stores the JSON
      array of a result set, kept here as the rows themselves; `Blank` is the
      empty string, the only string JavaScript treats as false. */
  datatype Payload = JsonArray(rows: seq<Row>) | Blank

  /** A stored value with the instant (in seconds) at which Redis drops it. */
  datatype Entry = Entry(payload: Payload, expiresAt: int)

  /** The `cacheStatus` passed to the template. */
  datatype CacheStatus = Yes | No

  /** What the client receives: the rendered `index` view, or status 500 with
      the body `{error: message}`. */
  datatype Response = Render(items: seq<Row>, cacheStatus: CacheStatus) | Error500(message: string)

  /** A call made to one of the two collaborators, in the order it is made. */
  datatype Call = CacheGet(key: string) | SourceQuery | CacheSetex(key: string, seconds: int, value: Payload)

  /** What one request meets: the clock, whether the Redis `GET` fails (and
      with which message), whether the `SETEX` is lost, and what the query
      returns if it is made. */
  datatype Request = Request(now: int, getFault: Option<string>, setexLost: bool, query: Result<seq<Row>, string>)

  /** The response, the store afterwards, and the calls made. */
  datatype Outcome = Outcome(response: Response, entries: map<string, Entry>, calls: seq<Call>)

  /** The choice `cacheMiddleware` makes: render from the cache, or call `next()`. */
  datatype Decision = ServeFromCache(items: seq<Row>) | PassToRoute

  /** The route callback's answer and the value it hands to `SETEX`, if any. */
  datatype Handled = Handled(response: Response, write: Option<Payload>)

  /** JavaScript truthiness of the string Redis returns. */
  predicate Truthy(p: Payload) {
    p.JsonArray?
  }

  /** `JSON.stringify(results)`: always an array text, never the empty string. */
  function Serialize(rows: seq<Row>): (p: Payload)
    ensures Truthy(p) && p.rows == rows
  {
    JsonArray(rows)
  }

  /** `JSON.parse(cachedData)` on an array text. */
  function Parse(p: Payload): seq<Row>
    requires p.JsonArray?
  {
    p.rows
  }

  /** What a successful `GET key` answers at time `now`: the value while its
      entry has not expired, nothing otherwise. */
  function Lookup(entries: map<string, Entry>, key: string, now: int): Option<Payload>
  {
    if key in entries && now < entries[key].expiresAt then Some(entries[key].payload) else None
  }

  /** The Redis reply the middleware's callback receives. */
  function CacheRead(entries: map<string, Entry>, req: Request): (read: Result<Option<Payload>, string>)
    ensures read.Failure? <==> req.getFault.Some?
    ensures read.Success? ==> read.value == Lookup(entries, CacheKey, req.now)
  {
    match req.getFault
    case Some(message) => Failure(message)
    case None => Success(Lookup(entries, CacheKey, req.now))
  }

  /** The branches of `cacheMiddleware`'s callback. */
  function CacheMiddleware(read: Result<Option<Payload>, string>): (d: Decision)
    ensures d.ServeFromCache? <==> read.Success? && read.value.Some? && Truthy(read.value.value)
    ensures d.ServeFromCache? ==> d.items == read.value.value.rows
  {
    match read
    case Failure(_) => PassToRoute
    case Success(None) => PassToRoute
    case Success(Some(cached)) =>
      if Truthy(cached) then ServeFromCache(Parse(cached)) else PassToRoute
  }

  /** The branches of the route's query callback. */
  function RouteHandler(query: Result<seq<Row>, string>): (h: Handled)
    ensures h.write.Some? <==> query.Success?
    ensures h.response.Error500? <==> query.Failure?
    ensures query.Failure? ==> h.response.message == query.error
    ensures query.Success? ==> h.response == Render(query.value, No)
    ensures h.write.Some? ==> Truthy(h.write.value) && h.write.value.rows == query.value
  {
    match query
    case Failure(message) => Handled(Error500(message), None)
    case Success(results) => Handled(Render(results, No), Some(Serialize(results)))
  }

  /** The store after a `SETEX key seconds value` issued at `now`. */
  function Written(entries: map<string, Entry>, key: string, seconds: int, value: Payload, now: int, lost: bool): map<string, Entry>
  {
    if lost then entries else entries[key := Entry(value, now + seconds)]
  }

  /** One request through the middleware and then, unless it answered, the route. */
  function Step(entries: map<string, Entry>, req: Request): (o: Outcome)
    ensures |o.calls| > 0 && o.calls[0] == CacheGet(CacheKey)
    ensures forall k :: k != CacheKey ==> (k in o.entries <==> k in entries)
    ensures forall k :: k != CacheKey && k in entries ==> o.entries[k] == entries[k]
    ensures o.response.Error500? ==> o.entries == entries && req.query.Failure?
  {
    match CacheMiddleware(CacheRead(entries, req))
    case ServeFromCache(items) => Outcome(Render(items, Yes), entries, [CacheGet(CacheKey)])
    case PassToRoute =>
      var handled := RouteHandler(req.query);
      match handled.write
      case None => Outcome(handled.response, entries, [CacheGet(CacheKey), SourceQuery])
      case Some(value) =>
        Outcome(handled.response,
                Written(entries, CacheKey, TtlSeconds, value, req.now, req.setexLost),
                [CacheGet(CacheKey), SourceQuery, CacheSetex(CacheKey, TtlSeconds, value)])
  }

  /** A request is answered from the cache exactly when Redis replies and the
      `items` entry is live and non-empty. */
  predicate IsHit(entries: map<string, Entry>, req: Request) {
    CacheMiddleware(CacheRead(entries, req)).ServeFromCache?
  }

  lemma HitCondition(entries: map<string, Entry>, req: Request)
    ensures IsHit(entries, req) <==>
      req.getFault.None? && CacheKey in entries && req.now < entries[CacheKey].expiresAt
      && entries[CacheKey].payload.JsonArray?
  {
  }

  /** A hit renders the cached rows with `cacheStatus: 'yes'`, leaves the store
      alone and never queries the database, whatever it would have returned. */
  lemma HitServesCache(entries: map<string, Entry>, req: Request)
    requires req.getFault.None? && CacheKey in entries && req.now < entries[CacheKey].expiresAt
    requires entries[CacheKey].payload.JsonArray?
    ensures Step(entries, req) == Outcome(Render(entries[CacheKey].payload.rows, Yes), entries, [CacheGet(CacheKey)])
  {
  }

  /** A failing `GET` is handled exactly as a reply of nothing. */
  lemma ReadErrorActsAsMiss(message: string)
    ensures CacheMiddleware(Failure(message)) == CacheMiddleware(Success(None)) == PassToRoute
  {
  }

  /** An empty string in the cache is handled exactly as a reply of nothing. */
  lemma FalsyValueActsAsMiss()
    ensures CacheMiddleware(Success(Some(Blank))) == CacheMiddleware(Success(None)) == PassToRoute
  {
  }

  /** Whenever the middleware passes on, for whatever reason, the database is
      queried once and its error, if any, becomes the response: the request
      never fails because of the cache. */
  lemma MissQueriesSource(entries: map<string, Entry>, req: Request)
    requires !IsHit(entries, req)
    ensures Step(entries, req).calls[..2] == [CacheGet(CacheKey), SourceQuery]
    ensures req.query.Success? ==> Step(entries, req).response == Render(req.query.value, No)
    ensures req.query.Failure? ==> Step(entries, req).response == Error500(req.query.error)
  {
  }

  /** A database error gives status 500 with its message; nothing is written
      and nothing is rendered. */
  lemma SourceErrorIsSurfaced(entries: map<string, Entry>, req: Request)
    requires !IsHit(entries, req) && req.query.Failure?
    ensures Step(entries, req) == Outcome(Error500(req.query.error), entries, [CacheGet(CacheKey), SourceQuery])
  {
  }

  /** After a successful query the `items` entry holds the serialized rows and
      expires an hour later, unless the write is lost; the response is the same
      either way. */
  lemma MissRefreshesCache(entries: map<string, Entry>, req: Request)
    requires !IsHit(entries, req) && req.query.Success?
    ensures var o := Step(entries, req);
      && o.response == Render(req.query.value, No)
      && o.calls == [CacheGet(CacheKey), SourceQuery, CacheSetex(CacheKey, TtlSeconds, Serialize(req.query.value))]
      && o.entries == if req.setexLost then entries
                      else entries[CacheKey := Entry(Serialize(req.query.value), req.now + TtlSeconds)]
  {
  }

  /** Whether the `SETEX` takes effect never changes the response. */
  lemma WriteOutcomeIgnored(entries: map<string, Entry>, req: Request)
    ensures Step(entries, req.(setexLost := true)).response == Step(entries, req.(setexLost := false)).response
  {
  }

  /** A miss followed, within the hour, by a request Redis answers is a hit on
      the first request's rows, even if the database now returns something else. */
  lemma MissThenHit(entries: map<string, Entry>, first: Request, second: Request)
    requires !IsHit(entries, first) && first.query.Success? && !first.setexLost
    requires second.getFault.None? && second.now < first.now + TtlSeconds
    ensures Step(Step(entries, first).entries, second)
         == Outcome(Render(first.query.value, Yes), Step(entries, first).entries, [CacheGet(CacheKey)])
  {
    MissRefreshesCache(entries, first);
    HitServesCache(Step(entries, first).entries, second);
  }

  /** An empty result set is cached as the text "[]", which is truthy: the next
      request within the hour is a hit on no rows, not a miss. */
  lemma EmptyResultIsCached(entries: map<string, Entry>, first: Request, second: Request)
    requires !IsHit(entries, first) && first.query == Success([]) && !first.setexLost
    requires second.getFault.None? && second.now < first.now + TtlSeconds
    ensures IsHit(Step(entries, first).entries, second)
    ensures Step(Step(entries, first).entries, second).response == Render([], Yes)
  {
    MissThenHit(entries, first, second);
  }
}
