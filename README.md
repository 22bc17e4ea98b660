# Read-through cache of the items listing

This project models the request path of `GET /` in the wine-shop web server.
The caching middleware (`cacheMiddleware`) reads the Redis key `items`:

- If the read fails, the middleware logs the error and hands the request on.
- If Redis returns a non-empty string, the page is rendered from it with `cacheStatus: 'yes'`.
- If Redis returns nothing or an empty string, the middleware hands the request on.

The route callback then runs `SELECT * FROM items`:

- If the query fails, the client gets status 500 with `{error: message}`.
- If it succeeds, the rows are written back to Redis with `SETEX items 3600 <json>`. The rows are then rendered with `cacheStatus: 'no'`, whatever became of the write.

The model has three modules:

- `CacheAside` (file `cache_aside.dfy`) holds the values: the stored payload, the entry with its expiry instant, the response, the calls made to Redis and MySQL, and the request. It holds the two decisions as functions: `CacheMiddleware` and `RouteHandler`. `Step` combines them into one request. The lemmas about one request live here.
- `ReadThrough` (file `read_through.dfy`) holds `ReadThroughCache`, a class whose `entries` field is the Redis keyspace shared by all requests. Its `Fetch` method performs one request step by step. Its `SETEX` overwrites the `items` entry in place. `Fetch` is proved to produce exactly what `Step` describes.
- `Traces` (file `traces.dfy`) runs a sequence of requests against one store with `Run`. It proves two things across requests. First, within a live entry's hour every request Redis answers is a hit on the same rows, however the database changes. Second, starting from a store without `items`, every hit serves rows that an earlier miss got from the database less than one hour before.

The collaborators are parameters of each request (`Request`):

- the clock `now`, in seconds;
- whether the Redis `GET` fails, and with which message;
- whether the `SETEX` is lost;
- what the MySQL query returns, rows or an error message.

These helper functions stand for Redis and JSON behaviour:

- `Lookup` is what a `GET` returns given Redis expiry. An entry is readable while `now < expiresAt`, and nothing is returned at or after that instant.
- `Written` is the store after a `SETEX key seconds value` at `now`. The key's entry is replaced by the value, expiring at `now + seconds`. A lost command leaves the store unchanged.
- `Serialize` and `Parse` stand for `JSON.stringify` (app.js:66) and `JSON.parse` (app.js:45). A stored array is kept as its rows (`JsonArray`). `Blank` stands for the empty string, the one stored text that JavaScript treats as false.

## Model

| member | source | states |
|---|---|---|
| `CacheAside.CacheMiddleware` | app.js:35-50 | the middleware renders from the cache if and only if Redis answers with a present, non-empty value, and then renders exactly the parsed rows; a read error, a `nil` reply and an empty string all hand on to the route |
| `CacheAside.RouteHandler` | app.js:60-75 | a `SETEX` is issued if and only if the query succeeds, and a 500 is answered if and only if it fails, carrying the query's message; on success the rows are rendered with `No`, and the value written is truthy and holds those rows |
| `CacheAside.Step` | app.js:33-76 | a request first calls `GET items`; no key other than `items` is ever created, removed or changed; a 500 response happens only on a query error and leaves the store as it was |
| `CacheAside.HitCondition` | app.js:35-50 | a request is served from the cache if and only if Redis answers and the `items` entry is unexpired and non-empty |
| `CacheAside.HitServesCache` | app.js:41-47 | on a hit the response renders the cached rows with `Yes`; the store is untouched; the only call made is the `GET`, so the database is not queried and its result plays no part |
| `CacheAside.ReadErrorActsAsMiss` | app.js:36-39 | a failed `GET` leads to the same decision as a reply of nothing: hand on to the route |
| `CacheAside.FalsyValueActsAsMiss` | app.js:48-50 | an empty string in the cache leads to the same decision as a reply of nothing |
| `CacheAside.MissQueriesSource` | app.js:59-74 | whenever the middleware hands on, the database is queried next; the response is its rows with `No`, or a 500 carrying its message, so a cache failure never fails the request |
| `CacheAside.SourceErrorIsSurfaced` | app.js:61-63 | a query error gives `Error500(message)`; no `SETEX` is issued and the store is unchanged |
| `CacheAside.MissRefreshesCache` | app.js:66-74 | after a successful query the calls are `GET`, query, `SETEX items 3600 <rows>`; `items` is overwritten with the rows expiring at `now + 3600` unless the write is lost; the response is the rows with `No` |
| `CacheAside.WriteOutcomeIgnored` | app.js:66 | whether the `SETEX` is lost never changes the response |
| `CacheAside.MissThenHit` | app.js:34-74 | a written miss followed, within the hour, by a request Redis answers is a hit on the first request's rows, with only a `GET` made, even if the database now returns other rows |
| `CacheAside.EmptyResultIsCached` | app.js:41-66 | an empty result set is cached as `"[]"`, which is truthy: the next request within the hour is a hit rendering no rows, not a miss |
| `ReadThrough.ReadThroughCache.Get` | app.js:35 | `GET key` returns the connection error, or the value while its entry is unexpired, or nothing once it is absent or expired |
| `ReadThrough.ReadThroughCache.Setex` | app.js:66 | `SETEX key seconds value` replaces exactly that key's entry with the value, expiring `seconds` from now; a lost command changes nothing |
| `ReadThrough.ReadThroughCache.Fetch` | app.js:33-76 | one request, performed on the shared store, gives the response, the new store and the calls that `Step` describes for the old store |
| `Traces.Run` | app.js:59-76 | serving a sequence of requests one after another gives exactly one response per request |
| `Traces.WindowServesSnapshot` | app.js:41-47 | while `items` holds rows and is unexpired and Redis answers, every request renders those rows with `Yes` and the store does not change |
| `Traces.MissThenWindowOfHits` | app.js:41-74 | for an hour after a written miss, every request Redis answers renders that miss's rows with `Yes`, whatever the database returns meanwhile |
| `Traces.StalenessBound` | app.js:34-74 | from a store without `items`, every `Yes` response repeats rows that an earlier request got from the database and rendered with `No` less than 3600 seconds before; the live `items` entry always comes from such a request and expires an hour after it |

## Left out

- Express setup, routing, the view engine configuration and `app.listen` (app.js:1-10, 54-56, 78-81) are HTTP plumbing.
- Environment configuration (`dotenv`, port, database and Redis settings) is not modelled. The `version` and `hostname` passed to the template are constants of the process, so `Render` does not carry them.
- The MySQL pool and the SQL text are not modelled. Each request carries the query's outcome as a value.
- The Redis client, its connection and its `'error'` event handler (app.js:22-30) are not modelled. `GET` failure and `SETEX` loss are per-request parameters. A lost `SETEX` is modelled as not applied.
- The version of the Redis client library is not visible. The model follows the callback style the code is written in.
- Logging (app.js:29, 37) is left out.
- EJS rendering is left out. A rendered page is the `Render` constructor with the rows and the cache status.
- `Serialize`, `Parse`: JSON text is not modelled. A stored array is kept as the rows themselves, so a value read back is the value written. Column types that JSON does not preserve, such as dates read back as strings, are not modelled.
- A stored value that is not an array text is not modelled, except the empty string (`Blank`). `JSON.parse` throwing on such a value is left out.
- Concurrency between requests is left out. Requests are served one after another; interleavings of their callbacks and racing writes are not modelled.
- Redis expiry is modelled as an entry becoming unreadable at `expiresAt`. Redis's background deletion of expired keys is not modelled.
- One request has a single instant `now`. The `GET`, the query and the `SETEX` are taken to happen at the same moment. In Redis the hour starts when `SETEX` arrives, which is after the query returns. `MissThenHit`, `MissThenWindowOfHits` and `StalenessBound` measure the hour from the request's `now` instead.
- The code always uses the constant key `items`; no other key is read or written.
- The code issues `SETEX` without a callback. With the callback-style Redis client, an error reply to that command goes to the client's `'error'` event, which app.js:28-30 logs. A command lost with a dropped connection is not reported. Logging is not modelled either way.
