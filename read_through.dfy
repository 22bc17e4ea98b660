/** The Redis keyspace shared by all requests, and the request handler that
    reads it and overwrites its `items` entry in place. */
module ReadThrough {
  import opened Wrappers
  import opened CacheAside

  class ReadThroughCache {
    /** The keys Redis holds, with their values and expiry instants. */
    var entries: map<string, Entry>

    /** Attach to a store whose contents are `initial`. */
    constructor (initial: map<string, Entry>)
      ensures entries == initial
    {
      entries := initial;
    }

    /** `GET key` at `now`: the connection error if there is one, otherwise the
        live value or nothing. */
    method Get(key: string, now: int, fault: Option<string>) returns (read: Result<Option<Payload>, string>)
      ensures fault.Some? ==> read == Failure(fault.value)
      ensures fault.None? ==> read == Success(Lookup(entries, key, now))
      ensures read == Success(None) <==> fault.None? && (key !in entries || entries[key].expiresAt <= now)
    {
      if fault.Some? {
        read := Failure(fault.value);
      } else if key in entries && now < entries[key].expiresAt {
        read := Success(Some(entries[key].payload));
      } else {
        read := Success(None);
      }
    }

    /** `SETEX key seconds value` at `now`; when the command is lost nothing changes. */
    method Setex(key: string, seconds: int, value: Payload, now: int, lost: bool)
      modifies this
      ensures entries == Written(old(entries), key, seconds, value, now, lost)
    {
      if !lost {
        entries := entries[key := Entry(value, now + seconds)];
      }
    }

    /** One `GET /`: the middleware's read, then, unless it rendered, the query,
        the write-back and the render. Returns the response and the calls made. */
    method Fetch(req: Request) returns (response: Response, calls: seq<Call>)
      modifies this
      ensures Outcome(response, entries, calls) == Step(old(entries), req)
    {
      calls := [CacheGet(CacheKey)];
      var cachedData := Get(CacheKey, req.now, req.getFault);
      if cachedData.Success? && cachedData.value.Some? && Truthy(cachedData.value.value) {
        response := Render(Parse(cachedData.value.value), Yes);
        return;
      }
      calls := calls + [SourceQuery];
      if req.query.Failure? {
        response := Error500(req.query.error);
        return;
      }
      var results := req.query.value;
      var text := Serialize(results);
      calls := calls + [CacheSetex(CacheKey, TtlSeconds, text)];
      Setex(CacheKey, TtlSeconds, text, req.now, req.setexLost);
      response := Render(results, No);
    }
  }
}
