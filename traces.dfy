/** Successive requests against one store: what the cache guarantees across
    requests rather than within one. */
module Traces {
  import opened Wrappers
  import opened CacheAside

  /** The responses to a sequence of requests, served one after another, and
      the store they leave behind. */
  datatype Trace = Trace(responses: seq<Response>, entries: map<string, Entry>)

  function Run(initial: map<string, Entry>, reqs: seq<Request>): (t: Trace)
    ensures |t.responses| == |reqs|
    decreases |reqs|
  {
    if reqs == [] then Trace([], initial)
    else
      var before := Run(initial, reqs[..|reqs| - 1]);
      var o := Step(before.entries, reqs[|reqs| - 1]);
      Trace(before.responses + [o.response], o.entries)
  }

  /** Request `j` was a miss that rendered the database's `rows`. */
  ghost predicate FreshFrom(reqs: seq<Request>, responses: seq<Response>, j: int, rows: seq<Row>)
  {
    0 <= j < |reqs| && j < |responses| && reqs[j].query == Success(rows) && responses[j] == Render(rows, No)
  }

  /** A live array in the `items` entry was written by an earlier miss, and
      expires one hour after that request. */
  ghost predicate Provenance(entries: map<string, Entry>, reqs: seq<Request>, responses: seq<Response>)
  {
    CacheKey in entries && entries[CacheKey].payload.JsonArray? ==>
      exists j :: FreshFrom(reqs, responses, j, entries[CacheKey].payload.rows)
                  && entries[CacheKey].expiresAt == reqs[j].now + TtlSeconds
  }

  /** Every response marked `cacheStatus: 'yes'` repeats the rows some earlier
      request got from the database less than an hour before it. */
  ghost predicate HitsAreFresh(reqs: seq<Request>, responses: seq<Response>)
  {
    forall i :: 0 <= i < |reqs| && i < |responses| && responses[i].Render? && responses[i].cacheStatus == Yes ==>
      exists j :: j < i && FreshFrom(reqs, responses, j, responses[i].items)
                  && reqs[i].now < reqs[j].now + TtlSeconds
  }

  /** Starting from a store with no `items` entry, the cache never serves rows
      that are older than one hour, and never rows the database did not return. */
  lemma {:induction false} StalenessBound(initial: map<string, Entry>, reqs: seq<Request>)
    requires CacheKey !in initial
    ensures Provenance(Run(initial, reqs).entries, reqs, Run(initial, reqs).responses)
    ensures HitsAreFresh(reqs, Run(initial, reqs).responses)
  {
    if reqs != [] {
      var n := |reqs| - 1;
      var prefix := reqs[..n];
      StalenessBound(initial, prefix);
      var before := Run(initial, prefix);
      var req := reqs[n];
      var o := Step(before.entries, req);
      var responses := before.responses + [o.response];
      assert Run(initial, reqs) == Trace(responses, o.entries);
      forall j, rows | FreshFrom(prefix, before.responses, j, rows)
        ensures FreshFrom(reqs, responses, j, rows)
      {
        assert reqs[j] == prefix[j] && responses[j] == before.responses[j];
      }
      if IsHit(before.entries, req) {
        HitServesCache(before.entries, req);
        var rows := before.entries[CacheKey].payload.rows;
        var j :| FreshFrom(prefix, before.responses, j, rows)
                 && before.entries[CacheKey].expiresAt == prefix[j].now + TtlSeconds;
        assert FreshFrom(reqs, responses, j, rows) && j < n;
      } else if req.query.Success? && !req.setexLost {
        MissRefreshesCache(before.entries, req);
        assert FreshFrom(reqs, responses, n, req.query.value);
      } else {
        assert o.entries == before.entries;
      }
      forall i | 0 <= i < |reqs| && i < |responses| && responses[i].Render? && responses[i].cacheStatus == Yes
        ensures exists j :: j < i && FreshFrom(reqs, responses, j, responses[i].items)
                            && reqs[i].now < reqs[j].now + TtlSeconds
      {
        if i < n {
          assert reqs[i] == prefix[i] && responses[i] == before.responses[i];
          var j :| j < i && FreshFrom(prefix, before.responses, j, responses[i].items)
                   && prefix[i].now < prefix[j].now + TtlSeconds;
          assert FreshFrom(reqs, responses, j, responses[i].items);
        } else {
          assert IsHit(before.entries, req);
        }
      }
    }
  }

  /** While the `items` entry holds rows and has not expired, and Redis
      answers, every request is a hit on those rows and the store stays as it
      is, however the database's contents change. */
  lemma {:induction false} WindowServesSnapshot(entries: map<string, Entry>, rows: seq<Row>, reqs: seq<Request>)
    requires CacheKey in entries && entries[CacheKey].payload == JsonArray(rows)
    requires forall i :: 0 <= i < |reqs| ==> reqs[i].getFault.None? && reqs[i].now < entries[CacheKey].expiresAt
    ensures Run(entries, reqs).entries == entries
    ensures forall i :: 0 <= i < |reqs| ==> Run(entries, reqs).responses[i] == Render(rows, Yes)
  {
    if reqs != [] {
      var n := |reqs| - 1;
      WindowServesSnapshot(entries, rows, reqs[..n]);
      HitServesCache(entries, reqs[n]);
    }
  }

  /** Specialised to the store a miss leaves behind: for an hour after a
      successful, written miss, requests Redis answers repeat its rows. */
  lemma {:induction false} MissThenWindowOfHits(entries: map<string, Entry>, first: Request, rest: seq<Request>)
    requires !IsHit(entries, first) && first.query.Success? && !first.setexLost
    requires forall i :: 0 <= i < |rest| ==> rest[i].getFault.None? && rest[i].now < first.now + TtlSeconds
    ensures forall i :: 0 <= i < |rest| ==>
      Run(Step(entries, first).entries, rest).responses[i] == Render(first.query.value, Yes)
  {
    MissRefreshesCache(entries, first);
    WindowServesSnapshot(Step(entries, first).entries, first.query.value, rest);
  }
}
