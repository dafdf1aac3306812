/** The two services the screen consumes from its query library: `apiRequest`, which
    sends one HTTP request, and `queryClient.invalidateQueries`, which marks cached
    queries stale. Neither is implemented here; each call is recorded in a log, so
    that "no request was sent" and "the list was invalidated" can be stated. */
module Query {

  datatype HttpMethod = Get | Post | Patch | Delete

  /** A JSON value as the request bodies of the screen use them. */
  datatype JsonValue = JString(str: string) | JBool(b: bool)

  /** One `apiRequest(verb, path, body)` call; a request without a body has the empty map. */
  datatype Request = Request(verb: HttpMethod, path: string, body: map<string, JsonValue>)

  /** The argument of `invalidateQueries`: no filter (every query) or one query key. */
  datatype QueryFilter = AllQueries | QueryKey(key: seq<string>)

  class QueryClient {
    var requests: seq<Request>
    var invalidations: seq<QueryFilter>

    constructor()
      ensures requests == [] && invalidations == []
    {
      requests := [];
      invalidations := [];
    }

    method ApiRequest(verb: HttpMethod, path: string, body: map<string, JsonValue>)
      modifies this
      ensures requests == old(requests) + [Request(verb, path, body)]
      ensures invalidations == old(invalidations)
    {
      requests := requests + [Request(verb, path, body)];
    }

    method InvalidateQueries(filter: QueryFilter)
      modifies this
      ensures invalidations == old(invalidations) + [filter]
      ensures requests == old(requests)
    {
      invalidations := invalidations + [filter];
    }
  }
}
