/**
 * The `/check-coverage` handler: derive the cache key from the request, answer
 * from the cache on a hit, otherwise query the store once, shape the response,
 * cache it and return it. The store is represented by the answer it would give
 * and the handler reports the parameters it queried with, if any.
 */
module CheckCoverage {
  import opened Wrappers
  import opened Json
  import opened TtlCache
  import opened Coverage

  /** The request body. `mediums` is sent by the form but never read here. */
  datatype Request = Request(latitude: Value, longitude: Value, address: Value, mediums: seq<string>)

  /** The query's parameters `$1, $2, $3`: longitude is the point's x, latitude its y. */
  datatype QueryParams = QueryParams(x: Value, y: Value, address: Value)

  /** What the store gives back for the query: its rows, or an error thrown by `pool.query`. */
  datatype StoreAnswer = Rows(rows: seq<Row>) | QueryFailed

  /** The HTTP answer: a JSON body with status 200, or status 500 with an error body. */
  datatype Reply = Ok(body: Response) | Status500(error: string)

  const InternalErrorMessage: string := "Internal Server Error"

  /** The key `${latitude},${longitude},${address}`. */
  function CacheKey(req: Request): string
  {
    ToText(req.latitude) + "," + ToText(req.longitude) + "," + ToText(req.address)
  }

  /** Requests that agree on latitude, longitude and address share a key, whatever their mediums. */
  lemma KeyIgnoresMediums(a: Request, b: Request)
    requires a.latitude == b.latitude && a.longitude == b.longitude && a.address == b.address
    ensures CacheKey(a) == CacheKey(b)
  {
  }

  /** A comma-free prefix ends where the first comma of the string is. */
  lemma CommaFreePrefixLength(x: string, s: string, y: string, t: string)
    requires ',' !in y
    requires x + "," + s == y + "," + t
    ensures |y| <= |x|
  {
    assert (x + "," + s)[|x|] == ',';
  }

  /** Splitting at a comma is unambiguous when the part before it has none. */
  lemma SplitAtFirstComma(x: string, s: string, y: string, t: string)
    requires ',' !in x && ',' !in y
    requires x + "," + s == y + "," + t
    ensures x == y && s == t
  {
    CommaFreePrefixLength(x, s, y, t);
    CommaFreePrefixLength(y, t, x, s);
    var u := x + "," + s;
    assert x == u[..|x|] == y;
    assert s == u[|x| + 1..] == t;
  }

  /**
   * When the latitude and longitude texts carry no comma (as JavaScript's
   * rendering of a number never does), the key determines all three texts.
   */
  lemma KeyDeterminesFields(a: Request, b: Request)
    requires ',' !in ToText(a.latitude) && ',' !in ToText(a.longitude)
    requires ',' !in ToText(b.latitude) && ',' !in ToText(b.longitude)
    requires CacheKey(a) == CacheKey(b)
    ensures ToText(a.latitude) == ToText(b.latitude)
    ensures ToText(a.longitude) == ToText(b.longitude)
    ensures ToText(a.address) == ToText(b.address)
  {
    var la, lb := ToText(a.latitude), ToText(b.latitude);
    var ga, gb := ToText(a.longitude), ToText(b.longitude);
    var da, db := ToText(a.address), ToText(b.address);
    assert la + "," + (ga + "," + da) == CacheKey(a);
    assert lb + "," + (gb + "," + db) == CacheKey(b);
    SplitAtFirstComma(la, ga + "," + da, lb, gb + "," + db);
    SplitAtFirstComma(ga, da, gb, db);
  }

  /** A string latitude may contain commas, and then two different requests share a key. */
  lemma TextLatitudeCanCollide()
    ensures var a := Request(Str("1,2"), Str("3"), Str("x"), []);
      var b := Request(Str("1"), Str("2,3"), Str("x"), []);
      a != b && CacheKey(a) == CacheKey(b)
  {
    var a := Request(Str("1,2"), Str("3"), Str("x"), []);
    var b := Request(Str("1"), Str("2,3"), Str("x"), []);
    assert a.latitude != b.latitude;
  }

  /**
   * The handler body, from the key to the reply. `now` is the instant of the
   * `has`/`get` lookup and `doneAt` the later instant, once the awaited query
   * has returned, at which `set` stamps a new entry.
   */
  method HandleCheckCoverage(cache: Cache<Response>, req: Request, now: nat, doneAt: nat, store: StoreAnswer)
    returns (reply: Reply, query: Option<QueryParams>)
    requires now <= doneAt
    modifies cache
    ensures Find(old(cache.entries), CacheKey(req), now).Some? ==>
      && reply == Ok(Find(old(cache.entries), CacheKey(req), now).value)
      && query == None
      && cache.entries == old(cache.entries)
    ensures Find(old(cache.entries), CacheKey(req), now).None? ==>
      query == Some(QueryParams(req.longitude, req.latitude, req.address))
    ensures Find(old(cache.entries), CacheKey(req), now).None? && store.QueryFailed? ==>
      && reply == Status500(InternalErrorMessage)
      && cache.entries == old(cache.entries)
    ensures Find(old(cache.entries), CacheKey(req), now).None? && store.Rows? ==>
      && reply == Ok(Respond(req.address, store.rows))
      && cache.entries == Put(old(cache.entries), CacheKey(req), Respond(req.address, store.rows), doneAt)
  {
    var key := CacheKey(req);
    var hit := cache.Has(key, now);
    if hit {
      var cached := cache.Get(key, now);
      reply, query := Ok(cached.value), None;
      return;
    }
    query := Some(QueryParams(req.longitude, req.latitude, req.address));
    match store
    case QueryFailed =>
      reply := Status500(InternalErrorMessage);
    case Rows(rows) =>
      var response: Response;
      if |rows| > 0 {
        var providers := GroupCheapest(rows);
        GroupIsOnePerProvider(rows);
        response := Response(CoveredMessage, req.address, Some(Entries(providers)));
      } else {
        response := Response(NotCoveredMessage, req.address, None);
      }
      cache.Set(key, response, doneAt);
      reply := Ok(response);
  }

  /**
   * Two requests for the same place, the second looked up after the first's
   * miss was cached at `d1` and within the time-to-live from then: the second
   * gets the first's reply from the cache, without a store query, even when
   * its mediums differ.
   */
  method RepeatWithinTtl(cache: Cache<Response>, first: Request, second: Request,
                         t1: nat, d1: nat, t2: nat, d2: nat, answer1: StoreAnswer, answer2: StoreAnswer)
    returns (reply1: Reply, reply2: Reply, query2: Option<QueryParams>)
    requires second.latitude == first.latitude && second.longitude == first.longitude
    requires second.address == first.address
    requires Find(cache.entries, CacheKey(first), t1).None?
    requires answer1.Rows?
    requires t1 <= d1 <= t2 <= d1 + TtlMillis && t2 <= d2
    modifies cache
    ensures reply1 == Ok(Respond(first.address, answer1.rows))
    ensures reply2 == reply1 && query2 == None
  {
    var query1;
    reply1, query1 := HandleCheckCoverage(cache, first, t1, d1, answer1);
    KeyIgnoresMediums(first, second);
    FindAfterPut(old(cache.entries), CacheKey(first), Respond(first.address, answer1.rows), d1, t2);
    reply2, query2 := HandleCheckCoverage(cache, second, t2, d2, answer2);
  }

  /**
   * Once the time-to-live has passed since a miss's reply was cached at `d1`,
   * the same request queries the store again.
   */
  method RepeatAfterTtl(cache: Cache<Response>, req: Request, t1: nat, d1: nat, t2: nat, d2: nat,
                        answer1: StoreAnswer, answer2: StoreAnswer)
    returns (reply1: Reply, reply2: Reply, query2: Option<QueryParams>)
    requires Find(cache.entries, CacheKey(req), t1).None?
    requires t1 <= d1 && d1 + TtlMillis < t2 <= d2
    modifies cache
    ensures query2 == Some(QueryParams(req.longitude, req.latitude, req.address))
  {
    var query1;
    reply1, query1 := HandleCheckCoverage(cache, req, t1, d1, answer1);
    if answer1.Rows? {
      FindAfterPut(old(cache.entries), CacheKey(req), Respond(req.address, answer1.rows), d1, t2);
    }
    reply2, query2 := HandleCheckCoverage(cache, req, t2, d2, answer2);
  }

  /** A failed query is not cached: the next request at any time queries again. */
  method ErrorIsNotCached(cache: Cache<Response>, req: Request, t1: nat, d1: nat, t2: nat, d2: nat,
                          answer2: StoreAnswer)
    returns (reply1: Reply, reply2: Reply, query2: Option<QueryParams>)
    requires Find(cache.entries, CacheKey(req), t1).None?
    requires Find(cache.entries, CacheKey(req), t2).None?
    requires t1 <= d1 && t2 <= d2
    modifies cache
    ensures reply1 == Status500(InternalErrorMessage)
    ensures query2.Some?
  {
    var query1;
    reply1, query1 := HandleCheckCoverage(cache, req, t1, d1, QueryFailed);
    reply2, query2 := HandleCheckCoverage(cache, req, t2, d2, answer2);
  }
}
