/**
 * The response cache `ApiCache` (js/main.js:610-653) and the API client `Api`
 * (js/main.js:527-608). Each class is proved against a specification function
 * on a plain state value (`Lookup`/`Store` and `GetStep`/`RefreshStep`), and the
 * promised behaviour is proved about those functions.
 *
 * The network is a function from URL to reply; the session storage is a map
 * whose reads and writes either always work or always throw.
 */
module Client {
  import opened Wrappers
  import opened Text
  import opened Records

  type Headers = seq<(string, string)>

  /** A request that reached the network: its URL and the headers it carried. */
  datatype Request = Request(url: string, headers: Headers)

  /** A response: status line, parsed body, `etag` and the rate-limit headers. */
  datatype Response = Response(
    status: int,
    statusText: string,
    body: Body,
    etag: Option<string>,
    rateLimit: Option<string>,
    rateRemaining: Option<string>,
    rateReset: Option<string>)

  /** What `fetch` settles to: a response, or a rejection (network failure). */
  datatype Reply = Answered(response: Response) | Rejected(reason: string)

  /** The upstream server as seen by this run: the reply to each URL. */
  type Net = string -> Reply

  /** The quota snapshot: '?' before any response, then the last rate-limit headers seen. */
  datatype Rate = Unknown | Known(limit: Option<string>, remaining: Option<string>, reset: Option<string>)

  /** A stored cache entry: the `etag` and the limited data (the request date is not modelled). */
  datatype Entry = Entry(etag: Option<string>, data: Payload)

  /** A stored text: a JSON entry, or a text that `JSON.parse` rejects. */
  datatype Slot = Valid(entry: Entry) | Malformed(text: string)

  /** JavaScript truthiness of the stored text. */
  predicate TruthySlot(s: Slot) {
    s.Valid? || s.text != ""
  }

  /** The in-memory map, the session store, and whether the store's reads and writes succeed. */
  datatype CacheState = CacheState(mem: map<string, Slot>, store: map<string, Slot>, readable: bool, writable: bool)

  /** Everything an `Api` instance changes: the rate, the cache and the requests sent so far. */
  datatype ClientState = ClientState(rate: Rate, cache: CacheState, sent: seq<Request>)

  const RateLimitUrl := "https://api.github.com/rate_limit"

  /** The request headers of `config` (js/main.js:528-545). */
  function Config(token: string): (h: Headers)
    ensures forall i :: 0 <= i < |h| ==> h[i].0 != "if-none-match"
  {
    if token != "" then [("Content-Type", "application/json"), ("Authorization", "Token " + token)]
    else [("Content-Type", "application/json")]
  }

  /** `JSON.parse` of the cached text and the conditional header it would add (js/main.js:628-632). */
  function Parse(slot: Slot, config: Headers): (r: Result<(Option<Entry>, Headers), Error>)
    ensures r.Success? <==> slot.Valid?
    ensures r.Success? ==> r.value.0 == Some(slot.entry)
    ensures r.Success? ==> |r.value.1| == |config| + 1 && r.value.1[..|config|] == config
                           && r.value.1[|config|] == ("if-none-match", Str(slot.entry.etag))
  {
    match slot
    case Valid(e) => Success((Some(e), config + [("if-none-match", Str(e.etag))]))
    case Malformed(_) => Failure(MalformedJsonError)
  }

  /** `ApiCache.get` (js/main.js:615-635): the map first, then the store, whose hit is promoted. */
  function Lookup(c: CacheState, url: string, config: Headers): (r: (Result<(Option<Entry>, Headers), Error>, CacheState))
    ensures r.1.store == c.store && r.1.readable == c.readable && r.1.writable == c.writable
    ensures c.mem.Keys <= r.1.mem.Keys
    ensures r.0.Success? && r.0.value.0.None? ==> r.0.value.1 == config
  {
    var key := Lower(url);
    if key in c.mem && TruthySlot(c.mem[key]) then (Parse(c.mem[key], config), c)
    else if !c.readable then (if key in c.mem then Parse(c.mem[key], config) else Failure(UndefinedJsonError), c)
    else if key !in c.store then (Success((None, config)), c)
    else if TruthySlot(c.store[key]) then (Parse(c.store[key], config), c.(mem := c.mem[key := c.store[key]]))
    else (Parse(c.store[key], config), c)
  }

  /** `ApiCache.add` (js/main.js:637-650): the map always, the store unless its write throws. */
  function Store(c: CacheState, url: string, d: Payload, etag: Option<string>): (r: CacheState)
    ensures r.readable == c.readable && r.writable == c.writable
    ensures r.mem.Keys == c.mem.Keys + {Lower(url)} && r.mem[Lower(url)] == Valid(Entry(etag, d))
    ensures forall k :: k in c.mem && k != Lower(url) ==> r.mem[k] == c.mem[k]
    ensures c.writable ==> r.store.Keys == c.store.Keys + {Lower(url)} && r.store[Lower(url)] == Valid(Entry(etag, d))
    ensures forall k :: k in c.store && k != Lower(url) ==> k in r.store && r.store[k] == c.store[k]
    ensures !c.writable ==> r.store == c.store
  {
    var slot := Valid(Entry(etag, d));
    c.(mem := c.mem[Lower(url) := slot], store := if c.writable then c.store[Lower(url) := slot] else c.store)
  }

  predicate IsOk(status: int) {
    200 <= status <= 299
  }

  /** `updateRate` (js/main.js:601-605), with the reset time kept as header text. */
  function RateOf(resp: Response): Rate {
    Known(resp.rateLimit, resp.rateRemaining, resp.rateReset)
  }

  /**
   * `Api.get` (js/main.js:555-590): a cached entry is returned without a request;
   * otherwise the plain `config` headers go out, 304 reads `.data` of `null`,
   * 404 gives `null`, another non-ok status throws its status text, and an ok
   * response updates the rate, is limited, cached and returned.
   */
  function GetStep(st: ClientState, token: string, url: string, limiter: Body -> Result<Payload, Error>, net: Net)
    : (r: (Result<Option<Payload>, Error>, ClientState))
    ensures r.1.sent == st.sent || r.1.sent == st.sent + [Request(url, Config(token))]
    ensures r.0.Failure? && r.0.error.status.Some? ==>
              net(url).Answered? && limiter(net(url).response.body) == Failure(r.0.error)
    ensures r.1.rate == st.rate || (r.1.sent != st.sent && net(url).Answered? && r.1.rate == RateOf(net(url).response))
  {
    var (looked, c1) := Lookup(st.cache, url, Config(token));
    var st1 := st.(cache := c1);
    match looked
    case Failure(e) => (Failure(e), st1)
    case Success(found) =>
      if found.0.Some? then (Success(Some(found.0.value.data)), st1)
      else
        var st2 := st1.(sent := st1.sent + [Request(url, found.1)]);
        match net(url)
        case Rejected(reason) => (Failure(Error(reason, None)), st2)
        case Answered(resp) =>
          if resp.status == 304 then (Failure(NullDataError), st2)
          else if resp.status == 404 then (Success(None), st2)
          else if !IsOk(resp.status) then (Failure(Error(resp.statusText, None)), st2)
          else
            var st3 := st2.(rate := RateOf(resp));
            match limiter(resp.body)
            case Failure(e) => (Failure(e), st3)
            case Success(d) => (Success(Some(d)), st3.(cache := Store(st3.cache, url, d, resp.etag)))
  }

  /** `refreshLimits` (js/main.js:594-599): a plain request whose only effect is on the rate. */
  function RefreshStep(st: ClientState, token: string, net: Net): (r: (Outcome<Error>, ClientState))
    ensures r.1.sent == st.sent + [Request(RateLimitUrl, Config(token))]
    ensures r.1.cache == st.cache
    ensures r.0.Fail? <==> net(RateLimitUrl).Rejected?
  {
    var st1 := st.(sent := st.sent + [Request(RateLimitUrl, Config(token))]);
    match net(RateLimitUrl)
    case Rejected(reason) => (Fail(Error(reason, None)), st1)
    case Answered(resp) => if IsOk(resp.status) then (Pass, st1.(rate := RateOf(resp))) else (Pass, st1)
  }

  /** The cache key is the lower-cased URL: URLs equal up to case see the same entry. */
  lemma LookupIgnoresCase(c: CacheState, u: string, v: string, config: Headers)
    requires EqualIgnoringCase(u, v)
    ensures Lookup(c, u, config) == Lookup(c, v, config)
  {
    LowerAgreesIffEqualIgnoringCase(u, v);
  }

  /** A hit in the session store is copied into the in-memory map. */
  lemma StoreHitPromoted(c: CacheState, url: string, config: Headers)
    requires Lower(url) !in c.mem && c.readable && Lower(url) in c.store
    requires c.store[Lower(url)].Valid?
    ensures Lookup(c, url, config).1.mem == c.mem[Lower(url) := c.store[Lower(url)]]
    ensures Lookup(c, url, config).0 == Success((Some(c.store[Lower(url)].entry), config + [("if-none-match", Str(c.store[Lower(url)].entry.etag))]))
  {
  }

  /** A store write that throws is swallowed; the in-memory entry is still written. */
  lemma FailedStoreWriteKeepsMapEntry(c: CacheState, url: string, d: Payload, etag: Option<string>)
    requires !c.writable
    ensures Store(c, url, d, etag).store == c.store
    ensures Store(c, url, d, etag).mem[Lower(url)] == Valid(Entry(etag, d))
  {
  }

  /**
   * After `add(url, d, ...)`, a `get` of any URL equal to it up to case returns
   * `d` and changes nothing: no request, no rate update.
   */
  lemma AddThenGetHits(st: ClientState, token: string, url: string, url': string, d: Payload, etag: Option<string>,
                       limiter: Body -> Result<Payload, Error>, net: Net)
    requires EqualIgnoringCase(url, url')
    ensures var st' := st.(cache := Store(st.cache, url, d, etag));
            GetStep(st', token, url', limiter, net) == (Success(Some(d)), st')
  {
    LowerAgreesIffEqualIgnoringCase(url, url');
  }

  /** Asking again for a URL that just gave data returns the same data with no request. */
  lemma RepeatedGetIsServedFromCache(st: ClientState, token: string, url: string,
                                     limiter: Body -> Result<Payload, Error>, net: Net)
    requires GetStep(st, token, url, limiter, net).0.Success?
    requires GetStep(st, token, url, limiter, net).0.value.Some?
    ensures var (r1, st1) := GetStep(st, token, url, limiter, net);
            GetStep(st1, token, url, limiter, net) == (r1, st1)
  {
    var key := Lower(url);
    var (r1, st1) := GetStep(st, token, url, limiter, net);
    assert key in st1.cache.mem && st1.cache.mem[key].Valid? && st1.cache.mem[key].entry.data == r1.value.value;
  }

  /**
   * `JSON.parse` sits outside the `try`: a malformed stored entry makes `get`
   * throw, and since the text was promoted into the map, every later `get` of
   * that URL throws too, without any request.
   */
  lemma MalformedEntryIsNotSwallowed(st: ClientState, token: string, url: string, text: string,
                                     limiter: Body -> Result<Payload, Error>, net: Net)
    requires Lower(url) !in st.cache.mem && st.cache.readable
    requires Lower(url) in st.cache.store && st.cache.store[Lower(url)] == Malformed(text) && text != ""
    ensures var (r1, st1) := GetStep(st, token, url, limiter, net);
            && r1 == Failure(MalformedJsonError) && st1.sent == st.sent
            && GetStep(st1, token, url, limiter, net) == (Failure(MalformedJsonError), st1)
  {
  }

  /**
   * The decision order of `get` on a request that reached the network: 404 gives
   * `null` and stores nothing, 304 and every other non-ok status throw, an ok
   * response overwrites the rate and caches the limited data it returns.
   */
  lemma FreshResponseHandling(st: ClientState, token: string, url: string,
                              limiter: Body -> Result<Payload, Error>, net: Net, resp: Response)
    requires Lookup(st.cache, url, Config(token)).0 == Success((None, Config(token)))
    requires net(url) == Answered(resp)
    ensures var (r, st') := GetStep(st, token, url, limiter, net);
            var c1 := Lookup(st.cache, url, Config(token)).1;
            && st'.sent == st.sent + [Request(url, Config(token))]
            && (resp.status == 404 ==> r == Success(None) && st'.rate == st.rate && st'.cache == c1)
            && (resp.status == 304 ==> r == Failure(NullDataError) && st'.rate == st.rate && st'.cache == c1)
            && (resp.status != 404 && resp.status != 304 && !IsOk(resp.status) ==>
                  r == Failure(Error(resp.statusText, None)) && st'.rate == st.rate && st'.cache == c1)
            && (IsOk(resp.status) ==> st'.rate == RateOf(resp))
            && (IsOk(resp.status) && limiter(resp.body).Failure? ==>
                  r == Failure(limiter(resp.body).error) && st'.cache == c1)
            && (IsOk(resp.status) && limiter(resp.body).Success? ==>
                  r == Success(Some(limiter(resp.body).value))
                  && st'.cache == Store(c1, url, limiter(resp.body).value, resp.etag))
  {
  }

  /**
   * The third argument of `fetch` is ignored and `if-none-match` is only set on
   * a hit, which never reaches the network: every request sent carries exactly
   * the `config` headers.
   */
  lemma SentRequestsCarryConfigOnly(st: ClientState, token: string, url: string,
                                    limiter: Body -> Result<Payload, Error>, net: Net)
    requires forall i :: 0 <= i < |st.sent| ==> st.sent[i].headers == Config(token)
    ensures var st' := GetStep(st, token, url, limiter, net).1;
            forall i :: 0 <= i < |st'.sent| ==> st'.sent[i].headers == Config(token)
    ensures var st' := GetStep(st, token, url, limiter, net).1;
            forall i, j :: 0 <= i < |st'.sent| && 0 <= j < |st'.sent[i].headers| ==> st'.sent[i].headers[j].0 != "if-none-match"
  {
  }

  /** The response cache of one `Api` instance, over the session store. */
  class ApiCache {
    var mem: map<string, Slot>
    var store: map<string, Slot>
    const readable: bool
    const writable: bool

    ghost function State(): CacheState
      reads this
    {
      CacheState(mem, store, readable, writable)
    }

    constructor (session: map<string, Slot>, readable: bool, writable: bool)
      ensures State() == CacheState(map[], session, readable, writable)
    {
      mem := map[];
      store := session;
      this.readable := readable;
      this.writable := writable;
    }

    /** `get(url, config)` (js/main.js:615-635). */
    method Get(url: string, config: Headers) returns (r: Result<(Option<Entry>, Headers), Error>)
      modifies this
      ensures (r, State()) == Lookup(old(State()), url, config)
    {
      var key := Lower(url);
      var cachedString: Option<Slot> := None;
      var readFailed := false;
      if key in mem && TruthySlot(mem[key]) {
        cachedString := Some(mem[key]);
      } else if !readable {
        if key in mem {
          cachedString := Some(mem[key]);
        } else {
          readFailed := true;
        }
      } else if key in store {
        cachedString := Some(store[key]);
        if TruthySlot(store[key]) {
          mem := mem[key := store[key]];
        }
      }
      if readFailed {
        return Failure(UndefinedJsonError);
      }
      match cachedString
      case None => r := Success((None, config));
      case Some(slot) => r := Parse(slot, config);
    }

    /** `add(url, limitedData, response)` (js/main.js:637-650). */
    method Add(url: string, d: Payload, etag: Option<string>)
      modifies this
      ensures State() == Store(old(State()), url, d, etag)
    {
      var key := Lower(url);
      var val := Valid(Entry(etag, d));
      mem := mem[key := val];
      if writable {
        store := store[key := val];
      }
    }
  }

  /** The API client of one `fetchAndShow` run. */
  class Api {
    const token: string
    var rate: Rate
    const cache: ApiCache
    /** The requests that reached the network, in order. */
    ghost var Sent: seq<Request>

    ghost function State(): ClientState
      reads this, cache
    {
      ClientState(rate, cache.State(), Sent)
    }

    constructor (token: string, session: map<string, Slot>, readable: bool, writable: bool)
      ensures this.token == token && fresh(cache)
      ensures State() == ClientState(Unknown, CacheState(map[], session, readable, writable), [])
    {
      this.token := token;
      rate := Unknown;
      cache := new ApiCache(session, readable, writable);
      Sent := [];
    }

    /** `fetch` (js/main.js:555-590); its third argument is ignored, so it has none here. */
    method Get(url: string, limiter: Body -> Result<Payload, Error>, net: Net) returns (r: Result<Option<Payload>, Error>)
      modifies this, cache
      ensures (r, State()) == GetStep(old(State()), token, url, limiter, net)
    {
      var looked := cache.Get(url, Config(token));
      if looked.Failure? {
        return Failure(looked.error);
      }
      var (cached, newConfig) := looked.value;
      if cached.Some? {
        return Success(Some(cached.value.data));
      }
      Sent := Sent + [Request(url, newConfig)];
      var reply := net(url);
      if reply.Rejected? {
        return Failure(Error(reply.reason, None));
      }
      var response := reply.response;
      if response.status == 304 {
        return Failure(NullDataError);
      }
      if response.status == 404 {
        return Success(None);
      }
      if !IsOk(response.status) {
        return Failure(Error(response.statusText, None));
      }
      UpdateRate(response);
      var limited := limiter(response.body);
      if limited.Failure? {
        return Failure(limited.error);
      }
      cache.Add(url, limited.value, response.etag);
      return Success(Some(limited.value));
    }

    /** `updateRate` (js/main.js:601-605). */
    method UpdateRate(response: Response)
      modifies this`rate
      ensures rate == RateOf(response)
    {
      rate := Known(response.rateLimit, response.rateRemaining, response.rateReset);
    }

    /** `refreshLimits` (js/main.js:594-599). */
    method RefreshLimits(net: Net) returns (r: Outcome<Error>)
      modifies this
      ensures (r, State()) == RefreshStep(old(State()), token, net)
    {
      Sent := Sent + [Request(RateLimitUrl, Config(token))];
      var reply := net(RateLimitUrl);
      if reply.Rejected? {
        return Fail(Error(reply.reason, None));
      }
      if IsOk(reply.response.status) {
        UpdateRate(reply.response);
      }
      return Pass;
    }
  }
}
