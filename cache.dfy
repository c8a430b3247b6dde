/**
 * `RedisCache` of index.js: a response cache for a rendering server that keeps
 * bodies in a key-value store under a key derived from the request path, each
 * written together with an expiry. The store is an abstract map from key to
 * (body, ttl); its outcome for a command (success or the error it reports) is a
 * parameter of the operation that issues the command.
 */
module Cache {
  import opened Wrappers
  import opened JsValues
  import opened Options

  /** Default expiry in seconds. */
  const FIVE_MINUTES: int := 5 * 60

  /** The option keys `pick` takes out of the constructor's options. */
  const RECOGNIZED: seq<string> := ["expiration", "cacheKey"]

  /** A request of the host framework; only ever passed on to the key function. */
  datatype Request = Request(url: string)

  /** A response of the host framework: its status code and originating request. */
  datatype Response = Response(statusCode: int, req: Option<Request>)

  /** What the store holds for a key: the body and the ttl it was given. */
  datatype Entry = Entry(body: string, ttl: Value)

  /** How a call of `fetch` or `put` ends. */
  datatype Outcome =
    | NotAttempted              // returned undefined: nothing issued to the store
    | Resolved(reply: Option<string>)  // the promise resolved (put resolves with no value)
    | Rejected(error: string)   // the promise rejected with the store's error
    | ThrewTypeError            // `this.cacheKey` is not callable: a synchronous TypeError

  /**
   * The value held in `this.cacheKey`: the default arrow `(path) => path`, or
   * whatever `options.cacheKey` reads after the constructor ran.
   */
  datatype KeyFunction = PathIdentity | FromOptions(value: Value)

  /** Settings the constructor derives from its options object. */
  datatype Config = Config(clientOptions: map<string, Value>, expiration: Value, cacheKey: KeyFunction)

  /**
   * The key function the constructor keeps: the option is tested on the picked
   * copy, but the value kept is read back from the options object itself.
   */
  function ChooseKeyFunction(picked: map<string, Value>, remaining: map<string, Value>): (k: KeyFunction) {
    if IsFunction(Lookup(picked, "cacheKey")) then FromOptions(Lookup(remaining, "cacheKey")) else PathIdentity
  }

  /**
   * The settings a `RedisCache` is constructed with: the options handed to the
   * store client lose the two recognised keys; the expiry is the option when it
   * is truthy and five minutes otherwise; a function-valued `cacheKey` option is
   * lost (the kept value is undefined) and otherwise keys are the path.
   */
  function Configure(options: map<string, Value>): (c: Config)
    ensures c.clientOptions == options - {"expiration", "cacheKey"}
    ensures Truthy(Lookup(options, "expiration")) ==> c.expiration == Lookup(options, "expiration")
    ensures !Truthy(Lookup(options, "expiration")) ==> c.expiration == Num(FIVE_MINUTES)
    ensures IsFunction(Lookup(options, "cacheKey")) ==> c.cacheKey == FromOptions(Undefined)
    ensures !IsFunction(Lookup(options, "cacheKey")) ==> c.cacheKey == PathIdentity
  {
    PickStepsMeaning(options, RECOGNIZED);
    assert KeySet(RECOGNIZED) == {"expiration", "cacheKey"};
    var picked := PickSteps(options, RECOGNIZED).0;
    var remaining := PickSteps(options, RECOGNIZED).1;
    Config(remaining, Or(Lookup(picked, "expiration"), Num(FIVE_MINUTES)), ChooseKeyFunction(picked, remaining))
  }

  /**
   * `this.cacheKey(path, request)`: the key, or None when the held value is not
   * a function and the call throws. A callable value from the options never
   * reaches an instance, so that case is excluded.
   */
  function KeyFor(k: KeyFunction, path: string, request: Option<Request>): (key: Option<string>)
    requires k.FromOptions? ==> !IsFunction(k.value)
  {
    match k
    case PathIdentity => Some(path)
    case FromOptions(_) => None
  }

  /** The key used by `fetch` and `put` is the path exactly when the `cacheKey` option is not a function. */
  lemma ConfiguredKey(options: map<string, Value>, path: string, request: Option<Request>)
    ensures Configure(options).cacheKey.FromOptions? ==> !IsFunction(Configure(options).cacheKey.value)
    ensures KeyFor(Configure(options).cacheKey, path, request) ==
            if IsFunction(Lookup(options, "cacheKey")) then None else Some(path)
  {
  }

  /** `response && response.req` */
  function RequestOf(response: Option<Response>): (request: Option<Request>) {
    match response
    case None => None
    case Some(r) => r.req
  }

  /** `put` writes unless a response is present with a status code of 300 or more. */
  predicate Cacheable(response: Option<Response>) {
    response.None? || response.value.statusCode < 300
  }

  /** The store's reply to GET: the body under `key`, or nil when there is none. */
  function Reply(store: map<string, Entry>, key: string): (reply: Option<string>) {
    if key in store then Some(store[key].body) else None
  }

  class RedisCache {
    /** The options given to the store client (the caller's object after `pick`). */
    var clientOptions: map<string, Value>
    var expiration: Value
    var connected: bool
    var cacheKey: KeyFunction
    /** The contents of the store the client talks to. */
    var store: map<string, Entry>
    /** The lines written to the host's `ui`. */
    var log: seq<string>

    /** The held key function is never a callable value taken from the options. */
    ghost predicate Valid()
      reads this
    {
      cacheKey.FromOptions? ==> !IsFunction(cacheKey.value)
    }

    /**
     * `new RedisCache(options)` on a store that holds `server`. Disconnected
     * until the client reports `connect`.
     */
    constructor (options: map<string, Value>, server: map<string, Entry>)
      ensures Valid()
      ensures clientOptions == Configure(options).clientOptions
      ensures expiration == Configure(options).expiration
      ensures cacheKey == Configure(options).cacheKey
      ensures !connected && store == server && log == []
    {
      var cacheOptions, remaining := Pick(options, RECOGNIZED);
      clientOptions := remaining;
      expiration := Or(Lookup(cacheOptions, "expiration"), Num(FIVE_MINUTES));
      connected := false;
      cacheKey := ChooseKeyFunction(cacheOptions, remaining);
      store := server;
      log := [];
    }

    /** The client's `error` event: logged, the connection state is kept. */
    method OnError(error: string)
      requires Valid()
      modifies this`log
      ensures Valid()
      ensures connected == old(connected)
      ensures log == old(log) + ["redis error; err=" + error]
    {
      log := log + ["redis error; err=" + error];
    }

    /** The client's `connect` event. */
    method OnConnect()
      requires Valid()
      modifies this`connected, this`log
      ensures Valid()
      ensures connected
      ensures log == old(log) + ["redis connected"]
    {
      connected := true;
      log := log + ["redis connected"];
    }

    /** The client's `end` event. */
    method OnEnd()
      requires Valid()
      modifies this`connected, this`log
      ensures Valid()
      ensures !connected
      ensures log == old(log) + ["redis disconnected"]
    {
      connected := false;
      log := log + ["redis disconnected"];
    }

    /**
     * `fetch(path, request)`, where `getError` is the error the store reports
     * for GET, if any. It changes nothing.
     */
    method Fetch(path: string, request: Option<Request>, getError: Option<string>) returns (r: Outcome)
      requires Valid()
      ensures !connected ==> r == NotAttempted
      ensures connected && KeyFor(cacheKey, path, request).None? ==> r == ThrewTypeError
      ensures connected && KeyFor(cacheKey, path, request).Some? && getError.Some? ==> r == Rejected(getError.value)
      ensures connected && KeyFor(cacheKey, path, request).Some? && getError.None? ==>
                r == Resolved(Reply(store, KeyFor(cacheKey, path, request).value))
    {
      if !connected {
        return NotAttempted;
      }
      var key := KeyFor(cacheKey, path, request);
      if key.None? {
        return ThrewTypeError;
      }
      match getError
      case Some(err) =>
        r := Rejected(err);
      case None =>
        r := Resolved(Reply(store, key.value));
    }

    /**
     * `put(path, body, response)`, where `execError` is the error the store
     * reports for the MULTI transaction holding SET and EXPIRE, if any; a
     * failed transaction is taken to have applied neither command.
     */
    method Put(path: string, body: string, response: Option<Response>, execError: Option<string>) returns (r: Outcome)
      requires Valid()
      modifies this`store
      ensures Valid()
      ensures !connected ==> r == NotAttempted && store == old(store)
      ensures connected && KeyFor(cacheKey, path, RequestOf(response)).None? ==>
                r == ThrewTypeError && store == old(store)
      ensures connected && KeyFor(cacheKey, path, RequestOf(response)).Some? && !Cacheable(response) ==>
                r == Resolved(None) && store == old(store)
      ensures connected && KeyFor(cacheKey, path, RequestOf(response)).Some? && Cacheable(response) && execError.Some? ==>
                r == Rejected(execError.value) && store == old(store)
      ensures connected && KeyFor(cacheKey, path, RequestOf(response)).Some? && Cacheable(response) && execError.None? ==>
                r == Resolved(None) &&
                store == old(store)[KeyFor(cacheKey, path, RequestOf(response)).value := Entry(body, expiration)]
    {
      if !connected {
        return NotAttempted;
      }
      var request := RequestOf(response);
      var key := KeyFor(cacheKey, path, request);
      if key.None? {
        return ThrewTypeError;
      }
      if !Cacheable(response) {
        return Resolved(None);
      }
      match execError
      case Some(err) =>
        r := Rejected(err);
      case None =>
        store := store[key.value := Entry(body, expiration)];
        r := Resolved(None);
    }
  }

  /**
   * A client of the class: on a connected cache with default keys, a
   * successful cacheable `put` followed by a successful `fetch` of the same
   * path returns the body, and the store then holds it with the configured ttl.
   */
  method PutThenFetch(cache: RedisCache, path: string, body: string, response: Option<Response>, request: Option<Request>)
    returns (r: Outcome)
    requires cache.Valid() && cache.connected && cache.cacheKey == PathIdentity && Cacheable(response)
    modifies cache`store
    ensures r == Resolved(Some(body))
    ensures cache.store == old(cache.store)[path := Entry(body, cache.expiration)]
    ensures cache.expiration == old(cache.expiration) && cache.connected
  {
    var w := cache.Put(path, body, response, None);
    assert w == Resolved(None);
    r := cache.Fetch(path, request, None);
  }
}
