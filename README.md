# fastboot-redis-cache, modelled in Dafny

`RedisCache` (index.js) is a response cache for a server-side rendering host.
It keeps rendered response bodies in Redis, under a key derived from the
request path, and gives every write an expiry. This project models its
self-contained logic. The Redis server is an abstract map from key to
(body, ttl). Whether the server answers a command with an error is a
parameter of the operation that issues it.

- `wrappers.dfy`: module `Wrappers` holds `Option`.
- `js_values.dfy`: module `JsValues` holds the JavaScript values modelled in
  an options object: undefined, null, booleans, integral numbers, strings,
  functions, and objects and arrays. It also holds JavaScript truthiness, `||`
  and property lookup (a missing property reads as `undefined`).
- `options.dfy`: module `Options` holds the `pick` helper. `Options.Pick` is
  the loop. `Options.PickSteps` is the fold that specifies it.
  `Options.PickStepsMeaning` says what the fold computes. The listed keys are
  removed from the object and every other property is kept. Each listed key
  is picked with the object's original value. The exception is a key listed
  twice: its second pass reads the property the first pass already deleted,
  so it ends up `undefined`.
- `cache.dfy`: module `Cache` holds the `RedisCache` class. It has the
  constructor, the three client event handlers, `Fetch` and `Put`, and
  `Configure`, the pure statement of what the constructor derives from its
  options.

The key function behaves as the code is written, not as it was evidently
meant. The constructor tests whether the picked `cacheKey` option is a
function. It then keeps `options.cacheKey`, which `pick` has already deleted
from `options`. So a user-supplied key function never reaches the instance.
The instance holds `undefined` (`FromOptions(Undefined)`), and every
connected `fetch` or `put` then throws a TypeError synchronously. For `put`,
this happens before the status code is examined. Custom keys therefore do not
work. Without a function option, the key is the path itself.

Some behaviour described for this adapter is not in this code:
- trailing-slash path normalisation;
- a `skipCache` predicate and its "cache skipped" rejection;
- a function-valued `expiration`.

The model follows the code. Keys are the raw path, no fetch is ever skipped,
and `expiration` is the option's value itself when that value is truthy. That
value can be any truthy value, for example a string. Otherwise it is 300.

## Model

| member | source | states |
|---|---|---|
| `Options.Pick` | index.js:7-14 | the loop returns the picked object and what is left of the argument; the left part is the argument minus the listed keys; the picked object has exactly the listed keys; each maps to the argument's original value, or `undefined` when the key is listed twice |
| `Options.PickStepsMeaning` | index.js:9-12 | the key-by-key fold deletes exactly the listed keys, keeps every other property unchanged, and picks each key's original value except for repeated keys |
| `Options.PickDistinct` | index.js:7-14 | when no key is listed twice, every listed key is picked with the object's original value |
| `Cache.Configure` | index.js:18-25 | the store client's options are the caller's options without `expiration` and `cacheKey`; the expiry is the option when truthy and 300 otherwise (0, "", null and undefined give 300); a function-valued `cacheKey` option leaves `undefined` as the key function, any other value leaves the identity on the path |
| `Cache.ConfiguredKey` | index.js:24-25 | the key that `this.cacheKey(path, request)` yields at lines 45 and 62 is exactly the path when the `cacheKey` option is not a function; when the option is a function the kept value is undefined and the call throws |
| `Cache.RedisCache.constructor` | index.js:17-40 | a new cache is disconnected, has an empty log, sees the store's existing contents, and holds the settings `Configure` derives from the options |
| `Cache.RedisCache.OnError` | index.js:27-29 | an `error` event leaves `connected` unchanged and appends `redis error; err=<e>` |
| `Cache.RedisCache.OnConnect` | index.js:31-34 | a `connect` event sets `connected` and appends `redis connected` |
| `Cache.RedisCache.OnEnd` | index.js:36-39 | an `end` event clears `connected` and appends `redis disconnected` |
| `Cache.RedisCache.Fetch` | index.js:42-56 | while disconnected it returns undefined; when connected: a missing key function throws; a GET error rejects with that error; otherwise it resolves with the stored body, or an absent reply when the key has no entry; it never changes the cache or the store |
| `Cache.RedisCache.Put` | index.js:58-81 | while disconnected it returns undefined and leaves the store alone; when connected: a missing key function throws; a present response with status code 300 or more resolves without a write; otherwise a failed transaction rejects with the store's error and leaves the store alone, and a successful one resolves and sets the key to (body, expiration) with no other key changed |
| `Cache.PutThenFetch` | index.js:42-81 | on a connected cache with default keys, a successful cacheable put followed by a successful fetch of the same path returns the body written |

## Left out

- The Redis client and its wire protocol (index.js:3, 20): the store is a map. The options handed to `redis.createClient` are recorded as `clientOptions` and nothing more.
- Promises and callbacks: each call's asynchronous completion is its synchronous `Outcome`.
- Interleaving of concurrent `fetch`/`put` calls with each other and with client events.
- Expiry over time and Redis's own EXPIRE rules: the ttl written is recorded, not the clock. A non-positive ttl deleting the key and a non-numeric ttl being refused are not modelled.
- Put: a failed MULTI/EXEC is taken to have applied neither SET nor EXPIRE; partial application is not modelled.
- The host's `this.ui` sink: logging is the appended `log` sequence.
- Options that are not an object (`new RedisCache()` throws inside `pick`), and properties inherited through the prototype, which `delete` does not remove.
- Symbols and BigInts in the options object: no value stands for them.
- JavaScript numbers: only integers are modelled. NaN, fractions, and a missing or non-numeric `statusCode` are not.
- Bodies and requests: a body is a string and a request is opaque; neither is inspected.
- The text of the TypeError thrown by calling a non-function key.
- KeyFor: it requires that the held value is not a callable taken from the options. The constructor never keeps one (class invariant `Valid`), so calling a user-supplied key function is not modelled.
