/**
 * `CacheRequest(url, key, retries = 3, delay = 1000)` from anime/script.js:
 * memoisation of a JSON download in the browser's string key-value store
 * (`localStorage`).
 *
 * JSON text is handled by a codec given as a parameter: `parse` is
 * `JSON.parse` / `response.json()` (None when the text is not JSON) and
 * `stringify` is `JSON.stringify`. Properties that need the two to agree
 * assume `Faithful(codec)`.
 */
module Cache {
  import opened Wrappers
  import opened Js
  import opened Retry

  datatype Codec<!J> = Codec(parse: string -> Option<J>, stringify: J -> string)

  /** JSON.stringify yields non-empty text that JSON.parse turns back into the same value. */
  ghost predicate Faithful<J(!new)>(codec: Codec<J>) {
    forall j :: codec.stringify(j) != "" && codec.parse(codec.stringify(j)) == Some(j)
  }

  /** The browser's `localStorage`: a flat map from keys to strings, updated in place. */
  class Storage {
    var items: map<string, string>

    constructor ()
      ensures items == map[]
    {
      items := map[];
    }

    /** `getItem(key)`: the stored string, or `null` for a missing key. */
    function GetItem(key: string): (v: Value)
      reads this
      ensures v == Null <==> key !in items
      ensures key in items ==> v == Str(items[key])
    {
      if key in items then Str(items[key]) else Null
    }

    /** `setItem(key, value)`: overwrite one key, leave every other key alone. */
    method SetItem(key: string, value: string)
      modifies this
      ensures items == old(items)[key := value]
    {
      items := items[key := value];
    }
  }

  /** How the promise returned by CacheRequest settles. */
  datatype Resolution<J> =
    | Resolved(value: J)      // resolves with parsed data
    | ResolvedUndefined       // the catch block ran: resolves with `undefined`
    | Rejected(error: Exception)  // JSON.parse of the cached text threw

  /** One call: how it settles, the store afterwards, and the effects it had. */
  datatype Step<J> = Step(result: Resolution<J>, items: map<string, string>, trace: seq<Effect>)

  /** `if (cachedData)`: an entry counts only when it is present and non-empty. */
  predicate Hit(items: map<string, string>, key: string)
    ensures Hit(items, key) <==> key in items && items[key] != ""
  {
    Truthy(if key in items then Str(items[key]) else Null)
  }

  /** The result of `.then((response) => response.json())` on what WithRetries produced. */
  function Received<J>(codec: Codec<J>, a: Attempted): (d: Result<J, Exception>)
    ensures d.Ok? <==> a.Returned? && a.response.Reply? && codec.parse(a.response.body).Some?
    ensures d.Ok? ==> Some(d.value) == codec.parse(a.response.body)
  {
    match a
    case Returned(response) =>
      if response.NetErr? then Err(TypeError)
      else (match codec.parse(response.body)
            case Some(data) => Ok(data)
            case None => Err(SyntaxError))
    case ReturnedUndefined => Err(TypeError)  // `undefined.json()`
    case Threw(message) => Err(Error(message))
  }

  /** The miss branch after WithRetries settles: store and return the data, or swallow the error. */
  function Settle<J>(items: map<string, string>, codec: Codec<J>, key: string, a: Attempted)
    : (s: (Resolution<J>, map<string, string>))
    ensures s.0 != ResolvedUndefined ==> s.0.Resolved?
    ensures s.0.Resolved? <==> Received(codec, a).Ok?
    ensures s.0.Resolved? ==> Received(codec, a) == Ok(s.0.value)
    ensures s.0.Resolved? ==> s.1 == items[key := codec.stringify(s.0.value)]
    ensures s.0 == ResolvedUndefined ==> s.1 == items
  {
    match Received(codec, a)
    case Ok(data) => (Resolved(data), items[key := codec.stringify(data)])
    case Err(_) => (ResolvedUndefined, items)
  }

  /**
   * The whole behaviour of one CacheRequest call on a store `items`. Its own
   * `retries` and `delay` parameters are never used: the miss branch always
   * runs WithRetries with the defaults.
   */
  function Request<J>(items: map<string, string>, codec: Codec<J>, url: string, key: string, net: nat -> Outcome)
    : (s: Step<J>)
    ensures s.trace == [] <==> Hit(items, key)
    ensures s.result.Rejected? ==> Hit(items, key) && s.result.error == SyntaxError
    ensures s.items == items || (!Hit(items, key) && s.result.Resolved? && s.items == items[key := codec.stringify(s.result.value)])
  {
    if Hit(items, key) then
      Step(match codec.parse(items[key])
           case Some(v) => Resolved(v)
           case None => Rejected(SyntaxError),
           items, [])
    else
      var (a, t) := RetrySpec(url, DefaultRetries, DefaultDelay, net);
      var (result, items') := Settle(items, codec, key, a);
      Step(result, items', t)
  }

  /** anime/script.js:150-167. */
  method CacheRequest<J>(storage: Storage, codec: Codec<J>, url: string, key: string,
                         retries: int, delay: int, net: nat -> Outcome)
    returns (r: Resolution<J>, trace: seq<Effect>)
    modifies storage
    ensures Step(r, storage.items, trace) == Request(old(storage.items), codec, url, key, net)
    ensures Fetches(trace) <= DefaultRetries
  {
    var cached := storage.GetItem(key);
    if Truthy(cached) {
      match codec.parse(cached.s) {
        case Some(v) => r := Resolved(v);
        case None => r := Rejected(SyntaxError);
      }
      trace := [];
    } else {
      var attempted, t := WithRetries(url, DefaultRetries, DefaultDelay, net);
      trace := t;
      match Received(codec, attempted) {
        case Ok(data) =>
          storage.SetItem(key, codec.stringify(data));
          r := Resolved(data);
        case Err(_) =>
          r := ResolvedUndefined;
      }
      RetryOutcomes(url, DefaultRetries, DefaultDelay, net);
    }
  }

  /** A truthy cached string is parsed and returned; no request is made and the store is untouched. */
  lemma CacheHit<J>(items: map<string, string>, codec: Codec<J>, url: string, key: string, net: nat -> Outcome)
    requires key in items && items[key] != ""
    ensures var s := Request(items, codec, url, key, net);
      s.trace == [] && s.items == items &&
      s.result == match codec.parse(items[key]) case Some(v) => Resolved(v) case None => Rejected(SyntaxError)
  {
  }

  /** An empty cached string is falsy: the call goes to the network, starting with a fetch of `url`. */
  lemma EmptyEntryIsMiss<J>(items: map<string, string>, codec: Codec<J>, url: string, key: string, net: nat -> Outcome)
    requires key in items && items[key] == ""
    ensures var s := Request(items, codec, url, key, net);
      s.trace != [] && s.trace[0] == Fetch(url) && Fetches(s.trace) >= 1
  {
    var k := FirstOk(net, 0, 3);
    if k < 3 {
      RetryStopsAtFirstOk(url, DefaultRetries, DefaultDelay, net, k);
    } else {
      RetryExhausts(url, DefaultRetries, DefaultDelay, net);
    }
  }

  /**
   * A miss whose k-th attempt is the first OK one, with a body that parses to
   * `data`: `data` is stored under `key` (only that key changes) and
   * returned, after k + 1 fetches.
   */
  lemma CacheMissStores<J>(items: map<string, string>, codec: Codec<J>, url: string, key: string,
                           net: nat -> Outcome, k: nat, data: J)
    requires !Hit(items, key)
    requires k < DefaultRetries && IsOk(net(k)) && forall i :: 0 <= i < k ==> !IsOk(net(i))
    requires codec.parse(net(k).body) == Some(data)
    ensures var s := Request(items, codec, url, key, net);
      s.result == Resolved(data) &&
      key in s.items && s.items[key] == codec.stringify(data) &&
      (forall other :: other != key ==>
        (other in s.items <==> other in items) && (other in items ==> s.items[other] == items[other])) &&
      Fetches(s.trace) == k + 1
  {
    RetryStopsAtFirstOk(url, DefaultRetries, DefaultDelay, net, k);
  }

  /** A miss where all three attempts fail: `undefined`, store unchanged, three fetches and two waits of 1000 ms. */
  lemma CacheMissExhausted<J>(items: map<string, string>, codec: Codec<J>, url: string, key: string, net: nat -> Outcome)
    requires !Hit(items, key)
    requires forall i :: 0 <= i < DefaultRetries ==> !IsOk(net(i))
    ensures var s := Request(items, codec, url, key, net);
      s.result == ResolvedUndefined && s.items == items &&
      Fetches(s.trace) == 3 && Sleeps(s.trace) == 2 && Alternates(s.trace, url, DefaultDelay)
  {
    RetryExhausts(url, DefaultRetries, DefaultDelay, net);
  }

  /** A miss whose first OK body is not JSON: the catch block swallows the error, nothing is stored. */
  lemma CacheMissUnparsable<J>(items: map<string, string>, codec: Codec<J>, url: string, key: string,
                               net: nat -> Outcome, k: nat)
    requires !Hit(items, key)
    requires k < DefaultRetries && IsOk(net(k)) && forall i :: 0 <= i < k ==> !IsOk(net(i))
    requires codec.parse(net(k).body) == None
    ensures var s := Request(items, codec, url, key, net);
      s.result == ResolvedUndefined && s.items == items
  {
    RetryStopsAtFirstOk(url, DefaultRetries, DefaultDelay, net, k);
  }

  /**
   * Had WithRetries run with a budget of zero or less it would resolve with
   * `undefined`; reading its body then throws, the catch block swallows it
   * and nothing is stored.
   */
  lemma SettleWithoutBudget<J>(items: map<string, string>, codec: Codec<J>, url: string, key: string,
                               retries: int, delay: int, net: nat -> Outcome)
    requires retries <= 0
    ensures Received(codec, RetrySpec(url, retries, delay, net).0) == Err(TypeError)
    ensures Settle(items, codec, key, RetrySpec(url, retries, delay, net).0) == (ResolvedUndefined, items)
  {
  }

  /**
   * For every store and network: at most three fetches and two waits, the
   * store changes at `key` only and only when the call resolves with data,
   * and it is treated as a miss exactly when network effects occur.
   */
  lemma CacheRequestFrame<J>(items: map<string, string>, codec: Codec<J>, url: string, key: string, net: nat -> Outcome)
    ensures var s := Request(items, codec, url, key, net);
      Fetches(s.trace) <= 3 && Sleeps(s.trace) <= 2 &&
      (s.trace == [] <==> Hit(items, key)) &&
      (s.items == items || (s.result.Resolved? && s.items == items[key := codec.stringify(s.result.value)])) &&
      (s.result == ResolvedUndefined ==> s.items == items)
  {
    RetryOutcomes(url, DefaultRetries, DefaultDelay, net);
    if !Hit(items, key) {
      var k := FirstOk(net, 0, 3);
      if k < 3 {
        RetryStopsAtFirstOk(url, DefaultRetries, DefaultDelay, net, k);
      } else {
        RetryExhausts(url, DefaultRetries, DefaultDelay, net);
      }
    }
  }

  /**
   * Memoisation: once a call has resolved with data, the next call for the
   * same key, whatever its url and network, returns the same data with no
   * request and leaves the store as it is.
   */
  lemma CacheRemembers<J(!new)>(items: map<string, string>, codec: Codec<J>, url: string, key: string, net: nat -> Outcome,
                          url': string, net': nat -> Outcome)
    requires Faithful(codec)
    requires Request(items, codec, url, key, net).result.Resolved?
    ensures var s := Request(items, codec, url, key, net);
      Request(s.items, codec, url', key, net') == Step(s.result, s.items, [])
  {
    var s := Request(items, codec, url, key, net);
    if !Hit(items, key) {
      var d := s.result.value;
      assert s.items == items[key := codec.stringify(d)];
      assert codec.stringify(d) != "" && codec.parse(codec.stringify(d)) == Some(d);
    }
  }
}
