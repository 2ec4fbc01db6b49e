/**
 * `WithRetries(url, retries = 3, delay = 1000)` from anime/script.js: fetch
 * `url` until a response with an OK status arrives, waiting `delay` ms after
 * each failed attempt except the last, and throw once `retries` attempts
 * have failed.
 *
 * The network is an oracle `net`: attempt number i (0-based) sees `net(i)`.
 * The side effects are returned, in order, as a trace of `Fetch` and `Sleep`
 * effects.
 */
module Retry {

  /** What one call of `fetch(url)` yields: a rejected promise, or a response. */
  datatype Outcome = NetErr | Reply(status: int, body: string)

  /** `response.ok`: a response whose status lies in 200..299. */
  predicate IsOk(o: Outcome) {
    o.Reply? && 200 <= o.status <= 299
  }

  /** An externally visible step: one network request, or one timer wait. */
  datatype Effect = Fetch(url: string) | Sleep(ms: int)

  /** How a call of WithRetries settles. */
  datatype Attempted =
    | Returned(response: Outcome)  // resolves with the first OK response
    | ReturnedUndefined            // the loop never ran: resolves with `undefined`
    | Threw(message: string)       // rejects after the last failed attempt

  const DefaultRetries: int := 3
  const DefaultDelay: int := 1000
  const MaxRetriesMessage: string := "Max retries reached. Could not fetch data."

  /** The index of the first OK outcome among attempts from..n-1, or n if there is none. */
  function FirstOk(net: nat -> Outcome, from: nat, n: nat): (k: nat)
    requires from <= n
    ensures from <= k <= n
    ensures k < n ==> IsOk(net(k))
    ensures forall i :: from <= i < k ==> !IsOk(net(i))
    decreases n - from
  {
    if from == n || IsOk(net(from)) then from else FirstOk(net, from + 1, n)
  }

  /** The effects of k failed attempts that are each followed by a wait. */
  function FailedAttempts(url: string, delay: int, k: nat): seq<Effect> {
    if k == 0 then [] else FailedAttempts(url, delay, k - 1) + [Fetch(url), Sleep(delay)]
  }

  /**
   * The whole behaviour of WithRetries, stated without a loop: no budget
   * means no attempt; otherwise the first OK outcome within the budget is
   * returned after the failures before it, and with none the call throws
   * after `retries` fetches.
   */
  function RetrySpec(url: string, retries: int, delay: int, net: nat -> Outcome): (s: (Attempted, seq<Effect>))
    ensures s.0.Returned? ==> IsOk(s.0.response)
    ensures s.1 == [] <==> retries <= 0
    ensures s.1 != [] ==> s.1[0] == Fetch(url) && s.1[|s.1| - 1] == Fetch(url)
  {
    if retries <= 0 then (ReturnedUndefined, [])
    else
      var k := FirstOk(net, 0, retries);
      var failed := if k < retries then k else retries - 1;
      FailedAttemptsShape(url, delay, failed);
      assert (FailedAttempts(url, delay, failed) + [Fetch(url)])[0] == Fetch(url);
      if k < retries then (Returned(net(k)), FailedAttempts(url, delay, k) + [Fetch(url)])
      else (Threw(MaxRetriesMessage), FailedAttempts(url, delay, retries - 1) + [Fetch(url)])
  }

  /** The loop of anime/script.js:169-187, one `fetch` per iteration. */
  method WithRetries(url: string, retries: int, delay: int, net: nat -> Outcome)
    returns (r: Attempted, trace: seq<Effect>)
    ensures (r, trace) == RetrySpec(url, retries, delay, net)
    ensures r.Returned? ==> IsOk(r.response)
  {
    var attempt: nat := 0;
    trace := [];
    while attempt < retries
      invariant attempt == 0 || attempt < retries
      invariant forall i :: 0 <= i < attempt ==> !IsOk(net(i))
      invariant trace == FailedAttempts(url, delay, attempt)
    {
      var response := net(attempt);
      trace := trace + [Fetch(url)];
      if IsOk(response) {
        r := Returned(response);
        return;
      }
      attempt := attempt + 1;
      if attempt < retries {
        trace := trace + [Sleep(delay)];
      } else {
        r := Threw(MaxRetriesMessage);
        return;
      }
    }
    r := ReturnedUndefined;
  }

  /** The number of network requests in a trace. */
  function Fetches(t: seq<Effect>): nat {
    if t == [] then 0 else Fetches(t[..|t| - 1]) + (if t[|t| - 1].Fetch? then 1 else 0)
  }

  /** The number of waits in a trace. */
  function Sleeps(t: seq<Effect>): nat {
    if t == [] then 0 else Sleeps(t[..|t| - 1]) + (if t[|t| - 1].Sleep? then 1 else 0)
  }

  /** The trace is fetch, wait, fetch, wait, ...: every wait lasts `delay` and sits between two fetches of `url`. */
  ghost predicate Alternates(t: seq<Effect>, url: string, delay: int) {
    |t| % 2 == 1 &&
    forall i :: 0 <= i < |t| ==> t[i] == if i % 2 == 0 then Fetch(url) else Sleep(delay)
  }

  lemma {:induction false} FailedAttemptsShape(url: string, delay: int, k: nat)
    ensures |FailedAttempts(url, delay, k)| == 2 * k
    ensures forall i :: 0 <= i < 2 * k ==>
      FailedAttempts(url, delay, k)[i] == if i % 2 == 0 then Fetch(url) else Sleep(delay)
    ensures Fetches(FailedAttempts(url, delay, k)) == k
    ensures Sleeps(FailedAttempts(url, delay, k)) == k
  {
    if k > 0 {
      FailedAttemptsShape(url, delay, k - 1);
      var a := FailedAttempts(url, delay, k - 1);
      var t := FailedAttempts(url, delay, k);
      assert t == (a + [Fetch(url)]) + [Sleep(delay)];
      assert t[..|t| - 1] == a + [Fetch(url)];
      assert (a + [Fetch(url)])[..|a|] == a;
      forall i | 0 <= i < 2 * k
        ensures t[i] == if i % 2 == 0 then Fetch(url) else Sleep(delay)
      {
        if i < 2 * (k - 1) {
          assert t[i] == a[i];
        }
      }
    }
  }

  /** The effects of k failed attempts followed by one more fetch. */
  lemma AttemptTrace(url: string, delay: int, k: nat)
    ensures var t := FailedAttempts(url, delay, k) + [Fetch(url)];
      |t| == 2 * k + 1 && Alternates(t, url, delay) &&
      Fetches(t) == k + 1 && Sleeps(t) == k && t[|t| - 1] == Fetch(url)
  {
    FailedAttemptsShape(url, delay, k);
    var a := FailedAttempts(url, delay, k);
    var t := a + [Fetch(url)];
    assert t[..|t| - 1] == a;
    forall i | 0 <= i < |t|
      ensures t[i] == if i % 2 == 0 then Fetch(url) else Sleep(delay)
    {
      if i < |a| {
        assert t[i] == a[i];
      }
    }
  }

  /** The first OK response within the budget is returned, and nothing is fetched after it. */
  lemma RetryStopsAtFirstOk(url: string, retries: int, delay: int, net: nat -> Outcome, k: nat)
    requires k < retries
    requires IsOk(net(k))
    requires forall i :: 0 <= i < k ==> !IsOk(net(i))
    ensures var (r, t) := RetrySpec(url, retries, delay, net);
      r == Returned(net(k)) &&
      Fetches(t) == k + 1 && Sleeps(t) == k &&
      Alternates(t, url, delay) && t[|t| - 1] == Fetch(url)
  {
    assert FirstOk(net, 0, retries) == k;
    AttemptTrace(url, delay, k);
  }

  /** When every attempt fails, exactly `retries` fetches and `retries - 1` waits of `delay` happen, and the call throws. */
  lemma RetryExhausts(url: string, retries: int, delay: int, net: nat -> Outcome)
    requires retries > 0
    requires forall i :: 0 <= i < retries ==> !IsOk(net(i))
    ensures var (r, t) := RetrySpec(url, retries, delay, net);
      r == Threw(MaxRetriesMessage) &&
      Fetches(t) == retries && Sleeps(t) == retries - 1 &&
      Alternates(t, url, delay)
  {
    AttemptTrace(url, delay, retries - 1);
  }

  /** A budget of zero or less makes no request, sleeps never, and resolves with `undefined` instead of throwing. */
  lemma RetryWithoutBudget(url: string, retries: int, delay: int, net: nat -> Outcome)
    requires retries <= 0
    ensures RetrySpec(url, retries, delay, net) == (ReturnedUndefined, [])
  {
  }

  /**
   * For every network: a response is returned exactly when some attempt
   * within the budget is OK, the call throws exactly when the budget is
   * positive and all of it fails, and at most `retries` fetches are made.
   */
  lemma RetryOutcomes(url: string, retries: int, delay: int, net: nat -> Outcome)
    ensures var (r, t) := RetrySpec(url, retries, delay, net);
      (r.Returned? <==> exists k :: 0 <= k < retries && IsOk(net(k))) &&
      (r.Threw? <==> retries > 0 && forall i :: 0 <= i < retries ==> !IsOk(net(i))) &&
      (r.Returned? ==> IsOk(r.response)) &&
      Fetches(t) <= (if retries > 0 then retries else 0) &&
      Sleeps(t) < (if retries > 0 then retries else 1)
  {
    if retries > 0 {
      var k := FirstOk(net, 0, retries);
      if k < retries {
        RetryStopsAtFirstOk(url, retries, delay, net, k);
      } else {
        RetryExhausts(url, retries, delay, net);
      }
    }
  }
}
