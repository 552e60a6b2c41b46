/** The recent-search client: one request per attempt, retried on rate limiting and on
    network errors, for at most `retries` attempts.

    The HTTP client and the clock are replaced by a script: attempt `i` meets
    `script[i].outcome` and reads the clock as `script[i].now`. Sleeps are not
    performed but recorded, in order, as the list of requested waits. */
module TwitterFetch {
  import opened Common

  datatype Tweet = Tweet(text: string, authorId: string, createdAt: Option<string>)

  datatype User = User(id: string, name: Option<string>, username: Option<string>,
                       profileImageUrl: Option<string>)

  datatype Includes = Includes(users: Option<seq<User>>)

  /** The JSON object of a search response, by the keys the app reads. `otherKeys`
      says whether the object holds any further key (such as `meta`); it matters only
      for the object's truthiness. */
  datatype SearchBody = SearchBody(error: Option<string>, data: Option<seq<Tweet>>,
                                   includes: Option<Includes>, otherKeys: bool)
  {
    /** A Python dict is truthy when it has at least one key. */
    predicate Truthy() {
      error.Some? || data.Some? || includes.Some? || otherKeys
    }

    /** `body.get("includes", {}).get("users", [])`. */
    function Users(): seq<User> {
      if includes.Some? then includes.value.users.GetOr([]) else []
    }
  }

  /** What one attempt meets: an HTTP response (its status, its raw text, its parsed
      body and its parsed `x-rate-limit-reset` header, if any), or a transport
      failure with its message. */
  datatype Outcome =
    | Response(status: int, text: string, body: SearchBody, reset: Option<int>)
    | NetworkError(message: string)

  /** One attempt's outcome, with the clock reading (`int(time.time())`) taken there. */
  datatype Attempt = Attempt(outcome: Outcome, now: int)

  /** What `get_tweets` returns: `None`, the response body, or `{"error": message}`. */
  datatype TweetsResult = NoToken | Body(body: SearchBody) | Failed(error: string)

  /** The result, the waits requested in order, and the number of requests issued. */
  datatype Trace = Trace(result: TweetsResult, waits: seq<int>, requests: nat)

  const TooManyRequests: int := 429
  const MinimumWait: int := 10
  const Backoff: int := 5
  const AuthErrorMessage: string := "Invalid or expired Bearer Token. Please update your credentials."
  const MaxRetriesMessage: string := "Max retries reached. Please try again later."
  const NetworkErrorPrefix: string := "Network error: "

  /** The wait after a 429 on attempt `i`: the time to the reset epoch, but at least
      ten seconds, plus five seconds per earlier attempt. A missing header counts as 0. */
  function RateLimitWait(reset: Option<int>, now: int, i: nat): (w: int)
    ensures w >= MinimumWait + Backoff * i
    ensures w >= reset.GetOr(0) - now + Backoff * i
    ensures w == MinimumWait + Backoff * i || w == reset.GetOr(0) - now + Backoff * i
  {
    Max(reset.GetOr(0) - now, MinimumWait) + Backoff * i
  }

  /** The wait after a network error on attempt `i`. */
  function NetworkWait(i: nat): int {
    MinimumWait + Backoff * i
  }

  /** Whether attempt `i` of `retries` leaves the loop: any status but 429 does, and a
      network error does on the last attempt. */
  predicate Ends(a: Attempt, i: nat, retries: int) {
    match a.outcome
    case Response(status, _, _, _) => status != TooManyRequests
    case NetworkError(_) => i == retries - 1
  }

  /** The value returned by an attempt that leaves the loop. */
  function EndResult(a: Attempt): TweetsResult {
    match a.outcome
    case Response(status, text, body, _) =>
      if status == 200 then Body(body)
      else if status == 401 then Failed(AuthErrorMessage)
      else Failed("Error " + IntToString(status) + ": " + text)
    case NetworkError(message) => Failed(NetworkErrorPrefix + message)
  }

  /** The wait requested by an attempt that does not leave the loop. */
  function WaitAfter(a: Attempt, i: nat): int {
    match a.outcome
    case Response(_, _, _, reset) => RateLimitWait(reset, a.now, i)
    case NetworkError(_) => NetworkWait(i)
  }

  /** The waits requested by attempts `i` up to (not including) `k`. */
  function WaitsBetween(script: seq<Attempt>, i: nat, k: nat): (ws: seq<int>)
    requires i <= k <= |script|
    ensures |ws| == k - i
    decreases k - i
  {
    if i == k then [] else [WaitAfter(script[i], i)] + WaitsBetween(script, i + 1, k)
  }

  /** The loop from attempt `i` on. */
  function Run(script: seq<Attempt>, retries: int, i: nat): (t: Trace)
    requires retries <= |script|
    ensures !t.result.NoToken?
    ensures i < retries ==> 1 <= t.requests <= retries - i
    ensures i >= retries ==> t.requests == 0
    ensures |t.waits| == t.requests || |t.waits| + 1 == t.requests
    ensures forall k :: 0 <= k < |t.waits| ==> t.waits[k] >= MinimumWait + Backoff * (i + k)
    decreases retries - i
  {
    if i >= retries then Trace(Failed(MaxRetriesMessage), [], 0)
    else if Ends(script[i], i, retries) then Trace(EndResult(script[i]), [], 1)
    else
      var rest := Run(script, retries, i + 1);
      Trace(rest.result, [WaitAfter(script[i], i)] + rest.waits, rest.requests + 1)
  }

  /** `get_tweets`: no request at all without a bearer token. */
  function Tweets(bearerToken: string, script: seq<Attempt>, retries: int): (t: Trace)
    requires retries <= |script|
    ensures t.result.NoToken? <==> bearerToken == ""
    ensures bearerToken == "" ==> t.requests == 0 && t.waits == []
    ensures bearerToken != "" && retries > 0 ==> 1 <= t.requests
    ensures t.requests <= Max(retries, 0)
    ensures forall k :: 0 <= k < |t.waits| ==> t.waits[k] >= MinimumWait + Backoff * k
  {
    if bearerToken == "" then Trace(NoToken, [], 0) else Run(script, retries, 0)
  }

  /** `get_tweets(keyword, count, retries, bearer_token)`; the query parameters only
      shape the request, which the script stands in for. */
  method GetTweets(bearerToken: string, script: seq<Attempt>, retries: int)
    returns (result: TweetsResult, waits: seq<int>, requests: nat)
    requires retries <= |script|
    ensures Trace(result, waits, requests) == Tweets(bearerToken, script, retries)
  {
    if bearerToken == "" {
      return NoToken, [], 0;
    }
    waits, requests := [], 0;
    var i: nat := 0;
    while i < retries
      invariant i <= Max(retries, 0)
      invariant requests == i
      invariant waits == WaitsBetween(script, 0, i)
      invariant forall k :: 0 <= k < i ==> !Ends(script[k], k, retries)
      decreases retries - i
    {
      requests := requests + 1;
      var attempt := script[i];
      match attempt.outcome {
        case Response(status, text, body, reset) =>
          if status == TooManyRequests {
            waits := waits + [RateLimitWait(reset, attempt.now, i)];
            WaitsBetweenSnoc(script, 0, i);
            i := i + 1;
            continue;
          }
          EndsAt(script, retries, i);
          if status == 200 {
            return Body(body), waits, requests;
          } else if status == 401 {
            return Failed(AuthErrorMessage), waits, requests;
          } else {
            return Failed("Error " + IntToString(status) + ": " + text), waits, requests;
          }
        case NetworkError(message) =>
          if i == retries - 1 {
            EndsAt(script, retries, i);
            return Failed(NetworkErrorPrefix + message), waits, requests;
          }
          waits := waits + [NetworkWait(i)];
          WaitsBetweenSnoc(script, 0, i);
      }
      i := i + 1;
    }
    Exhausted(script, retries);
    result := Failed(MaxRetriesMessage);
  }

  lemma {:induction false} WaitsBetweenSnoc(script: seq<Attempt>, i: nat, k: nat)
    requires i <= k < |script|
    ensures WaitsBetween(script, i, k + 1) == WaitsBetween(script, i, k) + [WaitAfter(script[k], k)]
    decreases k - i
  {
    if i < k {
      WaitsBetweenSnoc(script, i + 1, k);
    }
  }

  /** If attempt `k` is the first to leave the loop, the loop issues exactly `k + 1`
      requests, returns that attempt's value and has requested the waits of the
      attempts before it. */
  lemma EndsAt(script: seq<Attempt>, retries: int, k: nat)
    requires k < retries <= |script|
    requires forall j :: 0 <= j < k ==> !Ends(script[j], j, retries)
    requires Ends(script[k], k, retries)
    ensures Run(script, retries, 0) == Trace(EndResult(script[k]), WaitsBetween(script, 0, k), k + 1)
  {
    EndsFrom(script, retries, 0, k);
  }

  lemma {:induction false} EndsFrom(script: seq<Attempt>, retries: int, i: nat, k: nat)
    requires i <= k < retries <= |script|
    requires forall j :: i <= j < k ==> !Ends(script[j], j, retries)
    requires Ends(script[k], k, retries)
    ensures Run(script, retries, i) == Trace(EndResult(script[k]), WaitsBetween(script, i, k), k + 1 - i)
    decreases k - i
  {
    if i < k {
      EndsFrom(script, retries, i + 1, k);
    }
  }

  /** If no attempt leaves the loop, all `retries` requests are issued, every attempt
      requests its wait and the result is the generic "Max retries" error. */
  lemma Exhausted(script: seq<Attempt>, retries: int)
    requires retries <= |script|
    requires forall j :: 0 <= j < retries ==> !Ends(script[j], j, retries)
    ensures var n := Max(retries, 0);
      Run(script, retries, 0) == Trace(Failed(MaxRetriesMessage), WaitsBetween(script, 0, n), n)
  {
    if retries > 0 {
      ExhaustedFrom(script, retries, 0);
    }
  }

  lemma {:induction false} ExhaustedFrom(script: seq<Attempt>, retries: int, i: nat)
    requires i <= retries <= |script|
    requires forall j :: i <= j < retries ==> !Ends(script[j], j, retries)
    ensures Run(script, retries, i) == Trace(Failed(MaxRetriesMessage), WaitsBetween(script, i, retries), retries - i)
    decreases retries - i
  {
    if i < retries {
      ExhaustedFrom(script, retries, i + 1);
    }
  }

  /** Every requested wait belongs to an attempt that stayed in the loop, and follows
      the formula for that attempt: after a 429 the rate-limit wait, after a network
      error on an attempt before the last `10 + 5*i`. */
  lemma WaitFormula(script: seq<Attempt>, retries: int)
    requires retries <= |script|
    ensures forall k :: 0 <= k < |Run(script, retries, 0).waits| ==>
      && k < retries
      && !Ends(script[k], k, retries)
      && Run(script, retries, 0).waits[k] == WaitAfter(script[k], k)
  {
    var t := Run(script, retries, 0);
    forall k | 0 <= k < |t.waits|
      ensures k < retries && !Ends(script[k], k, retries) && t.waits[k] == WaitAfter(script[k], k)
    {
      WaitAt(script, retries, 0, k);
      assert 0 + k == k;
    }
  }

  lemma {:induction false} WaitAt(script: seq<Attempt>, retries: int, i: nat, k: nat)
    requires retries <= |script|
    requires k < |Run(script, retries, i).waits|
    ensures i + k < retries && !Ends(script[i + k], i + k, retries)
    ensures Run(script, retries, i).waits[k] == WaitAfter(script[i + k], i + k)
    decreases k
  {
    if k > 0 {
      WaitAt(script, retries, i + 1, k - 1);
    }
  }

  /** A status other than 429 on the first attempt that leaves the loop decides the
      result at once: the body for 200, the fixed credentials message for 401, and
      `Error <status>: <text>` otherwise; no further request follows. */
  lemma TerminalStatus(script: seq<Attempt>, retries: int, k: nat)
    requires k < retries <= |script|
    requires forall j :: 0 <= j < k ==> !Ends(script[j], j, retries)
    requires script[k].outcome.Response? && script[k].outcome.status != TooManyRequests
    ensures var t := Run(script, retries, 0); var r := script[k].outcome;
      && t.requests == k + 1
      && t.waits == WaitsBetween(script, 0, k)
      && (r.status == 200 ==> t.result == Body(r.body))
      && (r.status == 401 ==> t.result == Failed(AuthErrorMessage))
      && (r.status != 200 && r.status != 401 ==>
            t.result == Failed("Error " + IntToString(r.status) + ": " + r.text))
  {
    EndsAt(script, retries, k);
  }

  /** A network error on the last attempt is returned with its message, after the
      waits of all the attempts before it. */
  lemma NetworkErrorOnLastAttempt(script: seq<Attempt>, retries: int)
    requires 0 < retries <= |script|
    requires forall j :: 0 <= j < retries - 1 ==> !Ends(script[j], j, retries)
    requires script[retries - 1].outcome.NetworkError?
    ensures Run(script, retries, 0) == Trace(Failed(NetworkErrorPrefix + script[retries - 1].outcome.message),
                                             WaitsBetween(script, 0, retries - 1), retries)
  {
    EndsAt(script, retries, retries - 1);
  }

  /** No attempt that leaves the loop returns the "Max retries" error. */
  lemma EndResultNotMaxRetries(a: Attempt)
    ensures EndResult(a) != Failed(MaxRetriesMessage)
  {
    match a.outcome
    case Response(status, text, body, _) =>
      if status != 200 && status != 401 {
        assert ("Error " + IntToString(status) + ": " + text)[0] == 'E';
      } else if status == 401 {
        assert |AuthErrorMessage| != |MaxRetriesMessage|;
      }
    case NetworkError(message) =>
      assert (NetworkErrorPrefix + message)[0] == 'N';
  }

  lemma {:induction false} MaxRetriesFrom(script: seq<Attempt>, retries: int, i: nat)
    requires retries <= |script|
    requires Run(script, retries, i).result == Failed(MaxRetriesMessage)
    ensures forall j :: i <= j < retries ==> !Ends(script[j], j, retries)
    decreases retries - i
  {
    if i < retries {
      if Ends(script[i], i, retries) {
        EndResultNotMaxRetries(script[i]);
      } else {
        MaxRetriesFrom(script, retries, i + 1);
      }
    }
  }

  /** The generic "Max retries" error is returned exactly when a token is given and
      no attempt leaves the loop: every attempt is a 429, except that attempts before
      the last may also be network errors. */
  lemma MaxRetriesIff(bearerToken: string, script: seq<Attempt>, retries: int)
    requires retries <= |script|
    ensures Tweets(bearerToken, script, retries).result == Failed(MaxRetriesMessage)
            <==> bearerToken != "" && forall j :: 0 <= j < retries ==> !Ends(script[j], j, retries)
  {
    if bearerToken != "" {
      if Run(script, retries, 0).result == Failed(MaxRetriesMessage) {
        MaxRetriesFrom(script, retries, 0);
      }
      if forall j :: 0 <= j < retries ==> !Ends(script[j], j, retries) {
        Exhausted(script, retries);
      }
    }
  }

  /** A run of 429s on every attempt ends with the generic error after `retries`
      requests, each followed by a wait of at least `10 + 5*i`. */
  lemma AllRateLimited(bearerToken: string, script: seq<Attempt>, retries: int)
    requires 0 <= retries <= |script| && bearerToken != ""
    requires forall j :: 0 <= j < retries ==>
      script[j].outcome.Response? && script[j].outcome.status == TooManyRequests
    ensures var t := Tweets(bearerToken, script, retries);
      && t.result == Failed(MaxRetriesMessage)
      && t.requests == retries
      && |t.waits| == retries
      && forall j :: 0 <= j < retries ==>
           t.waits[j] == RateLimitWait(script[j].outcome.reset, script[j].now, j)
  {
    Exhausted(script, retries);
    WaitFormula(script, retries);
  }

  /** Two rate-limited attempts (reset three and one second ahead) and then a 200:
      three requests, waits of 10 and 15 seconds, and the body. */
  lemma RateLimitedThenOk(now: int, text: string, body: SearchBody, rest: seq<Attempt>)
    requires |rest| >= 2
    ensures var script := [Attempt(Response(429, text, body, Some(now + 3)), now),
                           Attempt(Response(429, text, body, Some(now + 1)), now),
                           Attempt(Response(200, text, body, None), now)] + rest;
      Tweets("token", script, 5) == Trace(Body(body), [10, 15], 3)
  {
    var script := [Attempt(Response(429, text, body, Some(now + 3)), now),
                   Attempt(Response(429, text, body, Some(now + 1)), now),
                   Attempt(Response(200, text, body, None), now)] + rest;
    EndsAt(script, 5, 2);
    assert WaitsBetween(script, 2, 2) == [];
    assert WaitsBetween(script, 0, 2) == [10, 15];
  }
}
