/** The request loop of the HTTP transport (src/transport.rs:36-169), against any environment: the
    k-th turn of the loop finds `env.headers(k)` when it asks for credentials and `env.response(k)`
    when it sends; `env.refreshes` says whether a token refresh after a 401 succeeds. */
module Transport {
  import opened Wrappers
  import opened Bytes

  datatype Response = NetworkError | Http(status: nat, body: seq<Byte>)

  /** An API key cannot be refreshed; a bearer session can try. */
  datatype AuthKind = ApiKey | Bearer

  datatype OnClientError = Throw | Empty

  datatype Failure =
    | NoCredentials              // auth.apply failed
    | Api(status: nat, code: string, body: seq<Byte>)

  datatype Env = Env(headers: nat -> bool, response: nat -> Response, refreshes: bool)

  datatype Opts = Opts(auth: AuthKind, maxRetries: nat, onClientError: OnClientError, empty: Option<seq<Byte>>)

  type Outcome = Result<seq<Byte>, Failure>

  // ---- Meaning, turn by turn ----

  predicate ServerError(status: nat) {
    500 <= status <= 599
  }

  /** Worth another try while attempts last. */
  predicate Transient(r: Response) {
    r.NetworkError? || ServerError(r.status)
  }

  predicate Unauthorized(r: Response) {
    r.Http? && r.status == 401
  }

  /** What a response means when the loop ends on it. */
  function Verdict(o: Opts, r: Response): Outcome {
    match r
    case NetworkError => Err(Api(0, "NETWORK", []))
    case Http(status, body) =>
      if status == 401 || status == 402 || status == 403 then Err(Api(status, "API_AUTH", body))
      else if status == 204 then Ok([])
      else if status == 409 then Err(Api(409, "CONFLICT", body))
      else if 400 <= status <= 499 then
        if o.onClientError.Empty? then Ok(o.empty.GetOr([]))
        else Err(Api(status, if status == 404 then "NOT_FOUND" else "CLIENT_ERROR", body))
      else if ServerError(status) then Err(Api(status, "SERVER_ERROR", body))
      else if 200 <= status <= 299 then Ok(body)
      else Err(Api(status, "CLIENT_ERROR", body))
  }

  /** Whether the loop goes round again after `r`. */
  predicate Again(o: Opts, env: Env, attempt: nat, authRetried: bool, r: Response) {
    (Transient(r) && attempt < o.maxRetries) || (Unauthorized(r) && o.auth.Bearer? && !authRetried && env.refreshes)
  }

  function Left(o: Opts, attempt: nat, authRetried: bool): nat {
    (if attempt < o.maxRetries then o.maxRetries - attempt else 0) + (if authRetried then 0 else 1)
  }

  /** The k-th turn: the outcome and the number of turns in all. */
  function Turns(o: Opts, env: Env, k: nat, attempt: nat, authRetried: bool): (Outcome, nat)
    decreases Left(o, attempt, authRetried)
  {
    if !env.headers(k) then (Err(NoCredentials), k)
    else
      var r := env.response(k);
      if !Again(o, env, attempt, authRetried, r) then (Verdict(o, r), k + 1)
      else if Transient(r) then Turns(o, env, k + 1, attempt + 1, authRetried)
      else Turns(o, env, k + 1, attempt, true)
  }

  // ---- Meaning, all at once ----

  function CountTransient(env: Env, n: nat): nat {
    if n == 0 then 0 else CountTransient(env, n - 1) + (if Transient(env.response(n - 1)) then 1 else 0)
  }

  ghost predicate SawUnauthorized(env: Env, n: nat) {
    exists j :: 0 <= j < n && Unauthorized(env.response(j))
  }

  /** Every one of the first `n` responses was answered by another turn. */
  ghost predicate AllRetried(o: Opts, env: Env, n: nat) {
    && (forall j :: 0 <= j < n ==> env.headers(j) && (Transient(env.response(j)) || Unauthorized(env.response(j))))
    && CountTransient(env, n) <= o.maxRetries
    && (SawUnauthorized(env, n) ==> o.auth.Bearer? && env.refreshes)
    && (forall i, j :: 0 <= i < j < n ==> !(Unauthorized(env.response(i)) && Unauthorized(env.response(j))))
  }

  /** The loop stops after `sends` requests with `outcome`: all but the last were retried, and the
      last could not be. */
  ghost predicate Explains(o: Opts, env: Env, outcome: Outcome, sends: nat) {
    if outcome == Err(NoCredentials) then AllRetried(o, env, sends) && !env.headers(sends)
    else
      && sends > 0 && AllRetried(o, env, sends - 1) && env.headers(sends - 1)
      && (var r := env.response(sends - 1);
          && outcome == Verdict(o, r)
          && !Again(o, env, CountTransient(env, sends - 1), SawUnauthorized(env, sends - 1), r))
  }

  /** The loop's counters say how far it has come. */
  ghost predicate Sofar(o: Opts, env: Env, k: nat, attempt: nat, authRetried: bool) {
    AllRetried(o, env, k) && attempt == CountTransient(env, k) && (authRetried <==> SawUnauthorized(env, k))
  }

  lemma SofarOn(o: Opts, env: Env, k: nat, attempt: nat, authRetried: bool)
    requires Sofar(o, env, k, attempt, authRetried) && env.headers(k)
    requires Again(o, env, attempt, authRetried, env.response(k))
    ensures if Transient(env.response(k)) then Sofar(o, env, k + 1, attempt + 1, authRetried) else Sofar(o, env, k + 1, attempt, true)
  {
    if Unauthorized(env.response(k)) {
      assert SawUnauthorized(env, k + 1);
    } else if SawUnauthorized(env, k + 1) {
      var j :| 0 <= j < k + 1 && Unauthorized(env.response(j));
      assert j < k;
    }
    if SawUnauthorized(env, k) {
      var j :| 0 <= j < k && Unauthorized(env.response(j));
      assert 0 <= j < k + 1;
    }
  }

  lemma {:induction false} TurnsExplain(o: Opts, env: Env, k: nat, attempt: nat, authRetried: bool)
    requires Sofar(o, env, k, attempt, authRetried)
    ensures var (outcome, sends) := Turns(o, env, k, attempt, authRetried); Explains(o, env, outcome, sends)
    decreases Left(o, attempt, authRetried)
  {
    hide AllRetried, CountTransient, SawUnauthorized;
    if env.headers(k) {
      var r := env.response(k);
      if Again(o, env, attempt, authRetried, r) {
        SofarOn(o, env, k, attempt, authRetried);
        if Transient(r) {
          TurnsExplain(o, env, k + 1, attempt + 1, authRetried);
        } else {
          TurnsExplain(o, env, k + 1, attempt, true);
        }
      } else {
        assert Verdict(o, r) != Err(NoCredentials);
      }
    }
  }

  /** How many requests an explained ending can have taken. */
  lemma {:induction false} RetriedBound(o: Opts, env: Env, n: nat)
    requires AllRetried(o, env, n)
    ensures n <= o.maxRetries + (if SawUnauthorized(env, n) then 1 else 0)
    ensures n == CountTransient(env, n) + (if SawUnauthorized(env, n) then 1 else 0)
    decreases n
  {
    if n > 0 {
      if SawUnauthorized(env, n - 1) {
        var i :| 0 <= i < n - 1 && Unauthorized(env.response(i));
        assert 0 <= i < n;
      } else if SawUnauthorized(env, n) {
        var i :| 0 <= i < n && Unauthorized(env.response(i));
        assert i == n - 1;
      }
      RetriedBound(o, env, n - 1);
    } else {
      assert !SawUnauthorized(env, 0);
    }
  }

  /** For every environment: the loop ends; it sends at most max_retries + 2 requests, and at most
      max_retries + 1 with an API key or when no refresh succeeds; and its outcome is what the last
      response means after all earlier ones were retried. */
  lemma RequestMeaning(o: Opts, env: Env)
    ensures var (outcome, sends) := Turns(o, env, 0, 0, false);
            && Explains(o, env, outcome, sends)
            && sends <= o.maxRetries + 2
            && (o.auth.ApiKey? || !env.refreshes ==> sends <= o.maxRetries + 1)
  {
    var (outcome, sends) := Turns(o, env, 0, 0, false);
    assert !SawUnauthorized(env, 0);
    TurnsExplain(o, env, 0, 0, false);
    if outcome == Err(NoCredentials) {
      RetriedBound(o, env, sends);
    } else {
      RetriedBound(o, env, sends - 1);
    }
    hide Turns;
  }

  /** Exactly one ending is explained by an environment, so the explanation is the whole meaning. */
  lemma OneExplanation(o: Opts, env: Env, a: Outcome, m: nat, b: Outcome, n: nat)
    requires Explains(o, env, a, m) && Explains(o, env, b, n)
    ensures a == b && m == n
  {
    NotEarlier(o, env, a, m, b, n);
    NotEarlier(o, env, b, n, a, m);
    hide AllRetried, CountTransient, SawUnauthorized;
    VerdictIsNotCredentials(o, env.response(if m > 0 then m - 1 else 0));
  }

  lemma VerdictIsNotCredentials(o: Opts, r: Response)
    ensures Verdict(o, r) != Err(NoCredentials)
  {
  }

  /** The turn on which the loop stops. */
  function LastTurn(outcome: Outcome, sends: nat): int {
    if outcome == Err(NoCredentials) then sends else sends - 1
  }

  /** No ending comes before another: a turn that ends the loop was not retried. */
  lemma NotEarlier(o: Opts, env: Env, a: Outcome, m: nat, b: Outcome, n: nat)
    requires Explains(o, env, a, m) && Explains(o, env, b, n)
    ensures LastTurn(a, m) >= LastTurn(b, n)
  {
    var x, y := LastTurn(a, m), LastTurn(b, n);
    if x < y {
      assert AllRetried(o, env, y) && env.headers(x);
      PrefixRetried(o, env, x, y);
      assert false;
    }
  }

  lemma PrefixRetried(o: Opts, env: Env, x: nat, y: nat)
    requires AllRetried(o, env, y) && x < y
    ensures Again(o, env, CountTransient(env, x), SawUnauthorized(env, x), env.response(x))
  {
    CountMonotone(env, x, y);
    if Unauthorized(env.response(x)) {
      assert SawUnauthorized(env, y);
      assert !SawUnauthorized(env, x);
    }
  }

  lemma {:induction false} CountMonotone(env: Env, x: nat, y: nat)
    requires x < y
    ensures CountTransient(env, x) + (if Transient(env.response(x)) then 1 else 0) <= CountTransient(env, y)
    decreases y
  {
    if x + 1 < y {
      CountMonotone(env, x, y - 1);
    }
  }

  // ---- The same in statuses ----

  /** How many of the first `n` responses were network errors or had a status of 500 to 599. */
  function Failures(env: Env, n: nat): nat {
    if n == 0 then 0 else
      var r := env.response(n - 1);
      Failures(env, n - 1) + if r.NetworkError? || (500 <= r.status && r.status <= 599) then 1 else 0
  }

  lemma {:induction false} FailuresAreTransient(env: Env, n: nat)
    ensures Failures(env, n) == CountTransient(env, n)
    decreases n
  {
    if n > 0 {
      FailuresAreTransient(env, n - 1);
    }
  }

  /** What the caller of a request gets, by the status of the last response. */
  ghost predicate Answers(o: Opts, r: Response, outcome: Outcome) {
    match r
    case NetworkError => outcome == Err(Api(0, "NETWORK", []))
    case Http(status, body) =>
      && (status == 204 ==> outcome == Ok([]))
      && (200 <= status <= 299 && status != 204 ==> outcome == Ok(body))
      && (status in {401, 402, 403} ==> outcome == Err(Api(status, "API_AUTH", body)))
      && (status == 409 ==> outcome == Err(Api(409, "CONFLICT", body)))
      && (400 <= status <= 499 && status !in {401, 402, 403, 409} && o.onClientError.Empty? ==>
            outcome == Ok(if o.empty.Some? then o.empty.value else []))
      && (status == 404 && o.onClientError.Throw? ==> outcome == Err(Api(404, "NOT_FOUND", body)))
      && (400 <= status <= 499 && status !in {401, 402, 403, 404, 409} && o.onClientError.Throw? ==>
            outcome == Err(Api(status, "CLIENT_ERROR", body)))
      && (500 <= status <= 599 ==> outcome == Err(Api(status, "SERVER_ERROR", body)))
      && (status < 200 || 300 <= status < 400 || 600 <= status ==> outcome == Err(Api(status, "CLIENT_ERROR", body)))
  }

  /** For every environment, in plain statuses: the answer belongs to the last response. A 5xx or a
      network error is last only when `maxRetries` such came before it, a 401 only with an API key,
      after a refresh that failed, or after another 401. What came before was all of these kinds, with
      at most one 401, and without credentials nothing was sent on the last turn. */
  lemma RequestOutcome(o: Opts, env: Env)
    ensures var (outcome, sends) := Turns(o, env, 0, 0, false);
            var last := if outcome == Err(NoCredentials) then sends else sends - 1;
            && 0 <= last && (env.headers(last) <==> outcome != Err(NoCredentials))
            && (forall j :: 0 <= j < last ==>
                  && env.headers(j)
                  && (env.response(j).NetworkError? || env.response(j).status == 401
                      || (500 <= env.response(j).status && env.response(j).status <= 599)))
            && Failures(env, last) <= o.maxRetries && Failures(env, last) <= last <= Failures(env, last) + 1
            && (outcome != Err(NoCredentials) ==>
                  var r := env.response(last);
                  && Answers(o, r, outcome)
                  && (r.NetworkError? || (500 <= r.status && r.status <= 599) ==> Failures(env, last) == o.maxRetries)
                  && (r.Http? && r.status == 401 ==>
                        o.auth.ApiKey? || !env.refreshes || exists j :: 0 <= j < last && env.response(j).Http? && env.response(j).status == 401))
  {
    var (outcome, sends) := Turns(o, env, 0, 0, false);
    RequestMeaning(o, env);
    var last := if outcome == Err(NoCredentials) then sends else sends - 1;
    hide Turns, CountTransient, Failures;
    FailuresAreTransient(env, last);
    RetriedBound(o, env, last);
    if outcome != Err(NoCredentials) {
      VerdictAnswers(o, env.response(last));
      hide Verdict, Answers;
    }
  }

  lemma VerdictAnswers(o: Opts, r: Response)
    ensures Answers(o, r, Verdict(o, r))
  {
  }

  // ---- The loop itself ----

  /** do_request. `refreshed` counts the refreshes a 401 set off. */
  method DoRequest(o: Opts, env: Env) returns (outcome: Outcome, sends: nat, refreshed: nat)
    ensures (outcome, sends) == Turns(o, env, 0, 0, false)
    ensures refreshed <= 1 && (o.auth.ApiKey? ==> refreshed == 0)
  {
    var attempt, authRetried := 0, false;
    sends, refreshed := 0, 0;
    while true
      invariant Turns(o, env, sends, attempt, authRetried) == Turns(o, env, 0, 0, false)
      invariant refreshed == (if authRetried then 1 else 0) && (o.auth.ApiKey? ==> !authRetried)
      decreases Left(o, attempt, authRetried)
    {
      if !env.headers(sends) {
        return Err(NoCredentials), sends, refreshed;
      }
      var res := env.response(sends);
      ghost var k := sends;
      sends := sends + 1;
      if res.NetworkError? {
        if attempt >= o.maxRetries {
          return Err(Api(0, "NETWORK", [])), sends, refreshed;
        }
        attempt := attempt + 1;
        continue;
      }
      var status, raw := res.status, res.body;
      if status == 401 {
        if !authRetried && o.auth.Bearer? {
          refreshed := refreshed + 1;
          if env.refreshes {
            authRetried := true;
            continue;
          }
        }
        return Err(Api(status, "API_AUTH", raw)), sends, refreshed;
      }
      if status == 402 || status == 403 {
        return Err(Api(status, "API_AUTH", raw)), sends, refreshed;
      }
      if status == 204 {
        return Ok([]), sends, refreshed;
      }
      if status == 409 {
        return Err(Api(409, "CONFLICT", raw)), sends, refreshed;
      }
      if status == 400 || 404 <= status <= 499 {
        if o.onClientError.Empty? {
          return Ok(o.empty.GetOr([])), sends, refreshed;
        }
        return Err(Api(status, if status == 404 then "NOT_FOUND" else "CLIENT_ERROR", raw)), sends, refreshed;
      }
      if 500 <= status <= 599 {
        if attempt >= o.maxRetries {
          return Err(Api(status, "SERVER_ERROR", raw)), sends, refreshed;
        }
        attempt := attempt + 1;
        continue;
      }
      if 200 <= status <= 299 {
        return Ok(raw), sends, refreshed;
      }
      return Err(Api(status, "CLIENT_ERROR", raw)), sends, refreshed;
    }
  }
}
