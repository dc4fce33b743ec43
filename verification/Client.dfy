/** BaseDarajaClient.post (django_mpesa/client/base.py): retries with back-off inside a one-shot
    re-authentication, over an endless stream of replies. */
module Client {
  import opened Models

  /** A response body as `response.json()` decodes it: no JSON, a dict, a list or text, or a number,
      boolean or null. `hasErrorCode` is `"errorCode" in data`, which the last kind cannot answer. */
  datatype Payload =
    | Unparsable
    | Object(hasErrorCode: bool)
    | Listing(hasErrorCode: bool)
    | Scalar

  /** What the n-th `session.post` of the stream does. */
  datatype Reply = TimedOut | TransportError | Response(status: int, body: Payload)

  /** The result of `post`: the parsed body of reply `index`, or the class of the exception. */
  datatype Outcome =
    | Data(index: nat)
    | AuthError
    | RateLimitError
    | TimeoutError
    | ApiError(status: Option<int>)
    | TypeError        // `in` on a scalar
    | AttributeError   // `data.get` on a list or text

  /** Everything outside the client: the replies, what each get_token call gives (None raises
      DarajaAuthError), and the two settings. */
  datatype World = World(replies: nat -> Reply, tokens: nat -> Option<string>, maxRetries: nat, backoff: real)

  predicate ServerError(reply: Reply) {
    reply.Response? && reply.status >= 500
  }

  function Pow2(n: nat): nat {
    if n == 0 then 1 else 2 * Pow2(n - 1)
  }

  // ----- the specification -----

  /** The reply that ends the retry loop: the first from `i` on that is no server error, or the last allowed. */
  function Decisive(w: World, i: nat, budget: nat): (j: nat)
    ensures i <= j <= i + budget
    ensures forall h :: i <= h < j ==> ServerError(w.replies(h))
    ensures j < i + budget ==> !ServerError(w.replies(j))
    decreases budget
  {
    if budget > 0 && ServerError(w.replies(i)) then Decisive(w, i + 1, budget - 1) else i
  }

  /** After `n` server errors the loop ends at the next reply if that is none, or if it is the last. */
  lemma {:induction false} DecisiveAfter(w: World, i: nat, budget: nat, n: nat)
    requires n <= budget && forall h :: i <= h < i + n ==> ServerError(w.replies(h))
    requires n == budget || !ServerError(w.replies(i + n))
    ensures Decisive(w, i, budget) == i + n
    decreases budget
  {
    if n == 0 {
    } else {
      DecisiveAfter(w, i + 1, budget - 1, n - 1);
    }
  }

  /** A body below status 400: any dict or list without an error code counts as data. */
  function Read(body: Payload, status: int, j: nat): Outcome {
    match body
    case Unparsable => ApiError(Some(status))
    case Scalar => TypeError
    case Object(hasErrorCode) => if hasErrorCode then ApiError(Some(status)) else Data(j)
    case Listing(hasErrorCode) => if hasErrorCode then AttributeError else Data(j)
  }

  /** What `_post_with_auth` makes of reply `j` once the loop is over, a first 401 aside. */
  function Classify(w: World, j: nat): Outcome {
    match w.replies(j)
    case TimedOut => TimeoutError
    case TransportError => ApiError(None)
    case Response(status, body) =>
      if status == 401 then AuthError
      else if status == 429 then RateLimitError
      else if status >= 400 then ApiError(Some(status))
      else Read(body, status, j)
  }

  predicate Unauthorized(reply: Reply) {
    reply.Response? && reply.status == 401
  }

  /** The wait after attempt `n`: it doubles every time. */
  function Wait(backoff: real, n: nat): real {
    if n == 0 then backoff else 2.0 * Wait(backoff, n - 1)
  }

  /** The first `n` waits together. */
  function Backoff(backoff: real, n: nat): real {
    if n == 0 then 0.0 else Backoff(backoff, n - 1) + Wait(backoff, n - 1)
  }

  lemma {:induction false} WaitIsPower(backoff: real, n: nat)
    ensures Wait(backoff, n) == backoff * Pow2(n) as real
  {
    if n == 0 {
    } else {
      WaitIsPower(backoff, n - 1);
    }
  }

  lemma {:induction false} BackoffIsWait(backoff: real, n: nat)
    ensures Backoff(backoff, n) == Wait(backoff, n) - backoff
  {
    if n == 0 {
    } else {
      BackoffIsWait(backoff, n - 1);
    }
  }

  lemma BackoffIsGeometric(backoff: real, n: nat)
    ensures Backoff(backoff, n) == backoff * (Pow2(n) as real - 1.0)
  {
    BackoffIsWait(backoff, n);
    WaitIsPower(backoff, n);
  }

  /** The result of a post, the bearer token of every request it sent, and what it cost. */
  datatype Posted = Posted(outcome: Outcome, sent: seq<string>, taken: nat, invalidated: nat, slept: real)

  function Repeat(token: string, n: nat): (s: seq<string>)
    ensures |s| == n
  {
    seq(n, _ => token)
  }

  lemma RepeatSnoc(token: string, n: nat)
    ensures Repeat(token, n) + [token] == Repeat(token, n + 1)
  {
  }

  /** One pass from reply `i` with get_token call `k`. */
  function Pass(w: World, i: nat, k: nat): Posted {
    var token := w.tokens(k);
    if token.None? then Posted(AuthError, [], 1, 0, 0.0)
    else
      var j := Decisive(w, i, w.maxRetries);
      Posted(Classify(w, j), Repeat(token.value, j - i + 1), 1, 0, Backoff(w.backoff, j - i))
  }

  /** `post`: one pass, and after a 401 one more with the next token and a fresh budget. */
  function PostSpec(w: World, i: nat, k: nat): Posted {
    var first := Pass(w, i, k);
    var j := Decisive(w, i, w.maxRetries);
    if w.tokens(k).Some? && Unauthorized(w.replies(j)) then
      var second := Pass(w, j + 1, k + 1);
      Posted(second.outcome, first.sent + second.sent, 2, 1, first.slept + second.slept)
    else first
  }

  /** What `_post_with_auth` gives: with the retry, a whole post. */
  function Expected(w: World, retryOn401: bool, i: nat, k: nat): Posted {
    if retryOn401 then PostSpec(w, i, k) else Pass(w, i, k)
  }

  // ----- the outcome, told by the replies -----

  predicate HasStatus(reply: Reply, status: int) {
    reply.Response? && reply.status == status
  }

  predicate ErrorStatus(reply: Reply) {
    reply.Response? && reply.status >= 500
  }

  /** A pass that begins with reply `i` ends with reply `j`: server errors before it are retried, at most
      M of them, and it is none itself unless there is no retry left. */
  predicate PassEnds(w: World, i: nat, j: nat) {
    && i <= j <= i + w.maxRetries
    && (forall h :: i <= h < j ==> ErrorStatus(w.replies(h)))
    && (j < i + w.maxRetries ==> !ErrorStatus(w.replies(j)))
  }

  /** What is made of the last reply taken, told by what that reply is. */
  ghost predicate Tells(reply: Reply, last: nat, outcome: Outcome) {
    && (outcome == RateLimitError <==> HasStatus(reply, 429))
    && (outcome == AuthError <==> HasStatus(reply, 401))
    && (outcome == TimeoutError <==> reply == Reply.TimedOut)
    && (outcome == ApiError(None) <==> reply == TransportError)
    && (forall status: int :: outcome == ApiError(Some(status)) <==>
          && HasStatus(reply, status)
          && (if status >= 400 then status != 401 && status != 429
              else reply.body == Unparsable || reply.body == Object(true)))
    && (forall j: nat :: outcome == Data(j) <==>
          && j == last && reply.Response? && reply.status < 400
          && (reply.body == Object(false) || reply.body == Listing(false)))
    && (outcome == TypeError <==> reply.Response? && reply.status < 400 && reply.body == Scalar)
    && (outcome == AttributeError <==> reply.Response? && reply.status < 400 && reply.body == Listing(true))
  }

  /** The outcome of `_post_with_auth` from reply `i` and get_token call `k` on, where the first pass ends
      with reply `j` and a second one would end with reply `l`. Without a token it is AuthError. A
      first 401 does not decide, if there is the retry: then it is AuthError without a second token,
      and otherwise the second pass decides. In every other case the first pass decides. */
  ghost predicate Told(w: World, retryOn401: bool, i: nat, k: nat, j: nat, l: nat, outcome: Outcome) {
    if w.tokens(k) == None then outcome == AuthError
    else if retryOn401 && HasStatus(w.replies(j), 401) then
      if w.tokens(k + 1) == None then outcome == AuthError else Tells(w.replies(l), l, outcome)
    else Tells(w.replies(j), j, outcome)
  }

  lemma ClassifyTells(w: World, j: nat)
    ensures Tells(w.replies(j), j, Classify(w, j))
  {
  }

  /** The replies determine where a pass ends. */
  lemma PassEndsAtDecisive(w: World, i: nat, j: nat)
    ensures PassEnds(w, i, j) <==> j == Decisive(w, i, w.maxRetries)
  {
    assert PassEnds(w, i, Decisive(w, i, w.maxRetries));
  }

  /** The seconds asleep between a request and its n-th repetition: 1 + 2 + 4 + ... times the factor. */
  function Asleep(w: World, n: nat): real {
    w.backoff * (Pow2(n) as real - 1.0)
  }

  lemma PassTells(w: World, i: nat, k: nat, j: nat)
    requires PassEnds(w, i, j)
    ensures w.tokens(k) == None ==> Pass(w, i, k).outcome == AuthError && Pass(w, i, k).sent == []
    ensures w.tokens(k) != None ==> Tells(w.replies(j), j, Pass(w, i, k).outcome) && |Pass(w, i, k).sent| == j + 1 - i
    ensures Pass(w, i, k).slept == if w.tokens(k) == None then 0.0 else Asleep(w, j - i)
  {
    PassEndsAtDecisive(w, i, j);
    ClassifyTells(w, j);
    BackoffIsGeometric(w.backoff, j - i);
  }

  /** The outcome of a post, and with how many requests, tokens, invalidations and seconds asleep, told by
      the replies. */
  lemma RepliesTellTheOutcome(w: World, retryOn401: bool, i: nat, k: nat, j: nat, l: nat)
    requires PassEnds(w, i, j) && PassEnds(w, j + 1, l)
    ensures var posted := Expected(w, retryOn401, i, k); var again := retryOn401 && HasStatus(w.replies(j), 401);
      && Told(w, retryOn401, i, k, j, l, posted.outcome)
      && |posted.sent| == (if w.tokens(k) == None then 0
                           else if again && w.tokens(k + 1) != None then l + 1 - i
                           else j + 1 - i)
      && posted.taken == (if w.tokens(k) != None && again then 2 else 1)
      && posted.invalidated == posted.taken - 1
      && posted.slept == (if w.tokens(k) == None then 0.0
                          else if again && w.tokens(k + 1) != None then Asleep(w, j - i) + Asleep(w, l - j - 1)
                          else Asleep(w, j - i))
  {
    PassEndsAtDecisive(w, i, j);
    PassTells(w, i, k, j);
    PassTells(w, j + 1, k + 1, l);
  }

  lemma AllRepliesTell(w: World, retryOn401: bool, i: nat, k: nat)
    ensures forall j: nat, l: nat :: PassEnds(w, i, j) && PassEnds(w, j + 1, l) ==>
              Told(w, retryOn401, i, k, j, l, Expected(w, retryOn401, i, k).outcome)
  {
    forall j: nat, l: nat | PassEnds(w, i, j) && PassEnds(w, j + 1, l)
      ensures Told(w, retryOn401, i, k, j, l, Expected(w, retryOn401, i, k).outcome)
    {
      RepliesTellTheOutcome(w, retryOn401, i, k, j, l);
    }
  }

  // ----- the imperative form -----

  function Min(a: nat, b: nat): nat {
    if a < b then a else b
  }

  datatype Attempted = Reached(index: nat) | Threw(error: Outcome)

  class DarajaClient {
    const world: World
    var sent: seq<string>
    var taken: nat
    var invalidated: nat
    var slept: real
    var position: nat

    constructor (world: World, position: nat)
      ensures this.world == world && this.position == position
      ensures sent == [] && taken == 0 && invalidated == 0 && slept == 0.0
    {
      this.world, this.position := world, position;
      sent, taken, invalidated, slept := [], 0, 0, 0.0;
    }

    /** `session.post`. */
    method Request(token: string) returns (reply: Reply)
      modifies this`sent, this`position
      ensures reply == world.replies(old(position)) && position == old(position) + 1 && sent == old(sent) + [token]
    {
      reply := world.replies(position);
      position := position + 1;
      sent := sent + [token];
    }

    /** `time.sleep(backoff_factor * (2 ** attempt))`. */
    method BackOff(attempt: nat)
      modifies this`slept
      ensures slept == old(slept) + Wait(world.backoff, attempt)
    {
      WaitIsPower(world.backoff, attempt);
      slept := slept + world.backoff * Pow2(attempt) as real;
    }

    /** `_execute_with_retries`. */
    method ExecuteWithRetries(token: string) returns (res: Attempted)
      modifies this`sent, this`position, this`slept
      ensures var j := Decisive(world, old(position), world.maxRetries);
        && position == j + 1
        && sent == old(sent) + Repeat(token, j + 1 - old(position))
        && slept == old(slept) + Backoff(world.backoff, j - old(position))
        && res == if world.replies(j).Response? then Reached(j) else Threw(Classify(world, j))
    {
      ghost var i := position;
      var last: nat := 0;
      for attempt := 0 to world.maxRetries + 1
        invariant position == i + attempt
        invariant sent == old(sent) + Repeat(token, attempt)
        invariant slept == old(slept) + Backoff(world.backoff, Min(attempt, world.maxRetries))
        invariant forall h :: i <= h < i + attempt ==> ServerError(world.replies(h))
        invariant attempt > world.maxRetries ==> last == i + world.maxRetries
      {
        var reply := Request(token);
        RepeatSnoc(token, attempt);
        if !ServerError(reply) {
          DecisiveAfter(world, i, world.maxRetries, attempt);
        }
        if reply.TimedOut? {
          return Threw(TimeoutError);
        }
        if reply.TransportError? {
          return Threw(ApiError(None));
        }
        if reply.status < 500 {
          return Reached(position - 1);
        }
        last := position - 1;
        if attempt < world.maxRetries {
          BackOff(attempt);
        }
      }
      DecisiveAfter(world, i, world.maxRetries, world.maxRetries);
      res := Reached(last);
    }

    /** `response.json()` and the test for an embedded error. */
    method ReadBody(body: Payload, status: int, index: nat) returns (outcome: Outcome)
      ensures outcome == Read(body, status, index)
    {
      if body.Unparsable? {
        return ApiError(Some(status));
      }
      if body.Scalar? {
        return TypeError;
      }
      if body.hasErrorCode {
        return if body.Object? then ApiError(Some(status)) else AttributeError;
      }
      outcome := Data(index);
    }

    method PostWithAuth(retryOn401: bool) returns (outcome: Outcome)
      modifies this
      ensures position >= old(position)
      ensures var posted := Expected(world, retryOn401, old(position), old(taken));
        && outcome == posted.outcome
        && sent == old(sent) + posted.sent
        && taken == old(taken) + posted.taken
        && invalidated == old(invalidated) + posted.invalidated
        && slept == old(slept) + posted.slept
      decreases retryOn401
    {
      var token := world.tokens(taken);
      taken := taken + 1;
      if token.None? {
        return AuthError;
      }
      var attempted := ExecuteWithRetries(token.value);
      if attempted.Threw? {
        return attempted.error;
      }
      var index := attempted.index;
      var response := world.replies(index);
      if response.status == 401 {
        if retryOn401 {
          invalidated := invalidated + 1;
          outcome := PostWithAuth(false);
          return;
        }
        return AuthError;
      }
      if response.status == 429 {
        return RateLimitError;
      }
      if 400 <= response.status < 500 {
        return ApiError(Some(response.status));
      }
      if response.status >= 500 {
        return ApiError(Some(response.status));
      }
      outcome := ReadBody(response.body, response.status, index);
    }

    /** `post`. */
    method Post() returns (outcome: Outcome)
      modifies this
      ensures var posted := PostSpec(world, old(position), old(taken));
        && outcome == posted.outcome
        && sent == old(sent) + posted.sent
        && taken == old(taken) + posted.taken
        && invalidated == old(invalidated) + posted.invalidated
        && slept == old(slept) + posted.slept
      ensures forall j: nat, l: nat :: PassEnds(world, old(position), j) && PassEnds(world, j + 1, l) ==>
                Told(world, true, old(position), old(taken), j, l, outcome)
    {
      AllRepliesTell(world, true, position, taken);
      outcome := PostWithAuth(true);
    }
  }

  // ----- the stream specification -----

  /** Read the stream reply by reply: skip server errors while there is budget, start over once on
      a 401 with a fresh budget, and stop at anything else. */
  function Stream(w: World, i: nat, k: nat, budget: nat, first: bool): (Outcome, nat)
    requires budget <= w.maxRetries
    decreases first, budget
  {
    if ServerError(w.replies(i)) && budget > 0 then
      var (outcome, n) := Stream(w, i + 1, k, budget - 1, first);
      (outcome, n + 1)
    else if Unauthorized(w.replies(i)) && first then
      if w.tokens(k + 1).None? then (AuthError, 1)
      else
        var (outcome, n) := Stream(w, i + 1, k + 1, w.maxRetries, false);
        (outcome, n + 1)
    else (Classify(w, i), 1)
  }

  /** One pass of the stream ends where the retry loop does. */
  lemma {:induction false} StreamReachesDecisive(w: World, i: nat, k: nat, budget: nat, first: bool)
    requires budget <= w.maxRetries
    ensures var j := Decisive(w, i, budget); var rest := Stream(w, j, k, 0, first);
      Stream(w, i, k, budget, first) == (rest.0, rest.1 + (j - i))
    decreases budget
  {
    if budget == 0 || !ServerError(w.replies(i)) {
    } else {
      StreamReachesDecisive(w, i + 1, k, budget - 1, first);
    }
  }

  /** A pass that ends the stream: the second one, or a first one without a 401. */
  lemma LastPass(w: World, i: nat, k: nat, first: bool)
    requires first ==> !Unauthorized(w.replies(Decisive(w, i, w.maxRetries)))
    ensures var j := Decisive(w, i, w.maxRetries);
      Stream(w, i, k, w.maxRetries, first) == (Classify(w, j), j - i + 1)
  {
    StreamReachesDecisive(w, i, k, w.maxRetries, first);
  }

  /** A first pass that ends with a 401. */
  lemma RejectedPass(w: World, i: nat, k: nat)
    requires Unauthorized(w.replies(Decisive(w, i, w.maxRetries)))
    ensures var j := Decisive(w, i, w.maxRetries); var rest := Stream(w, j + 1, k + 1, w.maxRetries, false);
      Stream(w, i, k, w.maxRetries, true) ==
      if w.tokens(k + 1).None? then (AuthError, j - i + 1) else (rest.0, rest.1 + (j - i + 1))
  {
    StreamReachesDecisive(w, i, k, w.maxRetries, true);
  }

  /** `post` gives the result, and sends the number of requests, of the stream specification. */
  lemma PostRefinesTheStream(w: World, i: nat, k: nat)
    ensures var posted := PostSpec(w, i, k);
      if w.tokens(k).None? then posted.outcome == AuthError && posted.sent == []
      else (posted.outcome, |posted.sent|) == Stream(w, i, k, w.maxRetries, true)
  {
    var j := Decisive(w, i, w.maxRetries);
    if Unauthorized(w.replies(j)) {
      RejectedPass(w, i, k);
      LastPass(w, j + 1, k + 1, false);
    } else {
      LastPass(w, i, k, true);
    }
  }

  /** All requests of one pass carry its token. */
  lemma PassSends(w: World, i: nat, k: nat, h: nat)
    requires h < |Pass(w, i, k).sent|
    ensures w.tokens(k).Some? && Pass(w, i, k).sent[h] == w.tokens(k).value
  {
  }

  /** What a post sends: its first pass, and after a 401 its second. */
  lemma PostSends(w: World, i: nat, k: nat)
    requires w.tokens(k).Some?
    ensures var j := Decisive(w, i, w.maxRetries);
      PostSpec(w, i, k).sent ==
      Pass(w, i, k).sent + if Unauthorized(w.replies(j)) then Pass(w, j + 1, k + 1).sent else []
  {
  }

  lemma PassLength(w: World, i: nat, k: nat)
    requires w.tokens(k).Some?
    ensures |Pass(w, i, k).sent| == Decisive(w, i, w.maxRetries) - i + 1
  {
  }

  /** The re-sent requests carry the second token and no other: with distinct tokens, never the
      rejected one. */
  lemma ResendsUseTheNewToken(w: World, i: nat, k: nat, h: nat)
    requires w.tokens(k).Some? && h < |PostSpec(w, i, k).sent|
    ensures h > Decisive(w, i, w.maxRetries) - i ==> w.tokens(k + 1).Some?
    ensures PostSpec(w, i, k).sent[h] ==
            (if h <= Decisive(w, i, w.maxRetries) - i then w.tokens(k) else w.tokens(k + 1)).value
  {
    var j := Decisive(w, i, w.maxRetries);
    PostSends(w, i, k);
    PassLength(w, i, k);
    if h <= j - i {
      PassSends(w, i, k, h);
    } else {
      PassSends(w, j + 1, k + 1, h - (j - i + 1));
    }
  }

  // ----- cost -----

  lemma {:induction false} WaitIsPositive(backoff: real, n: nat)
    requires backoff >= 0.0
    ensures Wait(backoff, n) >= 0.0
  {
    if n == 0 {
    } else {
      WaitIsPositive(backoff, n - 1);
    }
  }

  lemma {:induction false} BackoffGrows(backoff: real, m: nat, n: nat)
    requires backoff >= 0.0 && m <= n
    ensures Backoff(backoff, m) <= Backoff(backoff, n)
    decreases n - m
  {
    if m == n {
    } else {
      BackoffGrows(backoff, m, n - 1);
      WaitIsPositive(backoff, n - 1);
    }
  }

  /** One pass costs at most M+1 requests and the whole back-off. */
  lemma PassIsBounded(w: World, i: nat, k: nat)
    requires w.backoff >= 0.0
    ensures |Pass(w, i, k).sent| <= w.maxRetries + 1
    ensures 0.0 <= Pass(w, i, k).slept <= Backoff(w.backoff, w.maxRetries)
  {
    var j := Decisive(w, i, w.maxRetries);
    BackoffGrows(w.backoff, 0, j - i);
    BackoffGrows(w.backoff, j - i, w.maxRetries);
  }

  lemma CostInWaits(w: World, i: nat, k: nat)
    requires w.backoff >= 0.0
    ensures |PostSpec(w, i, k).sent| <= 2 * (w.maxRetries + 1)
    ensures PostSpec(w, i, k).slept <= 2.0 * Backoff(w.backoff, w.maxRetries)
  {
    PassIsBounded(w, i, k);
    PassIsBounded(w, Decisive(w, i, w.maxRetries) + 1, k + 1);
  }

  /** One post: at most 2(M+1) requests, two tokens, one invalidation, and 2B(2^M - 1) seconds asleep. */
  lemma CostIsBounded(w: World, i: nat, k: nat)
    requires w.backoff >= 0.0
    ensures |PostSpec(w, i, k).sent| <= 2 * (w.maxRetries + 1)
    ensures PostSpec(w, i, k).taken <= 2 && PostSpec(w, i, k).invalidated <= 1
    ensures PostSpec(w, i, k).slept <= 2.0 * Asleep(w, w.maxRetries)
  {
    CostInWaits(w, i, k);
    BackoffIsGeometric(w.backoff, w.maxRetries);
  }

  /** The worst stream: M server errors, a 401, and server errors for ever. */
  function WorstCase(maxRetries: nat, backoff: real): World {
    World(n => if n == maxRetries then Response(401, Unparsable) else Response(503, Unparsable),
          n => Some(if n == 0 then "old" else "new"), maxRetries, backoff)
  }

  /** A pass that meets server errors until its last attempt. */
  lemma WorstPass(w: World, i: nat, k: nat)
    requires w.tokens(k).Some? && forall h :: i <= h < i + w.maxRetries ==> ServerError(w.replies(h))
    ensures Decisive(w, i, w.maxRetries) == i + w.maxRetries
    ensures |Pass(w, i, k).sent| == w.maxRetries + 1 && Pass(w, i, k).slept == Backoff(w.backoff, w.maxRetries)
  {
    DecisiveAfter(w, i, w.maxRetries, w.maxRetries);
  }

  lemma WorstPost(w: World)
    requires w.tokens(0).Some? && w.tokens(1).Some? && Unauthorized(w.replies(w.maxRetries))
    requires forall h :: 0 <= h < w.maxRetries ==> ServerError(w.replies(h))
    requires forall h :: w.maxRetries < h <= w.maxRetries + w.maxRetries ==> ServerError(w.replies(h))
    ensures |PostSpec(w, 0, 0).sent| == 2 * (w.maxRetries + 1)
    ensures PostSpec(w, 0, 0).taken == 2 && PostSpec(w, 0, 0).invalidated == 1
    ensures PostSpec(w, 0, 0).slept == 2.0 * Backoff(w.backoff, w.maxRetries)
  {
    WorstPass(w, 0, 0);
    WorstPass(w, w.maxRetries + 1, 1);
  }

  /** Every bound is attained at once. */
  lemma CostIsAttained(maxRetries: nat, backoff: real)
    ensures var posted := PostSpec(WorstCase(maxRetries, backoff), 0, 0);
      && |posted.sent| == 2 * (maxRetries + 1)
      && posted.taken == 2 && posted.invalidated == 1
      && posted.slept == 2.0 * (backoff * (Pow2(maxRetries) as real - 1.0))
  {
    WorstPost(WorstCase(maxRetries, backoff));
    BackoffIsGeometric(backoff, maxRetries);
  }
}
