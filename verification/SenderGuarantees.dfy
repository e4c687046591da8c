/** What a call of `send_text` means and costs, whatever the world answers and whatever other tasks do
    to the token cache in between. */
module SenderGuarantees {
  import opened Wrappers
  import opened Sender

  // ----- what a result means

  /** A token loop succeeds exactly if its last reply was a 2xx with code 0 and a token, which is stored for
      its lifetime; its error is that of its last reply. */
  lemma {:induction false} AuthMeaning(u: Setup, s: State, attempt: nat)
    requires attempt < u.maxAttempts
    ensures var (r, s') := AuthWalk(u, s, attempt);
            && s'.did.turn > s.did.turn
            && var last := u.world(s'.did.turn - 1).outcome;
            && (r.Ok? <==> Grants(last))
            && (r.Ok? ==> r.value == last.body.token && s'.token == r.value
                          && s'.expiresAt == s'.did.now + Lifetime(last.body.expire) as real)
            && (r.Error? ==> r == Failure(AUTH_FAILED, last))
            && s'.did.lastReply == s.did.lastReply && s'.did.posts == s.did.posts && s'.did.sendSlept == s.did.sendSlept
    decreases u.maxAttempts - attempt
  {
    var o := u.world(s.did.turn).outcome;
    if TriesAgain(u.maxAttempts, attempt, o) {
      AuthMeaning(u, AuthSleep(u, AuthPost(u, s), attempt, o), attempt + 1);
    }
  }

  /** A token that is used is fresh, and either it was in the cache when that was looked at or it came just
      now in a 2xx reply with code 0. */
  lemma TokenMeaning(u: Setup, s: State)
    ensures var (r, s') := TokenWalk(u, s);
            var last := u.world(if s'.did.turn == 0 then 0 else s'.did.turn - 1).outcome;
            && (r.Ok? ==> r.value != "" && s'.token == r.value && s'.did.now < s'.expiresAt)
            && (r.Ok? && s'.did.authPosts != s.did.authPosts ==> Grants(last) && r.value == last.body.token)
            && (r.Error? ==> r.code == AUTH_FAILED && !Grants(last))
            && s'.did.lastReply == s.did.lastReply && s'.did.posts == s.did.posts && s'.did.sendSlept == s.did.sendSlept
  {
    if !Fresh(s) && !Fresh(Await(u, s)) {
      AuthMeaning(u, Await(u, s), 0);
    }
  }

  /** A normal return means that the last post was confirmed; a send error is the error of the last
      post, which was not; and a 401 leaves no token behind. */
  predicate Meaning(r: Result<Option<string>>, s: State) {
    && (r.Ok? ==>
          s.did.lastReply.Some? && Confirms(s.did.lastReply.value) && r.value == s.did.lastReply.value.body.messageId)
    && (r.Error? ==> r.code == AUTH_FAILED || r.code == SEND_FAILED)
    && (r.Error? && r.code == SEND_FAILED ==>
          s.did.lastReply.Some? && !Confirms(s.did.lastReply.value) && r == Failure(SEND_FAILED, s.did.lastReply.value)
          && (s.did.lastReply.value.Response? && s.did.lastReply.value.status == 401 ==> s.token == ""))
  }

  lemma {:induction false} SendMeaning(u: Setup, s: State, message: Message, attempt: nat)
    requires attempt < u.maxAttempts
    ensures Meaning(SendWalk(u, s, message, attempt).0, SendWalk(u, s, message, attempt).1)
    decreases u.maxAttempts - attempt
  {
    TokenMeaning(u, s);
    var (token, s1) := TokenWalk(u, s);
    if token.Ok? {
      var o := u.world(s1.did.turn).outcome;
      if TriesAgain(u.maxAttempts, attempt, o) {
        var s2 := SendPost(u, s1, Call(s1.did.turn, token.value, message, o));
        SendMeaning(u, SendSleep(u, s2, attempt, o), message, attempt + 1);
      }
    }
  }

  // ----- how the service classifies a failure

  predicate RetryableDelivery(status: int) { status in {408, 425, 429, 500, 502, 503, 504} }

  /** An exception out of `_send_chunks`. */
  datatype Raised = GatewayError(code: string, status: int) | Unexpected

  function DeliveryFailure(e: Raised): (string, bool) {
    match e
    case GatewayError(code, status) => (code, RetryableDelivery(status))
    case Unexpected => ("UNEXPECTED_DELIVERY_ERROR", true)
  }

  /** Worth trying again later: no reply at all, or one of these statuses. */
  predicate Passing(o: Outcome) {
    || o.NetworkError? || o.status == 408 || o.status == 425 || o.status == 429
    || o.status == 500 || o.status == 502 || o.status == 503 || o.status == 504
  }

  /** Anything else that goes wrong is retried later as well. */
  lemma UnexpectedIsRetried(e: Raised)
    ensures e.Unexpected? ==> DeliveryFailure(e) == ("UNEXPECTED_DELIVERY_ERROR", true)
    ensures e.GatewayError? ==> DeliveryFailure(e).0 == e.code
  {
  }

  /** A failed message post is retried later exactly if it ended in a network error or in one of the
      retryable statuses. */
  lemma SendFailureIsRetryable(u: Setup, s: State, message: Message)
    requires var r := SendWalk(u, s, message, 0).0; r.Error? && r.code == SEND_FAILED
    ensures var (r, s') := SendWalk(u, s, message, 0);
            s'.did.lastReply.Some?
            && (DeliveryFailure(GatewayError(r.code, r.status)).1
                <==> Passing(s'.did.lastReply.value))
  {
    SendMeaning(u, s, message, 0);
  }

  // ----- what a call costs

  /** The posts since are this message, each with a token. */
  predicate OnlyPosted(before: seq<Call>, after: seq<Call>, message: Message) {
    before <= after && forall i :: |before| <= i < |after| ==> after[i].message == message && after[i].bearer != ""
  }

  lemma {:induction false} AuthCost(u: Setup, s: State, attempt: nat)
    requires attempt < u.maxAttempts
    ensures var s' := AuthWalk(u, s, attempt).1;
            var k := s'.did.authPosts - s.did.authPosts;
            1 <= k <= u.maxAttempts - attempt && s'.did.authSlept <= s.did.authSlept + 10.0 * (k - 1) as real
    decreases u.maxAttempts - attempt
  {
    var o := u.world(s.did.turn).outcome;
    if TriesAgain(u.maxAttempts, attempt, o) {
      AuthCost(u, AuthSleep(u, AuthPost(u, s), attempt, o), attempt + 1);
    }
  }

  lemma TokenCost(u: Setup, s: State)
    ensures var s' := TokenWalk(u, s).1;
            && s.did.authPosts <= s'.did.authPosts <= s.did.authPosts + u.maxAttempts
            && s'.did.authSlept <= s.did.authSlept + 10.0 * (u.maxAttempts - 1) as real
  {
    if !Fresh(s) && !Fresh(Await(u, s)) {
      AuthCost(u, Await(u, s), 0);
    }
  }

  function Slept(s: State): real { s.did.authSlept + s.did.sendSlept }

  /** With `left` attempts to go: as many message posts, all of this message; `left * n` token posts;
      and ten seconds for each but one of those. */
  lemma {:induction false} SendCost(u: Setup, s: State, message: Message, attempt: nat, left: nat)
    requires attempt < u.maxAttempts && left == u.maxAttempts - attempt
    ensures var s' := SendWalk(u, s, message, attempt).1;
            && OnlyPosted(s.did.posts, s'.did.posts, message) && |s'.did.posts| <= |s.did.posts| + left
            && s'.did.authPosts <= s.did.authPosts + left * u.maxAttempts
            && Slept(s') <= Slept(s) + 10.0 * (left * u.maxAttempts - 1) as real
    decreases left
  {
    var n := u.maxAttempts;
    TokenMeaning(u, s);
    TokenCost(u, s);
    var (token, s1) := TokenWalk(u, s);
    assert left * n == n + (left - 1) * n && (left - 1) * n >= 0;
    if token.Ok? {
      var o := u.world(s1.did.turn).outcome;
      if TriesAgain(u.maxAttempts, attempt, o) {
        var s2 := SendPost(u, s1, Call(s1.did.turn, token.value, message, o));
        SendCost(u, SendSleep(u, s2, attempt, o), message, attempt + 1, left - 1);
      }
    }
  }

  /** One call of `send_text` with n attempts: at most n message posts, every one of the
      same message, uuid included, with a token;
      at most n * n token posts; at most 10 * (n * n - 1) seconds of its own sleep. */
  lemma SendTextIsBounded(u: Setup, s: State, message: Message)
    ensures var n := u.maxAttempts;
            var s' := SendWalk(u, s, message, 0).1;
            && OnlyPosted(s.did.posts, s'.did.posts, message) && |s'.did.posts| <= |s.did.posts| + n
            && s'.did.authPosts <= s.did.authPosts + n * n
            && Slept(s') <= Slept(s) + 10.0 * (n * n - 1) as real
  {
    SendCost(u, s, message, 0, u.maxAttempts);
  }

  /** No reply names its own delay. */
  ghost predicate PlainBackoff(u: Setup) {
    u.base >= 0.0
    && forall t: nat :: u.world(t).outcome.Response? ==>
         u.world(t).outcome.retryAfter.Absent? || u.world(t).outcome.retryAfter.Unreadable?
  }

  /** Without a Retry-After header the waits of one token loop of k posts sum to at most
      base * (2^(k-1) - 1). (`Backoff(base, i)` is base * 2^i.) */
  lemma {:induction false} AuthBackoff(u: Setup, s: State, attempt: nat)
    requires attempt < u.maxAttempts && PlainBackoff(u)
    ensures var s' := AuthWalk(u, s, attempt).1;
            var k := s'.did.authPosts - s.did.authPosts;
            k >= 1
            && s'.did.authSlept <= s.did.authSlept + Backoff(u.base, attempt + k - 1) - Backoff(u.base, attempt)
    decreases u.maxAttempts - attempt
  {
    var o := u.world(s.did.turn).outcome;
    if TriesAgain(u.maxAttempts, attempt, o) {
      var s1 := AuthSleep(u, AuthPost(u, s), attempt, o);
      AuthBackoff(u, s1, attempt + 1);
      BackoffStep(u, attempt, o);
    }
  }

  lemma BackoffStep(u: Setup, attempt: nat, o: Outcome)
    requires u.base >= 0.0 && (o.Response? ==> o.retryAfter.Absent? || o.retryAfter.Unreadable?)
    ensures Delay(u.base, attempt, o) <= Backoff(u.base, attempt + 1) - Backoff(u.base, attempt)
  {
    BackoffPositive(u.base, attempt);
  }

  lemma {:induction false} BackoffPositive(base: real, n: nat)
    requires base >= 0.0
    ensures Backoff(base, n) >= 0.0
  {
    if n > 0 {
      BackoffPositive(base, n - 1);
    }
  }

  /** The waits between k message posts sum to at most base * (2^k - 1): there are k - 1 of them, or k if the
      token for the next post could not be had. */
  lemma {:induction false} SendBackoff(u: Setup, s: State, message: Message, attempt: nat)
    requires attempt < u.maxAttempts && PlainBackoff(u)
    ensures var s' := SendWalk(u, s, message, attempt).1;
            var k := |s'.did.posts| - |s.did.posts|;
            k >= 0 && s'.did.sendSlept <= s.did.sendSlept + Backoff(u.base, attempt + k) - Backoff(u.base, attempt)
    decreases u.maxAttempts - attempt
  {
    TokenMeaning(u, s);
    BackoffGrows(u.base, attempt, attempt + 1);
    hide TokenWalk, Backoff, Delay;
    var (token, s1) := TokenWalk(u, s);
    if token.Ok? {
      var o := u.world(s1.did.turn).outcome;
      if TriesAgain(u.maxAttempts, attempt, o) {
        var s2 := SendPost(u, s1, Call(s1.did.turn, token.value, message, o));
        SendBackoff(u, SendSleep(u, s2, attempt, o), message, attempt + 1);
        BackoffStep(u, attempt, o);
      }
    }
  }

  /** Whatever the replies ask for, they also sum to at most 10 seconds each. */
  lemma {:induction false} SendWaits(u: Setup, s: State, message: Message, attempt: nat)
    requires attempt < u.maxAttempts
    ensures var s' := SendWalk(u, s, message, attempt).1;
            var k := |s'.did.posts| - |s.did.posts|;
            k >= 0 && s'.did.sendSlept <= s.did.sendSlept + 10.0 * k as real
    decreases u.maxAttempts - attempt
  {
    TokenMeaning(u, s);
    var (token, s1) := TokenWalk(u, s);
    if token.Ok? {
      var o := u.world(s1.did.turn).outcome;
      if TriesAgain(u.maxAttempts, attempt, o) {
        var s2 := SendPost(u, s1, Call(s1.did.turn, token.value, message, o));
        SendWaits(u, SendSleep(u, s2, attempt, o), message, attempt + 1);
      }
    }
  }

  lemma {:induction false} BackoffGrows(base: real, a: nat, b: nat)
    requires base >= 0.0 && a <= b
    ensures Backoff(base, a) <= Backoff(base, b)
    decreases b - a
  {
    if a < b {
      BackoffPositive(base, a);
      BackoffGrows(base, a + 1, b);
    }
  }
}
