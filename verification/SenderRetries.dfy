/** When the loops of `FeishuSender` try again, with what, and after how long: the exact laws, with the
    statuses and the strings as the provider and the callers see them. */
module SenderRetries {
  import opened Wrappers
  import opened Sender
  import opened SenderGuarantees

  /** Worth another attempt: no reply at all, or one of these statuses. */
  predicate Transient(o: Outcome) {
    o.NetworkError? || o.status == 429 || o.status == 500 || o.status == 502 || o.status == 503 || o.status == 504
  }

  // ----- how long a wait is

  /** `_retry_wait` sleeps what a numeric Retry-After says, and base * 2^attempt otherwise, but never less
      than nothing and never more than ten seconds. */
  lemma WaitIsExact(base: real, attempt: nat, o: Outcome)
    requires base >= 0.0
    ensures var d := Delay(base, attempt, o);
            && (o.Response? && o.retryAfter.Seconds? ==>
                  var s := o.retryAfter.s;
                  && (0.0 <= s <= 10.0 ==> d == s) && (s < 0.0 ==> d == 0.0) && (s > 10.0 ==> d == 10.0))
            && (o.Response? && o.retryAfter.Infinite? ==> d == if o.retryAfter.positive then 10.0 else 0.0)
            && (o.Response? && o.retryAfter.NotANumber? ==> d == 0.0)
            && (o.NetworkError? || o.retryAfter.Absent? || o.retryAfter.Unreadable? ==>
                  d == if base * Power(attempt) <= 10.0 then base * Power(attempt) else 10.0)
  {
    BackoffIsPower(base, attempt);
    BackoffPositive(base, attempt);
  }

  /** 2^n. */
  function Power(n: nat): real {
    if n == 0 then 1.0 else Power(n - 1) + Power(n - 1)
  }

  lemma {:induction false} BackoffIsPower(base: real, n: nat)
    ensures Backoff(base, n) == base * Power(n)
  {
    if n > 0 {
      BackoffIsPower(base, n - 1);
    }
  }

  /** The waits after these replies, the first of them to attempt number `attempt`. */
  function Pauses(base: real, attempt: nat, replies: seq<Outcome>): real
    decreases |replies|
  {
    if replies == [] then 0.0 else Delay(base, attempt, replies[0]) + Pauses(base, attempt + 1, replies[1..])
  }

  // ----- the token loop

  /** The replies to `k` posts that begin at this await: posts and waits alternate. */
  function RepliesFrom(u: Setup, from: nat, k: nat): (r: seq<Outcome>)
    ensures |r| == k && forall i :: 0 <= i < k ==> r[i] == u.world(from + 2 * i).outcome
  {
    seq(k, i requires 0 <= i < k => u.world(from + 2 * i).outcome)
  }

  /** Every reply but the last was transient, and so was the last only if no attempt was left. */
  predicate UsedUp(replies: seq<Outcome>, left: nat) {
    && replies != [] && |replies| <= left
    && (forall i :: 0 <= i < |replies| - 1 ==> Transient(replies[i]))
    && (Transient(replies[|replies| - 1]) ==> |replies| == left)
  }

  /** A token loop posts again after every transient reply while it has attempts left, and after no other; it
      sleeps exactly the waits in between. */
  lemma {:induction false} AuthRetries(u: Setup, s: State, attempt: nat) returns (k: nat)
    requires attempt < u.maxAttempts
    ensures var (r, s') := AuthWalk(u, s, attempt);
            var replies := RepliesFrom(u, s.did.turn, k);
            && 1 <= k <= u.maxAttempts - attempt && s'.did.authPosts == s.did.authPosts + k
            && s'.did.turn == s.did.turn + 2 * k - 1
            && UsedUp(replies, u.maxAttempts - attempt)
            && s'.did.authSlept == s.did.authSlept + Pauses(u.base, attempt, replies[..k - 1])
            && (r.Error? ==> r.code == "FEISHU_AUTH_FAILED" && ErrorStatus(r.status, replies[k - 1]))
    decreases u.maxAttempts - attempt
  {
    hide Delay, Pauses, Transient, Grants, Lifetime, ErrorStatus, TriesAgain, UsedUp;
    var o := u.world(s.did.turn).outcome;
    TransientIsRetried(u, attempt, o);
    if TriesAgain(u.maxAttempts, attempt, o) {
      var s1 := AuthSleep(u, AuthPost(u, s), attempt, o);
      var rest := AuthRetries(u, s1, attempt + 1);
      k := rest + 1;
      RepliesFromMore(u, s.did.turn, attempt, rest, u.maxAttempts - attempt);
    } else {
      k := 1;
      OneReplyFrom(u, s.did.turn, attempt, u.maxAttempts - attempt);
      FailureIsExact<string>(AUTH_FAILED, o);
    }
  }

  lemma FailureIsExact<T>(code: string, o: Outcome)
    ensures Failure<T>(code, o).code == code && ErrorStatus(Failure<T>(code, o).status, o)
  {
  }

  lemma OneReplyFrom(u: Setup, from: nat, attempt: nat, left: nat)
    requires left >= 1 && (Transient(u.world(from).outcome) ==> left == 1)
    ensures UsedUp(RepliesFrom(u, from, 1), left)
    ensures Pauses(u.base, attempt, RepliesFrom(u, from, 1)[..0]) == 0.0
  {
  }

  lemma RepliesFromMore(u: Setup, from: nat, attempt: nat, rest: nat, left: nat)
    requires rest >= 1 && left >= 1 && Transient(u.world(from).outcome)
    requires UsedUp(RepliesFrom(u, from + 2, rest), left - 1)
    ensures var replies, later := RepliesFrom(u, from, rest + 1), RepliesFrom(u, from + 2, rest);
            && replies[0] == u.world(from).outcome && replies[rest] == later[rest - 1] && UsedUp(replies, left)
            && Pauses(u.base, attempt, replies[..rest])
               == Delay(u.base, attempt, replies[0]) + Pauses(u.base, attempt + 1, later[..rest - 1])
  {
    hide Delay, Transient;
    var replies, later := RepliesFrom(u, from, rest + 1), RepliesFrom(u, from + 2, rest);
    assert replies[..rest][1..] == later[..rest - 1];
    assert forall i :: 1 <= i <= rest ==> replies[i] == later[i - 1];
  }

  /** The status of a GatewayError: that of the reply if it is an error status, 422 for any other reply, 502 if
      there was none. */
  predicate ErrorStatus(status: int, o: Outcome) {
    && (o.NetworkError? ==> status == 502)
    && (o.Response? && o.status >= 400 ==> status == o.status)
    && (o.Response? && o.status < 400 ==> status == 422)
  }

  // ----- the message loop

  function Replies(calls: seq<Call>): (r: seq<Outcome>)
    ensures |r| == |calls| && forall i :: 0 <= i < |calls| ==> r[i] == calls[i].reply
  {
    seq(|calls|, i requires 0 <= i < |calls| => calls[i].reply)
  }

  /** The token of a post is the one that is in the cache right then and not expired, or that came in the very
      reply before. */
  predicate CurrentToken(u: Setup, s: State, c: Call) {
    if c.turn == s.did.turn then c.bearer == s.token && s.did.now < s.expiresAt
    else
      c.turn > 0
      && var m := u.world(c.turn - 1);
      (c.bearer == m.token && m.now < m.expiresAt) || (Grants(m.outcome) && c.bearer == m.outcome.body.token)
  }

  lemma AuthToken(u: Setup, s: State, attempt: nat)
    requires attempt < u.maxAttempts
    ensures var (r, s') := AuthWalk(u, s, attempt);
            s'.did.turn > s.did.turn
            && (r.Ok? ==> var o := u.world(s'.did.turn - 1).outcome; Grants(o) && r.value == o.body.token)
  {
    AuthMeaning(u, s, attempt);
  }

  lemma TokenIsCurrent(u: Setup, s: State, c: Call)
    requires var (r, s1) := TokenWalk(u, s); r.Ok? && c.turn == s1.did.turn && c.bearer == r.value
    ensures CurrentToken(u, s, c) && c.turn >= s.did.turn
  {
    if !Fresh(s) && !Fresh(Await(u, s)) {
      AuthToken(u, Await(u, s), 0);
    }
  }

  lemma CurrentLater(u: Setup, s: State, s1: State, c: Call)
    requires CurrentToken(u, s1, c) && s1.did.turn > s.did.turn && c.turn >= s1.did.turn
    requires var m := u.world(s1.did.turn - 1);
             s1.token == m.token && s1.expiresAt == m.expiresAt && s1.did.now == m.now
    ensures CurrentToken(u, s, c)
  {
  }

  /** The message posts a call makes: each a whole post of this message with a current token, each but the last
      answered transiently. */
  predicate Posts(u: Setup, s: State, message: Message, calls: seq<Call>) {
    && (forall i :: 0 <= i < |calls| ==>
          && calls[i].message == message && calls[i].reply == u.world(calls[i].turn).outcome
          && calls[i].turn >= s.did.turn && CurrentToken(u, s, calls[i]))
    && (forall i :: 0 <= i < |calls| - 1 ==> Transient(calls[i].reply))
  }

  /** How a call of `send_text` ends after these posts, with `left` attempts at its start. */
  predicate EndsAfter(r: Result<Option<string>>, calls: seq<Call>, left: nat) {
    match r
    case Ok(id) =>
      |calls| > 0
      && var last := calls[|calls| - 1].reply;
      last.Response? && 200 <= last.status < 300 && last.body.Reply? && last.body.code == 0 && id == last.body.messageId
    case Error(code, status) =>
      || (code == "FEISHU_AUTH_FAILED" && |calls| < left && forall i :: 0 <= i < |calls| ==> Transient(calls[i].reply))
      || (code == "FEISHU_SEND_FAILED" && |calls| > 0
          && var last := calls[|calls| - 1].reply;
          ErrorStatus(status, last) && (Transient(last) ==> |calls| == left))
  }

  /** The waits follow every transient reply but the one to the last attempt. */
  function Waited(r: Result<Option<string>>, calls: seq<Call>): seq<Call> {
    if r.Error? && r.code == "FEISHU_AUTH_FAILED" then calls
    else if calls == [] then []
    else calls[..|calls| - 1]
  }

  lemma NoPost(u: Setup, s: State, message: Message, r: Result<Option<string>>, attempt: nat)
    requires attempt < u.maxAttempts && r.Error? && r.code == "FEISHU_AUTH_FAILED"
    ensures Posts(u, s, message, []) && EndsAfter(r, [], u.maxAttempts - attempt)
    ensures Pauses(u.base, attempt, Replies(Waited(r, []))) == 0.0
  {
  }

  lemma OnePost(u: Setup, s: State, message: Message, r: Result<Option<string>>, attempt: nat, call: Call)
    requires attempt < u.maxAttempts && !TriesAgain(u.maxAttempts, attempt, call.reply)
    requires call.message == message && call.reply == u.world(call.turn).outcome
    requires call.turn >= s.did.turn && CurrentToken(u, s, call)
    requires r == if Confirms(call.reply) then Ok(call.reply.body.messageId) else Failure(SEND_FAILED, call.reply)
    ensures Posts(u, s, message, [call]) && EndsAfter(r, [call], u.maxAttempts - attempt)
    ensures Pauses(u.base, attempt, Replies(Waited(r, [call]))) == 0.0
  {
    assert "FEISHU_AUTH_FAILED"[7] == 'A' && "FEISHU_SEND_FAILED"[7] == 'S';
  }

  lemma PostsMore(u: Setup, s: State, s3: State, message: Message, call: Call, rest: seq<Call>)
    requires call.message == message && call.reply == u.world(call.turn).outcome && Transient(call.reply)
    requires call.turn >= s.did.turn && CurrentToken(u, s, call)
    requires s3.did.turn > s.did.turn && Posts(u, s3, message, rest)
    requires var m := u.world(s3.did.turn - 1);
             s3.token == m.token && s3.expiresAt == m.expiresAt && s3.did.now == m.now
    ensures Posts(u, s, message, [call] + rest)
  {
    hide CurrentToken;
    var calls := [call] + rest;
    forall i | 0 <= i < |calls|
      ensures calls[i].message == message && calls[i].reply == u.world(calls[i].turn).outcome
      ensures calls[i].turn >= s.did.turn && CurrentToken(u, s, calls[i])
    {
      if i > 0 {
        assert calls[i] == rest[i - 1];
        CurrentLater(u, s, s3, calls[i]);
      }
    }
  }

  lemma EndsLater(r: Result<Option<string>>, call: Call, rest: seq<Call>, left: nat)
    requires EndsAfter(r, rest, left) && Transient(call.reply)
    ensures EndsAfter(r, [call] + rest, left + 1)
  {
    var calls := [call] + rest;
    assert rest != [] ==> calls[|calls| - 1] == rest[|rest| - 1];
    assert forall i :: 1 <= i < |calls| ==> calls[i] == rest[i - 1];
  }

  lemma WaitsMore(base: real, attempt: nat, r: Result<Option<string>>, call: Call, rest: seq<Call>, left: nat)
    requires EndsAfter(r, rest, left)
    ensures Pauses(base, attempt, Replies(Waited(r, [call] + rest)))
            == Delay(base, attempt, call.reply) + Pauses(base, attempt + 1, Replies(Waited(r, rest)))
  {
    hide Delay;
    var calls, later := Waited(r, [call] + rest), Waited(r, rest);
    assert calls == [call] + later;
    assert Replies(calls)[0] == call.reply && Replies(calls)[1..] == Replies(later);
  }

  lemma TransientIsRetried(u: Setup, attempt: nat, o: Outcome)
    requires attempt < u.maxAttempts
    ensures TriesAgain(u.maxAttempts, attempt, o) <==> Transient(o) && attempt + 1 < u.maxAttempts
  {
  }

  /** `send_text` posts again after every transient reply while it has attempts left, and after no other, each
      time with the token of that moment; it sleeps exactly the waits in between. */
  lemma {:induction false} SendRetries(u: Setup, s: State, message: Message, attempt: nat) returns (calls: seq<Call>)
    requires attempt < u.maxAttempts
    ensures var (r, s') := SendWalk(u, s, message, attempt);
            && s'.did.posts == s.did.posts + calls && |calls| <= u.maxAttempts - attempt
            && Posts(u, s, message, calls) && EndsAfter(r, calls, u.maxAttempts - attempt)
            && s'.did.sendSlept == s.did.sendSlept + Pauses(u.base, attempt, Replies(Waited(r, calls)))
    decreases u.maxAttempts - attempt
  {
    TokenMeaning(u, s);
    hide TokenWalk, Posts, EndsAfter, Pauses, Replies, Waited, CurrentToken, Delay, Transient, Confirms,
         Grants, TriesAgain;
    var (token, s1) := TokenWalk(u, s);
    if token.Error? {
      calls := [];
      NoPost(u, s, message, Error(token.code, token.status), attempt);
    } else {
      var o := u.world(s1.did.turn).outcome;
      var call := Call(s1.did.turn, token.value, message, o);
      TokenIsCurrent(u, s, call);
      TransientIsRetried(u, attempt, o);
      if TriesAgain(u.maxAttempts, attempt, o) {
        var s3 := SendSleep(u, SendPost(u, s1, call), attempt, o);
        var rest := SendRetries(u, s3, message, attempt + 1);
        calls := [call] + rest;
        var r := SendWalk(u, s3, message, attempt + 1).0;
        PostsMore(u, s, s3, message, call, rest);
        EndsLater(r, call, rest, u.maxAttempts - attempt - 1);
        WaitsMore(u.base, attempt, r, call, rest, u.maxAttempts - attempt - 1);
      } else {
        calls := [call];
        OnePost(u, s, message, SendWalk(u, s, message, attempt).0, attempt, call);
      }
    }
  }

  /** A 401 empties the cache; any other last reply leaves it as the other tasks left it. */
  lemma {:induction false} CacheAfterSend(u: Setup, s: State, message: Message, attempt: nat)
    requires attempt < u.maxAttempts
    ensures var (r, s') := SendWalk(u, s, message, attempt);
            r.Ok? || r.code == "FEISHU_SEND_FAILED" ==>
              && s'.did.turn > 0
              && var m := u.world(s'.did.turn - 1);
              && s'.did.lastReply == Some(m.outcome)
              && (if m.outcome.Response? && m.outcome.status == 401 then s'.token == "" && s'.expiresAt == 0.0
                  else s'.token == m.token && s'.expiresAt == m.expiresAt)
    decreases u.maxAttempts - attempt
  {
    TokenMeaning(u, s);
    var (token, s1) := TokenWalk(u, s);
    if token.Ok? {
      var o := u.world(s1.did.turn).outcome;
      if TriesAgain(u.maxAttempts, attempt, o) {
        var s2 := SendPost(u, s1, Call(s1.did.turn, token.value, message, o));
        CacheAfterSend(u, SendSleep(u, s2, attempt, o), message, attempt + 1);
      }
    }
  }
}
