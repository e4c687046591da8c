/** `FeishuSender`: two nested bounded retry loops around a token cache that other tasks may refresh
    or clear at every `await`. */
module Sender {
  import opened Wrappers

  // ----- what the world can answer

  datatype RetryAfter = Absent | Unreadable | Seconds(s: real) | Infinite(positive: bool) | NotANumber

  /** A JSON body that validates, or anything else. */
  datatype Body = Malformed | Reply(code: int, token: string, expire: int, messageId: Option<string>)

  datatype Outcome = NetworkError | Response(status: int, retryAfter: RetryAfter, body: Body)

  /** One `await`: how it ended, what time it is then, and what other tasks have made of the cache. */
  datatype Moment = Moment(outcome: Outcome, now: real, token: string, expiresAt: real)

  type World = nat -> Moment

  /** The code refuses to be set up with fewer attempts. */
  type Attempts = n: nat | n >= 1 witness 1

  datatype Setup = Setup(maxAttempts: Attempts, base: real, world: World)

  /** The body of a message post. */
  datatype Message = Message(recipient: string, text: string, uuid: string)

  /** A message post: at which await, with which token, and how it ended. */
  datatype Call = Call(turn: nat, bearer: string, message: Message, reply: Outcome)

  /** What the sender has seen and done. */
  datatype History = History(
    now: real,
    turn: nat,                   // awaits so far
    authPosts: nat,
    authSlept: real,
    posts: seq<Call>,            // the message posts
    sendSlept: real,
    lastReply: Option<Outcome>)  // how the last message post ended

  /** The sender between two awaits. */
  datatype State = State(token: string, expiresAt: real, did: History)

  datatype Result<T> = Ok(value: T) | Error(code: string, status: int)

  const AUTH_FAILED := "FEISHU_AUTH_FAILED"
  const SEND_FAILED := "FEISHU_SEND_FAILED"
  const DEFAULT_STATUS := 502

  predicate RetryableHttp(status: int) { status in {429, 500, 502, 503, 504} }

  predicate Success(status: int) { 200 <= status < 300 }

  function ProviderStatus(status: int): int { if status >= 400 then status else 422 }

  /** base * 2**attempt. */
  function Backoff(base: real, attempt: nat): real {
    if attempt == 0 then base else 2.0 * Backoff(base, attempt - 1)
  }

  function Clamp(delay: real): (d: real)
    ensures 0.0 <= d <= 10.0 && (0.0 <= delay ==> d <= delay)
  {
    if delay < 0.0 then 0.0 else if delay > 10.0 then 10.0 else delay
  }

  /** How long `_retry_wait` sleeps; Python's min and max let NaN fall through to 0. */
  function Delay(base: real, attempt: nat, outcome: Outcome): (d: real)
    ensures 0.0 <= d <= 10.0
  {
    if outcome.NetworkError? then Clamp(Backoff(base, attempt))
    else
      match outcome.retryAfter
      case Seconds(s) => Clamp(s)
      case Infinite(positive) => if positive then 10.0 else 0.0
      case NotANumber => 0.0
      case _ => Clamp(Backoff(base, attempt))
  }

  function Await(u: Setup, s: State): State {
    var m := u.world(s.did.turn);
    State(m.token, m.expiresAt, s.did.(turn := s.did.turn + 1, now := m.now))
  }

  predicate Fresh(s: State) { s.token != "" && s.did.now < s.expiresAt }

  /** A reply that carries a token. */
  predicate Grants(o: Outcome) {
    o.Response? && Success(o.status) && o.body.Reply? && o.body.code == 0 && o.body.token != ""
  }

  /** A reply that confirms a message. */
  predicate Confirms(o: Outcome) {
    o.Response? && Success(o.status) && o.body.Reply? && o.body.code == 0
  }

  function Lifetime(expire: int): int { if expire - 60 < 60 then 60 else expire - 60 }

  predicate TriesAgain(maxAttempts: nat, attempt: nat, o: Outcome) {
    attempt + 1 < maxAttempts && (o.NetworkError? || RetryableHttp(o.status))
  }

  /** The GatewayError for an outcome that is not retried and does not succeed. */
  function Failure<T>(code: string, o: Outcome): Result<T> {
    Error(code, if o.NetworkError? then DEFAULT_STATUS else ProviderStatus(o.status))
  }

  // ----- the loops as recursive walks

  function AuthPost(u: Setup, s: State): State {
    var s1 := Await(u, s);
    s1.(did := s1.did.(authPosts := s.did.authPosts + 1))
  }

  function AuthSleep(u: Setup, s: State, attempt: nat, o: Outcome): State {
    var s1 := Await(u, s);
    s1.(did := s1.did.(authSlept := s.did.authSlept + Delay(u.base, attempt, o)))
  }

  function AuthWalk(u: Setup, s: State, attempt: nat): (Result<string>, State)
    requires attempt < u.maxAttempts
    decreases u.maxAttempts - attempt
  {
    var o := u.world(s.did.turn).outcome;
    var s1 := AuthPost(u, s);
    if TriesAgain(u.maxAttempts, attempt, o) then AuthWalk(u, AuthSleep(u, s1, attempt, o), attempt + 1)
    else if Grants(o) then
      (Ok(o.body.token), s1.(token := o.body.token, expiresAt := s1.did.now + Lifetime(o.body.expire) as real))
    else (Failure(AUTH_FAILED, o), s1)
  }

  /** The cache is looked at before and after the lock is taken. */
  function TokenWalk(u: Setup, s: State): (Result<string>, State)
  {
    if Fresh(s) then (Ok(s.token), s)
    else
      var s1 := Await(u, s);
      if Fresh(s1) then (Ok(s1.token), s1) else AuthWalk(u, s1, 0)
  }

  function SendPost(u: Setup, s: State, call: Call): State {
    var o := u.world(s.did.turn).outcome;
    var s1 := Await(u, s);
    var did := s1.did.(posts := s.did.posts + [call], lastReply := Some(o));
    if o.Response? && o.status == 401 then State("", 0.0, did) else s1.(did := did)
  }

  function SendSleep(u: Setup, s: State, attempt: nat, o: Outcome): State {
    var s1 := Await(u, s);
    s1.(did := s1.did.(sendSlept := s.did.sendSlept + Delay(u.base, attempt, o)))
  }

  function SendWalk(u: Setup, s: State, message: Message, attempt: nat): (Result<Option<string>>, State)
    requires attempt < u.maxAttempts
    decreases u.maxAttempts - attempt
  {
    var (token, s1) := TokenWalk(u, s);
    if token.Error? then (Error(token.code, token.status), s1)
    else
      var o := u.world(s1.did.turn).outcome;
      var s2 := SendPost(u, s1, Call(s1.did.turn, token.value, message, o));
      if TriesAgain(u.maxAttempts, attempt, o) then SendWalk(u, SendSleep(u, s2, attempt, o), message, attempt + 1)
      else if Confirms(o) then (Ok(o.body.messageId), s2)
      else (Failure(SEND_FAILED, o), s2)
  }

  // ----- the sender itself

  class FeishuSender {
    const setup: Setup
    var token: string
    var tokenExpiresAt: real
    var did: History

    constructor (setup: Setup, now: real)
      ensures this.setup == setup
      ensures Current() == State("", 0.0, History(now, 0, 0, 0.0, [], 0.0, None))
    {
      this.setup := setup;
      token, tokenExpiresAt, did := "", 0.0, History(now, 0, 0, 0.0, [], 0.0, None);
    }

    function Current(): State
      reads this
    {
      State(token, tokenExpiresAt, did)
    }

    /** Gives the other tasks their turn. */
    method Yield() returns (outcome: Outcome)
      modifies this
      ensures outcome == setup.world(old(did.turn)).outcome && Current() == Await(setup, old(Current()))
    {
      var m := setup.world(did.turn);
      outcome, token, tokenExpiresAt := m.outcome, m.token, m.expiresAt;
      did := did.(now := m.now, turn := did.turn + 1);
    }

    method AuthRetryWait(attempt: nat, response: Outcome)
      modifies this
      ensures Current() == AuthSleep(setup, old(Current()), attempt, response)
    {
      var delay := Delay(setup.base, attempt, response);
      var _ := Yield();
      did := did.(authSlept := did.authSlept + delay);
    }

    method SendRetryWait(attempt: nat, response: Outcome)
      modifies this
      ensures Current() == SendSleep(setup, old(Current()), attempt, response)
    {
      var delay := Delay(setup.base, attempt, response);
      var _ := Yield();
      did := did.(sendSlept := did.sendSlept + delay);
    }

    method AccessToken() returns (result: Result<string>)
      modifies this
      ensures (result, Current()) == TokenWalk(setup, old(Current()))
    {
      if token != "" && did.now < tokenExpiresAt {
        return Ok(token);
      }
      var _ := Yield();  // async with self._token_lock
      if token != "" && did.now < tokenExpiresAt {
        return Ok(token);
      }
      result := RefreshToken();
    }

    /** The part under the lock. */
    method RefreshToken() returns (result: Result<string>)
      modifies this
      ensures (result, Current()) == AuthWalk(setup, old(Current()), 0)
    {
      hide Delay, Lifetime, ProviderStatus;
      ghost var entry := Current();
      var attempt := 0;
      while attempt < setup.maxAttempts
        invariant attempt < setup.maxAttempts
        invariant AuthWalk(setup, entry, 0) == AuthWalk(setup, Current(), attempt)
        decreases setup.maxAttempts - attempt
      {
        var response := Yield();
        did := did.(authPosts := did.authPosts + 1);
        if response.NetworkError? {
          if attempt + 1 < setup.maxAttempts {
            AuthRetryWait(attempt, response);
            attempt := attempt + 1;
            continue;
          }
          break;
        }
        if RetryableHttp(response.status) && attempt + 1 < setup.maxAttempts {
          AuthRetryWait(attempt, response);
          attempt := attempt + 1;
          continue;
        }
        if !Success(response.status) || response.body.Malformed? {
          return Error(AUTH_FAILED, ProviderStatus(response.status));
        }
        if response.body.code != 0 || response.body.token == "" {
          return Error(AUTH_FAILED, ProviderStatus(response.status));
        }
        token := response.body.token;
        tokenExpiresAt := did.now + Lifetime(response.body.expire) as real;
        return Ok(token);
      }
      return Error(AUTH_FAILED, DEFAULT_STATUS);
    }

    method SendText(recipient: string, text: string, uuid: string) returns (result: Result<Option<string>>)
      modifies this
      ensures (result, Current()) == SendWalk(setup, old(Current()), Message(recipient, text, uuid), 0)
    {
      ghost var entry := Current();
      var message := Message(recipient, text, uuid);
      var failed := false;                   // last_error is set
      var parsed: Option<Body> := None;      // unset until a reply has been parsed
      var attempt := 0;
      while attempt < setup.maxAttempts
        invariant attempt < setup.maxAttempts && parsed.None?
        invariant SendWalk(setup, entry, message, 0) == SendWalk(setup, Current(), message, attempt)
        decreases setup.maxAttempts - attempt
      {
        var access := AccessToken();
        if access.Error? {
          return Error(access.code, access.status);
        }
        var response := Yield();
        did := did.(posts := did.posts + [Call(did.turn - 1, access.value, message, response)],
                    lastReply := Some(response));
        if response.NetworkError? {
          failed := true;
          if attempt + 1 < setup.maxAttempts {
            SendRetryWait(attempt, response);
            attempt := attempt + 1;
            continue;
          }
          break;
        }
        if response.status == 401 {
          token, tokenExpiresAt := "", 0.0;
        }
        if RetryableHttp(response.status) && attempt + 1 < setup.maxAttempts {
          SendRetryWait(attempt, response);
          attempt := attempt + 1;
          continue;
        }
        if !Success(response.status) || response.body.Malformed? {
          return Error(SEND_FAILED, ProviderStatus(response.status));
        }
        parsed := Some(response.body);
        if response.body.code != 0 {
          return Error(SEND_FAILED, ProviderStatus(response.status));
        }
        failed := false;
        break;
      }
      if failed && attempt + 1 == setup.maxAttempts {
        return Error(SEND_FAILED, DEFAULT_STATUS);
      }
      // The code reads `parsed` here without a check.
      return Ok(parsed.value.messageId);
    }
  }
}
