/** `AdministrativeIngressClient.send_metadata`: the bounded handoff of one payload. */
module Ingress {
  import opened Text
  import opened Sender
  import opened SenderRetries

  /** What the client has done: the payload and the credential of each post. */
  datatype Trace = Trace(turn: nat, posts: seq<(string, string)>, slept: real)

  datatype Handoff = Delivered | Refused(code: string, status: int)

  const AUTH_UNAVAILABLE := Refused("ADMIN_INGRESS_AUTH_UNAVAILABLE", 503)
  const UNAVAILABLE := Refused("ADMIN_INGRESS_UNAVAILABLE", 503)

  function Rejected(status: int): Handoff {
    Refused("ADMIN_INGRESS_REJECTED", if status >= 400 then status else 502)
  }

  function Post(t: Trace, payload: string, secret: string): Trace {
    t.(turn := t.turn + 1, posts := t.posts + [(payload, secret)])
  }

  function Wait(u: Setup, t: Trace, attempt: nat, o: Outcome): Trace {
    t.(turn := t.turn + 1, slept := t.slept + Delay(u.base, attempt, o))
  }

  function Walk(u: Setup, t: Trace, payload: string, secret: string, attempt: nat): (Handoff, Trace)
    requires attempt < u.maxAttempts
    decreases u.maxAttempts - attempt
  {
    var o := u.world(t.turn).outcome;
    var t1 := Post(t, payload, secret);
    if o.Response? && o.status == 202 then (Delivered, t1)
    else if TriesAgain(u.maxAttempts, attempt, o) then Walk(u, Wait(u, t1, attempt, o), payload, secret, attempt + 1)
    else (if o.NetworkError? then UNAVAILABLE else Rejected(o.status), t1)
  }

  class AdministrativeIngressClient {
    const setup: Setup
    const sharedSecret: string
    var trace: Trace

    constructor (setup: Setup, sharedSecret: string)
      ensures this.setup == setup && this.sharedSecret == Strip(sharedSecret) && trace == Trace(0, [], 0.0)
    {
      this.setup := setup;
      this.sharedSecret := Strip(sharedSecret);
      trace := Trace(0, [], 0.0);
    }

    method RetryWait(attempt: nat, response: Outcome)
      modifies this
      ensures trace == Wait(setup, old(trace), attempt, response)
    {
      var delay := Delay(setup.base, attempt, response);
      trace := trace.(turn := trace.turn + 1, slept := trace.slept + delay);
    }

    method SendMetadata(payload: string) returns (result: Handoff)
      modifies this
      ensures if sharedSecret == "" then result == AUTH_UNAVAILABLE && trace == old(trace)
              else (result, trace) == Walk(setup, old(trace), payload, sharedSecret, 0)
    {
      if sharedSecret == "" {
        return AUTH_UNAVAILABLE;
      }
      ghost var entry := trace;
      var attempt := 0;
      while attempt < setup.maxAttempts
        invariant attempt < setup.maxAttempts
        invariant Walk(setup, entry, payload, sharedSecret, 0) == Walk(setup, trace, payload, sharedSecret, attempt)
        decreases setup.maxAttempts - attempt
      {
        var response := setup.world(trace.turn).outcome;
        trace := trace.(turn := trace.turn + 1, posts := trace.posts + [(payload, sharedSecret)]);
        if response.NetworkError? {
          if attempt + 1 < setup.maxAttempts {
            RetryWait(attempt, response);
            attempt := attempt + 1;
            continue;
          }
          break;
        }
        if response.status == 202 {
          return Delivered;
        }
        if RetryableHttp(response.status) && attempt + 1 < setup.maxAttempts {
          RetryWait(attempt, response);
          attempt := attempt + 1;
          continue;
        }
        return Rejected(response.status);
      }
      return UNAVAILABLE;
    }
  }

  /** A handoff ends well exactly on a 202 to its last post, and is refused as its last reply says. */
  predicate EndsWith(r: Handoff, last: Outcome) {
    && (last.Response? && last.status == 202 ==> r == Delivered)
    && (last.Response? && last.status >= 400 ==> r == Refused("ADMIN_INGRESS_REJECTED", last.status))
    && (last.Response? && last.status < 400 && last.status != 202 ==> r == Refused("ADMIN_INGRESS_REJECTED", 502))
    && (last.NetworkError? ==> r == Refused("ADMIN_INGRESS_UNAVAILABLE", 503))
  }

  /** A handoff posts one identical payload again after every transient reply while it has attempts left, and
      after no other; it sleeps exactly the waits in between, at most ten seconds each. */
  lemma {:induction false} HandoffIsExact(u: Setup, t: Trace, payload: string, secret: string, attempt: nat)
    returns (k: nat)
    requires attempt < u.maxAttempts
    ensures var (r, t') := Walk(u, t, payload, secret, attempt);
            var replies := RepliesFrom(u, t.turn, k);
            && k >= 1 && t'.posts == t.posts + seq(k, _ => (payload, secret))
            && UsedUp(replies, u.maxAttempts - attempt) && EndsWith(r, replies[k - 1])
            && t'.slept == t.slept + Pauses(u.base, attempt, replies[..k - 1]) <= t.slept + 10.0 * (k - 1) as real
    decreases u.maxAttempts - attempt
  {
    hide Delay, Pauses, Transient, TriesAgain, UsedUp, EndsWith;
    var o := u.world(t.turn).outcome;
    var t1 := Post(t, payload, secret);
    TransientIsRetried(u, attempt, o);
    AcceptedIsFinal(o);
    if TriesAgain(u.maxAttempts, attempt, o) {
      var t2 := Wait(u, t1, attempt, o);
      var rest := HandoffIsExact(u, t2, payload, secret, attempt + 1);
      k := rest + 1;
      RepliesFromMore(u, t.turn, attempt, rest, u.maxAttempts - attempt);
      assert t1.posts + seq(rest, _ => (payload, secret)) == t.posts + seq(k, _ => (payload, secret));
    } else {
      k := 1;
      OneReplyFrom(u, t.turn, attempt, u.maxAttempts - attempt);
      LastReplyEnds(o);
      assert t1.posts == t.posts + seq(1, _ => (payload, secret));
    }
  }

  lemma AcceptedIsFinal(o: Outcome)
    ensures o.Response? && o.status == 202 ==> !Transient(o)
  {
  }

  lemma LastReplyEnds(o: Outcome)
    ensures EndsWith(if o.Response? && o.status == 202 then Delivered
                     else if o.NetworkError? then UNAVAILABLE else Rejected(o.status), o)
  {
  }
}
