/** The sender and the service together: how the reply that ends a message post decides what becomes of the
    claim and the row of its delivery. */
module Transport {
  import opened Wrappers
  import opened Keys
  import Sender
  import SenderGuarantees
  import opened Text
  import opened Splitting
  import opened Store
  import opened Delivery
  import opened Service

  /** One call of `send_text`: the sender at its start, the world it lives in, and the message; or one that
      dies of any other exception. */
  datatype SendCall =
    | SendCall(setup: Sender.Setup, before: Sender.State, message: Sender.Message)
    | Broken

  function Walk(c: SendCall): (Sender.Result<Option<string>>, Sender.State)
    requires c.SendCall?
  {
    Sender.SendWalk(c.setup, c.before, c.message, 0)
  }

  /** How the last await of a call ended. */
  function LastOutcome(c: SendCall): Sender.Outcome
    requires c.SendCall?
  {
    var turn := Walk(c).1.did.turn;
    c.setup.world(if turn == 0 then 0 else turn - 1).outcome
  }

  /** `_delivery_failure` of what is thrown. */
  function Thrown(e: SenderGuarantees.Raised): Reply {
    var (name, retryable) := SenderGuarantees.DeliveryFailure(e);
    Threw(Failure(name, retryable))
  }

  function ReplyOf(c: SendCall): Reply {
    if c.Broken? then Thrown(SenderGuarantees.Unexpected)
    else
      match Walk(c).0
      case Ok(_) => Fine
      case Error(code, status) => Thrown(SenderGuarantees.GatewayError(code, status))
  }

  predicate Succeeds(c: SendCall) { c.SendCall? && Walk(c).0.Ok? }

  /** Broken in some other way, or its last await ended in a network error or a listed status. */
  predicate Retryable(c: SendCall) {
    c.Broken? || SenderGuarantees.Passing(LastOutcome(c))
  }

  // ----- one call

  lemma AuthFails(u: Sender.Setup, s: Sender.State, attempt: nat)
    requires attempt < u.maxAttempts
    ensures var (r, s1) := Sender.AuthWalk(u, s, attempt);
            r.Error? ==>
              && s1.did.turn > 0 && r == Sender.Failure(Sender.AUTH_FAILED, u.world(s1.did.turn - 1).outcome)
              && !Sender.Grants(u.world(s1.did.turn - 1).outcome)
  {
    SenderGuarantees.AuthMeaning(u, s, attempt);
  }

  /** A call that fails throws the error of its last await, be that a message post or a token post. */
  lemma {:induction false} SendFails(u: Sender.Setup, s: Sender.State, message: Sender.Message, attempt: nat)
    requires attempt < u.maxAttempts
    ensures var (r, s1) := Sender.SendWalk(u, s, message, attempt);
            r.Error? ==>
              && s1.did.turn > 0
              && var last := u.world(s1.did.turn - 1).outcome;
              && (r == Sender.Failure(Sender.AUTH_FAILED, last) || r == Sender.Failure(Sender.SEND_FAILED, last))
              && (r.code == Sender.SEND_FAILED ==> s1.did.lastReply == Some(last))
    decreases u.maxAttempts - attempt
  {
    var (token, s1) := Sender.TokenWalk(u, s);
    if token.Error? {
      AuthFails(u, Sender.Await(u, s), 0);
    } else {
      var o := u.world(s1.did.turn).outcome;
      var s2 := Sender.SendPost(u, s1, Sender.Call(s1.did.turn, token.value, message, o));
      if Sender.TriesAgain(u.maxAttempts, attempt, o) {
        SendFails(u, Sender.SendSleep(u, s2, attempt, o), message, attempt + 1);
      }
    }
  }

  /** What the service makes of a call. */
  predicate Taken(c: SendCall, r: Reply) {
    && (Succeeds(c) <==> r == Fine)
    && (r.Threw? ==>
          && (r.f.retryable <==> Retryable(c))
          && (if c.Broken? then r.f.code == "UNEXPECTED_DELIVERY_ERROR"
              else r.f.code == "FEISHU_AUTH_FAILED" || r.f.code == "FEISHU_SEND_FAILED"))
  }

  /** A failed call is retryable exactly if it broke or its last await ended in a network error or a listed
      status. */
  lemma CallIsRetryable(c: SendCall)
    ensures Taken(c, ReplyOf(c))
  {
    if c.SendCall? {
      SendFails(c.setup, c.before, c.message, 0);
    } else {
      SenderGuarantees.UnexpectedIsRetried(SenderGuarantees.Unexpected);
    }
  }

  // ----- one attempt

  /** Every send of this environment is a call of the sender. */
  ghost predicate SentBy(env: Env, calls: nat -> SendCall) {
    forall n: nat :: env.reply(n) == ReplyOf(calls(n))
  }

  /** The other tasks keep to `Rely` through all sends of a message, and the reply is that of the last one. */
  lemma {:induction false} SendWalkKeeps(env: Env, mine: Subject, count: nat, n: nat, turn: nat, s: Tables)
    requires Considerate(env) && n < count
    ensures var (reply, s1, turn1) := SendWalk(env, mine, count, n, turn, s);
            Rely(mine, s, s1) && turn1 > turn && reply == env.reply(turn1 - 1)
    decreases count - n
  {
    hide Rely;
    assert Rely(mine, s, env.others(turn, mine, s));
    if env.reply(turn).Fine? && n + 1 < count {
      var s1 := env.others(turn, mine, s);
      SendWalkKeeps(env, mine, count, n + 1, turn + 1, s1);
      var end := SendWalk(env, mine, count, n + 1, turn + 1, s1).1;
      ChainRely(mine, s, s1, end);
    }
  }

  lemma ChainRely(mine: Subject, a: Tables, b: Tables, c: Tables)
    requires Rely(mine, a, b) && Rely(mine, b, c)
    ensures Rely(mine, a, c)
  {
  }

  /** The outcome of an attempt fits its reply, whatever the other tasks do. */
  lemma WalkConcludes(env: Env, mine: Subject, source: string, text: string, turn: nat, s: Tables)
    requires Considerate(env) && !mine.Chat? && UnderWay(s, mine)
    ensures var (reply, s1, turn1) := AttemptWalk(env, mine, source, text, turn, s);
            Outcome(s1, mine, reply)
    ensures var (reply, s1, turn1) := AttemptWalk(env, mine, source, text, turn, s);
            if Chunks(text, LIMIT) == [] then reply == Threw(EMPTY_MESSAGE)
            else turn1 > turn && reply == env.reply(turn1 - 1)
  {
    hide Chunks, BeginDelivery;
    var count := |Chunks(text, LIMIT)|;
    var begun := s.(ledger := BeginDelivery(s.ledger, LedgerId(mine), source, env.clock(turn)));
    var (reply, sent, turn1) := SendWalk(env, mine, count, 0, turn, begun);
    if count > 0 {
      SendWalkKeeps(env, mine, count, 0, turn, begun);
    }
    assert Meanwhile(mine, None, begun, sent);
    AttemptSettles(mine, None, source, reply, s, begun, sent, env.clock(turn), env.clock(turn1));
  }

  /** The composite. Where every send is a call of the sender, an attempt of a readable message ends
      "retrying" with its claim released exactly if its last call failed retryably; otherwise it ends confirmed if
      that call succeeded and failed for good if not. A blank message fails for good. */
  lemma LastReplyDecides(env: Env, calls: nat -> SendCall, mine: Subject, source: string, text: string,
                         turn: nat, s: Tables)
    requires Considerate(env) && SentBy(env, calls) && !mine.Chat? && UnderWay(s, mine)
    ensures var (_, s1, turn1) := AttemptWalk(env, mine, source, text, turn, s);
            var k, id := ClaimKey(mine), LedgerId(mine);
            && id in s1.ledger
            && var row := s1.ledger[id];
            && (Blank(text) ==> row.status.PermanentFailed? && row.lastErrorCode == "EMPTY_MESSAGE")
            && (!Blank(text) ==>
                  && turn1 > turn
                  && var last := calls(turn1 - 1);
                  && (row.status.DeliveryConfirmed? <==> Succeeds(last))
                  && (row.status.Retrying? <==> !Succeeds(last) && Retryable(last))
                  && (row.status.PermanentFailed? <==> !Succeeds(last) && !Retryable(last))
                  && (row.status.Retrying? && last.Broken? ==> row.lastErrorCode == "UNEXPECTED_DELIVERY_ERROR"))
            && (row.status.Retrying? <==> k !in s1.claims)
  {
    ReadableIffChunks(text);
    hide Chunks, Walk, LastOutcome, AttemptWalk, Retryable, Succeeds, Blank;
    WalkConcludes(env, mine, source, text, turn, s);
    var turn1 := AttemptWalk(env, mine, source, text, turn, s).2;
    if Chunks(text, LIMIT) != [] {
      CallIsRetryable(calls(turn1 - 1));
    }
  }

  lemma ReadableIffChunks(text: string)
    ensures Blank(text) <==> Chunks(text, LIMIT) == []
  {
    SplitKeepsText(text, LIMIT);
  }
}
