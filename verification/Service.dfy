/** `deliver_notification`, `deliver_alerts` and `handle_feishu_text` as the code runs them: statements on
    the store, with the other tasks at work during every `await`. What the other tasks may do is stated as `Rely`;
    module Interference shows that every step of the protocol keeps to it. */
module Service {
  import opened Wrappers
  import opened Keys
  import Commands
  import Sender
  import opened Splitting
  import opened Store
  import opened Delivery

  datatype Tables = Tables(claims: Claims, ledger: Ledger)

  datatype Reply = Fine | Threw(f: Failure)

  /** What `_command_or_chat` comes to. */
  datatype Composed = Text(text: string) | Refused(f: Failure)

  /** How each `await` ends, what the other tasks have done by then, and what time it is; and the texts
      that need no `await`. */
  datatype Env = Env(
    reply: nat -> Reply,
    answer: nat -> Composed,
    immediate: Commands.Action -> string,
    others: (nat, Subject, Tables) -> Tables,
    clock: nat -> int)

  /** The claim and the row of this delivery are as they were. */
  predicate SameDelivery(s: Tables, s': Tables, subject: Subject) {
    var k := ClaimKey(subject);
    && (k in s.claims ==> k in s'.claims && s'.claims[k] == s.claims[k])
    && (!subject.Chat? ==>
          var id := LedgerId(subject);
          id in s.ledger ==> id in s'.ledger && s'.ledger[id] == s.ledger[id])
  }

  predicate FinishedIn(s: Tables, subject: Subject) {
    ClaimKey(subject) in s.claims && !s.claims[ClaimKey(subject)].status.Processing?
  }

  /** Other tasks leave alone the delivery that we hold, and every finished one. */
  ghost predicate Rely(mine: Subject, s: Tables, s': Tables) {
    && SameDelivery(s, s', mine)
    && forall d: string :: FinishedIn(s, Alarm(d)) ==> SameDelivery(s, s', Alarm(d))
  }

  ghost predicate Considerate(env: Env) {
    forall n: nat, mine: Subject, s: Tables :: Rely(mine, s, env.others(n, mine, s))
  }

  /** What is known under `k` in both tables. */
  predicate SameAt(s: Tables, s': Tables, k: string) {
    && (k in s.claims <==> k in s'.claims) && (k in s.claims ==> s'.claims[k] == s.claims[k])
    && (k in s.ledger <==> k in s'.ledger) && (k in s.ledger ==> s'.ledger[k] == s.ledger[k])
  }

  /** No other task touches what is under `k`. */
  ghost predicate Spared(env: Env, k: string) {
    forall n: nat, mine: Subject, s: Tables :: SameAt(s, env.others(n, mine, s), k)
  }

  /** What one await, or several, may have changed. */
  ghost predicate Meanwhile(mine: Subject, spared: Option<string>, s: Tables, s': Tables) {
    Rely(mine, s, s') && (spared.Some? ==> SameAt(s, s', spared.value))
  }

  lemma MeanwhileTransitive(mine: Subject, spared: Option<string>, a: Tables, b: Tables, c: Tables)
    requires Meanwhile(mine, spared, a, b) && Meanwhile(mine, spared, b, c)
    ensures Meanwhile(mine, spared, a, c)
  {
  }

  /** The messages of one delivery, each with its idempotency name. */
  function MessagesFor(recipient: string, mine: Subject, text: string): seq<Sender.Message> {
    var chunks := Chunks(text, LIMIT);
    seq(|chunks|, i requires 0 <= i < |chunks| => Sender.Message(recipient, chunks[i], ChunkName(ClaimKey(mine), i)))
  }

  lemma MessagesAre(recipient: string, mine: Subject, text: string)
    ensures var all, chunks := MessagesFor(recipient, mine, text), Chunks(text, LIMIT);
            |all| == |chunks|
            && forall i :: 0 <= i < |all| ==>
                             all[i] == Sender.Message(recipient, chunks[i], ChunkName(ClaimKey(mine), i))
  {
  }

  /** A call of `send_text` and how it ended. */
  datatype Call = Call(message: Sender.Message, reply: Reply)

  /** The first `n` messages, of which only the last may have failed. */
  function Calls(all: seq<Sender.Message>, n: nat, last: Reply): seq<Call>
    requires n <= |all|
  {
    seq(n, i requires 0 <= i < n => Call(all[i], if i + 1 == n then last else Fine))
  }

  /** The calls since `before`: the messages in order, all of them or up to the one that threw what the
      caller gets to see. An empty message makes no call. */
  predicate Posted(before: seq<Call>, after: seq<Call>, all: seq<Sender.Message>, reply: Reply) {
    if all == [] then after == before && reply == Threw(EMPTY_MESSAGE)
    else
      var n := |after| - |before|;
      1 <= n <= |all| && (reply.Fine? ==> n == |all|) && after == before + Calls(all, n, reply)
  }

  lemma PostedUpTo(before: seq<Call>, all: seq<Sender.Message>, n: nat, reply: Reply)
    requires 1 <= n <= |all| && (reply.Fine? ==> n == |all|)
    ensures Posted(before, before + Calls(all, n, reply), all, reply)
  {
  }

  lemma PostedNext(before: seq<Call>, all: seq<Sender.Message>, n: nat, reply: Reply)
    requires n < |all|
    ensures before + Calls(all, n, Fine) + [Call(all[n], reply)] == before + Calls(all, n + 1, reply)
  {
  }

  /** `status` is None for the plain "deduplicated". */
  datatype Response = Response(
    accepted: nat, deduplicated: nat, status: Option<RowStatus>, transportAccepted: bool, deliveryConfirmed: bool)

  function DuplicateResponse(ledger: Ledger, eventId: string): Response {
    var answer := Answered(ledger, eventId);
    Response(0, 1, answer.status, answer.accepted, answer.confirmed)
  }

  datatype Verdict = Accepted | Duplicate(found: Claim)

  class GatewayService {
    const store: StateStore
    const env: Env
    var turn: nat
    const recipient: string      // of notifications and alerts
    const allowed: string        // the one user who may chat
    var posted: seq<Call>        // every send_text call
    var asked: seq<Commands.Request>  // every control-plane request

    constructor (store: StateStore, env: Env, recipient: string, allowed: string)
      ensures this.store == store && this.env == env && this.recipient == recipient && this.allowed == allowed
      ensures turn == 0 && posted == [] && asked == []
    {
      this.store, this.env, this.recipient, this.allowed := store, env, recipient, allowed;
      turn, posted, asked := 0, [], [];
    }

    function Now(): int
      reads this`turn
    {
      env.clock(turn)
    }

    function Current(): Tables
      reads store
    {
      Tables(store.claims, store.ledger)
    }

    /** Gives the other tasks their turn. */
    method Yield(mine: Subject, ghost spared: Option<string>)
      requires Considerate(env) && (spared.Some? ==> Spared(env, spared.value))
      modifies this`turn, store
      ensures turn == old(turn) + 1 && Current() == env.others(old(turn), mine, old(Current()))
      ensures Meanwhile(mine, spared, old(Current()), Current())
    {
      var after := env.others(turn, mine, Tables(store.claims, store.ledger));
      store.claims, store.ledger := after.claims, after.ledger;
      turn := turn + 1;
    }

    /** One call of `send_text`. */
    method SendText(mine: Subject, message: Sender.Message, ghost spared: Option<string>) returns (reply: Reply)
      requires Considerate(env) && (spared.Some? ==> Spared(env, spared.value))
      modifies this`turn, this`posted, store
      ensures posted == old(posted) + [Call(message, reply)]
      ensures reply == env.reply(old(turn)) && turn == old(turn) + 1
      ensures Current() == env.others(old(turn), mine, old(Current()))
      ensures Meanwhile(mine, spared, old(Current()), Current())
    {
      reply := env.reply(turn);
      posted := posted + [Call(message, reply)];
      Yield(mine, spared);
    }

    method SendChunks(recipient: string, mine: Subject, text: string, ghost spared: Option<string>)
      returns (reply: Reply)
      requires Considerate(env) && (spared.Some? ==> Spared(env, spared.value))
      modifies this`turn, this`posted, store
      ensures Meanwhile(mine, spared, old(Current()), Current())
      ensures Posted(old(posted), posted, MessagesFor(recipient, mine, text), reply)
      ensures (reply, Current(), turn) == SendWalk(env, mine, |Chunks(text, LIMIT)|, 0, old(turn), old(Current()))
    {
      hide Meanwhile, Posted, MessagesFor, Calls, SendWalk, WalksTo, Chunks;
      var chunks := SplitText(text, LIMIT);
      ghost var all := MessagesFor(recipient, mine, text);
      MessagesAre(recipient, mine, text);
      MeanwhileStart(mine, spared, Current());
      if chunks == [] {
        NothingToSend(env, mine, posted, all, turn, Current());
        return Threw(EMPTY_MESSAGE);
      }
      SendStarts(env, mine, posted, all, turn, Current());
      var index := 0;
      while index < |chunks|
        invariant 0 <= index <= |chunks|
        invariant Meanwhile(mine, spared, old(Current()), Current())
        invariant posted == old(posted) + Calls(all, index, Fine)
        invariant WalksTo(env, mine, |chunks|, old(turn), old(Current()), index, turn, Current())
      {
        ghost var before := Current();
        reply := SendText(mine, Sender.Message(recipient, chunks[index], ChunkName(ClaimKey(mine), index)), spared);
        WalkOn(env, mine, |chunks|, old(turn), old(Current()), index, turn - 1, before);
        MeanwhileTransitive(mine, spared, old(Current()), before, Current());
        PostedNext(old(posted), all, index, reply);
        if reply.Threw? {
          PostedUpTo(old(posted), all, index + 1, reply);
          return reply;
        }
        index := index + 1;
      }
      reply := Fine;
      PostedUpTo(old(posted), all, index, reply);
      WalkEnd(env, mine, |chunks|, old(turn), old(Current()), turn, Current());
    }

    /** The outcome in both tables. */
    method Record(mine: Subject, reply: Reply)
      requires !mine.Chat?
      modifies store
      ensures Current() == Recorded(old(Current()), mine, reply, Now())
    {
      var key, id := ClaimKey(mine), LedgerId(mine);
      if reply.Fine? {
        store.Confirm(id, Now());
        store.Finish(key, Delivered, Now());
      } else if reply.f.retryable {
        store.Retry(id, reply.f.code, Now(), Now());
        store.Release(key);
      } else {
        store.Fail(id, reply.f.code, Now());
        store.Finish(key, Abandoned, Now());
      }
    }

    /** From the won claim to the end: the ledger entry, the message, and the outcome in both tables. */
    method Attempt(mine: Subject, source: string, text: string, ghost spared: Option<string>) returns (reply: Reply)
      requires !mine.Chat? && Considerate(env) && (spared.Some? ==> Spared(env, spared.value))
      requires spared != Some(ClaimKey(mine)) && spared != Some(LedgerId(mine))
      requires UnderWay(Current(), mine)
      modifies this`turn, this`posted, store
      ensures Posted(old(posted), posted, MessagesFor(recipient, mine, text), reply)
      ensures Concluded(old(Current()), Current(), mine, source, reply, Now())
      ensures (reply, Current(), turn) == AttemptWalk(env, mine, source, text, old(turn), old(Current()))
      ensures Kept(mine, spared, old(Current()), Current())
    {
      hide Meanwhile, Kept, Posted, MessagesFor, Recorded, Concluded, BeginDelivery, SendWalk;
      ghost var start, began := Current(), Now();
      store.Begin(LedgerId(mine), source, Now());
      ghost var begun := Current();
      reply := SendChunks(recipient, mine, text, spared);
      ghost var sent := Current();
      Record(mine, reply);
      AttemptSettles(mine, spared, source, reply, start, begun, sent, began, Now());
      AttemptKeeps(mine, spared, source, reply, start, begun, sent, began, Now());
    }

    /** One notification. A duplicate is answered from the ledger and changes nothing. */
    method DeliverNotification(eventId: string, source: string, text: string) returns (response: Response, reply: Reply)
      requires Considerate(env)
      modifies this`turn, this`posted, store
      ensures ClaimKey(Notice(eventId)) in old(Current()).claims ==>
                && Current() == old(Current()) && posted == old(posted) && reply == Fine
                && response == DuplicateResponse(old(Current()).ledger, eventId)
                && response.accepted == 0 && response.deduplicated == 1
                && (eventId in store.ledger ==>
                      var row := store.ledger[eventId];
                      && response.transportAccepted == row.transportAccepted
                      && response.deliveryConfirmed == row.deliveryConfirmed
                      && response.status == if row.status == RowStatus.Prepared then None else Some(row.status))
                && (eventId !in store.ledger ==>
                      response.status == None && !response.transportAccepted && !response.deliveryConfirmed)
      ensures ClaimKey(Notice(eventId)) !in old(Current()).claims ==>
                && Posted(old(posted), posted, MessagesFor(recipient, Notice(eventId), text), reply)
                && Concluded(Won(old(Current()), Notice(eventId), old(Now())), Current(), Notice(eventId), source,
                             reply, Now())
                && (reply, Current(), turn)
                   == AttemptWalk(env, Notice(eventId), source, text, old(turn),
                                  Won(old(Current()), Notice(eventId), old(Now())))
                && (reply.Fine? ==> response == Response(1, 0, Some(DeliveryConfirmed), true, true))
    {
      hide Posted, MessagesFor, Concluded, AttemptWalk;
      var mine := Notice(eventId);
      var won := store.TryClaim(ClaimKey(mine), Now());
      if !won {
        reply := Fine;
        if eventId in store.ledger {
          var entry := store.ledger[eventId];
          response := Response(0, 1, if entry.status.Prepared? then None else Some(entry.status),
                               entry.transportAccepted, entry.deliveryConfirmed);
        } else {
          response := Response(0, 1, None, false, false);
        }
        return;
      }
      assert Current() == Won(old(Current()), mine, old(Now()));
      reply := Attempt(mine, source, text, None);
      response := Response(1, 0, Some(DeliveryConfirmed), true, true);
    }

    /** One alertmanager payload, as the digest and the text of each alert. `verdicts` tells what became
        of each alert that was dealt with; after a failure the next alert is the one that failed. */
    method DeliverAlerts(alerts: seq<(string, string)>, ghost spared: Option<string>)
      returns (accepted: nat, deduplicated: nat, failure: Option<Failure>, verdicts: seq<Verdict>)
      requires Considerate(env) && (spared.Some? ==> Spared(env, spared.value))
      modifies this`turn, this`posted, store
      ensures accepted + deduplicated == |verdicts| <= |alerts| && accepted == CountAccepted(verdicts)
      ensures failure.None? <==> |verdicts| == |alerts|
      ensures Tally(Current(), alerts, verdicts)
      ensures failure.Some? ==> Outcome(Current(), Alarm(alerts[|verdicts|].0), Threw(failure.value))
      ensures Judged(old(Current()), alerts, verdicts, spared)
      ensures (failure, Current(), turn) == AlertsWalk(env, alerts, old(turn), old(Current()))
      ensures failure.None? ==> posted == old(posted) + CallsOf(recipient, alerts, verdicts)
      ensures failure.Some? ==>
                Posted(old(posted) + CallsOf(recipient, alerts, verdicts), posted,
                       MessagesFor(recipient, Alarm(alerts[|verdicts|].0), alerts[|verdicts|].1), Threw(failure.value))
      ensures Untouched(old(Current()), Current(), alerts, if failure.None? then |verdicts| else |verdicts| + 1, spared)
    {
      hide Tally, Untouched, Kept, Outcome, Concluded, Won, Posted, MessagesFor, AllCalls, CallsOf,
           CountAccepted, AttemptWalk, AlertsWalk;
      accepted, deduplicated, failure, verdicts := 0, 0, None, [];
      assert Judged(Current(), alerts, verdicts, spared);
      AlertsWalkEnds(env, alerts, turn, Current());
      TallyStart(Current(), alerts, recipient);
      UntouchedStart(Current(), alerts, 0, spared);
      while |verdicts| < |alerts|
        invariant |verdicts| <= |alerts|
        invariant accepted + deduplicated == |verdicts| && accepted == CountAccepted(verdicts)
        invariant posted == old(posted) + CallsOf(recipient, alerts, verdicts)
        invariant Tally(Current(), alerts, verdicts)
        invariant Untouched(old(Current()), Current(), alerts, |verdicts|, spared)
        invariant Judged(old(Current()), alerts, verdicts, spared)
        invariant AlertsWalk(env, alerts, old(turn), old(Current()))
                  == AlertsWalk(env, alerts[|verdicts|..], turn, Current())
        decreases |alerts| - |verdicts|
      {
        ghost var before, turn0 := Current(), turn;
        AlertsWalkOn(env, alerts, |verdicts|, turn0, before);
        var verdict, reply := DeliverAlert(alerts[|verdicts|].0, alerts[|verdicts|].1, alerts, verdicts, spared);
        UntouchedTransitive(old(Current()), before, Current(), alerts, |verdicts|, spared);
        if reply.Threw? {
          return accepted, deduplicated, Some(reply.f), verdicts;
        }
        JudgedMore(old(Current()), before, alerts, verdicts, verdict, spared);
        CountMore(alerts, verdicts, verdict, recipient);
        if verdict.Accepted? {
          PostedAll(old(posted) + CallsOf(recipient, alerts, verdicts), posted, recipient, alerts[|verdicts|]);
          accepted := accepted + 1;
        } else {
          deduplicated := deduplicated + 1;
        }
        verdicts := verdicts + [verdict];
      }
      AlertsWalkEnds(env, alerts, turn, Current());
    }

    /** The body of the loop. */
    method DeliverAlert(digest: string, text: string,
                        ghost alerts: seq<(string, string)>, ghost verdicts: seq<Verdict>, ghost spared: Option<string>)
      returns (verdict: Verdict, reply: Reply)
      requires Considerate(env) && (spared.Some? ==> Spared(env, spared.value))
      requires |verdicts| < |alerts| && alerts[|verdicts|] == (digest, text) && Tally(Current(), alerts, verdicts)
      modifies this`turn, this`posted, store
      ensures Tally(Current(), alerts, verdicts)
      ensures if reply.Fine? then Tally(Current(), alerts, verdicts + [verdict])
              else Outcome(Current(), Alarm(digest), reply)
      ensures ClaimKey(Alarm(digest)) in old(Current()).claims ==>
                && Current() == old(Current()) && posted == old(posted) && turn == old(turn) && reply == Fine
                && verdict == Duplicate(store.claims[ClaimKey(Alarm(digest))])
      ensures ClaimKey(Alarm(digest)) !in old(Current()).claims ==>
                && verdict == Accepted
                && Posted(old(posted), posted, MessagesFor(recipient, Alarm(digest), text), reply)
                && Concluded(Won(old(Current()), Alarm(digest), old(Now())), Current(), Alarm(digest), "alertmanager",
                             reply, Now())
                && (reply, Current(), turn)
                   == AttemptWalk(env, Alarm(digest), "alertmanager", text, old(turn),
                                  Won(old(Current()), Alarm(digest), old(Now())))
      ensures Untouched(old(Current()), Current(), alerts, |verdicts| + 1, spared)
    {
      hide Tally, Untouched, Kept, Outcome, Posted, MessagesFor, AttemptWalk;
      var mine := Alarm(digest);
      var key := ClaimKey(mine);
      ghost var before := Current();
      UntouchedStart(before, alerts, |verdicts|, spared);
      var won := store.TryClaim(key, Now());
      if !won {
        TallyDuplicate(Current(), alerts, verdicts);
        return Duplicate(store.claims[key]), Fine;
      }
      ghost var claimed := Current();
      reply := Attempt(mine, "alertmanager", text, if spared == Some(key) then None else spared);
      TallyKept(alerts, verdicts, before, claimed, Current(), spared);
      UntouchedKept(alerts, |verdicts|, before, before, claimed, Current(), spared);
      if reply.Fine? {
        TallyAccepted(Current(), alerts, verdicts);
      }
      verdict := Accepted;
    }

    /** The answer to a chat message. The fixed texts need no `await`. */
    method CommandOrChat(mine: Subject, text: string, ghost spared: Option<string>) returns (answer: Composed)
      requires Considerate(env) && (spared.Some? ==> Spared(env, spared.value))
      modifies this`turn, this`asked, store
      ensures asked == old(asked) + Requests(Commands.CommandOrChat(text))
      ensures answer == Composition(env, text, old(turn))
      ensures (Current(), turn) == ComposeWalk(env, mine, text, old(turn), old(Current()))
      ensures Meanwhile(mine, spared, old(Current()), Current())
    {
      var action := Commands.CommandOrChat(text);
      match action
      case Ask(request) =>
        asked := asked + [request];
        answer := env.answer(turn);
        Yield(mine, spared);
      case Status =>
        answer := env.answer(turn);
        Yield(mine, spared);
      case ActiveAlerts =>
        answer := env.answer(turn);
        Yield(mine, spared);
      case _ =>
        answer := Text(env.immediate(action));
        MeanwhileStart(mine, spared, Current());
    }

    /** The answer to a message, composed and sent. */
    method Respond(mine: Subject, openId: string, text: string, ghost spared: Option<string>)
      returns (reply: Reply)
      requires Considerate(env) && (spared.Some? ==> Spared(env, spared.value))
      modifies this`turn, this`posted, this`asked, store
      ensures asked == old(asked) + Requests(Commands.CommandOrChat(text))
      ensures Replied(old(posted), posted, openId, mine, Composition(env, text, old(turn)), reply)
      ensures (reply, Current(), turn) == RespondWalk(env, mine, text, old(turn), old(Current()))
      ensures Meanwhile(mine, spared, old(Current()), Current())
    {
      hide Meanwhile, Posted, MessagesFor, Requests, Composition, ComposeWalk, SendWalk, Chunks, Commands.CommandOrChat;
      var composed := CommandOrChat(mine, text, spared);
      if composed.Refused? {
        return Threw(composed.f);
      }
      ghost var before := Current();
      reply := SendChunks(openId, mine, composed.text, spared);
      MeanwhileTransitive(mine, spared, old(Current()), before, Current());
    }

    /** One chat message. Anybody else and any repetition is ignored. */
    method HandleFeishuText(digest: string, openId: string, text: string, ghost spared: Option<string>)
      returns (reply: Reply)
      requires Considerate(env)
      requires spared.Some? ==> Spared(env, spared.value) && spared.value != ClaimKey(Chat(digest))
      modifies this`turn, this`posted, this`asked, store
      ensures openId != allowed || ClaimKey(Chat(digest)) in old(Current()).claims ==>
                Current() == old(Current()) && posted == old(posted) && asked == old(asked) && reply == Fine
      ensures openId == allowed && ClaimKey(Chat(digest)) !in old(Current()).claims ==>
                && asked == old(asked) + Requests(Commands.CommandOrChat(text))
                && Replied(old(posted), posted, openId, Chat(digest), Composition(env, text, old(turn)), reply)
                && ChatOutcome(Current(), Chat(digest), reply, old(Now()))
                && (reply, Current(), turn)
                   == ChatWalk(env, Chat(digest), text, old(turn), Won(old(Current()), Chat(digest), old(Now())))
      ensures Kept(Chat(digest), spared, old(Current()), Current())
    {
      hide Meanwhile, Replied, Kept, Requests, Composition, RespondWalk, Commands.CommandOrChat;
      var mine := Chat(digest);
      ghost var start := Current();
      MineKeeps(mine, spared, start, start);
      if openId != allowed {
        return Fine;
      }
      var won := store.TryClaim(ClaimKey(mine), Now());
      if !won {
        return Fine;
      }
      ghost var claimed := Current();
      reply := Respond(mine, openId, text, spared);
      ghost var sent := Current();
      MeanwhileKeeps(mine, spared, claimed, sent);
      if reply.Threw? {
        store.Release(ClaimKey(mine));
      } else {
        store.Finish(ClaimKey(mine), Delivered, Now());
      }
      ChatKeeps(mine, spared, start, claimed, sent, Current());
    }
  }

  /** The request failed and nothing was posted, or its answer was. */
  predicate Replied(before: seq<Call>, after: seq<Call>, openId: string, mine: Subject, answer: Composed,
                    reply: Reply) {
    match answer
    case Refused(f) => after == before && reply == Threw(f)
    case Text(text) => Posted(before, after, MessagesFor(openId, mine, text), reply)
  }

  predicate Immediate(action: Commands.Action) {
    action.Help? || action.Usage? || action.PolicyUsage? || action.EmptyTask?
  }

  /** The answer to a text that comes in at this turn. */
  function Composition(env: Env, text: string, turn: nat): Composed {
    var action := Commands.CommandOrChat(text);
    if Immediate(action) then Text(env.immediate(action)) else env.answer(turn)
  }

  /** The tables and the turn once the answer is there. */
  function ComposeWalk(env: Env, mine: Subject, text: string, turn: nat, s: Tables): (Tables, nat) {
    if Immediate(Commands.CommandOrChat(text)) then (s, turn) else (env.others(turn, mine, s), turn + 1)
  }

  function RespondWalk(env: Env, mine: Subject, text: string, turn: nat, s: Tables): (Reply, Tables, nat) {
    var (s1, turn1) := ComposeWalk(env, mine, text, turn, s);
    match Composition(env, text, turn)
    case Refused(f) => (Threw(f), s1, turn1)
    case Text(answer) => SendWalk(env, mine, |Chunks(answer, LIMIT)|, 0, turn1, s1)
  }

  /** The claim after the outcome of a chat message. */
  function ChatRecorded(s: Tables, mine: Subject, reply: Reply, now: int): Tables {
    s.(claims := if reply.Fine? then MarkProcessed(s.claims, ClaimKey(mine), Delivered, now)
                 else ReleaseEvent(s.claims, ClaimKey(mine)))
  }

  function ChatWalk(env: Env, mine: Subject, text: string, turn: nat, s: Tables): (Reply, Tables, nat) {
    var (reply, s1, turn1) := RespondWalk(env, mine, text, turn, s);
    (reply, ChatRecorded(s1, mine, reply, env.clock(turn1)), turn1)
  }

  /** The control-plane requests of one message: at most one. */
  function Requests(action: Commands.Action): (r: seq<Commands.Request>)
    ensures |r| <= 1
  {
    if action.Ask? then [action.request] else []
  }

  /** Done once and for all, or given back. */
  predicate ChatOutcome(s: Tables, mine: Subject, reply: Reply, since: int) {
    match reply
    case Fine => ClaimKey(mine) in s.claims && s.claims[ClaimKey(mine)] == Claimed(Delivered, since)
    case Threw(_) => ClaimKey(mine) !in s.claims
  }

  /** What an alert that was dealt with finds at the end of the call. */
  predicate Standing(s: Tables, subject: Subject, verdict: Verdict)
    requires !subject.Chat?
  {
    match verdict
    case Accepted => Outcome(s, subject, Fine)
    case Duplicate(found) =>
      !found.status.Processing? ==> ClaimKey(subject) in s.claims && s.claims[ClaimKey(subject)] == found
  }

  function CountAccepted(verdicts: seq<Verdict>): nat {
    if verdicts == [] then 0
    else CountAccepted(verdicts[..|verdicts| - 1]) + if verdicts[|verdicts| - 1].Accepted? then 1 else 0
  }

  /** The calls for an alert that was accepted. */
  function AllCalls(recipient: string, alert: (string, string)): seq<Call> {
    var all := MessagesFor(recipient, Alarm(alert.0), alert.1);
    Calls(all, |all|, Fine)
  }

  /** The calls for all alerts that were accepted, in order. */
  function CallsOf(recipient: string, alerts: seq<(string, string)>, verdicts: seq<Verdict>): seq<Call>
    requires |verdicts| <= |alerts|
    decreases |verdicts|
  {
    if verdicts == [] then []
    else
      var n := |verdicts| - 1;
      CallsOf(recipient, alerts, verdicts[..n]) + if verdicts[n].Accepted? then AllCalls(recipient, alerts[n]) else []
  }

  /** No digest is accepted twice. */
  predicate AcceptedOnce(alerts: seq<(string, string)>, verdicts: seq<Verdict>)
    requires |verdicts| <= |alerts|
  {
    forall m, n :: 0 <= m < n < |verdicts| && verdicts[m].Accepted? && verdicts[n].Accepted? ==>
                     alerts[m].0 != alerts[n].0
  }

  /** Every alert that was dealt with stands, and none was accepted twice. */
  ghost predicate Tally(s: Tables, alerts: seq<(string, string)>, verdicts: seq<Verdict>)
    requires |verdicts| <= |alerts|
  {
    && (forall m :: 0 <= m < |verdicts| ==> Standing(s, Alarm(alerts[m].0), verdicts[m]))
    && AcceptedOnce(alerts, verdicts)
  }

  /** A key that no other task touches is as it was, unless it belongs to one of the first `n` alerts. */
  ghost predicate Untouched(s: Tables, s': Tables, alerts: seq<(string, string)>, n: nat, spared: Option<string>)
    requires n <= |alerts|
  {
    spared.Some? && Before(alerts, n, spared.value) ==> SameAt(s, s', spared.value)
  }

  /** None of the first `n` alerts has this key. */
  predicate Before(alerts: seq<(string, string)>, n: nat, key: string)
    requires n <= |alerts|
  {
    forall m :: 0 <= m < n ==> key != ClaimKey(Alarm(alerts[m].0))
  }

  /** When a key that no other task touches turns up first, it is a duplicate exactly if it was claimed
      before the call. */
  ghost predicate Judged(start: Tables, alerts: seq<(string, string)>, verdicts: seq<Verdict>, spared: Option<string>)
    requires |verdicts| <= |alerts|
  {
    forall m :: 0 <= m < |verdicts| && spared == Some(ClaimKey(Alarm(alerts[m].0)))
                && Before(alerts, m, spared.value) ==>
                  (verdicts[m].Duplicate? <==> spared.value in start.claims)
  }

  lemma JudgedMore(start: Tables, s: Tables, alerts: seq<(string, string)>, verdicts: seq<Verdict>, verdict: Verdict,
                   spared: Option<string>)
    requires |verdicts| < |alerts| && Judged(start, alerts, verdicts, spared)
    requires Untouched(start, s, alerts, |verdicts|, spared)
    requires verdict.Duplicate? <==> ClaimKey(Alarm(alerts[|verdicts|].0)) in s.claims
    ensures Judged(start, alerts, verdicts + [verdict], spared)
  {
  }

  lemma TallyStart(s: Tables, alerts: seq<(string, string)>, recipient: string)
    ensures Tally(s, alerts, []) && CountAccepted([]) == 0 && CallsOf(recipient, alerts, []) == []
  {
  }

  lemma UntouchedStart(s: Tables, alerts: seq<(string, string)>, n: nat, spared: Option<string>)
    requires n <= |alerts|
    ensures Untouched(s, s, alerts, n, spared) && (n < |alerts| ==> Untouched(s, s, alerts, n + 1, spared))
  {
  }

  lemma CountMore(alerts: seq<(string, string)>, verdicts: seq<Verdict>, verdict: Verdict, recipient: string)
    requires |verdicts| < |alerts|
    ensures CountAccepted(verdicts + [verdict]) == CountAccepted(verdicts) + if verdict.Accepted? then 1 else 0
    ensures CallsOf(recipient, alerts, verdicts + [verdict])
            == CallsOf(recipient, alerts, verdicts)
               + if verdict.Accepted? then AllCalls(recipient, alerts[|verdicts|]) else []
  {
    hide AllCalls;
    assert (verdicts + [verdict])[..|verdicts|] == verdicts;
  }

  lemma PostedAll(before: seq<Call>, after: seq<Call>, recipient: string, alert: (string, string))
    requires Posted(before, after, MessagesFor(recipient, Alarm(alert.0), alert.1), Fine)
    ensures after == before + AllCalls(recipient, alert)
  {
  }

  lemma TallyDuplicate(s: Tables, alerts: seq<(string, string)>, verdicts: seq<Verdict>)
    requires |verdicts| < |alerts| && Tally(s, alerts, verdicts)
    requires ClaimKey(Alarm(alerts[|verdicts|].0)) in s.claims
    ensures Tally(s, alerts, verdicts + [Duplicate(s.claims[ClaimKey(Alarm(alerts[|verdicts|].0))])])
  {
  }

  lemma UntouchedTransitive(a: Tables, b: Tables, c: Tables, alerts: seq<(string, string)>, n: nat,
                            spared: Option<string>)
    requires n < |alerts| && Untouched(a, b, alerts, n, spared) && Untouched(b, c, alerts, n + 1, spared)
    ensures Untouched(a, c, alerts, n + 1, spared)
  {
  }

  predicate WonBetween(before: Tables, claimed: Tables, key: string) {
    && key !in before.claims && key in claimed.claims
    && claimed == before.(claims := before.claims[key := claimed.claims[key]])
  }

  /** Winning the claim of one alert and trying it leaves the earlier ones as they stand. */
  lemma TallyKept(alerts: seq<(string, string)>, verdicts: seq<Verdict>,
                  before: Tables, claimed: Tables, after: Tables, spared: Option<string>)
    requires |verdicts| < |alerts| && Tally(before, alerts, verdicts)
    requires WonBetween(before, claimed, ClaimKey(Alarm(alerts[|verdicts|].0)))
    requires var mine := Alarm(alerts[|verdicts|].0);
             Kept(mine, if spared == Some(ClaimKey(mine)) then None else spared, claimed, after)
    ensures Tally(after, alerts, verdicts)
    ensures forall m :: 0 <= m < |verdicts| && verdicts[m].Accepted? ==> alerts[m].0 != alerts[|verdicts|].0
  {
    var mine := Alarm(alerts[|verdicts|].0);
    forall m | 0 <= m < |verdicts|
      ensures Standing(after, Alarm(alerts[m].0), verdicts[m])
      ensures verdicts[m].Accepted? ==> alerts[m].0 != mine.digest
    {
      assert Standing(before, Alarm(alerts[m].0), verdicts[m]);
      if FinishedIn(before, Alarm(alerts[m].0)) {
        assert ClaimKey(Alarm(alerts[m].0)) != ClaimKey(mine);
        assert FinishedIn(claimed, Alarm(alerts[m].0));
      }
    }
  }

  lemma UntouchedKept(alerts: seq<(string, string)>, n: nat, start: Tables,
                      before: Tables, claimed: Tables, after: Tables, spared: Option<string>)
    requires n < |alerts| && Untouched(start, before, alerts, n, spared)
    requires WonBetween(before, claimed, ClaimKey(Alarm(alerts[n].0)))
    requires var mine := Alarm(alerts[n].0);
             Kept(mine, if spared == Some(ClaimKey(mine)) then None else spared, claimed, after)
    ensures Untouched(start, after, alerts, n + 1, spared)
  {
  }

  lemma TallyAccepted(s: Tables, alerts: seq<(string, string)>, verdicts: seq<Verdict>)
    requires |verdicts| < |alerts| && Tally(s, alerts, verdicts)
    requires forall m :: 0 <= m < |verdicts| && verdicts[m].Accepted? ==> alerts[m].0 != alerts[|verdicts|].0
    requires Outcome(s, Alarm(alerts[|verdicts|].0), Fine)
    ensures Tally(s, alerts, verdicts + [Accepted])
  {
    var all := verdicts + [Accepted];
    hide Standing, Outcome;
    forall m | 0 <= m < |all| ensures Standing(s, Alarm(alerts[m].0), all[m]) {
      if m == |verdicts| {
        AcceptedStands(s, Alarm(alerts[m].0));
      } else {
        assert all[m] == verdicts[m];
      }
    }
    assert forall m :: 0 <= m < |verdicts| ==> all[m] == verdicts[m];
  }

  lemma AcceptedStands(s: Tables, subject: Subject)
    requires !subject.Chat? && Outcome(s, subject, Fine)
    ensures Standing(s, subject, Accepted)
  {
  }

  lemma MeanwhileStart(mine: Subject, spared: Option<string>, s: Tables)
    ensures Meanwhile(mine, spared, s, s)
  {
  }

  predicate UnderWay(s: Tables, mine: Subject) {
    ClaimKey(mine) in s.claims && s.claims[ClaimKey(mine)].status.Processing?
  }

  /** With the claim of `mine`. */
  function Won(s: Tables, mine: Subject, now: int): Tables {
    s.(claims := ClaimEvent(s.claims, ClaimKey(mine), now))
  }

  function Recorded(s: Tables, mine: Subject, reply: Reply, now: int): Tables
    requires !mine.Chat?
  {
    var k, id := ClaimKey(mine), LedgerId(mine);
    match reply
    case Fine => Tables(MarkProcessed(s.claims, k, Delivered, now), MarkConfirmed(s.ledger, id, now))
    case Threw(f) =>
      if f.retryable then Tables(ReleaseEvent(s.claims, k), MarkRetrying(s.ledger, id, f.code, now, now))
      else Tables(MarkProcessed(s.claims, k, Abandoned, now), MarkPermanentFailed(s.ledger, id, f.code, now))
  }

  /** How a call leaves the claim and the row of its delivery. */
  predicate Outcome(s: Tables, mine: Subject, reply: Reply)
    requires !mine.Chat?
  {
    var k, id := ClaimKey(mine), LedgerId(mine);
    && id in s.ledger
    && match reply
       case Fine =>
         && k in s.claims && s.claims[k].status.Delivered?
         && s.ledger[id].status.DeliveryConfirmed? && s.ledger[id].deliveryConfirmed
       case Threw(f) =>
         && s.ledger[id].lastErrorCode == f.code
         && if f.retryable then k !in s.claims && s.ledger[id].status.Retrying?
            else k in s.claims && s.claims[k].status.Abandoned? && s.ledger[id].status.PermanentFailed?
  }

  /** The sends of a message of `count` chunks from chunk `n` on: how they end, what the tables are by then,
      and the turn. */
  function SendWalk(env: Env, mine: Subject, count: nat, n: nat, turn: nat, s: Tables): (Reply, Tables, nat)
    requires n < count || n == 0
    decreases count - n
  {
    if count == 0 then (Threw(EMPTY_MESSAGE), s, turn)
    else
      var reply, s1 := env.reply(turn), env.others(turn, mine, s);
      if reply.Threw? || n + 1 == count then (reply, s1, turn + 1)
      else SendWalk(env, mine, count, n + 1, turn + 1, s1)
  }

  /** The walk comes to chunk `n`, or to its end. */
  predicate WalksTo(env: Env, mine: Subject, count: nat, turn0: nat, s0: Tables, n: nat, turn: nat, s: Tables) {
    SendWalk(env, mine, count, 0, turn0, s0)
    == if n < count then SendWalk(env, mine, count, n, turn, s) else (Fine, s, turn)
  }

  lemma NothingToSend(env: Env, mine: Subject, posted: seq<Call>, all: seq<Sender.Message>, turn: nat, s: Tables)
    requires all == []
    ensures Posted(posted, posted, all, Threw(EMPTY_MESSAGE))
    ensures SendWalk(env, mine, |all|, 0, turn, s) == (Threw(EMPTY_MESSAGE), s, turn)
  {
  }

  lemma SendStarts(env: Env, mine: Subject, posted: seq<Call>, all: seq<Sender.Message>, turn: nat, s: Tables)
    requires all != []
    ensures posted == posted + Calls(all, 0, Fine) && WalksTo(env, mine, |all|, turn, s, 0, turn, s)
  {
  }

  lemma WalkEnd(env: Env, mine: Subject, count: nat, turn0: nat, s0: Tables, turn: nat, s: Tables)
    requires WalksTo(env, mine, count, turn0, s0, count, turn, s)
    ensures SendWalk(env, mine, count, 0, turn0, s0) == (Fine, s, turn)
  {
  }

  lemma WalkOn(env: Env, mine: Subject, count: nat, turn0: nat, s0: Tables, n: nat, turn: nat, s: Tables)
    requires n < count && WalksTo(env, mine, count, turn0, s0, n, turn, s)
    ensures var reply, s1 := env.reply(turn), env.others(turn, mine, s);
            if reply.Threw? then SendWalk(env, mine, count, 0, turn0, s0) == (reply, s1, turn + 1)
            else WalksTo(env, mine, count, turn0, s0, n + 1, turn + 1, s1)
  {
  }

  function AttemptWalk(env: Env, mine: Subject, source: string, text: string, turn: nat, s: Tables)
    : (Reply, Tables, nat)
    requires !mine.Chat?
  {
    var begun := s.(ledger := BeginDelivery(s.ledger, LedgerId(mine), source, env.clock(turn)));
    var (reply, sent, turn') := SendWalk(env, mine, |Chunks(text, LIMIT)|, 0, turn, begun);
    (reply, Recorded(sent, mine, reply, env.clock(turn')), turn')
  }

  /** All alerts of a payload, up to the first that fails. */
  function AlertsWalk(env: Env, alerts: seq<(string, string)>, turn: nat, s: Tables): (Option<Failure>, Tables, nat)
    decreases |alerts|
  {
    if alerts == [] then (None, s, turn)
    else
      var mine := Alarm(alerts[0].0);
      if ClaimKey(mine) in s.claims then AlertsWalk(env, alerts[1..], turn, s)
      else
        var won := Won(s, mine, env.clock(turn));
        var (reply, s1, turn1) := AttemptWalk(env, mine, "alertmanager", alerts[0].1, turn, won);
        if reply.Threw? then (Some(reply.f), s1, turn1) else AlertsWalk(env, alerts[1..], turn1, s1)
  }

  lemma AlertsWalkEnds(env: Env, alerts: seq<(string, string)>, turn: nat, s: Tables)
    ensures AlertsWalk(env, alerts[|alerts|..], turn, s) == (None, s, turn) && alerts[0..] == alerts
  {
  }

  lemma AlertsWalkOn(env: Env, alerts: seq<(string, string)>, n: nat, turn: nat, s: Tables)
    requires n < |alerts|
    ensures var mine, rest := Alarm(alerts[n].0), alerts[n + 1..];
            if ClaimKey(mine) in s.claims then AlertsWalk(env, alerts[n..], turn, s) == AlertsWalk(env, rest, turn, s)
            else
              var won := Won(s, mine, env.clock(turn));
              var (reply, s1, turn1) := AttemptWalk(env, mine, "alertmanager", alerts[n].1, turn, won);
              AlertsWalk(env, alerts[n..], turn, s)
              == if reply.Threw? then (Some(reply.f), s1, turn1) else AlertsWalk(env, rest, turn1, s1)
  {
    hide AttemptWalk;
    assert alerts[n..][1..] == alerts[n + 1..];
  }

  /** How an attempt that starts with its claim in `start` ends at `now`: its outcome, one more attempt in
      the row of this source, the times, and the time of the claim. */
  predicate Concluded(start: Tables, s: Tables, mine: Subject, source: string, reply: Reply, now: int)
    requires !mine.Chat?
  {
    var k, id := ClaimKey(mine), LedgerId(mine);
    && Outcome(s, mine, reply)
    && k in start.claims && (k in s.claims ==> s.claims[k].createdAt == start.claims[k].createdAt)
    && var row := s.ledger[id];
    && row.source == source && row.attempts == Attempts(start.ledger, id) + 1 && row.updatedAt == now
    && row.nextRetryAt == (if row.status.Retrying? then Some(now) else None)
    && row.terminalAt == (if row.status.Retrying? then None else Some(now))
    && (reply.Fine? ==> row.deliveryConfirmedAt == Some(now))
    && (reply.Threw? ==> row.deliveryConfirmed == (id in start.ledger && start.ledger[id].deliveryConfirmed))
  }

  /** Every other alert that was finished still is, row and all. */
  ghost predicate OthersKept(mine: Subject, s: Tables, s': Tables) {
    forall d: string :: Alarm(d) != mine && FinishedIn(s, Alarm(d)) ==>
                          FinishedIn(s', Alarm(d)) && SameDelivery(s, s', Alarm(d))
  }

  ghost predicate Kept(mine: Subject, spared: Option<string>, s: Tables, s': Tables) {
    (spared.Some? ==> SameAt(s, s', spared.value)) && (!mine.Notice? ==> OthersKept(mine, s, s'))
  }

  lemma KeptTransitive(mine: Subject, spared: Option<string>, a: Tables, b: Tables, c: Tables)
    requires Kept(mine, spared, a, b) && Kept(mine, spared, b, c)
    ensures Kept(mine, spared, a, c)
  {
  }

  lemma MeanwhileKeeps(mine: Subject, spared: Option<string>, s: Tables, s': Tables)
    requires Meanwhile(mine, spared, s, s')
    ensures Kept(mine, spared, s, s') && SameDelivery(s, s', mine)
  {
  }

  /** Statements of our own touch one claim and one row. */
  ghost predicate OnlyMine(mine: Subject, s: Tables, s': Tables) {
    && (forall k :: k != ClaimKey(mine) ==>
                      (k in s.claims <==> k in s'.claims) && (k in s.claims ==> s'.claims[k] == s.claims[k]))
    && if mine.Chat? then s'.ledger == s.ledger else OtherRowsSame(s.ledger, s'.ledger, LedgerId(mine))
  }

  lemma MineKeeps(mine: Subject, spared: Option<string>, s: Tables, s': Tables)
    requires spared != Some(ClaimKey(mine)) && (!mine.Chat? ==> spared != Some(LedgerId(mine))) && OnlyMine(mine, s, s')
    ensures Kept(mine, spared, s, s')
  {
    forall d: string | !mine.Notice? && Alarm(d) != mine && FinishedIn(s, Alarm(d))
      ensures FinishedIn(s', Alarm(d)) && SameDelivery(s, s', Alarm(d))
    {
      if ClaimKey(Alarm(d)) == ClaimKey(mine) {
        ClaimKeyInjective(Alarm(d), mine);
      }
    }
  }

  lemma AttemptSettles(mine: Subject, spared: Option<string>, source: string, reply: Reply,
                       start: Tables, begun: Tables, sent: Tables, began: int, now: int)
    requires !mine.Chat? && UnderWay(start, mine)
    requires begun == start.(ledger := BeginDelivery(start.ledger, LedgerId(mine), source, began))
    requires Meanwhile(mine, spared, begun, sent)
    ensures Concluded(start, Recorded(sent, mine, reply, now), mine, source, reply, now)
  {
    MeanwhileKeeps(mine, spared, begun, sent);
  }

  /** Our own statements on one delivery. */
  lemma OwnStatements(mine: Subject, source: string, reply: Reply, s: Tables, now: int)
    requires !mine.Chat?
    ensures OnlyMine(mine, s, s.(ledger := BeginDelivery(s.ledger, LedgerId(mine), source, now)))
    ensures OnlyMine(mine, s, Recorded(s, mine, reply, now))
  {
  }

  lemma AttemptKeeps(mine: Subject, spared: Option<string>, source: string, reply: Reply,
                     start: Tables, begun: Tables, sent: Tables, began: int, now: int)
    requires !mine.Chat? && spared != Some(ClaimKey(mine)) && spared != Some(LedgerId(mine))
    requires begun == start.(ledger := BeginDelivery(start.ledger, LedgerId(mine), source, began))
    requires Meanwhile(mine, spared, begun, sent)
    ensures Kept(mine, spared, start, Recorded(sent, mine, reply, now))
  {
    hide Meanwhile, Kept, OnlyMine, Recorded, BeginDelivery;
    var end := Recorded(sent, mine, reply, now);
    OwnStatements(mine, source, reply, start, began);
    OwnStatements(mine, source, reply, sent, now);
    MineKeeps(mine, spared, start, begun);
    MeanwhileKeeps(mine, spared, begun, sent);
    MineKeeps(mine, spared, sent, end);
    KeptTransitive(mine, spared, start, begun, sent);
    KeptTransitive(mine, spared, start, sent, end);
  }

  lemma ChatKeeps(mine: Subject, spared: Option<string>, start: Tables, claimed: Tables, sent: Tables, end: Tables)
    requires mine.Chat? && spared != Some(ClaimKey(mine))
    requires OnlyMine(mine, start, claimed) && Meanwhile(mine, spared, claimed, sent) && OnlyMine(mine, sent, end)
    ensures Kept(mine, spared, start, end)
  {
    hide Meanwhile, Kept, OnlyMine;
    MineKeeps(mine, spared, start, claimed);
    MeanwhileKeeps(mine, spared, claimed, sent);
    MineKeeps(mine, spared, sent, end);
    KeptTransitive(mine, spared, start, claimed, sent);
    KeptTransitive(mine, spared, start, sent, end);
  }
}
