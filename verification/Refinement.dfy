/** The service methods run the delivery protocol: whenever what happens during their awaits is a run of
    the other tasks, their own statements complete it to a run of the whole, so that all that is
    guaranteed of every reachable state holds after them. */
module Refinement {
  import opened Wrappers
  import opened Keys
  import Commands
  import Security
  import opened Splitting
  import opened Store
  import opened Delivery
  import opened Rows
  import opened Guarantees
  import opened Scenarios
  import opened Duplicates
  import opened Service
  import opened Interference

  // ----- what happens during the awaits

  /** One await of task `task`: from `start` the other tasks, the network and the clock lead to `end`. */
  datatype Await = Await(start: World, task: nat, steps: seq<Step>, end: World)

  /** The awaits of a method, by turn. */
  type Script = map<nat, Await>

  ghost predicate Fair(cfg: Config, a: Await) {
    && Reachable(cfg, a.start) && a.start.up && a.task < |a.start.tasks| && Holds(a.start.tasks[a.task].pc)
    && (forall m :: 0 <= m < |a.steps| ==> DuringAwait(a.steps[m], a.task))
    && Run(cfg, a.start, a.steps, a.end) && Apart(a.end)
  }

  ghost predicate FairScript(cfg: Config, script: Script) {
    forall n :: n in script ==> Fair(cfg, script[n])
  }

  function Waiting(a: Await): Subject
    requires a.task < |a.start.tasks|
  {
    a.start.tasks[a.task].subject
  }

  /** What an environment makes of the tables, and of the time, is what the script says. */
  predicate FollowsAt(env: Env, script: Script, n: nat)
    requires n in script
  {
    script[n].task < |script[n].start.tasks| ==>
      && env.others(n, Waiting(script[n]), TablesOf(script[n].start)) == TablesOf(script[n].end)
      && env.clock(n + 1) == script[n].end.clock
  }

  ghost predicate Follows(env: Env, script: Script) {
    forall n :: n in script ==> FollowsAt(env, script, n)
  }

  /** The environment of a script: at its awaits it does what the run does, and nothing anywhere else. */
  function EnvironmentOf(script: Script, reply: nat -> Reply, answer: nat -> Composed,
                         immediate: Commands.Action -> string, clock: int): Env
  {
    Env(reply, answer, immediate,
        (n, subject, s) =>
          if n in script && script[n].task < |script[n].start.tasks| && subject == Waiting(script[n])
             && s == TablesOf(script[n].start)
          then TablesOf(script[n].end) else s,
        n => if n > 0 && n - 1 in script then script[n - 1].end.clock else clock)
  }

  /** Whatever the other tasks do in a run of the protocol, there is an environment in which it happens
      during the awaits of the methods, and it keeps to all that the methods require. */
  lemma RunsAreConsiderate(cfg: Config, script: Script, reply: nat -> Reply, answer: nat -> Composed,
                           immediate: Commands.Action -> string, clock: int)
    requires FairScript(cfg, script)
    ensures var env := EnvironmentOf(script, reply, answer, immediate, clock);
            Considerate(env) && Follows(env, script)
  {
    var env := EnvironmentOf(script, reply, answer, immediate, clock);
    hide Rely, Fair;
    forall n: nat, mine: Subject, s: Tables ensures Rely(mine, s, env.others(n, mine, s)) {
      if n in script && script[n].task < |script[n].start.tasks| && mine == Waiting(script[n])
         && s == TablesOf(script[n].start) {
        FairAwaitIsRely(cfg, script[n]);
      } else {
        RelySelf(mine, s);
      }
    }
  }

  lemma FairAwaitIsRely(cfg: Config, a: Await)
    requires Fair(cfg, a)
    ensures Rely(Waiting(a), TablesOf(a.start), TablesOf(a.end))
  {
    InvReachable(cfg, a.start);
    AwaitIsRely(cfg, a.start, a.steps, a.end, a.task);
  }

  lemma StaysUp(cfg: Config, w: World, s: Step, i: nat)
    requires Enabled(cfg, w, s) && DuringAwait(s, i) && w.up
    ensures Apply(cfg, w, s).up
  {
    if s.Act? {
      assert OneTask(w, DoAct(w, s.i, s.c), s.i);
    }
  }

  lemma {:induction false} AwaitSpares(cfg: Config, w: World, steps: seq<Step>, w': World, i: nat)
    requires Reachable(cfg, w) && Run(cfg, w, steps, w') && i < |w.tasks| && w.up
    requires forall m :: 0 <= m < |steps| ==> DuringAwait(steps[m], i)
    ensures Reachable(cfg, w') && i < |w'.tasks| && w'.tasks[i] == w.tasks[i] && w'.up
    decreases |steps|
  {
    hide Apply, Enabled, DuringAwait, Reachable;
    if steps != [] {
      assert DuringAwait(steps[0], i);
      OthersSpareTask(cfg, w, steps[0], i);
      StaysUp(cfg, w, steps[0], i);
      ReachableStep(cfg, w, steps[0]);
      AwaitSpares(cfg, Apply(cfg, w, steps[0]), steps[1..], w', i);
    }
  }

  /** The step if it can be taken. */
  function Do(cfg: Config, w: World, s: Step): World {
    if Enabled(cfg, w, s) then Apply(cfg, w, s) else w
  }

  lemma DoReaches(cfg: Config, w: World, s: Step)
    requires Reachable(cfg, w)
    ensures Reachable(cfg, Do(cfg, w, s))
  {
    if Enabled(cfg, w, s) {
      ReachableStep(cfg, w, s);
    }
  }

  // ----- the sends of one message

  function ChoiceOf(reply: Reply): Choice {
    match reply
    case Fine => Ok
    case Threw(f) => Err(f)
  }

  /** This await is in the script, and it ends as the protocol allows: "fine" only where the provider may
      say so. */
  predicate PlaysAwait(cfg: Config, script: Script, w: World, i: nat, turn: nat, c: Choice) {
    turn in script && script[turn].start == w && script[turn].task == i && Enabled(cfg, script[turn].end, Act(i, c))
  }

  /** All awaits from chunk `n` on are. */
  predicate PlaysSends(cfg: Config, env: Env, script: Script, w: World, i: nat, count: nat, n: nat, turn: nat)
    requires n < count
    decreases count - n
  {
    && PlaysAwait(cfg, script, w, i, turn, ChoiceOf(env.reply(turn)))
    && (env.reply(turn).Fine? && n + 1 < count ==>
          PlaysSends(cfg, env, script, Do(cfg, script[turn].end, Act(i, Ok)), i, count, n + 1, turn + 1))
  }

  /** And where they lead. */
  function SendsEnd(cfg: Config, env: Env, script: Script, w: World, i: nat, count: nat, n: nat, turn: nat): World
    requires n < count
    decreases count - n
  {
    if turn !in script then w
    else
      var w1 := Do(cfg, script[turn].end, Act(i, ChoiceOf(env.reply(turn))));
      if env.reply(turn).Fine? && n + 1 < count then SendsEnd(cfg, env, script, w1, i, count, n + 1, turn + 1) else w1
  }

  /** The statement after a reply, and after the last one. */
  function AfterReply(t: Task, n: nat, reply: Reply): Task {
    if reply.Fine? && n + 1 < |t.chunks| then t.(pc := Sending(n + 1))
    else t.(pc := AfterSends(t, reply), confirmed := t.confirmed || reply.Fine?)
  }

  function AfterSends(t: Task, reply: Reply): Pc {
    match reply
    case Fine => if t.subject.Chat? then Finishing else Confirming
    case Threw(f) => if t.subject.Chat? then Releasing(f) else Recording(f)
  }

  lemma ReplyStep(cfg: Config, w: World, i: nat, n: nat, reply: Reply)
    requires Enabled(cfg, w, Act(i, ChoiceOf(reply)))
    requires i < |w.tasks| && w.tasks[i].pc == Sending(n) && n < |w.tasks[i].chunks|
    ensures Apply(cfg, w, Act(i, ChoiceOf(reply))) == w.(tasks := w.tasks[i := AfterReply(w.tasks[i], n, reply)])
  {
  }

  /** One await and the reply. */
  lemma AwaitIsRun(cfg: Config, env: Env, script: Script, w: World, i: nat, n: nat, turn: nat) returns (w': World)
    requires FairScript(cfg, script) && Follows(env, script)
    requires PlaysAwait(cfg, script, w, i, turn, ChoiceOf(env.reply(turn)))
    requires i < |w.tasks| && w.tasks[i].pc == Sending(n) && n < |w.tasks[i].chunks|
    ensures Reachable(cfg, w') && w'.up && w'.clock == env.clock(turn + 1)
    ensures w' == Do(cfg, script[turn].end, Act(i, ChoiceOf(env.reply(turn))))
    ensures TablesOf(w') == env.others(turn, w.tasks[i].subject, TablesOf(w))
    ensures i < |w'.tasks| && w'.tasks[i] == AfterReply(w.tasks[i], n, env.reply(turn))
  {
    hide Reachable, Enabled, Apply;
    assert Fair(cfg, script[turn]) && FollowsAt(env, script, turn);
    AwaitSpares(cfg, w, script[turn].steps, script[turn].end, i);
    ReplyStep(cfg, script[turn].end, i, n, env.reply(turn));
    DoReaches(cfg, script[turn].end, Act(i, ChoiceOf(env.reply(turn))));
    w' := Do(cfg, script[turn].end, Act(i, ChoiceOf(env.reply(turn))));
  }

  lemma {:induction false} SendIsRun(cfg: Config, env: Env, script: Script, w: World, i: nat, n: nat, turn: nat)
    returns (w': World)
    requires FairScript(cfg, script) && Follows(env, script)
    requires i < |w.tasks| && w.tasks[i].pc == Sending(n) && n < |w.tasks[i].chunks|
    requires PlaysSends(cfg, env, script, w, i, |w.tasks[i].chunks|, n, turn)
    ensures w' == SendsEnd(cfg, env, script, w, i, |w.tasks[i].chunks|, n, turn)
    ensures Reachable(cfg, w') && w'.up && i < |w'.tasks| && w'.tasks[i].subject == w.tasks[i].subject
    ensures var (reply, s, turn') := SendWalk(env, w.tasks[i].subject, |w.tasks[i].chunks|, n, turn, TablesOf(w));
            TablesOf(w') == s && w'.clock == env.clock(turn') && w'.tasks[i].pc == AfterSends(w'.tasks[i], reply)
    decreases |w.tasks[i].chunks| - n
  {
    hide Reachable, Do, FairScript, Follows;
    var w1 := AwaitIsRun(cfg, env, script, w, i, n, turn);
    if env.reply(turn).Fine? && n + 1 < |w.tasks[i].chunks| {
      w' := SendIsRun(cfg, env, script, w1, i, n + 1, turn + 1);
    } else {
      w' := w1;
    }
  }

  /** The chunks of a task that is about to send are sent, or there are none. */
  predicate PlaysMessage(cfg: Config, env: Env, script: Script, w: World, i: nat, turn: nat) {
    i < |w.tasks| && (w.tasks[i].chunks != [] ==> PlaysSends(cfg, env, script, w, i, |w.tasks[i].chunks|, 0, turn))
  }

  function MessageEnd(cfg: Config, env: Env, script: Script, w: World, i: nat, turn: nat): World {
    if i < |w.tasks| && w.tasks[i].chunks != [] then SendsEnd(cfg, env, script, w, i, |w.tasks[i].chunks|, 0, turn)
    else w
  }

  lemma MessageIsRun(cfg: Config, env: Env, script: Script, w: World, i: nat, turn: nat) returns (w': World)
    requires FairScript(cfg, script) && Follows(env, script) && PlaysMessage(cfg, env, script, w, i, turn)
    requires Reachable(cfg, w) && w.up && w.clock == env.clock(turn) && w.tasks[i].pc == FirstPc(w.tasks[i])
    ensures w' == MessageEnd(cfg, env, script, w, i, turn)
    ensures Reachable(cfg, w') && w'.up && i < |w'.tasks| && w'.tasks[i].subject == w.tasks[i].subject
    ensures var (reply, s, turn') := SendWalk(env, w.tasks[i].subject, |w.tasks[i].chunks|, 0, turn, TablesOf(w));
            TablesOf(w') == s && w'.clock == env.clock(turn') && w'.tasks[i].pc == AfterSends(w'.tasks[i], reply)
  {
    hide Reachable, PlaysSends, FairScript, Follows;
    if w.tasks[i].chunks != [] {
      w' := SendIsRun(cfg, env, script, w, i, 0, turn);
    } else {
      w' := w;
    }
  }

  // ----- notifications and alerts

  function ResultOf(reply: Reply): Result {
    match reply
    case Fine => Sent
    case Threw(f) => Raised(f)
  }

  /** The two statements that write the outcome. */
  lemma RecordIsRun(cfg: Config, w: World, i: nat, reply: Reply) returns (w': World)
    requires Reachable(cfg, w) && w.up && i < |w.tasks| && !w.tasks[i].subject.Chat?
    requires w.tasks[i].pc == AfterSends(w.tasks[i], reply)
    ensures w' == Do(cfg, Do(cfg, w, Act(i, Go)), Act(i, Go))
    ensures Reachable(cfg, w') && w'.up && w'.clock == w.clock
    ensures i < |w'.tasks| && w'.tasks[i].subject == w.tasks[i].subject && w'.tasks[i].pc == Finished(ResultOf(reply))
    ensures TablesOf(w') == Recorded(TablesOf(w), w.tasks[i].subject, reply, w.clock)
  {
    CodesAreThere(cfg, w, i);
    hide Reachable, BeginDelivery, MarkConfirmed, MarkRetrying, MarkPermanentFailed;
    var w1 := Step1(cfg, w, Act(i, Go));
    w' := Step1(cfg, w1, Act(i, Go));
  }

  lemma CodesAreThere(cfg: Config, w: World, i: nat)
    requires Reachable(cfg, w) && i < |w.tasks|
    ensures Typed(w.tasks[i])
  {
    InvReachable(cfg, w);
    assert Shaped(w.tasks[i]);
  }

  /** begin_delivery. */
  lemma BeginIsRun(cfg: Config, w: World, i: nat) returns (w': World)
    requires Reachable(cfg, w) && w.up && i < |w.tasks| && !w.tasks[i].subject.Chat? && w.tasks[i].pc.Beginning?
    ensures Reachable(cfg, w') && w' == Do(cfg, w, Act(i, Go))
    ensures w' == At(w, i, FirstPc(w.tasks[i])).(ledger := w'.ledger)
    ensures w'.ledger == BeginDelivery(w.ledger, LedgerId(w.tasks[i].subject), w.tasks[i].source, w.clock)
  {
    w' := Step1(cfg, w, Act(i, Go));
  }

  /** The awaits of an attempt whose claim is won, and where it leads. */
  predicate PlaysAttempt(cfg: Config, env: Env, script: Script, w: World, i: nat, turn: nat) {
    PlaysMessage(cfg, env, script, Do(cfg, w, Act(i, Go)), i, turn)
  }

  function AttemptEnd(cfg: Config, env: Env, script: Script, w: World, i: nat, turn: nat): World {
    Do(cfg, Do(cfg, MessageEnd(cfg, env, script, Do(cfg, w, Act(i, Go)), i, turn), Act(i, Go)), Act(i, Go))
  }

  /** From begin_delivery to the outcome, what `Attempt` makes of the tables is what a run of the protocol
      makes of them. */
  lemma AttemptIsRun(cfg: Config, env: Env, script: Script, w: World, i: nat, text: string, turn: nat)
    returns (w': World)
    requires FairScript(cfg, script) && Follows(env, script) && PlaysAttempt(cfg, env, script, w, i, turn)
    requires Reachable(cfg, w) && w.up && w.clock == env.clock(turn)
    requires i < |w.tasks| && !w.tasks[i].subject.Chat? && w.tasks[i].pc.Beginning?
    requires w.tasks[i].chunks == Chunks(text, LIMIT)
    ensures w' == AttemptEnd(cfg, env, script, w, i, turn)
    ensures Reachable(cfg, w') && w'.up && i < |w'.tasks| && w'.tasks[i].subject == w.tasks[i].subject
    ensures var (reply, s, turn') := AttemptWalk(env, w.tasks[i].subject, w.tasks[i].source, text, turn, TablesOf(w));
            TablesOf(w') == s && w'.clock == env.clock(turn') && w'.tasks[i].pc == Finished(ResultOf(reply))
  {
    hide Reachable, Chunks, BeginDelivery, Recorded, FairScript, Follows, PlaysMessage, MessageEnd, Do, Apply, Enabled;
    var t := w.tasks[i];
    var w1 := BeginIsRun(cfg, w, i);
    var w2 := MessageIsRun(cfg, env, script, w1, i, turn);
    var (reply, s, turn') := SendWalk(env, t.subject, |t.chunks|, 0, turn, TablesOf(w1));
    w' := RecordIsRun(cfg, w2, i, reply);
  }

  /** A request comes in and asks for its claim. */
  function Arrival(cfg: Config, w: World, subject: Subject, source: string, stamp: int, text: string): World {
    Do(cfg, Do(cfg, w, Start(subject, source, stamp, text)), Act(|w.tasks|, Go))
  }

  lemma ArrivalIsRun(cfg: Config, w: World, subject: Subject, source: string, stamp: int, text: string)
    requires Reachable(cfg, w) && w.up && (subject.Notice? ==> Security.InsideWindow(w.clock, stamp, cfg.ttl))
    ensures var w', i := Arrival(cfg, w, subject, source, stamp, text), |w.tasks|;
            && Reachable(cfg, w') && w'.up && w'.clock == w.clock && w'.ledger == w.ledger && |w'.tasks| == i + 1
            && w'.tasks[i].subject == subject && w'.tasks[i].source == source
            && w'.claims == ClaimEvent(w.claims, ClaimKey(subject), w.clock)
            && (!subject.Chat? ==> w'.tasks[i].chunks == Chunks(text, LIMIT))
            && (ClaimKey(subject) !in w.claims ==> w'.tasks[i].pc == if subject.Chat? then Asking else Beginning)
  {
    hide Reachable, Chunks;
    var w1 := Step1(cfg, w, Start(subject, source, stamp, text));
    var w2 := Step1(cfg, w1, Act(|w.tasks|, Go));
  }

  /** One delivery of a notification or an alert whose claim is free, as the contracts of the service methods
      describe it, leads from one reachable state of the protocol to another; and its success means what
      success means there. */
  lemma DeliveryIsRun(cfg: Config, env: Env, script: Script, w: World, subject: Subject, source: string, stamp: int,
                      text: string, turn: nat) returns (w': World)
    requires FairScript(cfg, script) && Follows(env, script)
    requires Reachable(cfg, w) && w.up && w.clock == env.clock(turn)
    requires !subject.Chat? && ClaimKey(subject) !in w.claims
    requires subject.Notice? ==> Security.InsideWindow(w.clock, stamp, cfg.ttl)
    requires PlaysAttempt(cfg, env, script, Arrival(cfg, w, subject, source, stamp, text), |w.tasks|, turn)
    ensures w' == AttemptEnd(cfg, env, script, Arrival(cfg, w, subject, source, stamp, text), |w.tasks|, turn)
    ensures Reachable(cfg, w') && w'.up && |w.tasks| < |w'.tasks| && w'.tasks[|w.tasks|].subject == subject
    ensures var won := Won(TablesOf(w), subject, env.clock(turn));
            var (reply, s, turn') := AttemptWalk(env, subject, source, text, turn, won);
            && TablesOf(w') == s && w'.clock == env.clock(turn') && w'.tasks[|w.tasks|].pc == Finished(ResultOf(reply))
            && (reply.Fine? ==> AllKnown(w', w'.tasks[|w.tasks|]))
  {
    hide Reachable, AttemptWalk, AttemptEnd, AllKnown, Chunks, Arrival, PlaysAttempt, FairScript, Follows;
    var i := |w.tasks|;
    ArrivalIsRun(cfg, w, subject, source, stamp, text);
    w' := AttemptIsRun(cfg, env, script, Arrival(cfg, w, subject, source, stamp, text), i, text, turn);
    if w'.tasks[i].pc == Finished(Sent) {
      SuccessMeansConfirmed(cfg, w', i);
    }
  }

  /** And so does a duplicate of a notification, with the answer that the method gives. */
  lemma DuplicateIsRun(cfg: Config, w: World, eventId: string, stamp: int, text: string) returns (w': World)
    requires Reachable(cfg, w) && w.up && ClaimKey(Notice(eventId)) in w.claims
    requires Security.InsideWindow(w.clock, stamp, cfg.ttl)
    ensures Reachable(cfg, w') && TablesOf(w') == TablesOf(w)
    ensures |w'.tasks| == |w.tasks| + 1
    ensures w'.tasks[|w.tasks|].pc.Finished? && w'.tasks[|w.tasks|].pc.result.Deduplicated?
    ensures var result := w'.tasks[|w.tasks|].pc.result;
            DuplicateResponse(w.ledger, eventId)
            == Response(0, 1, result.status, result.accepted, result.confirmed)
  {
    hide Reachable, Chunks;
    w' := AskAgain(cfg, w, eventId, stamp, text);
  }

  /** The awaits of the alerts of one payload, one alert after the other. */
  predicate PlaysPayload(cfg: Config, env: Env, script: Script, w: World, alerts: seq<(string, string)>, turn: nat)
    decreases |alerts|
  {
    alerts == []
    || var mine := Alarm(alerts[0].0);
       var w1 := Arrival(cfg, w, mine, "alertmanager", 0, alerts[0].1);
       if ClaimKey(mine) in w.claims then PlaysPayload(cfg, env, script, w1, alerts[1..], turn)
       else
         var (reply, _, turn1) :=
           AttemptWalk(env, mine, "alertmanager", alerts[0].1, turn, Won(TablesOf(w), mine, env.clock(turn)));
         && PlaysAttempt(cfg, env, script, w1, |w.tasks|, turn)
         && (reply.Fine? ==>
               PlaysPayload(cfg, env, script, AttemptEnd(cfg, env, script, w1, |w.tasks|, turn), alerts[1..], turn1))
  }

  /** A whole payload of alerts is a run as well. */
  lemma {:induction false} PayloadIsRun(cfg: Config, env: Env, script: Script, w: World,
                                        alerts: seq<(string, string)>, turn: nat) returns (w': World)
    requires FairScript(cfg, script) && Follows(env, script) && PlaysPayload(cfg, env, script, w, alerts, turn)
    requires Reachable(cfg, w) && w.up && w.clock == env.clock(turn)
    ensures Reachable(cfg, w') && w'.up
    ensures var (failure, s, turn') := AlertsWalk(env, alerts, turn, TablesOf(w));
            TablesOf(w') == s && w'.clock == env.clock(turn')
    decreases |alerts|
  {
    hide Reachable, FairScript, Follows, AttemptWalk, AttemptEnd, Arrival, PlaysAttempt, Chunks;
    if alerts == [] {
      w' := w;
    } else {
      var mine := Alarm(alerts[0].0);
      if ClaimKey(mine) in w.claims {
        ArrivalIsRun(cfg, w, mine, "alertmanager", 0, alerts[0].1);
        w' := PayloadIsRun(cfg, env, script, Arrival(cfg, w, mine, "alertmanager", 0, alerts[0].1), alerts[1..], turn);
      } else {
        var (reply, s, turn1) :=
          AttemptWalk(env, mine, "alertmanager", alerts[0].1, turn, Won(TablesOf(w), mine, env.clock(turn)));
        w' := DeliveryIsRun(cfg, env, script, w, mine, "alertmanager", 0, alerts[0].1, turn);
        if reply.Fine? {
          w' := PayloadIsRun(cfg, env, script, w', alerts[1..], turn1);
        }
      }
    }
  }

  /** Such scripts exist in every state, for instance one in which the first send fails at once. */
  lemma RefusalIsPlayed(cfg: Config, w: World, i: nat, turn: nat) returns (script: Script, env: Env)
    requires Reachable(cfg, w) && w.up && i < |w.tasks| && !w.tasks[i].subject.Chat? && w.tasks[i].pc.Beginning?
    requires Apart(Do(cfg, w, Act(i, Go)))
    ensures FairScript(cfg, script) && Considerate(env) && Follows(env, script) && env.clock(turn) == w.clock
    ensures PlaysAttempt(cfg, env, script, w, i, turn)
  {
    var begun := BeginIsRun(cfg, w, i);
    hide Reachable, Apart, Fair, Enabled, Follows, Do, PlaysMessage;
    script := if begun.tasks[i].chunks == [] then map[] else map[turn := Await(begun, i, [], begun)];
    env := EnvironmentOf(script, _ => REFUSAL, _ => Refused(REFUSAL.f), _ => "", w.clock);
    if begun.tasks[i].chunks != [] {
      RefusalIsFair(cfg, begun, i);
    }
    RefusalPlays(cfg, env, script, begun, i, turn);
    RunsAreConsiderate(cfg, script, _ => REFUSAL, _ => Refused(REFUSAL.f), _ => "", w.clock);
  }

  const REFUSAL: Reply := Threw(Failure("REFUSED", true))

  lemma RefusalIsFair(cfg: Config, w: World, i: nat)
    requires Reachable(cfg, w) && w.up && i < |w.tasks| && w.tasks[i].pc.Sending? && Apart(w)
    ensures Fair(cfg, Await(w, i, [], w))
  {
    hide Reachable, Apart;
  }

  lemma RefusalPlays(cfg: Config, env: Env, script: Script, w: World, i: nat, turn: nat)
    requires w.up && i < |w.tasks| && w.tasks[i].pc == FirstPc(w.tasks[i]) && env.reply(turn) == REFUSAL
    requires w.tasks[i].chunks != [] ==> turn in script && script[turn] == Await(w, i, [], w)
    ensures PlaysMessage(cfg, env, script, w, i, turn)
  {
    hide Known;
  }

  // ----- chat

  /** The state in which a chat task waits for its answer: its request is out, if it makes one. */
  function Asked(cfg: Config, w: World, i: nat, action: Commands.Action): World {
    if action.Ask? then Do(cfg, w, Act(i, Dispatch)) else w
  }

  function AnswerChoice(answer: Composed): Choice {
    match answer
    case Text(text) => Answer(text)
    case Refused(f) => Err(f)
  }

  predicate PlaysAnswer(cfg: Config, env: Env, script: Script, w: World, i: nat, text: string, turn: nat) {
    !Immediate(Commands.CommandOrChat(text)) ==>
      PlaysAwait(cfg, script, Asked(cfg, w, i, Commands.CommandOrChat(text)), i, turn,
                 AnswerChoice(env.answer(turn)))
  }

  /** A chat task has its answer. */
  function AnswerEnd(cfg: Config, env: Env, script: Script, w: World, i: nat, text: string, turn: nat): World {
    var c := AnswerChoice(Composition(env, text, turn));
    if Immediate(Commands.CommandOrChat(text)) then Do(cfg, w, Act(i, c))
    else if turn in script then Do(cfg, script[turn].end, Act(i, c))
    else w
  }

  lemma AnswerStep(cfg: Config, w: World, i: nat, answer: Composed)
    requires Reachable(cfg, w) && w.up && i < |w.tasks| && w.tasks[i].subject.Chat? && w.tasks[i].pc.Asking?
    requires answer.Refused? ==> Enabled(cfg, w, Act(i, AnswerChoice(answer)))
    ensures var w' := Do(cfg, w, Act(i, AnswerChoice(answer)));
            && Reachable(cfg, w') && w'.up && w'.clock == w.clock && TablesOf(w') == TablesOf(w)
            && i < |w'.tasks| && w'.tasks[i].subject == w.tasks[i].subject
            && match answer
               case Refused(f) => w'.tasks[i].pc == Releasing(f)
               case Text(text) => w'.tasks[i].chunks == Chunks(text, LIMIT) && w'.tasks[i].pc == FirstPc(w'.tasks[i])
  {
    DoReaches(cfg, w, Act(i, AnswerChoice(answer)));
    hide Chunks, Reachable;
  }

  lemma AskStep(cfg: Config, w: World, i: nat, action: Commands.Action)
    requires Reachable(cfg, w) && w.up && i < |w.tasks| && w.tasks[i].subject.Chat? && w.tasks[i].pc.Asking?
    ensures var w' := Asked(cfg, w, i, action);
            && Reachable(cfg, w') && w'.up && TablesOf(w') == TablesOf(w)
            && i < |w'.tasks| && w'.tasks[i].subject == w.tasks[i].subject && w'.tasks[i].pc.Asking?
  {
    DoReaches(cfg, w, Act(i, Dispatch));
    hide Reachable;
  }

  lemma AnswerIsRun(cfg: Config, env: Env, script: Script, w: World, i: nat, text: string, turn: nat)
    requires FairScript(cfg, script) && Follows(env, script) && PlaysAnswer(cfg, env, script, w, i, text, turn)
    requires Reachable(cfg, w) && w.up && w.clock == env.clock(turn)
    requires i < |w.tasks| && w.tasks[i].subject.Chat? && w.tasks[i].pc.Asking?
    ensures var w', answer := AnswerEnd(cfg, env, script, w, i, text, turn), Composition(env, text, turn);
            var (s, turn') := ComposeWalk(env, w.tasks[i].subject, text, turn, TablesOf(w));
            && Reachable(cfg, w') && w'.up && TablesOf(w') == s && w'.clock == env.clock(turn')
            && i < |w'.tasks| && w'.tasks[i].subject == w.tasks[i].subject
            && match answer
               case Refused(f) => w'.tasks[i].pc == Releasing(f)
               case Text(t) => w'.tasks[i].chunks == Chunks(t, LIMIT) && w'.tasks[i].pc == FirstPc(w'.tasks[i])
  {
    hide Reachable, Chunks, Enabled, Do, Asked, Commands.CommandOrChat;
    var action := Commands.CommandOrChat(text);
    if Immediate(action) {
      AnswerStep(cfg, w, i, Composition(env, text, turn));
    } else {
      AskStep(cfg, w, i, action);
      assert Fair(cfg, script[turn]) && FollowsAt(env, script, turn);
      AwaitSpares(cfg, Asked(cfg, w, i, action), script[turn].steps, script[turn].end, i);
      AnswerStep(cfg, script[turn].end, i, Composition(env, text, turn));
    }
  }

  /** The statement that finishes or releases the claim of a chat task. */
  lemma ChatRecordIsRun(cfg: Config, w: World, i: nat, reply: Reply) returns (w': World)
    requires Reachable(cfg, w) && w.up && i < |w.tasks| && w.tasks[i].subject.Chat?
    requires w.tasks[i].pc == AfterSends(w.tasks[i], reply)
    ensures Reachable(cfg, w') && w'.up && w'.clock == w.clock
    ensures i < |w'.tasks| && w'.tasks[i].subject == w.tasks[i].subject && w'.tasks[i].pc == Finished(ResultOf(reply))
    ensures TablesOf(w') == ChatRecorded(TablesOf(w), w.tasks[i].subject, reply, w.clock)
  {
    hide Reachable;
    w' := Step1(cfg, w, Act(i, Go));
  }

  /** All awaits of one chat message. */
  predicate PlaysChat(cfg: Config, env: Env, script: Script, w: World, i: nat, text: string, turn: nat)
    requires i < |w.tasks|
  {
    && PlaysAnswer(cfg, env, script, w, i, text, turn)
    && (Composition(env, text, turn).Text? ==>
          PlaysMessage(cfg, env, script, AnswerEnd(cfg, env, script, w, i, text, turn), i,
                       ComposeWalk(env, w.tasks[i].subject, text, turn, TablesOf(w)).1))
  }

  /** One chat message, from the free claim to the end, is a run as well. */
  lemma ChatIsRun(cfg: Config, env: Env, script: Script, w: World, digest: string, text: string, turn: nat)
    returns (w': World)
    requires FairScript(cfg, script) && Follows(env, script)
    requires Reachable(cfg, w) && w.up && w.clock == env.clock(turn) && ClaimKey(Chat(digest)) !in w.claims
    requires var w1 := Arrival(cfg, w, Chat(digest), "feishu-chat", 0, text);
             |w.tasks| < |w1.tasks| && PlaysChat(cfg, env, script, w1, |w.tasks|, text, turn)
    ensures Reachable(cfg, w') && |w.tasks| < |w'.tasks| && w'.tasks[|w.tasks|].subject == Chat(digest)
    ensures var won := Won(TablesOf(w), Chat(digest), env.clock(turn));
            var (reply, s, turn') := ChatWalk(env, Chat(digest), text, turn, won);
            TablesOf(w') == s && w'.tasks[|w.tasks|].pc == Finished(ResultOf(reply))
  {
    hide Reachable, FairScript, Follows, Arrival, PlaysAnswer, PlaysMessage, AnswerEnd, ComposeWalk, Composition;
    hide Chunks, SendWalk, MessageEnd;
    var i := |w.tasks|;
    ArrivalIsRun(cfg, w, Chat(digest), "feishu-chat", 0, text);
    var w1 := Arrival(cfg, w, Chat(digest), "feishu-chat", 0, text);
    AnswerIsRun(cfg, env, script, w1, i, text, turn);
    var w2 := AnswerEnd(cfg, env, script, w1, i, text, turn);
    var (s, turn1) := ComposeWalk(env, Chat(digest), text, turn, TablesOf(w1));
    match Composition(env, text, turn)
    case Refused(f) =>
      w' := ChatRecordIsRun(cfg, w2, i, Threw(f));
    case Text(answer) =>
      var w3 := MessageIsRun(cfg, env, script, w2, i, turn1);
      var (reply, _, _) := SendWalk(env, Chat(digest), |w2.tasks[i].chunks|, 0, turn1, s);
      w' := ChatRecordIsRun(cfg, w3, i, reply);
  }

  // ----- the methods themselves

  /** A service whose tables are those of a state of the protocol, in an environment that follows the script. */
  ghost predicate Plugged(cfg: Config, service: GatewayService, script: Script, w: World)
    reads service, service.store
  {
    && Considerate(service.env) && FairScript(cfg, script) && Follows(service.env, script)
    && Reachable(cfg, w) && w.up && w.clock == service.Now() && TablesOf(w) == service.Current()
  }

  lemma RepeatIsTold(cfg: Config, w: World, eventId: string, r: Response)
    requires Reachable(cfg, w) && ClaimKey(Notice(eventId)) in w.claims && r == DuplicateResponse(w.ledger, eventId)
    ensures var told := Deduplicated(r.status, r.transportAccepted, r.deliveryConfirmed);
            ToldFromRow(w.ledger, eventId, told)
            && (Apart(w) ==> ToldFromClaim(w, ClaimKey(Notice(eventId)), told))
  {
    if eventId in w.ledger {
      RowsKeepTheirShape(cfg, w, eventId);
    }
    var told := Deduplicated(r.status, r.transportAccepted, r.deliveryConfirmed);
    assert ToldFromRow(w.ledger, eventId, told);
    hide Reachable, Apart, ToldFromRow, ToldFromClaim, Answered;
    if Apart(w) {
      AnswerFitsClaim(cfg, w, Notice(eventId), told);
    }
  }

  /** `deliver_notification` called in a reachable state ends in one, with the same tables and the same
      result; "delivery confirmed" to a fresh request means that the provider confirmed every chunk, and a
      duplicate is told what its row and its claim say. */
  method NotificationInProtocol(service: GatewayService, eventId: string, source: string, stamp: int, text: string,
                                ghost cfg: Config, ghost script: Script, ghost w: World)
    returns (response: Response, reply: Reply, ghost w': World)
    requires Plugged(cfg, service, script, w) && Security.InsideWindow(w.clock, stamp, cfg.ttl)
    requires ClaimKey(Notice(eventId)) !in w.claims ==>
               PlaysAttempt(cfg, service.env, script, Arrival(cfg, w, Notice(eventId), source, stamp, text),
                            |w.tasks|, service.turn)
    modifies service`turn, service`posted, service.store
    ensures Reachable(cfg, w') && TablesOf(w') == service.Current() && |w.tasks| < |w'.tasks|
    ensures if ClaimKey(Notice(eventId)) in w.claims then
              var told := Deduplicated(response.status, response.transportAccepted, response.deliveryConfirmed);
              && response.accepted == 0 && response.deduplicated == 1 && w'.tasks[|w.tasks|].pc == Finished(told)
              && ToldFromRow(w.ledger, eventId, told)
              && (Apart(w) ==> ToldFromClaim(w, ClaimKey(Notice(eventId)), told))
            else
              && w'.tasks[|w.tasks|].subject == Notice(eventId) && w'.tasks[|w.tasks|].pc == Finished(ResultOf(reply))
              && (reply.Fine? ==> response.deliveryConfirmed && AllKnown(w', w'.tasks[|w.tasks|]))
  {
    hide Reachable, PlaysAttempt, AttemptEnd, AttemptWalk, Arrival, Concluded, Posted, MessagesFor, AllKnown, Chunks,
         ToldFromRow, ToldFromClaim, Apart;
    if ClaimKey(Notice(eventId)) in w.claims {
      w' := DuplicateIsRun(cfg, w, eventId, stamp, text);
      RepeatIsTold(cfg, w, eventId, DuplicateResponse(w.ledger, eventId));
    } else {
      w' := DeliveryIsRun(cfg, service.env, script, w, Notice(eventId), source, stamp, text, service.turn);
    }
    response, reply := service.DeliverNotification(eventId, source, text);
  }

  /** `deliver_alerts` likewise. */
  method AlertsInProtocol(service: GatewayService, alerts: seq<(string, string)>,
                          ghost cfg: Config, ghost script: Script, ghost w: World)
    returns (accepted: nat, deduplicated: nat, failure: Option<Failure>, verdicts: seq<Verdict>, ghost w': World)
    requires Plugged(cfg, service, script, w) && PlaysPayload(cfg, service.env, script, w, alerts, service.turn)
    modifies service`turn, service`posted, service.store
    ensures Reachable(cfg, w') && TablesOf(w') == service.Current()
    ensures accepted + deduplicated == |verdicts| && (failure.None? <==> |verdicts| == |alerts|)
  {
    hide Reachable, PlaysPayload, AlertsWalk, Tally, Untouched, Outcome, Posted, MessagesFor, CallsOf;
    hide CountAccepted, Judged;
    w' := PayloadIsRun(cfg, service.env, script, w, alerts, service.turn);
    accepted, deduplicated, failure, verdicts := service.DeliverAlerts(alerts, None);
  }

  /** And `handle_feishu_text` of the one user who may chat. */
  method ChatInProtocol(service: GatewayService, digest: string, text: string,
                        ghost cfg: Config, ghost script: Script, ghost w: World)
    returns (reply: Reply, ghost w': World)
    requires Plugged(cfg, service, script, w) && ClaimKey(Chat(digest)) !in w.claims
    requires var w1 := Arrival(cfg, w, Chat(digest), "feishu-chat", 0, text);
             |w.tasks| < |w1.tasks| && PlaysChat(cfg, service.env, script, w1, |w.tasks|, text, service.turn)
    modifies service`turn, service`posted, service`asked, service.store
    ensures Reachable(cfg, w') && TablesOf(w') == service.Current()
    ensures |w.tasks| < |w'.tasks| && w'.tasks[|w.tasks|].pc == Finished(ResultOf(reply))
  {
    hide Reachable, PlaysChat, Arrival, ChatWalk, Replied, Requests, Composition, ChatOutcome, Kept;
    hide Commands.CommandOrChat;
    w' := ChatIsRun(cfg, service.env, script, w, digest, text, service.turn);
    reply := service.HandleFeishuText(digest, service.allowed, text, None);
  }
}
