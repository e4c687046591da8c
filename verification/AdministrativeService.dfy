/** `send_administrative_communication` as the code runs it, with the other requests at work while it
    waits for the provider, and the proof that they leave its row alone. */
module AdministrativeService {
  import opened Wrappers
  import opened Keys
  import Sender
  import opened Store
  import opened Administrative

  /** How the `await` ends, what the other requests have made of the ledger by then, what time it is,
      and SHA-256. */
  datatype Env = Env(
    reply: nat -> Reply,
    others: (nat, string, AdminLedger) -> AdminLedger,
    clock: nat -> int,
    sha: string -> string)

  /** No row is lost or loses what is final in it, and the row of this event is as it was. */
  ghost predicate Leaves(id: string, a: AdminLedger, b: AdminLedger) {
    RowsKept(a, b) && (id in a ==> id in b && b[id] == a[id])
  }

  ghost predicate Considerate(env: Env) {
    forall n: nat, id: string, a: AdminLedger :: Leaves(id, a, env.others(n, id, a))
  }

  /** The row of a call that began at `began` and ended at `ended`. */
  function Outcome(body: string, recipient: string, reply: Reply, began: int, ended: int): AdminRow {
    match reply
    case Returned(ref) =>
      AdminRow(body, recipient, TransportAccepted, true, false, 1, ref, "", began, ended, Some(ended))
    case Raised(code) =>
      AdminRow(body, recipient, OutcomeUnknown, false, false, 1, None, code, began, ended, None)
  }

  lemma KeptTransitive(a: AdminLedger, b: AdminLedger, c: AdminLedger)
    requires RowsKept(a, b) && RowsKept(b, c)
    ensures RowsKept(a, c)
  {
  }

  lemma StatementsKeep(a: AdminLedger, id: string, body: string, recipient: string, reply: Reply, now: int)
    ensures RowsKept(a, BeginAdmin(a, id, body, recipient, now))
    ensures id in a && a[id].status.AdminPrepared? ==>
              && (reply.Returned? ==> RowsKept(a, MarkAdminAccepted(a, id, reply.ref, now)))
              && (reply.Raised? ==> RowsKept(a, MarkAdminUnknown(a, id, reply.code, now)))
  {
  }

  /** The ledger after a call for a new event that begins at this turn. */
  function CommunicationWalk(env: Env, eventId: string, body: string, recipient: string, turn: nat, a: AdminLedger)
    : AdminLedger
  {
    var sent := env.others(turn, eventId, BeginAdmin(a, eventId, body, env.sha(recipient), env.clock(turn)));
    match env.reply(turn)
    case Returned(ref) => MarkAdminAccepted(sent, eventId, ref, env.clock(turn + 1))
    case Raised(code) => MarkAdminUnknown(sent, eventId, code, env.clock(turn + 1))
  }

  class AdministrativeService {
    const store: StateStore
    const env: Env
    var turn: nat
    var posted: seq<Sender.Message>   // every send_text call

    constructor (store: StateStore, env: Env)
      ensures this.store == store && this.env == env && turn == 0 && posted == []
    {
      this.store, this.env, turn, posted := store, env, 0, [];
    }

    function Now(): int
      reads this`turn
    {
      env.clock(turn)
    }

    method SendText(eventId: string, message: Sender.Message) returns (reply: Reply)
      requires Considerate(env)
      modifies this, store`admin
      ensures posted == old(posted) + [message] && reply == env.reply(old(turn))
      ensures turn == old(turn) + 1 && store.admin == env.others(old(turn), eventId, old(store.admin))
      ensures Leaves(eventId, old(store.admin), store.admin)
    {
      posted := posted + [message];
      reply := env.reply(turn);
      store.admin := env.others(turn, eventId, store.admin);
      turn := turn + 1;
    }

    /** A known event is answered from its row and sends nothing. A new one makes one call, whose outcome
        its row keeps. */
    method SendAdministrativeCommunication(eventId: string, recipient: string, text: string, body: string)
      returns (answer: Answer)
      requires Considerate(env)
      modifies this, store`admin
      ensures eventId in old(store.admin) ==>
                && store.admin == old(store.admin) && posted == old(posted)
                && answer == Replay(old(store.admin)[eventId], body, env.sha(recipient))
                && var row := store.admin[eventId];
                if row.bodyDigest == body && row.recipientDigest == env.sha(recipient) then
                  answer == Recorded(row.status, row.transportAccepted, row.deliveryConfirmed, row.providerRef)
                else answer == Conflict
      ensures eventId !in old(store.admin) ==>
                var reply := env.reply(old(turn));
                && posted == old(posted) + [Sender.Message(recipient, text, AdministrativeName(eventId))]
                && eventId in store.admin
                && store.admin[eventId] == Outcome(body, env.sha(recipient), reply, old(Now()), Now())
                && answer ==
                   if reply.Returned? then Recorded(TransportAccepted, true, false, reply.ref) else OutcomeIsUnknown
      ensures eventId !in old(store.admin) ==>
                turn == old(turn) + 1
                && store.admin == CommunicationWalk(env, eventId, body, recipient, old(turn), old(store.admin))
      ensures RowsKept(old(store.admin), store.admin)
    {
      var recipientDigest := env.sha(recipient);
      if eventId in store.admin {
        var existing := store.admin[eventId];
        if existing.bodyDigest != body || existing.recipientDigest != recipientDigest {
          return Conflict;
        }
        return Recorded(existing.status, existing.transportAccepted, existing.deliveryConfirmed, existing.providerRef);
      }
      var inserted := store.BeginAdministrative(eventId, body, recipientDigest, Now());
      // Nothing was awaited since the look-up, so the branches for a lost insert are dead here.
      assert inserted;
      ghost var begun := store.admin;
      var reply := SendText(eventId, Sender.Message(recipient, text, AdministrativeName(eventId)));
      ghost var sent := store.admin;
      match reply
      case Returned(ref) =>
        store.AcceptAdministrative(eventId, ref, Now());
        answer := Recorded(TransportAccepted, true, false, ref);
      case Raised(code) =>
        store.DoubtAdministrative(eventId, code, Now());
        answer := OutcomeIsUnknown;
      hide RowsKept;
      StatementsKeep(old(store.admin), eventId, body, recipientDigest, reply, old(Now()));
      StatementsKeep(sent, eventId, body, recipientDigest, reply, Now());
      KeptTransitive(old(store.admin), begun, sent);
      KeptTransitive(old(store.admin), sent, store.admin);
    }
  }

  /** The same communication twice: one call, and the second is told how the first one ended. */
  method SendTwice(service: AdministrativeService, eventId: string, recipient: string, text: string, body: string)
    returns (first: Answer, second: Answer)
    requires Considerate(service.env) && eventId !in service.store.admin
    modifies service, service.store`admin
    ensures |service.posted| == |old(service.posted)| + 1
    ensures first.Recorded? ==> second == first && first.status == TransportAccepted && first.accepted
    ensures !first.Recorded? ==> first == OutcomeIsUnknown && second == Recorded(OutcomeUnknown, false, false, None)
  {
    first := service.SendAdministrativeCommunication(eventId, recipient, text, body);
    second := service.SendAdministrativeCommunication(eventId, recipient, text, body);
  }

  /** And other content under a known event is refused, whatever became of the first. */
  method SendOther(service: AdministrativeService, eventId: string, recipient: string, text: string, body: string,
                   otherRecipient: string, otherText: string, otherBody: string)
    returns (first: Answer, second: Answer)
    requires Considerate(service.env) && eventId !in service.store.admin
    requires otherBody != body || service.env.sha(otherRecipient) != service.env.sha(recipient)
    modifies service, service.store`admin
    ensures |service.posted| == |old(service.posted)| + 1 && second == Conflict
  {
    first := service.SendAdministrativeCommunication(eventId, recipient, text, body);
    second := service.SendAdministrativeCommunication(eventId, otherRecipient, otherText, otherBody);
  }

  // ----- the other requests

  /** Neither a statement of task `i` nor its end. */
  predicate ByOthers(s: Step, i: nat) {
    !s.Crash? && s != Cancel(i) && (s.Act? ==> s.i != i)
  }

  lemma OthersLeaveRow(w: World, s: Step, i: nat)
    requires Inv(w) && Enabled(w, s) && ByOthers(s, i) && i < |w.tasks| && w.tasks[i].pc.Waiting?
    ensures i < |Apply(w, s).tasks| && Apply(w, s).tasks[i] == w.tasks[i]
    ensures Leaves(w.tasks[i].eventId, w.ledger, Apply(w, s).ledger)
  {
    InvStep(w, s);
    assert Winner(w, w.tasks[i], i) && Placed(w, w.tasks[i]);
    if s.Act? {
      assert Winner(w, w.tasks[s.i], s.i) && Placed(w, w.tasks[s.i]);
    }
  }

  /** So while a request waits for the provider, whatever the others do, and however much of it, leaves
      its row alone, which is what the method relies on. */
  lemma {:induction false} AwaitLeavesRow(w: World, steps: seq<Step>, w': World, i: nat)
    requires Inv(w) && Run(w, steps, w')
    requires forall n :: 0 <= n < |steps| ==> ByOthers(steps[n], i)
    requires i < |w.tasks| && w.tasks[i].pc.Waiting?
    ensures i < |w'.tasks| && w'.tasks[i] == w.tasks[i]
    ensures Leaves(w.tasks[i].eventId, w.ledger, w'.ledger)
    decreases |steps|
  {
    hide Apply, Enabled, Inv, ByOthers;
    if steps != [] {
      var w1 := Apply(w, steps[0]);
      assert ByOthers(steps[0], i);
      InvStep(w, steps[0]);
      OthersLeaveRow(w, steps[0], i);
      AwaitLeavesRow(w1, steps[1..], w', i);
      KeptTransitive(w.ledger, w1.ledger, w'.ledger);
    }
  }

  // ----- the method runs the protocol

  lemma {:induction false} RunSnoc(w: World, steps: seq<Step>, w': World, s: Step)
    requires Run(w, steps, w') && Enabled(w', s)
    ensures Run(w, steps + [s], Apply(w', s))
    decreases |steps|
  {
    hide Apply, Enabled;
    if steps == [] {
      assert steps + [s] == [s] && [s][1..] == [];
      assert Run(Apply(w', s), [], Apply(w', s));
    } else {
      assert (steps + [s])[1..] == steps[1..] + [s];
      RunSnoc(Apply(w, steps[0]), steps[1..], w', s);
    }
  }

  lemma Next1(w: World, s: Step) returns (w': World)
    requires Reachable(w) && Enabled(w, s)
    ensures Reachable(w') && w' == Apply(w, s)
  {
    var clock, steps :| Run(Init(clock), steps, w);
    RunSnoc(Init(clock), steps, w, s);
    w' := Apply(w, s);
  }

  lemma {:induction false} RunReaches(w: World, steps: seq<Step>, w': World)
    requires Reachable(w) && Run(w, steps, w')
    ensures Reachable(w')
    decreases |steps|
  {
    hide Apply, Enabled, Reachable;
    if steps != [] {
      var w1 := Next1(w, steps[0]);
      RunReaches(w1, steps[1..], w');
    }
  }

  lemma {:induction false} StaysUp(w: World, steps: seq<Step>, w': World, i: nat)
    requires w.up && Run(w, steps, w') && forall n :: 0 <= n < |steps| ==> ByOthers(steps[n], i)
    ensures w'.up
    decreases |steps|
  {
    if steps != [] {
      assert ByOthers(steps[0], i);
      StaysUp(Apply(w, steps[0]), steps[1..], w', i);
    }
  }

  /** A new event has come in, has its row, and waits for the provider. */
  function Waiting(w: World, eventId: string, body: string, recipient: string): World {
    var i := |w.tasks|;
    w.(tasks := w.tasks + [Task(eventId, body, recipient, Pc.Waiting, true, true)],
       ledger := BeginAdmin(w.ledger, eventId, body, recipient, w.clock),
       calls := w.calls + [eventId], winner := w.winner[eventId := i])
  }

  lemma WaitingIsRun(w: World, eventId: string, body: string, recipient: string) returns (w': World)
    requires Reachable(w) && w.up && eventId !in w.ledger
    ensures Reachable(w') && w' == Waiting(w, eventId, body, recipient)
  {
    hide Reachable;
    var i := |w.tasks|;
    var w1 := Next1(w, Start(eventId, body, recipient));
    var w2 := Next1(w1, Act(i, Go));
    var w3 := Next1(w2, Act(i, Go));
    w' := Next1(w3, Act(i, Go));
    assert w'.tasks == Waiting(w, eventId, body, recipient).tasks;
  }

  lemma CloseIsRun(w: World, i: nat, reply: Reply) returns (w': World)
    requires Reachable(w) && w.up && i < |w.tasks| && w.tasks[i].pc.Waiting?
    ensures Reachable(w') && |w'.tasks| == |w.tasks|
    ensures var id := w.tasks[i].eventId;
            w'.ledger == match reply
                         case Returned(ref) => MarkAdminAccepted(w.ledger, id, ref, w.clock)
                         case Raised(code) => MarkAdminUnknown(w.ledger, id, code, w.clock)
    ensures w'.tasks[i].pc == Closed(match reply
                                     case Returned(ref) => Recorded(TransportAccepted, true, false, ref)
                                     case Raised(_) => OutcomeIsUnknown)
  {
    hide Reachable;
    var w1 := Next1(w, Act(i, Choice.Reply(reply)));
    w' := Next1(w1, Act(i, Go));
  }

  /** The environment of one await: at this turn it does what the run does, and nothing anywhere else. */
  function EnvironmentOf(turn: nat, eventId: string, start: World, end: World, reply: Reply,
                         sha: string -> string): Env
  {
    Env(_ => reply,
        (n, id, a) => if n == turn && id == eventId && a == start.ledger then end.ledger else a,
        n => if n <= turn then start.clock else end.clock, sha)
  }

  /** Whatever other requests do in a run while this one waits, there is an environment that does just that
      and keeps to what the method requires; and the method then ends where the run of the protocol ends, with
      the same ledger and the same answer. */
  lemma CommunicationIsRun(w: World, eventId: string, body: string, recipient: string, turn: nat,
                           steps: seq<Step>, end: World, reply: Reply, sha: string -> string)
    returns (w': World)
    requires Reachable(w) && w.up && eventId !in w.ledger
    requires Run(Waiting(w, eventId, body, sha(recipient)), steps, end)
    requires forall n :: 0 <= n < |steps| ==> ByOthers(steps[n], |w.tasks|)
    ensures var env := EnvironmentOf(turn, eventId, Waiting(w, eventId, body, sha(recipient)), end, reply, sha);
            && Considerate(env)
            && Reachable(w') && w'.ledger == CommunicationWalk(env, eventId, body, recipient, turn, w.ledger)
            && |w.tasks| < |w'.tasks|
            && w'.tasks[|w.tasks|].pc
               == Closed(
                    if reply.Returned? then Recorded(TransportAccepted, true, false, reply.ref) else OutcomeIsUnknown)
  {
    var i := |w.tasks|;
    var start := WaitingIsRun(w, eventId, body, sha(recipient));
    InvReachable(start);
    AwaitLeavesRow(start, steps, end, i);
    StaysUp(start, steps, end, i);
    RunReaches(start, steps, end);
    hide Reachable, Run, Inv, RowsKept;
    w' := CloseIsRun(end, i, reply);
    var env := EnvironmentOf(turn, eventId, start, end, reply, sha);
    forall n: nat, id: string, a: AdminLedger ensures Leaves(id, a, env.others(n, id, a)) {
      LeavesSelf(id, a);
    }
  }

  lemma LeavesSelf(id: string, a: AdminLedger)
    ensures Leaves(id, a, a)
  {
  }
}
