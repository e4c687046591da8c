/** Governed administrative communications: one transport call per event id, ever.

    Requests interleave between any two store statements, may be cancelled, and the process may crash
    and restart with pruning at any point. */
module Administrative {
  import opened Wrappers
  import opened Store

  datatype Answer =
    | Recorded(status: AdminStatus, accepted: bool, confirmed: bool, ref: Option<string>)  // a replay, or the outcome
    | Conflict                                                                             // same id, other content
    | LedgerUnavailable
    | OutcomeIsUnknown

  datatype Pc =
    | Looking                            // administrative_communication_for
    | Inserting                          // begin_administrative_communication
    | Rereading                          // lost the insert
    | Ready                              // about to call send_text
    | Waiting                            // inside send_text
    | Accepting(ref: Option<string>)     // mark ..._transport_accepted
    | Doubting(code: string)             // mark ..._unknown
    | Closed(answer: Answer)
    | Gone

  datatype Task = Task(eventId: string, body: string, recipient: string, pc: Pc, won: bool, called: bool)

  datatype World = World(
    ledger: AdminLedger,
    tasks: seq<Task>,
    clock: int,
    up: bool,
    calls: seq<string>,         // history: the event id of each send_text call, in order
    winner: map<string, nat>)   // history: who inserted each row

  function Init(clock: int): World { World(map[], [], clock, false, [], map[]) }

  /** How a call of `send_text` ends. */
  datatype Reply = Returned(ref: Option<string>) | Raised(code: string)

  datatype Choice = Go | Reply(reply: Reply)

  datatype Step =
    | Start(eventId: string, body: string, recipient: string)
    | Act(i: nat, c: Choice)
    | Tick(seconds: nat)
    | Cancel(i: nat)
    | Crash
    | Boot(retention: int)

  predicate Live(pc: Pc) { !pc.Closed? && !pc.Gone? }

  /** What a request is told from the row of its event. */
  function Replay(row: AdminRow, body: string, recipient: string): Answer {
    if row.bodyDigest != body || row.recipientDigest != recipient then Conflict
    else Recorded(row.status, row.transportAccepted, row.deliveryConfirmed, row.providerRef)
  }

  predicate CanAct(w: World, i: nat, c: Choice) {
    && i < |w.tasks| && Live(w.tasks[i].pc)
    && if w.tasks[i].pc.Waiting? then !c.Go? else c.Go?
  }

  function Next(w: World, t: Task, c: Choice): Task
    requires Live(t.pc)
  {
    match t.pc
    case Looking =>
      if t.eventId in w.ledger then t.(pc := Closed(Replay(w.ledger[t.eventId], t.body, t.recipient)))
      else t.(pc := Inserting)
    case Inserting => if t.eventId in w.ledger then t.(pc := Rereading) else t.(pc := Ready, won := true)
    case Rereading =>
      t.(pc := Closed(
        if t.eventId in w.ledger then Replay(w.ledger[t.eventId], t.body, t.recipient) else LedgerUnavailable))
    case Ready => t.(pc := Waiting, called := true)
    case Waiting =>
      (match c
       case Reply(Returned(ref)) => t.(pc := Accepting(ref))
       case Reply(Raised(code)) => t.(pc := Doubting(code))
       case Go => t)
    case Accepting(ref) => t.(pc := Closed(Recorded(TransportAccepted, true, false, ref)))
    case Doubting(code) => t.(pc := Closed(OutcomeIsUnknown))
  }

  function NextLedger(w: World, t: Task): AdminLedger {
    match t.pc
    case Inserting => BeginAdmin(w.ledger, t.eventId, t.body, t.recipient, w.clock)
    case Accepting(ref) => MarkAdminAccepted(w.ledger, t.eventId, ref, w.clock)
    case Doubting(code) => MarkAdminUnknown(w.ledger, t.eventId, code, w.clock)
    case _ => w.ledger
  }

  function DoAct(w: World, i: nat, c: Choice): World
    requires CanAct(w, i, c)
  {
    var t := w.tasks[i];
    w.(tasks := w.tasks[i := Next(w, t, c)],
       ledger := NextLedger(w, t),
       calls := if t.pc.Ready? then w.calls + [t.eventId] else w.calls,
       winner := if t.pc.Inserting? && t.eventId !in w.ledger then w.winner[t.eventId := i] else w.winner)
  }

  predicate Enabled(w: World, s: Step) {
    match s
    case Start(_, _, _) => w.up
    case Act(i, c) => w.up && CanAct(w, i, c)
    case Tick(_) => true
    case Cancel(i) => i < |w.tasks| && Live(w.tasks[i].pc)
    case Crash => w.up
    case Boot(_) => !w.up
  }

  function Vanish(t: Task): Task { if Live(t.pc) then t.(pc := Gone) else t }

  function Apply(w: World, s: Step): World
    requires Enabled(w, s)
  {
    match s
    case Start(id, body, recipient) => w.(tasks := w.tasks + [Task(id, body, recipient, Looking, false, false)])
    case Act(i, c) => DoAct(w, i, c)
    case Tick(seconds) => w.(clock := w.clock + seconds)
    case Cancel(i) => w.(tasks := w.tasks[i := Vanish(w.tasks[i])])
    case Crash => w.(up := false, tasks := seq(|w.tasks|, i requires 0 <= i < |w.tasks| => Vanish(w.tasks[i])))
    case Boot(retention) => w.(up := true, ledger := PruneAdmin(w.ledger, w.clock - retention))
  }

  ghost predicate Run(w: World, steps: seq<Step>, w': World)
    decreases |steps|
  {
    if steps == [] then w' == w
    else Enabled(w, steps[0]) && Run(Apply(w, steps[0]), steps[1..], w')
  }

  ghost predicate Reachable(w: World) {
    exists clock, steps :: Run(Init(clock), steps, w)
  }

  // ----- invariants

  /** A task that won its insert is the winner of record, and its row carries its digests. */
  predicate Winner(w: World, t: Task, i: nat) {
    t.won ==>
      && t.eventId in w.winner && w.winner[t.eventId] == i
      && t.eventId in w.ledger
      && w.ledger[t.eventId].bodyDigest == t.body && w.ledger[t.eventId].recipientDigest == t.recipient
  }

  /** How far a task has come, and that its outcome is not written before its statement runs. */
  predicate Placed(w: World, t: Task) {
    && (t.pc.Ready? || t.pc.Waiting? || t.pc.Accepting? || t.pc.Doubting? ==>
          t.won && t.eventId in w.ledger && w.ledger[t.eventId].status.AdminPrepared?)
    && (t.pc.Ready? ==> !t.called)
    && (t.pc.Looking? || t.pc.Inserting? || t.pc.Rereading? ==> !t.won)
    && (t.pc.Rereading? ==> t.eventId in w.ledger)
    && (t.called ==> t.won)
    && t.pc != Closed(LedgerUnavailable)
  }

  predicate GoodAdminRow(row: AdminRow) {
    && !row.status.AdminConfirmed? && !row.status.AdminFailed?
    && row.attempts == (if row.status.AdminPrepared? then 0 else 1)
    && (row.transportAccepted <==> row.status.TransportAccepted?)
    && !row.deliveryConfirmed
  }

  /** Every answer fits the row. It never says "confirmed", and what it says of the outcome is what the row
      says; a conflict is one of content; a doubtful outcome is told only to the request that made the call. */
  predicate Honest(w: World, t: Task) {
    t.pc.Closed? ==>
      && t.eventId in w.ledger
      && var row := w.ledger[t.eventId];
      var sameContent := row.bodyDigest == t.body && row.recipientDigest == t.recipient;
      match t.pc.answer
      case Recorded(status, accepted, confirmed, ref) =>
        && sameContent && !confirmed && (accepted <==> status.TransportAccepted?)
        && (!status.AdminPrepared? ==> row.status == status && row.providerRef == ref)
        && (t.won ==> status.TransportAccepted?)
      case Conflict => !sameContent && !t.won
      case OutcomeIsUnknown => t.won && row.status.OutcomeUnknown?
      case LedgerUnavailable => false
  }

  predicate Called(w: World, id: string) {
    id in w.winner && w.winner[id] < |w.tasks| && w.tasks[w.winner[id]].eventId == id && w.tasks[w.winner[id]].called
  }

  ghost predicate Inv(w: World) {
    && (forall i :: 0 <= i < |w.tasks| ==> Winner(w, w.tasks[i], i))
    && (forall i :: 0 <= i < |w.tasks| ==> Placed(w, w.tasks[i]))
    && (forall i :: 0 <= i < |w.tasks| ==> Honest(w, w.tasks[i]))
    && (forall id :: id in w.ledger ==> GoodAdminRow(w.ledger[id]))
    && (forall a :: 0 <= a < |w.calls| ==> Called(w, w.calls[a]))
    && (forall a, b :: 0 <= a < b < |w.calls| ==> w.calls[a] != w.calls[b])
  }

  /** What one statement leaves of a row: its digests always, and the whole row once its outcome is written. */
  ghost predicate RowsKept(a: AdminLedger, b: AdminLedger) {
    forall id :: id in a ==>
      && id in b
      && b[id].bodyDigest == a[id].bodyDigest && b[id].recipientDigest == a[id].recipientDigest
      && b[id].createdAt == a[id].createdAt
      && (!a[id].status.AdminPrepared? ==> b[id] == a[id])
  }

  lemma LedgerAct(w: World, i: nat, c: Choice)
    requires Inv(w) && CanAct(w, i, c)
    ensures var w' := DoAct(w, i, c);
            && RowsKept(w.ledger, w'.ledger)
            && (forall id :: id in w'.ledger ==> GoodAdminRow(w'.ledger[id]))
            && (forall id :: id in w.ledger && id != w.tasks[i].eventId ==> w'.ledger[id] == w.ledger[id])
  {
    assert Placed(w, w.tasks[i]);
    assert w.tasks[i].eventId in w.ledger ==> GoodAdminRow(w.ledger[w.tasks[i].eventId]);
  }

  lemma TasksAct(w: World, i: nat, c: Choice)
    requires Inv(w) && CanAct(w, i, c)
    ensures var w' := DoAct(w, i, c);
            && (forall j :: 0 <= j < |w'.tasks| ==> Winner(w', w'.tasks[j], j))
            && (forall j :: 0 <= j < |w'.tasks| ==> Placed(w', w'.tasks[j]))
  {
    var w' := DoAct(w, i, c);
    LedgerAct(w, i, c);
    assert Winner(w, w.tasks[i], i) && Placed(w, w.tasks[i]);
    forall j | 0 <= j < |w'.tasks|
      ensures Winner(w', w'.tasks[j], j) && Placed(w', w'.tasks[j])
    {
      if j == i {
        MineAct(w, i, c);
      } else {
        OtherAct(w, i, c, j);
      }
    }
  }

  lemma MineAct(w: World, i: nat, c: Choice)
    requires Inv(w) && CanAct(w, i, c)
    ensures var w' := DoAct(w, i, c); Winner(w', w'.tasks[i], i) && Placed(w', w'.tasks[i])
  {
    assert Winner(w, w.tasks[i], i) && Placed(w, w.tasks[i]);
  }

  lemma OtherAct(w: World, i: nat, c: Choice, j: nat)
    requires Inv(w) && CanAct(w, i, c) && j < |w.tasks| && j != i
    ensures var w' := DoAct(w, i, c); Winner(w', w.tasks[j], j) && Placed(w', w.tasks[j])
  {
    LedgerAct(w, i, c);
    assert Winner(w, w.tasks[i], i) && Placed(w, w.tasks[i]);
    assert Winner(w, w.tasks[j], j) && Placed(w, w.tasks[j]);
  }

  lemma HonestAct(w: World, i: nat, c: Choice)
    requires Inv(w) && CanAct(w, i, c)
    ensures var w' := DoAct(w, i, c); forall j :: 0 <= j < |w'.tasks| ==> Honest(w', w'.tasks[j])
  {
    var w' := DoAct(w, i, c);
    LedgerAct(w, i, c);
    forall j | 0 <= j < |w'.tasks| ensures Honest(w', w'.tasks[j]) {
      assert Honest(w, w.tasks[j]);
      if j == i {
        assert Winner(w, w.tasks[i], i) && Placed(w, w.tasks[i]);
      }
    }
  }

  lemma CallsAct(w: World, i: nat, c: Choice)
    requires Inv(w) && CanAct(w, i, c)
    ensures var w' := DoAct(w, i, c);
            && (forall a :: 0 <= a < |w'.calls| ==> Called(w', w'.calls[a]))
            && (forall a, b :: 0 <= a < b < |w'.calls| ==> w'.calls[a] != w'.calls[b])
  {
    var w' := DoAct(w, i, c);
    assert Winner(w, w.tasks[i], i) && Placed(w, w.tasks[i]);
    forall a | 0 <= a < |w'.calls| ensures Called(w', w'.calls[a]) {
      if a < |w.calls| {
        assert Called(w, w.calls[a]);
        var o := w.winner[w.calls[a]];
        assert Winner(w, w.tasks[o], o) && Placed(w, w.tasks[o]);
      }
    }
    if w.tasks[i].pc.Ready? {
      forall a | 0 <= a < |w.calls| ensures w.calls[a] != w.tasks[i].eventId {
        assert Called(w, w.calls[a]);
      }
    }
  }

  lemma InvStep(w: World, s: Step)
    requires Inv(w) && Enabled(w, s)
    ensures Inv(Apply(w, s)) && RowsKept(w.ledger, Apply(w, s).ledger)
  {
    var w' := Apply(w, s);
    match s
    case Act(i, c) => {
      hide DoAct, Winner, Placed, Honest, GoodAdminRow, Called;
      LedgerAct(w, i, c);
      TasksAct(w, i, c);
      HonestAct(w, i, c);
      CallsAct(w, i, c);
    }
    case Boot(retention) => assert w'.ledger == w.ledger;
    case _ =>
      forall i | 0 <= i < |w'.tasks|
        ensures Winner(w', w'.tasks[i], i) && Placed(w', w'.tasks[i]) && Honest(w', w'.tasks[i])
      {
        assert i < |w.tasks| ==> Winner(w, w.tasks[i], i) && Placed(w, w.tasks[i]) && Honest(w, w.tasks[i]);
      }
      forall a | 0 <= a < |w'.calls| ensures Called(w', w'.calls[a]) {
        assert Called(w, w.calls[a]);
      }
  }

  lemma {:induction false} InvRun(w: World, steps: seq<Step>, w': World)
    requires Inv(w) && Run(w, steps, w')
    ensures Inv(w')
    decreases |steps|
  {
    if steps != [] {
      InvStep(w, steps[0]);
      InvRun(Apply(w, steps[0]), steps[1..], w');
    }
  }

  lemma InvReachable(w: World)
    requires Reachable(w)
    ensures Inv(w)
  {
    var clock, steps :| Run(Init(clock), steps, w);
    InvRun(Init(clock), steps, w);
  }

  // ----- the guarantees

  /** Over the whole history of an installation `send_text` is called at most once for an event id. */
  lemma OneCallPerEvent(w: World)
    requires Reachable(w)
    ensures forall a, b :: 0 <= a < b < |w.calls| ==> w.calls[a] != w.calls[b]
    ensures forall a :: 0 <= a < |w.calls| ==> w.calls[a] in w.ledger
  {
    InvReachable(w);
    forall a | 0 <= a < |w.calls| ensures w.calls[a] in w.ledger {
      assert Called(w, w.calls[a]);
      var o := w.winner[w.calls[a]];
      assert Winner(w, w.tasks[o], o) && Placed(w, w.tasks[o]);
    }
  }

  /** The call was made with the content the row records: every caller's digests are those of the row,
      so no request with other content reaches the transport. */
  lemma CallersMatchRow(w: World, i: nat)
    requires Reachable(w) && i < |w.tasks| && w.tasks[i].called
    ensures w.tasks[i].eventId in w.ledger
    ensures w.ledger[w.tasks[i].eventId].bodyDigest == w.tasks[i].body
    ensures w.ledger[w.tasks[i].eventId].recipientDigest == w.tasks[i].recipient
  {
    InvReachable(w);
    assert Winner(w, w.tasks[i], i) && Placed(w, w.tasks[i]);
  }

  /** Rows are never lost, their digests never change, their outcome is written at most once, and an
      attempt is counted exactly when it is. */
  lemma OutcomesAreFinal(w: World, s: Step)
    requires Reachable(w) && Enabled(w, s)
    ensures RowsKept(w.ledger, Apply(w, s).ledger)
    ensures forall id :: id in w.ledger ==>
                           && (w.ledger[id].attempts == 0 <==> w.ledger[id].status.AdminPrepared?)
                           && w.ledger[id].attempts <= 1
  {
    InvReachable(w);
    InvStep(w, s);
    forall id | id in w.ledger ensures GoodAdminRow(w.ledger[id]) {
    }
  }

  /** The "ledger unavailable" answer of the code is never given. */
  lemma LedgerIsAvailable(w: World, i: nat)
    requires Reachable(w) && i < |w.tasks|
    ensures w.tasks[i].pc != Closed(LedgerUnavailable)
  {
    InvReachable(w);
    assert Placed(w, w.tasks[i]);
  }

  /** Whoever asked with the content of the row is told the recorded state, and if it made the call itself, how
      that ended; whoever asked with other content is told of the conflict. No answer claims a confirmed
      delivery, and one that tells an outcome tells the one that the row has ever since. */
  lemma AnswersMatchRow(w: World, i: nat)
    requires Reachable(w) && i < |w.tasks| && w.tasks[i].pc.Closed?
    ensures w.tasks[i].eventId in w.ledger
    ensures var t := w.tasks[i];
            var row, answer := w.ledger[t.eventId], t.pc.answer;
            && (answer.Conflict? <==> row.bodyDigest != t.body || row.recipientDigest != t.recipient)
            && (!answer.Conflict? && !t.won ==> answer.Recorded?)
            && (answer.Recorded? ==>
                  && !answer.confirmed && (answer.accepted <==> answer.status == TransportAccepted)
                  && (answer.status != AdminPrepared ==> row.status == answer.status && row.providerRef == answer.ref))
            && (answer.OutcomeIsUnknown? ==> t.won && row.status == OutcomeUnknown)
            && (t.won ==> answer.OutcomeIsUnknown? || (answer.Recorded? && answer.status == TransportAccepted))
  {
    InvReachable(w);
    assert Honest(w, w.tasks[i]) && Winner(w, w.tasks[i], i);
  }

  /** A repetition that finds the outcome in the row is told exactly that. */
  lemma RepeatIsToldOutcome(w: World, i: nat)
    requires Reachable(w) && Enabled(w, Act(i, Go)) && (w.tasks[i].pc.Looking? || w.tasks[i].pc.Rereading?)
    requires w.tasks[i].eventId in w.ledger
    ensures var t, row := w.tasks[i], w.ledger[w.tasks[i].eventId];
            var pc := Apply(w, Act(i, Go)).tasks[i].pc;
            if row.bodyDigest == t.body && row.recipientDigest == t.recipient then
              && (row.status == TransportAccepted ==>
                    pc == Closed(Recorded(TransportAccepted, true, false, row.providerRef)))
              && (row.status == OutcomeUnknown ==>
                    pc == Closed(Recorded(OutcomeUnknown, false, false, row.providerRef)))
              && (row.status == AdminPrepared ==> pc == Closed(Recorded(AdminPrepared, false, false, row.providerRef)))
            else pc == Closed(Conflict)
  {
    InvReachable(w);
    assert GoodAdminRow(w.ledger[w.tasks[i].eventId]);
  }
}
