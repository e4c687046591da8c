/** What a repeated notification is told. */
module Duplicates {
  import opened Wrappers
  import opened Keys
  import Security
  import opened Store
  import opened Delivery
  import opened Ownership
  import opened Rows
  import opened Guarantees
  import opened Scenarios

  /** What an answer to a duplicate says of the delivery. */
  predicate Says(r: Result, status: Option<RowStatus>, accepted: bool, confirmed: bool) {
    r.Deduplicated? && r.status == status && r.accepted == accepted && r.confirmed == confirmed
  }

  /** A task of this event holds the claim and is past begin_delivery, but nothing is recorded yet. */
  predicate UnderWay(w: World, k: string) {
    k in w.owner && w.owner[k] < |w.tasks|
    && var pc := w.tasks[w.owner[k]].pc;
    pc.Sending? || pc.Confirming? || pc.Recording?
  }

  /** The plain "deduplicated" is for events without a row and for rows that are only prepared; the other
      answers name the status of the row; "accepted" means that a delivery has begun. */
  ghost predicate ToldFromRow(ledger: Ledger, id: string, r: Result) {
    && r.Deduplicated?
    && (id !in ledger ==> Says(r, None, false, false))
    && (id in ledger ==>
          && (r.status == None <==> ledger[id].status == Prepared)
          && (r.status != None ==> r.status == Some(ledger[id].status))
          && (r.accepted <==> ledger[id].attempts >= 1)
          && (r.confirmed <==> ledger[id].deliveryConfirmedAt != None))
  }

  /** What the claim says of the answer. */
  ghost predicate ToldFromClaim(w: World, k: string, r: Result) {
    && (k in w.claims && w.claims[k].status == Delivered ==> Says(r, Some(DeliveryConfirmed), true, true))
    && (k in w.claims && w.claims[k].status == Abandoned ==>
          r.Deduplicated? && r.status == Some(PermanentFailed) && r.accepted)
    && (k in w.claims && w.claims[k].status == Processing && UnderWay(w, k) ==>
          r.Deduplicated? && r.status == Some(Delivering) && r.accepted)
  }

  /** The row behind a finished claim, and behind one under way. */
  lemma RowBehindClaim(cfg: Config, w: World, subject: Subject)
    requires Reachable(cfg, w) && Apart(w) && subject.Notice? && ClaimKey(subject) in w.claims
    requires w.claims[ClaimKey(subject)].status.Processing? ==> UnderWay(w, ClaimKey(subject))
    ensures var id, c := LedgerId(subject), w.claims[ClaimKey(subject)];
            && id in w.ledger && RowShape(w.ledger[id])
            && (c.status.Delivered? ==> w.ledger[id].status.DeliveryConfirmed?)
            && (c.status.Abandoned? ==> w.ledger[id].status.PermanentFailed?)
            && (c.status.Processing? ==> w.ledger[id].status.Delivering?)
  {
    var k, id := ClaimKey(subject), LedgerId(subject);
    if w.claims[k].status.Processing? {
      InvReachable(cfg, w);
      assert ClaimOwned(w, k);
      ClaimKeyInjective(w.tasks[w.owner[k]].subject, subject);
      assert StageOk(w, w.owner[k]);
    } else {
      FinishedClaimsHaveRows(cfg, w, subject);
    }
    RowsKeepTheirShape(cfg, w, id);
  }

  lemma AnswerIsFromRow(w: World, i: nat)
    requires CanAct(w, i, Go) && w.tasks[i].pc.Answering?
    requires LedgerId(w.tasks[i].subject) in w.ledger ==> RowShape(w.ledger[LedgerId(w.tasks[i].subject)])
    ensures var w' := DoAct(w, i, Go);
            w'.tasks[i].pc.Finished? && ToldFromRow(w.ledger, LedgerId(w.tasks[i].subject), w'.tasks[i].pc.result)
  {
    hide OneTask, Quiet, Shaped, LedgerAfter;
  }

  lemma AnswerFitsClaim(cfg: Config, w: World, subject: Subject, r: Result)
    requires Reachable(cfg, w) && Apart(w) && subject.Notice? && ToldFromRow(w.ledger, LedgerId(subject), r)
    ensures ToldFromClaim(w, ClaimKey(subject), r)
  {
    var k := ClaimKey(subject);
    if k in w.claims && (w.claims[k].status.Processing? ==> UnderWay(w, k)) {
      RowBehindClaim(cfg, w, subject);
    }
    hide Reachable, Apart, ClaimKey, UnderWay;
  }

  /** The answer is the truth about the row at that time, and about the claim where it is still there. */
  lemma DuplicatesAreTold(cfg: Config, w: World, i: nat)
    requires Reachable(cfg, w) && Enabled(cfg, w, Act(i, Go)) && w.tasks[i].pc.Answering?
    ensures var t, w' := w.tasks[i], Apply(cfg, w, Act(i, Go));
            && t.subject.Notice? && w'.tasks[i].pc.Finished?
            && ToldFromRow(w.ledger, LedgerId(t.subject), w'.tasks[i].pc.result)
            && (Apart(w) ==> ToldFromClaim(w, Key(t), w'.tasks[i].pc.result))
  {
    var t := w.tasks[i];
    if LedgerId(t.subject) in w.ledger {
      RowsKeepTheirShape(cfg, w, LedgerId(t.subject));
    }
    AnswerIsFromRow(w, i);
    hide Reachable, Apart, DoAct, ToldFromRow, ToldFromClaim;
    if Apart(w) {
      AnswerFitsClaim(cfg, w, t.subject, DoAct(w, i, Go).tasks[i].pc.result);
    }
  }

  /** So whoever repeats a notification that was delivered, and is not interrupted, is told "confirmed". */
  lemma RepeatIsToldConfirmed(cfg: Config, w: World, eventId: string, stamp: int, text: string) returns (w': World)
    requires Reachable(cfg, w) && w.up && Apart(w) && Security.InsideWindow(w.clock, stamp, cfg.ttl)
    requires var k := ClaimKey(Notice(eventId)); k in w.claims && w.claims[k].status == Delivered
    ensures Reachable(cfg, w') && |w'.tasks| == |w.tasks| + 1 && w'.tasks[|w.tasks|].subject == Notice(eventId)
    ensures w'.tasks[|w.tasks|].pc.Finished? && Says(w'.tasks[|w.tasks|].pc.result, Some(DeliveryConfirmed), true, true)
  {
    RowBehindClaim(cfg, w, Notice(eventId));
    hide Reachable, Apart;
    w' := AskAgain(cfg, w, eventId, stamp, text);
  }
}
