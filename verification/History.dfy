/** The life of one ledger row, statement by statement: who makes it, what each statement writes and what it
    leaves as it was. */
module History {
  import opened Wrappers
  import opened Keys
  import opened Store
  import opened Delivery

  /** What no statement ever changes in a row: where and when it came from, and the first time a delivery of it
      was accepted. A confirmation is not taken back, and attempts only grow. */
  predicate Lasts(a: Row, b: Row) {
    && b.createdAt == a.createdAt && b.synthetic == a.synthetic
    && (a.transportAcceptedAt != None ==> b.transportAcceptedAt == a.transportAcceptedAt)
    && (a.transportAccepted ==> b.transportAccepted) && (a.deliveryConfirmed ==> b.deliveryConfirmed)
    && a.attempts <= b.attempts
  }

  /** What task `t` writes to the row of its event at this time. */
  predicate Writes(t: Task, now: int, a: Row, b: Row) {
    match t.pc
    case Beginning =>
      && b.status == Delivering && b.source == t.source && b.attempts == a.attempts + 1 && b.updatedAt == now
      && b.lastErrorCode == "" && b.nextRetryAt == None && b.terminalAt == None && b.transportAccepted
      && (a.transportAcceptedAt == None ==> b.transportAcceptedAt == Some(now))
      && b.deliveryConfirmed == a.deliveryConfirmed && b.deliveryConfirmedAt == a.deliveryConfirmedAt
    case Confirming =>
      && b.status == DeliveryConfirmed && b.source == a.source && b.attempts == a.attempts && b.updatedAt == now
      && b.lastErrorCode == "" && b.nextRetryAt == None && b.terminalAt == Some(now)
      && b.deliveryConfirmed && b.deliveryConfirmedAt == Some(now) && b.transportAcceptedAt == a.transportAcceptedAt
    case Recording(f) =>
      && b.source == a.source && b.attempts == a.attempts && b.updatedAt == now && b.lastErrorCode == f.code
      && b.deliveryConfirmed == a.deliveryConfirmed && b.deliveryConfirmedAt == a.deliveryConfirmedAt
      && b.transportAcceptedAt == a.transportAcceptedAt
      && if f.retryable then b.status == Retrying && b.nextRetryAt == Some(now) && b.terminalAt == None
         else b.status == PermanentFailed && b.nextRetryAt == None && b.terminalAt == Some(now)
    case _ => b == a
  }

  /** A row made by the first begin_delivery of its event, and one that is only prepared. */
  predicate FirstRow(t: Task, now: int, b: Row) {
    && t.pc.Beginning? && b.source == t.source && b.status == Delivering && b.attempts == 1 && !b.synthetic
    && b.createdAt == now && b.updatedAt == now && b.transportAcceptedAt == Some(now)
    && !b.deliveryConfirmed && b.deliveryConfirmedAt == None && b.terminalAt == None && b.nextRetryAt == None
  }

  predicate PreparedRow(now: int, b: Row) {
    && b.source == "test" && b.status == Prepared && b.attempts == 0 && b.synthetic
    && b.createdAt == now && b.updatedAt == now && !b.transportAccepted && !b.deliveryConfirmed
    && b.transportAcceptedAt == None && b.deliveryConfirmedAt == None && b.terminalAt == None && b.nextRetryAt == None
  }

  lemma RowUnderAct(w: World, i: nat, id: string)
    requires i < |w.tasks| && id in LedgerAfter(w, i)
    ensures var t, b := w.tasks[i], LedgerAfter(w, i)[id];
            if id in w.ledger then
              Lasts(w.ledger[id], b)
              && (if !t.subject.Chat? && LedgerId(t.subject) == id then Writes(t, w.clock, w.ledger[id], b)
                  else b == w.ledger[id])
            else !t.subject.Chat? && LedgerId(t.subject) == id && FirstRow(t, w.clock, b)
  {
    hide RowShape, SoundRow;
  }

  /** Every step of every run: a row that is there keeps what lasts, and is written only by a task of its event,
      as that task stands; a new row is the first of a delivery or a prepared one. */
  lemma RowsAreWritten(cfg: Config, w: World, s: Step, id: string)
    requires Enabled(cfg, w, s) && id in Apply(cfg, w, s).ledger
    ensures var b := Apply(cfg, w, s).ledger[id];
            && (id in w.ledger ==> Lasts(w.ledger[id], b))
            && (if s.Act? && !w.tasks[s.i].subject.Chat? && LedgerId(w.tasks[s.i].subject) == id then
                  if id in w.ledger then Writes(w.tasks[s.i], w.clock, w.ledger[id], b)
                  else FirstRow(w.tasks[s.i], w.clock, b)
                else if id in w.ledger then b == w.ledger[id]
                else s == Prepare(id) && PreparedRow(w.clock, b))
  {
    if s.Act? {
      RowUnderAct(w, s.i, id);
      hide DoAct, LedgerAfter, Lasts, Writes, FirstRow, PreparedRow;
      assert OneTask(w, DoAct(w, s.i, s.c), s.i);
    }
  }

  /** And no row goes but in a restart. */
  lemma RowsStay(cfg: Config, w: World, s: Step, id: string)
    requires Enabled(cfg, w, s) && id in w.ledger && !s.Boot?
    ensures id in Apply(cfg, w, s).ledger
  {
    if s.Act? {
      hide DoAct, RowShape;
      assert OneTask(w, DoAct(w, s.i, s.c), s.i);
    }
  }
}
