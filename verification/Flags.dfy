/** When the confirmed flag of a ledger row and its status may differ. */
module Flags {
  import opened Keys
  import opened Store
  import opened Delivery
  import opened Ownership
  import opened Rows
  import opened Network
  import opened Replay

  /** A row that carries the flag is confirmed, or the claim it was confirmed under has been pruned. */
  predicate FlagOk(w: World, id: string) {
    id in w.ledger && w.ledger[id].deliveryConfirmed ==>
      w.ledger[id].status.DeliveryConfirmed? || (id in w.confirmedBy && w.confirmedBy[id] in w.expired)
  }

  ghost predicate FlagInv(w: World) {
    forall id :: id in w.ledger ==> FlagOk(w, id)
  }

  /** Whoever works on a row that carries the flag and is not about to confirm it is not the task that
      confirmed it, so the claim of that task is gone. */
  lemma ConfirmerExpired(w: World, i: nat)
    requires TaskInv(w) && ProofInv(w) && Apart(w) && i < |w.tasks| && !w.tasks[i].subject.Chat?
    requires Holds(w.tasks[i].pc) && !w.tasks[i].confirmed
    requires var id := LedgerId(w.tasks[i].subject); id in w.ledger && w.ledger[id].deliveryConfirmed
    ensures var id := LedgerId(w.tasks[i].subject); id in w.confirmedBy && w.confirmedBy[id] in w.expired
  {
    var id := LedgerId(w.tasks[i].subject);
    assert Proven(w, id);
    var j := w.confirmedBy[id];
    OthersConfirmed(w, j);
    if Owns(w, j) {
      SameRowSameTask(w, i, j);
    }
  }

  lemma FlagAct(w: World, i: nat, c: Choice)
    requires TaskInv(w) && ProofInv(w) && FlagInv(w) && Apart(w) && CanAct(w, i, c)
    ensures FlagInv(DoAct(w, i, c))
  {
    hide DoAct, LedgerAfter, TaskInv, ProofInv, Apart, Answered, NextPost, Onward;
    var w' := DoAct(w, i, c);
    ActElsewhere(w, i, c);
    if !w.tasks[i].subject.Chat? && Holds(w.tasks[i].pc) {
      FlagMine(w, i, c);
    }
    assert OneTask(w, w', i);
    forall id | id in w'.ledger ensures FlagOk(w', id) {
      assert id in w.ledger ==> FlagOk(w, id);
    }
  }

  /** The row of the task itself. */
  lemma FlagMine(w: World, i: nat, c: Choice)
    requires TaskInv(w) && ProofInv(w) && FlagInv(w) && Apart(w) && CanAct(w, i, c)
    requires !w.tasks[i].subject.Chat? && Holds(w.tasks[i].pc)
    ensures FlagOk(DoAct(w, i, c), LedgerId(w.tasks[i].subject))
  {
    hide DoAct, Answered, NextPost, Apart;
    var id := LedgerId(w.tasks[i].subject);
    RowFrame(w, i, c);
    FlagFrame(w, i, c);
    assert Shaped(w.tasks[i]) && (id in w.ledger ==> FlagOk(w, id));
    assert OneTask(w, DoAct(w, i, c), i);
    if (w.tasks[i].pc.Beginning? || w.tasks[i].pc.Recording?) && id in w.ledger && w.ledger[id].deliveryConfirmed {
      ConfirmerExpired(w, i);
    }
  }

  lemma FlagStep(cfg: Config, w: World, s: Step)
    requires TaskInv(w) && ProofInv(w) && FlagInv(w) && Apart(w) && Enabled(cfg, w, s)
    ensures FlagInv(Apply(cfg, w, s))
  {
    if s.Act? {
      FlagAct(w, s.i, s.c);
    } else {
      var w' := Apply(cfg, w, s);
      forall id | id in w'.ledger ensures FlagOk(w', id) {
        assert id in w.ledger ==> FlagOk(w, id);
      }
    }
  }

  // ----- when claims and final rows never survive a restart

  /** A row that carries the flag is confirmed, and the claim it was confirmed under is still there. */
  predicate FirmOk(w: World, id: string) {
    id in w.ledger && w.ledger[id].deliveryConfirmed ==>
      w.ledger[id].status.DeliveryConfirmed? && id in w.confirmedBy && w.confirmedBy[id] !in w.expired
  }

  ghost predicate FirmInv(w: World) {
    forall id :: id in w.ledger ==> FirmOk(w, id)
  }

  lemma FirmMine(w: World, i: nat, c: Choice)
    requires TaskInv(w) && ProofInv(w) && FirmInv(w) && Apart(w) && CanAct(w, i, c)
    requires !w.tasks[i].subject.Chat? && Holds(w.tasks[i].pc)
    ensures FirmOk(DoAct(w, i, c), LedgerId(w.tasks[i].subject))
  {
    hide DoAct, Answered, NextPost, Apart;
    var id := LedgerId(w.tasks[i].subject);
    RowFrame(w, i, c);
    FlagFrame(w, i, c);
    assert Shaped(w.tasks[i]) && (id in w.ledger ==> FirmOk(w, id));
    assert OneTask(w, DoAct(w, i, c), i);
    if (w.tasks[i].pc.Beginning? || w.tasks[i].pc.Recording?) && id in w.ledger && w.ledger[id].deliveryConfirmed {
      ConfirmerExpired(w, i);
    }
  }

  lemma FirmAct(w: World, i: nat, c: Choice)
    requires TaskInv(w) && ProofInv(w) && FirmInv(w) && Apart(w) && CanAct(w, i, c)
    ensures FirmInv(DoAct(w, i, c))
  {
    hide DoAct, LedgerAfter, TaskInv, ProofInv, Apart, Answered, NextPost, Onward;
    var w' := DoAct(w, i, c);
    ActElsewhere(w, i, c);
    if !w.tasks[i].subject.Chat? && Holds(w.tasks[i].pc) {
      FirmMine(w, i, c);
    }
    assert OneTask(w, w', i);
    forall id | id in w'.ledger ensures FirmOk(w', id) {
      assert id in w.ledger ==> FirmOk(w, id);
    }
  }

  /** With a negative retention a restart prunes every final row. */
  lemma FirmStep(cfg: Config, w: World, s: Step)
    requires TaskInv(w) && ProofInv(w) && RowInv(w) && FirmInv(w) && Apart(w) && Enabled(cfg, w, s) && cfg.retention < 0
    ensures FirmInv(Apply(cfg, w, s))
  {
    if s.Act? {
      FirmAct(w, s.i, s.c);
    } else {
      var w' := Apply(cfg, w, s);
      forall id | id in w'.ledger ensures FirmOk(w', id) {
        assert id in w.ledger ==> FirmOk(w, id) && SoundRow(w.ledger, id, w.clock);
      }
    }
  }
}
