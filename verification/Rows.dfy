/** The delivery ledger over whole runs: the shape of its rows, and how they follow the claims. */
module Rows {
  import opened Keys
  import opened Store
  import opened Delivery
  import opened Ownership

  /** No notification id spells the key of an alert (see Keys.LedgerIdsCollide). */
  ghost predicate Apart(w: World) {
    forall i, j :: 0 <= i < |w.tasks| && 0 <= j < |w.tasks|
                   && !w.tasks[i].subject.Chat? && !w.tasks[j].subject.Chat?
                   && LedgerId(w.tasks[i].subject) == LedgerId(w.tasks[j].subject)
                   ==> w.tasks[i].subject == w.tasks[j].subject
  }

  // ----- the shape of rows, for all ids

  /** Past begin_delivery, the row is there and counts the attempt. */
  predicate HasBegun(w: World, t: Task) {
    !t.subject.Chat? && Holds(t.pc) && !t.pc.Beginning? ==> Begun(w.ledger, LedgerId(t.subject))
  }

  ghost predicate RowInv(w: World) {
    && (forall id :: id in w.ledger ==> SoundRow(w.ledger, id, w.clock))
    && (forall i :: 0 <= i < |w.tasks| ==> HasBegun(w, w.tasks[i]))
  }

  /** What one statement of task `i` does to the row of its delivery. */
  predicate RowMoves(w: World, w': World, i: nat)
    requires i < |w.tasks| && |w'.tasks| == |w.tasks| && !w.tasks[i].subject.Chat?
  {
    var id := LedgerId(w.tasks[i].subject);
    match w.tasks[i].pc
    case Beginning => id in w'.ledger && w'.ledger[id].status.Delivering? && w'.ledger[id].updatedAt == w.clock
    case Confirming => id in w.ledger ==>
      id in w'.ledger && w'.ledger[id].status.DeliveryConfirmed? && w'.ledger[id].updatedAt == w.clock
    case Recording(f) => id in w.ledger ==>
      id in w'.ledger && w'.ledger[id].updatedAt == w.clock
      && w'.ledger[id].status == if f.retryable then Retrying else PermanentFailed
    case _ => w'.ledger == w.ledger
  }

  lemma RowFrame(w: World, i: nat, c: Choice)
    requires CanAct(w, i, c)
    ensures var w' := DoAct(w, i, c);
            && (w.tasks[i].subject.Chat? ==> w'.ledger == w.ledger)
            && (!w.tasks[i].subject.Chat? ==>
                  OtherRowsSame(w.ledger, w'.ledger, LedgerId(w.tasks[i].subject)) && RowMoves(w, w', i))
  {
    hide DoAct, RowShape;
    assert OneTask(w, DoAct(w, i, c), i);
  }

  lemma RowKept(w: World, i: nat, c: Choice)
    requires CanAct(w, i, c) && RowInv(w) && !w.tasks[i].subject.Chat?
    ensures var id := LedgerId(w.tasks[i].subject);
            SoundRow(DoAct(w, i, c).ledger, id, w.clock) && (Begun(w.ledger, id) ==> Begun(DoAct(w, i, c).ledger, id))
  {
    hide DoAct, RowShape, BeginDelivery, MarkConfirmed, MarkRetrying, MarkPermanentFailed;
    assert OneTask(w, DoAct(w, i, c), i);
    assert HasBegun(w, w.tasks[i]);
  }

  lemma BegunKept(w: World, i: nat, c: Choice)
    requires CanAct(w, i, c) && RowInv(w) && !w.tasks[i].subject.Chat?
    ensures HasBegun(DoAct(w, i, c), DoAct(w, i, c).tasks[i])
  {
    var w' := DoAct(w, i, c);
    assert HasBegun(w, w.tasks[i]);
    if Holds(w'.tasks[i].pc) && !w'.tasks[i].pc.Beginning? {
      BegunOnward(w, i, c);
      BegunRow(w, i);
    }
  }

  /** Only past begin_delivery does a task get past it. */
  lemma BegunOnward(w: World, i: nat, c: Choice)
    requires CanAct(w, i, c) && !w.tasks[i].subject.Chat?
    requires Holds(DoAct(w, i, c).tasks[i].pc) && !DoAct(w, i, c).tasks[i].pc.Beginning?
    ensures Holds(w.tasks[i].pc) && DoAct(w, i, c).ledger == LedgerAfter(w, i)
  {
    hide LedgerAfter, ClaimKey, Shaped, Answered;
  }

  lemma BegunRow(w: World, i: nat)
    requires i < |w.tasks| && !w.tasks[i].subject.Chat? && Typed(w.tasks[i])
    requires w.tasks[i].pc.Beginning? || Begun(w.ledger, LedgerId(w.tasks[i].subject))
    ensures Begun(LedgerAfter(w, i), LedgerId(w.tasks[i].subject))
  {
    hide RowShape;
  }

  lemma RowAct(w: World, i: nat, c: Choice)
    requires CanAct(w, i, c) && RowInv(w)
    ensures RowInv(DoAct(w, i, c))
  {
    var w' := DoAct(w, i, c);
    RowFrame(w, i, c);
    if w.tasks[i].subject.Chat? {
      RowSame(w, w');
    } else {
      RowKept(w, i, c);
      BegunKept(w, i, c);
      var mine := LedgerId(w.tasks[i].subject);
      forall id | id in w'.ledger ensures SoundRow(w'.ledger, id, w'.clock) {
        assert id != mine ==> SoundRow(w.ledger, id, w.clock);
      }
      forall j | 0 <= j < |w'.tasks| ensures HasBegun(w', w'.tasks[j]) {
        assert HasBegun(w, w.tasks[j]);
      }
    }
  }

  /** Steps that leave the ledger alone and let tasks only vanish or begin. */
  lemma RowSame(w: World, w': World)
    requires RowInv(w) && w'.ledger == w.ledger && w'.clock >= w.clock
    requires forall j :: 0 <= j < |w'.tasks| ==>
               !Holds(w'.tasks[j].pc) || w'.tasks[j].subject.Chat? || (j < |w.tasks| && w'.tasks[j] == w.tasks[j])
    ensures RowInv(w')
  {
    forall id | id in w'.ledger ensures SoundRow(w'.ledger, id, w'.clock) {
      assert SoundRow(w.ledger, id, w.clock);
    }
    forall j | 0 <= j < |w'.tasks| ensures HasBegun(w', w'.tasks[j]) {
      if j < |w.tasks| {
        assert HasBegun(w, w.tasks[j]);
      }
    }
  }

  lemma RowStep(cfg: Config, w: World, s: Step)
    requires RowInv(w) && OwnInv(w) && Enabled(cfg, w, s)
    ensures RowInv(Apply(cfg, w, s))
  {
    var w' := Apply(cfg, w, s);
    match s
    case Act(i, c) => RowAct(w, i, c);
    case Boot =>
      forall id | id in w'.ledger ensures SoundRow(w'.ledger, id, w'.clock) {
        assert SoundRow(w.ledger, id, w.clock);
      }
    case Prepare(id) => RowPrepare(w, id);
    case _ => RowSame(w, w');
  }

  lemma RowPrepare(w: World, id: string)
    requires RowInv(w)
    ensures RowInv(w.(ledger := PrepareSynthetic(w.ledger, id, "test", w.clock)))
  {
    var w' := w.(ledger := PrepareSynthetic(w.ledger, id, "test", w.clock));
    forall x | x in w'.ledger ensures SoundRow(w'.ledger, x, w'.clock) {
      assert x in w.ledger ==> SoundRow(w.ledger, x, w.clock);
    }
    forall j | 0 <= j < |w'.tasks| ensures HasBegun(w', w'.tasks[j]) {
      assert HasBegun(w, w.tasks[j]);
    }
  }

  // ----- rows and claims

  /** While its task is at work the row tells how far it has come. */
  predicate StageOk(w: World, i: nat)
    requires i < |w.tasks|
  {
    var t := w.tasks[i];
    !t.subject.Chat? && Holds(t.pc) && !t.pc.Beginning? ==>
      var id := LedgerId(t.subject);
      && id in w.ledger
      && match t.pc
         case Finishing => Matches(w, Key(t), id, DeliveryConfirmed)
         case Burying(_) => Matches(w, Key(t), id, PermanentFailed)
         case Releasing(_) => w.ledger[id].status.Retrying?
         case _ => w.ledger[id].status.Delivering?
  }

  /** The row has the final status and was written after the claim was won. */
  predicate Matches(w: World, k: string, id: string, status: RowStatus) {
    && k in w.claims && id in w.ledger
    && w.ledger[id].status == status && w.ledger[id].updatedAt >= w.claims[k].createdAt
  }

  /** A finished claim of a notification or alert has its row. */
  predicate ClaimHasRow(w: World, k: string)
    requires k in w.claims && k in w.owner && w.owner[k] < |w.tasks|
  {
    var subject := w.tasks[w.owner[k]].subject;
    !subject.Chat? && !w.claims[k].status.Processing? ==>
      Matches(w, k, LedgerId(subject), if w.claims[k].status.Delivered? then DeliveryConfirmed else PermanentFailed)
  }

  ghost predicate StageInv(w: World) {
    && (forall i :: 0 <= i < |w.tasks| ==> StageOk(w, i))
    && (forall k :: k in w.claims && k in w.owner && w.owner[k] < |w.tasks| ==> ClaimHasRow(w, k))
  }

  /** Two holders of one ledger row are one task. */
  lemma SameRowSameTask(w: World, i: nat, j: nat)
    requires OwnInv(w) && Apart(w) && i < |w.tasks| && j < |w.tasks|
    requires !w.tasks[i].subject.Chat? && !w.tasks[j].subject.Chat?
    requires Holds(w.tasks[i].pc) && Owns(w, j) && LedgerId(w.tasks[i].subject) == LedgerId(w.tasks[j].subject)
    ensures i == j
  {
    assert Holder(w, i);
    assert Key(w.tasks[i]) == Key(w.tasks[j]);
  }

  lemma StageMine(w: World, i: nat, c: Choice)
    requires CanAct(w, i, c) && OwnInv(w) && StageInv(w) && RowInv(w)
    ensures StageOk(DoAct(w, i, c), i)
  {
    var pc := w.tasks[i].pc;
    if pc.Confirming? || pc.Recording? {
      StageMineMarks(w, i, c);
    } else if pc.Sending? || pc.Beginning? {
      StageMineSends(w, i, c);
    } else {
    }
  }

  lemma StageMineMarks(w: World, i: nat, c: Choice)
    requires CanAct(w, i, c) && OwnInv(w) && RowInv(w)
    requires w.tasks[i].pc.Confirming? || w.tasks[i].pc.Recording?
    ensures StageOk(DoAct(w, i, c), i)
  {
    assert HasBegun(w, w.tasks[i]);
    assert Holder(w, i);
    assert ClaimOwned(w, Key(w.tasks[i]));
  }

  lemma StageMineSends(w: World, i: nat, c: Choice)
    requires CanAct(w, i, c) && StageInv(w)
    requires w.tasks[i].pc.Sending? || w.tasks[i].pc.Beginning?
    ensures StageOk(DoAct(w, i, c), i)
  {
    assert StageOk(w, i);
  }

  /** A statement of task `i` as any other delivery sees it. */
  ghost predicate Elsewhere(w: World, w': World, i: nat) {
    && OneTask(w, w', i)
    && if w.tasks[i].subject.Chat? || !Holds(w.tasks[i].pc) then w'.ledger == w.ledger
       else OtherRowsSame(w.ledger, w'.ledger, LedgerId(w.tasks[i].subject))
  }

  lemma ActElsewhere(w: World, i: nat, c: Choice)
    requires CanAct(w, i, c)
    ensures Elsewhere(w, DoAct(w, i, c), i)
  {
    RowFrame(w, i, c);
  }

  lemma StageOther(w: World, w': World, i: nat, j: nat)
    requires Elsewhere(w, w', i) && OwnInv(w) && StageInv(w) && Apart(w) && j < |w.tasks| && j != i
    requires var k := Key(w.tasks[j]);
             k in w.claims && w.owner[k] != i ==> k in w'.claims && w'.claims[k] == w.claims[k]
    ensures StageOk(w', j)
  {
    var t := w.tasks[j];
    assert StageOk(w, j);
    if !t.subject.Chat? && Holds(t.pc) {
      assert Holder(w, j);
      if !w.tasks[i].subject.Chat? && Holds(w.tasks[i].pc) && LedgerId(w.tasks[i].subject) == LedgerId(t.subject) {
        SameRowSameTask(w, i, j);
      }
    }
  }

  lemma ClaimRowOther(w: World, w': World, i: nat, k: string)
    requires Elsewhere(w, w', i) && OwnInv(w) && StageInv(w) && Apart(w)
    requires k in w.claims && w.owner[k] != i && k in w'.claims && w'.claims[k] == w.claims[k]
    requires k in w'.owner && w'.owner[k] == w.owner[k]
    ensures ClaimHasRow(w', k)
  {
    assert ClaimOwned(w, k) && ClaimHasRow(w, k);
    var o := w.owner[k];
    if !w.tasks[o].subject.Chat? && !w.tasks[i].subject.Chat? && Holds(w.tasks[i].pc)
       && LedgerId(w.tasks[i].subject) == LedgerId(w.tasks[o].subject) {
      SameRowSameTask(w, i, o);
    }
  }

  lemma ClaimRowMine(w: World, i: nat, c: Choice)
    requires CanAct(w, i, c) && OwnInv(w) && StageInv(w)
    ensures var w' := DoAct(w, i, c);
            var k := Key(w.tasks[i]);
            k in w'.claims && k in w'.owner && w'.owner[k] == i ==> ClaimHasRow(w', k)
  {
    var w' := DoAct(w, i, c);
    assert StageOk(w, i);
    var k := Key(w.tasks[i]);
    if Holds(w.tasks[i].pc) {
      assert Holder(w, i);
      RowOfHolder(w, i, c);
    } else if k in w.claims {
      assert ClaimOwned(w, k) && ClaimHasRow(w, k);
      ClaimLost(w, i, c);
      hide DoAct;
      assert OneTask(w, w', i);
    } else {
      hide LedgerAfter, Answered, Shaped;
    }
  }

  /** The claim a task holds is finished only when its row is. */
  lemma RowOfHolder(w: World, i: nat, c: Choice)
    requires CanAct(w, i, c) && Holder(w, i) && StageOk(w, i) && Holds(w.tasks[i].pc)
    ensures var w' := DoAct(w, i, c);
            Key(w.tasks[i]) in w'.claims && Key(w.tasks[i]) in w'.owner && w'.owner[Key(w.tasks[i])] == i ==>
              ClaimHasRow(w', Key(w.tasks[i]))
  {
    if !OnClaim(w.tasks[i].pc) {
      assert Quiet(w, DoAct(w, i, c), i);
      hide DoAct, LedgerAfter, Answered, Shaped;
    } else {
      hide Answered, Shaped, NextPost;
    }
  }

  lemma OwnerUnderAct(w: World, i: nat, c: Choice, k: string)
    requires OwnInv(w) && CanAct(w, i, c)
    ensures var w' := DoAct(w, i, c);
            k in w'.owner ==> (k in w.owner && w'.owner[k] == w.owner[k]) || (k == Key(w.tasks[i]) && w'.owner[k] == i)
  {
  }

  lemma StageAct(w: World, i: nat, c: Choice)
    requires CanAct(w, i, c) && OwnInv(w) && RowInv(w) && StageInv(w) && Apart(w)
    ensures StageInv(DoAct(w, i, c))
  {
    hide DoAct;
    var w' := DoAct(w, i, c);
    ActElsewhere(w, i, c);
    forall j | 0 <= j < |w'.tasks| ensures StageOk(w', j) {
      if j == i {
        StageMine(w, i, c);
      } else {
        if Key(w.tasks[j]) in w.claims {
          ClaimUnderAct(w, i, c, Key(w.tasks[j]));
        }
        StageOther(w, w', i, j);
      }
    }
    forall k | k in w'.claims && k in w'.owner && w'.owner[k] < |w'.tasks| ensures ClaimHasRow(w', k) {
      OwnerUnderAct(w, i, c, k);
      if k == Key(w.tasks[i]) && w'.owner[k] == i {
        ClaimRowMine(w, i, c);
      } else {
        ClaimUnderAct(w, i, c, k);
        ClaimRowOther(w, w', i, k);
      }
    }
  }

  /** Steps that touch neither claims nor rows, and let tasks only vanish or begin. */
  lemma StageSame(w: World, w': World)
    requires OwnInv(w) && StageInv(w) && w'.claims == w.claims && w'.owner == w.owner
    requires forall id :: id in w.ledger ==> id in w'.ledger && w'.ledger[id] == w.ledger[id]
    requires |w.tasks| <= |w'.tasks|
    requires forall j :: 0 <= j < |w.tasks| ==> w'.tasks[j].subject == w.tasks[j].subject
    requires forall j :: 0 <= j < |w'.tasks| ==> !Holds(w'.tasks[j].pc) || (j < |w.tasks| && w'.tasks[j] == w.tasks[j])
    ensures StageInv(w')
  {
    forall j | 0 <= j < |w'.tasks| ensures StageOk(w', j) {
      if j < |w.tasks| {
        assert StageOk(w, j);
      }
    }
    forall k | k in w'.claims && k in w'.owner && w'.owner[k] < |w'.tasks| ensures ClaimHasRow(w', k) {
      assert ClaimOwned(w, k) && ClaimHasRow(w, k);
    }
  }

  /** A restart prunes no row whose finished claim it keeps. */
  lemma StageBoot(cfg: Config, w: World)
    requires OwnInv(w) && StageInv(w) && !w.up
    ensures StageInv(DoBoot(cfg, w))
  {
    var w' := DoBoot(cfg, w);
    forall j | 0 <= j < |w'.tasks| ensures StageOk(w', j) {
    }
    forall k | k in w'.claims && k in w'.owner && w'.owner[k] < |w'.tasks| ensures ClaimHasRow(w', k) {
      assert ClaimOwned(w, k) && ClaimHasRow(w, k);
    }
  }

  lemma StageStep(cfg: Config, w: World, s: Step)
    requires Enabled(cfg, w, s) && OwnInv(w) && RowInv(w) && StageInv(w) && Apart(w)
    ensures StageInv(Apply(cfg, w, s))
  {
    match s
    case Act(i, c) => StageAct(w, i, c);
    case Boot => StageBoot(cfg, w);
    case _ => StageSame(w, Apply(cfg, w, s));
  }

  lemma ApartBefore(cfg: Config, w: World, s: Step)
    requires Enabled(cfg, w, s) && Apart(Apply(cfg, w, s))
    ensures Apart(w)
  {
    var w' := Apply(cfg, w, s);
    assert |w.tasks| <= |w'.tasks|;
    forall i | 0 <= i < |w.tasks| ensures w'.tasks[i].subject == w.tasks[i].subject {
    }
  }
}
