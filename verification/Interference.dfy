/** The other tasks of the protocol keep to what the service methods rely on during an `await`. */
module Interference {
  import opened Keys
  import opened Delivery
  import opened Ownership
  import opened Rows
  import opened Guarantees
  import opened Service

  function TablesOf(w: World): Tables { Tables(w.claims, w.ledger) }

  /** While task `i` waits for a reply: no statement of it but its post, once or again, and not the end of
      its process. */
  predicate DuringAwait(s: Step, i: nat) {
    !s.Boot? && !s.Crash? && s != Cancel(i) && (s.Act? && s.i == i ==> s.c.Push?)
  }

  lemma OthersLeaveRow(w: World, w': World, j: nat, o: nat)
    requires Inv(w) && Apart(w) && Elsewhere(w, w', j)
    requires o < |w.tasks| && o != j && Owns(w, o) && !w.tasks[o].subject.Chat?
    ensures var id := LedgerId(w.tasks[o].subject); id in w.ledger ==> id in w'.ledger && w'.ledger[id] == w.ledger[id]
  {
    if !w.tasks[j].subject.Chat? && Holds(w.tasks[j].pc)
       && LedgerId(w.tasks[j].subject) == LedgerId(w.tasks[o].subject) {
      SameRowSameTask(w, j, o);
    }
  }

  lemma OthersKeepDelivery(cfg: Config, w: World, s: Step, o: nat)
    requires Inv(w) && Apart(w) && Enabled(cfg, w, s) && !s.Boot? && !s.Crash? && (s.Act? ==> s.i != o)
    requires o < |w.tasks| && Owns(w, o)
    ensures SameDelivery(TablesOf(w), TablesOf(Apply(cfg, w, s)), w.tasks[o].subject)
  {
    assert Key(w.tasks[o]) in w.claims;
    if s.Act? {
      ActElsewhere(w, s.i, s.c);
      ClaimUnderAct(w, s.i, s.c, Key(w.tasks[o]));
      if !w.tasks[o].subject.Chat? {
        OthersLeaveRow(w, DoAct(w, s.i, s.c), s.i, o);
      }
    }
  }

  /** A post touches neither table. */
  lemma PostKeepsTables(w: World, i: nat)
    requires CanAct(w, i, Push)
    ensures TablesOf(DoAct(w, i, Push)) == TablesOf(w) && DoAct(w, i, Push).tasks[i] == w.tasks[i]
  {
    hide LedgerAfter, Shaped;
  }

  lemma PostIsRely(cfg: Config, w: World, s: Step, i: nat)
    requires Enabled(cfg, w, s) && s == Act(i, Push)
    ensures Rely(w.tasks[i].subject, TablesOf(w), TablesOf(Apply(cfg, w, s)))
  {
    PostKeepsTables(w, i);
    hide DoAct;
  }

  /** One step of another task, of the network, of the provider or of the clock. */
  lemma OthersKeepToRely(cfg: Config, w: World, s: Step, i: nat)
    requires Inv(w) && Apart(w) && Enabled(cfg, w, s) && DuringAwait(s, i)
    requires i < |w.tasks| && Holds(w.tasks[i].pc)
    ensures Rely(w.tasks[i].subject, TablesOf(w), TablesOf(Apply(cfg, w, s)))
  {
    if s.Act? && s.i == i {
      PostIsRely(cfg, w, s, i);
      return;
    }
    hide Apply, Enabled;
    assert Holder(w, i);
    OthersKeepDelivery(cfg, w, s, i);
    forall d: string | FinishedIn(TablesOf(w), Alarm(d))
      ensures SameDelivery(TablesOf(w), TablesOf(Apply(cfg, w, s)), Alarm(d))
    {
      FinishedOwner(w, Alarm(d));
      OthersKeepFinished(cfg, w, s, w.owner[ClaimKey(Alarm(d))]);
    }
  }

  lemma FinishedOwner(w: World, subject: Subject)
    requires Inv(w) && FinishedIn(TablesOf(w), subject)
    ensures var k := ClaimKey(subject);
            k in w.owner && w.owner[k] < |w.tasks| && Owns(w, w.owner[k])
            && w.tasks[w.owner[k]].subject == subject && w.tasks[w.owner[k]].pc.Finished?
  {
    var k := ClaimKey(subject);
    assert ClaimOwned(w, k);
    ClaimKeyInjective(w.tasks[w.owner[k]].subject, subject);
  }

  lemma OthersKeepFinished(cfg: Config, w: World, s: Step, o: nat)
    requires Inv(w) && Apart(w) && Enabled(cfg, w, s) && !s.Boot? && !s.Crash?
    requires o < |w.tasks| && Owns(w, o) && !w.tasks[o].subject.Chat? && w.tasks[o].pc.Finished?
    ensures SameDelivery(TablesOf(w), TablesOf(Apply(cfg, w, s)), w.tasks[o].subject)
  {
    hide Apply, Inv, Apart, SameDelivery;
    assert s.Act? ==> s.i != o;
    OthersKeepDelivery(cfg, w, s, o);
  }

  /** So between two statements of a task that holds its claim, whatever the others do, and however
      much of it, is what `Rely` allows. */
  lemma {:induction false} AwaitIsRely(cfg: Config, w: World, steps: seq<Step>, w': World, i: nat)
    requires Inv(w) && Run(cfg, w, steps, w') && Apart(w')
    requires forall n :: 0 <= n < |steps| ==> DuringAwait(steps[n], i)
    requires i < |w.tasks| && Holds(w.tasks[i].pc)
    ensures i < |w'.tasks| && w'.tasks[i] == w.tasks[i]
    ensures Rely(w.tasks[i].subject, TablesOf(w), TablesOf(w'))
    decreases |steps|
  {
    hide Apply, Enabled, Inv, Apart, Rely, DuringAwait;
    if steps == [] {
      RelySelf(w.tasks[i].subject, TablesOf(w));
    } else {
      var w1 := Apply(cfg, w, steps[0]);
      assert DuringAwait(steps[0], i);
      OthersSpareTask(cfg, w, steps[0], i);
      InvStep(cfg, w, steps[0]);
      AwaitIsRely(cfg, w1, steps[1..], w', i);
      AwaitApart(cfg, w, steps, w');
      OthersKeepToRely(cfg, w, steps[0], i);
      RelyTransitive(w.tasks[i].subject, TablesOf(w), TablesOf(w1), TablesOf(w'));
    }
  }

  lemma OthersSpareTask(cfg: Config, w: World, s: Step, i: nat)
    requires Enabled(cfg, w, s) && DuringAwait(s, i) && i < |w.tasks|
    ensures i < |Apply(cfg, w, s).tasks| && Apply(cfg, w, s).tasks[i] == w.tasks[i]
  {
    if s.Act? {
      assert OneTask(w, DoAct(w, s.i, s.c), s.i);
      if s.i == i {
        PostKeepsTables(w, i);
      }
    }
  }

  lemma RelySelf(mine: Subject, s: Tables)
    ensures Rely(mine, s, s)
  {
  }

  lemma RelyTransitive(mine: Subject, a: Tables, b: Tables, c: Tables)
    requires Rely(mine, a, b) && Rely(mine, b, c)
    ensures Rely(mine, a, c)
  {
  }
}
