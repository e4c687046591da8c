/** Who holds which claim: what every step of the delivery protocol keeps. */
module Ownership {
  import opened Keys
  import opened Store
  import opened Delivery

  /** The task that won a claim is in the state the row tells of. */
  predicate Backs(pc: Pc, status: ClaimStatus) {
    match status
    case Processing => Holds(pc) || pc == Vanished(true)
    case Delivered => pc == Finished(Sent)
    case Abandoned => pc.Finished? && pc.result.Raised? && !pc.result.failure.retryable
  }

  predicate ClaimOwned(w: World, k: string)
    requires k in w.claims && k in w.owner
  {
    && w.owner[k] < |w.tasks|
    && Key(w.tasks[w.owner[k]]) == k
    && Backs(w.tasks[w.owner[k]].pc, w.claims[k].status)
    && (w.tasks[w.owner[k]].subject.Chat? ==> !w.claims[k].status.Abandoned?)
    && w.claims[k].createdAt <= w.clock
  }

  predicate Holder(w: World, i: nat)
    requires i < |w.tasks|
  {
    var k := Key(w.tasks[i]);
    k in w.owner && w.owner[k] == i && k in w.claims && w.claims[k].status.Processing?
  }

  predicate Owns(w: World, i: nat)
    requires i < |w.tasks|
  {
    Key(w.tasks[i]) in w.owner && w.owner[Key(w.tasks[i])] == i
  }

  /** Done with its claim, but not by releasing it. */
  predicate Settled(t: Task) {
    || t.pc == Vanished(true)
    || t.pc == Finished(Sent)
    || (t.pc.Finished? && t.pc.result.Raised? && !t.pc.result.failure.retryable && !t.subject.Chat?)
  }

  ghost predicate ShapeInv(w: World) {
    forall i :: 0 <= i < |w.tasks| ==> Shaped(w.tasks[i])
  }

  ghost predicate SettledInv(w: World) {
    forall i :: 0 <= i < |w.tasks| && Settled(w.tasks[i]) ==> i in w.expired || Owns(w, i)
  }

  ghost predicate OwnInv(w: World) {
    && w.owner.Keys == w.claims.Keys
    && (forall k :: k in w.claims ==> ClaimOwned(w, k))
    && (forall i :: 0 <= i < |w.tasks| && Holds(w.tasks[i].pc) ==> Holder(w, i))
    && (!w.up ==> forall i :: 0 <= i < |w.tasks| ==> !Live(w.tasks[i].pc))
    && (forall e :: e in w.expired ==> e < |w.tasks| && !Live(w.tasks[e].pc))
  }

  /** A statement that touches no claim and keeps or never had one. */
  lemma OwnKeep(w: World, w': World, i: nat)
    requires OwnInv(w) && OneTask(w, w', i) && w.up
    requires w'.claims == w.claims && w'.owner == w.owner
    requires Live(w.tasks[i].pc)
    requires Holds(w'.tasks[i].pc) <==> Holds(w.tasks[i].pc)
    ensures OwnInv(w')
  {
    if Holds(w.tasks[i].pc) {
      assert Holder(w, i);
    }
    forall k | k in w'.claims ensures ClaimOwned(w', k) {
      assert ClaimOwned(w, k);
    }
    forall j | 0 <= j < |w'.tasks| && Holds(w'.tasks[j].pc) ensures Holder(w', j) {
      assert Holder(w, j);
    }
  }

  lemma OwnWin(w: World, w': World, i: nat)
    requires OwnInv(w) && OneTask(w, w', i) && w.up
    requires var k := Key(w.tasks[i]);
             k !in w.claims && w'.claims == w.claims[k := Claimed(Processing, w.clock)] && w'.owner == w.owner[k := i]
    requires Live(w.tasks[i].pc) && Holds(w'.tasks[i].pc)
    ensures OwnInv(w')
  {
    assert Holds(w.tasks[i].pc) ==> Holder(w, i);
    forall k | k in w'.claims ensures ClaimOwned(w', k) {
      if k in w.claims {
        assert ClaimOwned(w, k);
      }
    }
    forall j | 0 <= j < |w'.tasks| && Holds(w'.tasks[j].pc) ensures Holder(w', j) {
      if j != i {
        assert Holder(w, j);
      }
    }
  }

  lemma OwnFinish(w: World, w': World, i: nat, status: ClaimStatus)
    requires OwnInv(w) && OneTask(w, w', i) && w.up && Holds(w.tasks[i].pc)
    requires var k := Key(w.tasks[i]);
             w'.claims == MarkProcessed(w.claims, k, status, w.clock) && w'.owner == w.owner[k := i]
    requires w'.tasks[i].pc.Finished? && Backs(w'.tasks[i].pc, status)
    requires w.tasks[i].subject.Chat? ==> !status.Abandoned?
    ensures OwnInv(w')
  {
    assert Holder(w, i);
    forall k | k in w'.claims ensures ClaimOwned(w', k) {
      assert ClaimOwned(w, k);
    }
    forall j | 0 <= j < |w'.tasks| && Holds(w'.tasks[j].pc) ensures Holder(w', j) {
      assert Holder(w, j);
    }
  }

  lemma OwnRelease(w: World, w': World, i: nat)
    requires OwnInv(w) && OneTask(w, w', i) && w.up && Holds(w.tasks[i].pc)
    requires w'.claims == ReleaseEvent(w.claims, Key(w.tasks[i]))
    requires w'.owner == map k | k in w.owner && k in w'.claims :: w.owner[k]
    requires w'.tasks[i].pc.Finished?
    ensures OwnInv(w')
  {
    assert Holder(w, i);
    forall k | k in w'.claims ensures ClaimOwned(w', k) {
      assert ClaimOwned(w, k);
    }
    forall j | 0 <= j < |w'.tasks| && Holds(w'.tasks[j].pc) ensures Holder(w', j) {
      assert Holder(w, j);
    }
  }

  lemma OwnActClaim(w: World, i: nat, c: Choice)
    requires OwnInv(w) && CanAct(w, i, c) && w.up && w.tasks[i].pc.Claiming?
    ensures OwnInv(DoAct(w, i, c))
  {
    if Key(w.tasks[i]) in w.claims {
      OwnKeep(w, DoAct(w, i, c), i);
    } else {
      OwnWin(w, DoAct(w, i, c), i);
    }
  }

  lemma OwnActEnd(w: World, i: nat, c: Choice)
    requires OwnInv(w) && CanAct(w, i, c) && w.up
    requires w.tasks[i].pc.Finishing? || w.tasks[i].pc.Burying? || w.tasks[i].pc.Releasing?
    ensures OwnInv(DoAct(w, i, c))
  {
    var w' := DoAct(w, i, c);
    match w.tasks[i].pc
    case Finishing => OwnFinish(w, w', i, Delivered);
    case Burying(f) => OwnFinish(w, w', i, Abandoned);
    case Releasing(f) => OwnRelease(w, w', i);
  }

  lemma OwnActQuiet(w: World, i: nat, c: Choice)
    requires OwnInv(w) && CanAct(w, i, c) && w.up
    requires !OnClaim(w.tasks[i].pc)
    ensures OwnInv(DoAct(w, i, c))
  {
    OwnKeep(w, DoAct(w, i, c), i);
  }

  lemma OwnAct(w: World, i: nat, c: Choice)
    requires OwnInv(w) && CanAct(w, i, c) && w.up
    ensures OwnInv(DoAct(w, i, c))
  {
    var pc := w.tasks[i].pc;
    if pc.Claiming? {
      OwnActClaim(w, i, c);
    } else if pc.Finishing? || pc.Burying? || pc.Releasing? {
      OwnActEnd(w, i, c);
    } else {
      OwnActQuiet(w, i, c);
    }
  }

  // ----- shapes and settled tasks

  lemma ShapeStep(cfg: Config, w: World, s: Step)
    requires ShapeInv(w) && Enabled(cfg, w, s)
    ensures ShapeInv(Apply(cfg, w, s))
  {
    var w' := Apply(cfg, w, s);
    match s
    case Act(i, c) => forall j | 0 <= j < |w'.tasks| ensures Shaped(w'.tasks[j]) {}
    case Cancel(i) => VanishShaped(w.tasks[i]);
    case Crash =>
      forall j | 0 <= j < |w'.tasks| ensures Shaped(w'.tasks[j]) {
        VanishShaped(w.tasks[j]);
      }
    case _ =>
  }

  lemma VanishShaped(t: Task)
    requires Shaped(t)
    ensures Shaped(Vanish(t))
  {
  }

  lemma SettledStep(cfg: Config, w: World, s: Step)
    requires OwnInv(w) && SettledInv(w) && Enabled(cfg, w, s)
    ensures SettledInv(Apply(cfg, w, s))
  {
    var w' := Apply(cfg, w, s);
    match s
    case Act(i, c) => SettledAct(w, i, c);
    case Boot => SettledBoot(cfg, w);
    case Start(_, _, _, _) =>
      forall j | 0 <= j < |w'.tasks| && Settled(w'.tasks[j]) ensures j in w'.expired || Owns(w', j) {
        assert w'.tasks[j] == w.tasks[j];
      }
    case Cancel(_) => SettledVanish(w, w');
    case Crash => SettledVanish(w, w');
    case _ =>
      forall j | 0 <= j < |w'.tasks| && Settled(w'.tasks[j]) ensures j in w'.expired || Owns(w', j) {
      }
  }

  lemma SettledVanish(w: World, w': World)
    requires OwnInv(w) && SettledInv(w) && w'.owner == w.owner && w'.expired == w.expired
    requires |w'.tasks| == |w.tasks|
    requires forall i :: 0 <= i < |w.tasks| ==> w'.tasks[i] == w.tasks[i] || w'.tasks[i] == Vanish(w.tasks[i])
    ensures SettledInv(w')
  {
    forall j | 0 <= j < |w'.tasks| && Settled(w'.tasks[j]) ensures j in w'.expired || Owns(w', j) {
      if !Settled(w.tasks[j]) {
        assert Holder(w, j);
      }
    }
  }

  lemma SettledAct(w: World, i: nat, c: Choice)
    requires OwnInv(w) && SettledInv(w) && CanAct(w, i, c)
    ensures SettledInv(DoAct(w, i, c))
  {
    SettledMine(w, i, c);
    hide DoAct;
    var w' := DoAct(w, i, c);
    assert OneTask(w, w', i);
    forall j | 0 <= j < |w'.tasks| && Settled(w'.tasks[j]) ensures j in w'.expired || Owns(w', j) {
      if j != i {
        SettledOther(w, i, c, j);
      }
    }
  }

  lemma SettledMine(w: World, i: nat, c: Choice)
    requires OwnInv(w) && CanAct(w, i, c)
    ensures Settled(DoAct(w, i, c).tasks[i]) ==> Owns(DoAct(w, i, c), i)
  {
    if w.tasks[i].pc.Finishing? || w.tasks[i].pc.Burying? {
      assert Holder(w, i);
      EndOwns(w, i, c);
    } else {
      NotSettledYet(w, i, c);
    }
  }

  lemma EndOwns(w: World, i: nat, c: Choice)
    requires CanAct(w, i, c) && (w.tasks[i].pc.Finishing? || w.tasks[i].pc.Burying?)
    ensures Owns(DoAct(w, i, c), i)
  {
    hide LedgerAfter, Answered, ClaimKey, Shaped;
  }

  lemma NotSettledYet(w: World, i: nat, c: Choice)
    requires CanAct(w, i, c) && !w.tasks[i].pc.Finishing? && !w.tasks[i].pc.Burying?
    ensures !Settled(DoAct(w, i, c).tasks[i])
  {
    hide DoAct, LedgerAfter, Answered, ClaimKey, Shaped;
    assert OneTask(w, DoAct(w, i, c), i);
  }

  /** A statement touches the claim of its own key only. */
  ghost predicate OtherClaimsSame(w: World, w': World, key: string) {
    forall k :: k != key ==>
                  && (k in w'.claims <==> k in w.claims) && (k in w.claims ==> w'.claims[k] == w.claims[k])
                  && (k in w'.owner <==> k in w.owner) && (k in w.owner ==> w'.owner[k] == w.owner[k])
  }

  lemma OtherClaimsKept(w: World, i: nat, c: Choice)
    requires OwnInv(w) && CanAct(w, i, c) && OnClaim(w.tasks[i].pc) && !w.tasks[i].pc.Releasing?
    ensures OtherClaimsSame(w, DoAct(w, i, c), Key(w.tasks[i]))
  {
    hide ClaimKey, LedgerAfter, Shaped, Answered, NextPost, OneTask, Quiet, OwnInv;
  }

  lemma OtherClaims(w: World, i: nat, c: Choice)
    requires OwnInv(w) && CanAct(w, i, c)
    ensures OtherClaimsSame(w, DoAct(w, i, c), Key(w.tasks[i]))
  {
    hide ClaimKey, LedgerAfter, Shaped, Answered, NextPost;
    var w', pc := DoAct(w, i, c), w.tasks[i].pc;
    if !OnClaim(pc) {
      assert Quiet(w, w', i);
    } else if pc.Releasing? {
      assert w' == ActRelease(w, i, pc.f);
    } else {
      OtherClaimsKept(w, i, c);
    }
    hide DoAct, OneTask;
  }

  /** What it makes of that claim: it wins it if it is free, and if it is not, it keeps owner and time. */
  lemma OwnClaim(w: World, i: nat, c: Choice)
    requires OwnInv(w) && CanAct(w, i, c)
    ensures var w', k := DoAct(w, i, c), Key(w.tasks[i]);
            k in w'.claims && k in w'.owner ==>
              if k in w.claims then
                k in w.owner && w'.owner[k] == w.owner[k] && w'.claims[k].createdAt == w.claims[k].createdAt
              else w'.owner[k] == i && w'.claims[k].createdAt == w.clock
  {
    hide ClaimKey, LedgerAfter, Shaped;
    if Holds(w.tasks[i].pc) {
      assert Holder(w, i);
    }
  }

  lemma ClaimLost(w: World, i: nat, c: Choice)
    requires CanAct(w, i, c) && !Holds(w.tasks[i].pc) && Key(w.tasks[i]) in w.claims
    ensures DoAct(w, i, c).claims == w.claims && DoAct(w, i, c).owner == w.owner
  {
    hide ClaimKey, LedgerAfter, Shaped;
  }

  lemma SettledOther(w: World, i: nat, c: Choice, j: nat)
    requires OwnInv(w) && SettledInv(w) && CanAct(w, i, c) && j != i && j < |w.tasks| && Settled(w.tasks[j])
    ensures var w' := DoAct(w, i, c); j in w'.expired || Owns(w', j)
  {
    OtherClaims(w, i, c);
    if Owns(w, j) && Key(w.tasks[j]) == Key(w.tasks[i]) && !Holds(w.tasks[i].pc) {
      ClaimLost(w, i, c);
    }
    hide DoAct;
    assert OneTask(w, DoAct(w, i, c), i);
  }

  lemma SettledBoot(cfg: Config, w: World)
    requires OwnInv(w) && SettledInv(w)
    ensures SettledInv(DoBoot(cfg, w))
  {
    var w' := DoBoot(cfg, w);
    forall j | 0 <= j < |w'.tasks| && Settled(w'.tasks[j]) ensures j in w'.expired || Owns(w', j) {
      if j !in w.expired {
        assert Owns(w, j) && (Key(w.tasks[j]) in w'.claims || j in w'.expired);
      }
    }
  }

  // ----- all steps

  lemma OwnVanish(w: World, w': World)
    requires OwnInv(w) && w'.claims == w.claims && w'.owner == w.owner && w'.clock == w.clock
    requires w'.expired == w.expired && |w'.tasks| == |w.tasks|
    requires forall i :: 0 <= i < |w.tasks| ==> w'.tasks[i] == w.tasks[i] || w'.tasks[i] == Vanish(w.tasks[i])
    requires !w'.up ==> forall i :: 0 <= i < |w.tasks| ==> w'.tasks[i] == Vanish(w.tasks[i])
    ensures OwnInv(w')
  {
    forall k | k in w'.claims ensures ClaimOwned(w', k) {
      assert ClaimOwned(w, k);
    }
    forall j | 0 <= j < |w'.tasks| && Holds(w'.tasks[j].pc) ensures Holder(w', j) {
      assert Holder(w, j);
    }
  }

  lemma OwnBoot(cfg: Config, w: World)
    requires OwnInv(w) && !w.up
    ensures OwnInv(DoBoot(cfg, w))
  {
    var w' := DoBoot(cfg, w);
    forall k | k in w'.claims ensures ClaimOwned(w', k) {
      assert ClaimOwned(w, k);
    }
    forall e | e in w'.expired ensures e < |w'.tasks| && !Live(w'.tasks[e].pc) {
      if e !in w.expired {
        var k :| k in w.owner && k !in w'.claims && w.owner[k] == e;
        assert ClaimOwned(w, k);
      }
    }
  }

  lemma OwnStart(w: World, t: Task)
    requires OwnInv(w) && w.up && t.pc == Claiming
    ensures OwnInv(w.(tasks := w.tasks + [t]))
  {
    var w' := w.(tasks := w.tasks + [t]);
    forall k | k in w'.claims ensures ClaimOwned(w', k) {
      assert ClaimOwned(w, k);
    }
    forall j | 0 <= j < |w'.tasks| && Holds(w'.tasks[j].pc) ensures Holder(w', j) {
      assert Holder(w, j);
    }
  }

  lemma OwnSame(w: World, w': World)
    requires OwnInv(w) && w'.claims == w.claims && w'.owner == w.owner && w'.clock >= w.clock
    requires w'.expired == w.expired && w'.tasks == w.tasks && w'.up == w.up
    ensures OwnInv(w')
  {
    forall k | k in w'.claims ensures ClaimOwned(w', k) {
      assert ClaimOwned(w, k);
    }
    forall j | 0 <= j < |w'.tasks| && Holds(w'.tasks[j].pc) ensures Holder(w', j) {
      assert Holder(w, j);
    }
  }

  lemma OwnStep(cfg: Config, w: World, s: Step)
    requires OwnInv(w) && Enabled(cfg, w, s)
    ensures OwnInv(Apply(cfg, w, s))
  {
    var w' := Apply(cfg, w, s);
    match s
    case Start(_, _, _, _) => OwnStart(w, w'.tasks[|w.tasks|]);
    case Act(i, c) => OwnAct(w, i, c);
    case Cancel(i) => OwnVanish(w, w');
    case Crash => OwnVanish(w, w');
    case Boot => OwnBoot(cfg, w);
    case _ => OwnSame(w, w');
  }

  ghost predicate TaskInv(w: World) {
    OwnInv(w) && ShapeInv(w) && SettledInv(w)
  }

  lemma TaskStep(cfg: Config, w: World, s: Step)
    requires TaskInv(w) && Enabled(cfg, w, s)
    ensures TaskInv(Apply(cfg, w, s))
  {
    OwnStep(cfg, w, s);
    ShapeStep(cfg, w, s);
    SettledStep(cfg, w, s);
  }

  /** The claim of its own key, for the task that holds it. */
  lemma HeldUnderAct(w: World, i: nat, c: Choice)
    requires OwnInv(w) && CanAct(w, i, c) && Holds(w.tasks[i].pc)
    ensures var k, claims := Key(w.tasks[i]), DoAct(w, i, c).claims;
            k in w.claims && w.owner[k] == i
            && ((k in claims && claims[k].createdAt == w.claims[k].createdAt) || w.tasks[i].pc.Releasing?)
  {
    assert Holder(w, i);
    hide LedgerAfter, Shaped, Answered, ClaimKey;
  }

  lemma ClaimUnderAct(w: World, i: nat, c: Choice, k: string)
    requires OwnInv(w) && CanAct(w, i, c) && k in w.claims
    ensures var claims := DoAct(w, i, c).claims;
            (k in claims && claims[k].createdAt == w.claims[k].createdAt)
            || (w.tasks[i].pc.Releasing? && w.owner[k] == i)
    ensures var claims := DoAct(w, i, c).claims;
            (k in claims && claims[k] == w.claims[k]) || w.owner[k] == i
  {
    OtherClaims(w, i, c);
    if k == Key(w.tasks[i]) {
      if Holds(w.tasks[i].pc) {
        HeldUnderAct(w, i, c);
      } else {
        ClaimLost(w, i, c);
      }
    }
    hide DoAct;
  }
}
