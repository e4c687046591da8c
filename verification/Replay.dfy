/** Replay protection: the signature window, the claims and the pruning together. */
module Replay {
  import Security
  import opened Delivery
  import opened Ownership

  /** Tasks of one signed request: the same event id and timestamp. */
  predicate SameRequest(a: Task, b: Task) {
    a.subject.Notice? && a.subject == b.subject && a.stamp == b.stamp
  }

  /** No signed request has every chunk confirmed to two tasks. */
  ghost predicate OnceEach(w: World) {
    forall i, j :: 0 <= i < |w.tasks| && 0 <= j < |w.tasks| && w.tasks[i].confirmed && w.tasks[j].confirmed
                   && SameRequest(w.tasks[i], w.tasks[j])
                   ==> i == j
  }

  /** The window had opened when the request was let in. */
  predicate InWindow(cfg: Config, w: World, t: Task) {
    t.subject.Notice? ==> t.stamp - cfg.ttl <= w.clock
  }

  predicate ClaimInWindow(cfg: Config, w: World, k: string)
    requires k in w.claims && k in w.owner
  {
    w.owner[k] < |w.tasks| && w.tasks[w.owner[k]].subject.Notice? ==>
      w.tasks[w.owner[k]].stamp - cfg.ttl <= w.claims[k].createdAt
  }

  /** Once the claim of a request is pruned its window has closed, and no task of it is at work. */
  ghost predicate Closed(cfg: Config, w: World, e: nat) {
    e < |w.tasks| && w.tasks[e].subject.Notice? ==>
      && w.clock > w.tasks[e].stamp + cfg.ttl
      && forall j :: 0 <= j < |w.tasks| && Live(w.tasks[j].pc) ==> !SameRequest(w.tasks[e], w.tasks[j])
  }

  ghost predicate ReplayInv(cfg: Config, w: World) {
    && (forall i :: 0 <= i < |w.tasks| ==> InWindow(cfg, w, w.tasks[i]))
    && (forall k :: k in w.claims && k in w.owner ==> ClaimInWindow(cfg, w, k))
    && (forall e :: e in w.expired ==> Closed(cfg, w, e))
    && OnceEach(w)
  }

  lemma ReplayAct(cfg: Config, w: World, i: nat, c: Choice)
    requires ReplayInv(cfg, w) && TaskInv(w) && CanAct(w, i, c)
    ensures ReplayInv(cfg, DoAct(w, i, c))
  {
    hide DoAct, LedgerAfter, Answered, NextPost, Shaped, TaskInv, OnceEach, ClaimInWindow;
    var w' := DoAct(w, i, c);
    ClaimWindowAct(cfg, w, i, c);
    ConfirmOnce(cfg, w, i, c);
    assert OneTask(w, w', i);
    forall j | 0 <= j < |w'.tasks| ensures InWindow(cfg, w', w'.tasks[j]) {
      assert InWindow(cfg, w, w.tasks[j]);
    }
    forall e | e in w'.expired ensures Closed(cfg, w', e) {
      assert Closed(cfg, w, e);
      assert Live(w.tasks[i].pc);
    }
  }

  lemma ClaimWindowAct(cfg: Config, w: World, i: nat, c: Choice)
    requires ReplayInv(cfg, w) && TaskInv(w) && CanAct(w, i, c)
    ensures var w' := DoAct(w, i, c); forall k :: k in w'.claims && k in w'.owner ==> ClaimInWindow(cfg, w', k)
  {
    hide DoAct, LedgerAfter, Answered, NextPost, Shaped, OnceEach, Closed;
    var w' := DoAct(w, i, c);
    OtherClaims(w, i, c);
    OwnClaim(w, i, c);
    assert OneTask(w, w', i) && InWindow(cfg, w, w.tasks[i]);
    forall k | k in w'.claims && k in w'.owner ensures ClaimInWindow(cfg, w', k) {
      if k in w.claims {
        assert ClaimOwned(w, k) && ClaimInWindow(cfg, w, k);
      }
    }
  }

  /** A task that is about to see its last chunk confirmed holds the claim; whoever was confirmed for
      the same request before either holds it too or is long past the window. */
  lemma ConfirmOnce(cfg: Config, w: World, i: nat, c: Choice)
    requires ReplayInv(cfg, w) && TaskInv(w) && CanAct(w, i, c)
    ensures OnceEach(DoAct(w, i, c))
  {
    var w' := DoAct(w, i, c);
    hide DoAct;
    assert OneTask(w, w', i);
    forall j | 0 <= j < |w.tasks| && j != i && w.tasks[j].confirmed
      ensures !(w'.tasks[i].confirmed && SameRequest(w.tasks[i], w.tasks[j]))
    {
      if w.tasks[i].pc.Sending? {
        RivalsDiffer(cfg, w, i, j);
      }
    }
  }

  lemma RivalsDiffer(cfg: Config, w: World, i: nat, j: nat)
    requires ReplayInv(cfg, w) && TaskInv(w) && i < |w.tasks| && j < |w.tasks| && i != j
    requires Holds(w.tasks[i].pc) && w.tasks[j].confirmed
    ensures !SameRequest(w.tasks[i], w.tasks[j])
  {
    assert Holder(w, i);
    OthersConfirmed(w, j);
    if j in w.expired {
      assert Closed(cfg, w, j);
    }
  }

  lemma OthersConfirmed(w: World, j: nat)
    requires TaskInv(w) && j < |w.tasks| && w.tasks[j].confirmed
    ensures j in w.expired || Owns(w, j)
  {
    assert Shaped(w.tasks[j]);
    if !Settled(w.tasks[j]) {
      assert Holder(w, j);
    }
  }

  lemma ReplayBoot(cfg: Config, w: World)
    requires ReplayInv(cfg, w) && TaskInv(w) && !w.up && 2 * cfg.ttl <= cfg.retention
    ensures ReplayInv(cfg, DoBoot(cfg, w))
  {
    var w' := DoBoot(cfg, w);
    forall k | k in w'.claims && k in w'.owner ensures ClaimInWindow(cfg, w', k) {
      assert ClaimInWindow(cfg, w, k);
    }
    forall e | e in w'.expired ensures Closed(cfg, w', e) {
      if e in w.expired {
        assert Closed(cfg, w, e);
      } else {
        var k :| k in w.owner && k !in w'.claims && w.owner[k] == e;
        assert ClaimInWindow(cfg, w, k);
      }
    }
    forall i | 0 <= i < |w'.tasks| ensures InWindow(cfg, w', w'.tasks[i]) {
      assert InWindow(cfg, w, w.tasks[i]);
    }
  }

  lemma ReplayStart(cfg: Config, w: World, t: Task)
    requires ReplayInv(cfg, w) && !t.confirmed
    requires OwnInv(w) && (t.subject.Notice? ==> Security.InsideWindow(w.clock, t.stamp, cfg.ttl))
    ensures ReplayInv(cfg, w.(tasks := w.tasks + [t]))
  {
    var w' := w.(tasks := w.tasks + [t]);
    forall k | k in w'.claims && k in w'.owner ensures ClaimInWindow(cfg, w', k) {
      assert ClaimOwned(w, k) && ClaimInWindow(cfg, w, k);
    }
    forall e | e in w'.expired ensures Closed(cfg, w', e) {
      assert Closed(cfg, w, e);
    }
    forall i | 0 <= i < |w'.tasks| ensures InWindow(cfg, w', w'.tasks[i]) {
      if i < |w.tasks| {
        assert InWindow(cfg, w, w.tasks[i]);
      }
    }
  }

  lemma ReplayVanish(cfg: Config, w: World, w': World)
    requires ReplayInv(cfg, w) && w'.claims == w.claims && w'.owner == w.owner && w'.clock >= w.clock
    requires w'.expired == w.expired && |w'.tasks| == |w.tasks|
    requires forall i :: 0 <= i < |w.tasks| ==> w'.tasks[i] == w.tasks[i] || w'.tasks[i] == Vanish(w.tasks[i])
    ensures ReplayInv(cfg, w')
  {
    forall k | k in w'.claims && k in w'.owner ensures ClaimInWindow(cfg, w', k) {
      assert ClaimInWindow(cfg, w, k);
    }
    forall e | e in w'.expired ensures Closed(cfg, w', e) {
      assert Closed(cfg, w, e);
    }
    forall i | 0 <= i < |w'.tasks| ensures InWindow(cfg, w', w'.tasks[i]) {
      assert InWindow(cfg, w, w.tasks[i]);
    }
  }

  lemma ReplayStep(cfg: Config, w: World, s: Step)
    requires ReplayInv(cfg, w) && TaskInv(w) && Enabled(cfg, w, s) && 2 * cfg.ttl <= cfg.retention
    ensures ReplayInv(cfg, Apply(cfg, w, s))
  {
    match s
    case Start(_, _, _, _) => ReplayStart(cfg, w, Apply(cfg, w, s).tasks[|w.tasks|]);
    case Act(i, c) => ReplayAct(cfg, w, i, c);
    case Boot => ReplayBoot(cfg, w);
    case _ => ReplayVanish(cfg, w, Apply(cfg, w, s));
  }

  /** A window of negative length lets no notification in. */
  lemma {:induction false} NoWindowRun(cfg: Config, w: World, steps: seq<Step>, w': World)
    requires cfg.ttl < 0 && Run(cfg, w, steps, w')
    requires forall i :: 0 <= i < |w.tasks| ==> !w.tasks[i].subject.Notice?
    ensures forall i :: 0 <= i < |w'.tasks| ==> !w'.tasks[i].subject.Notice?
    decreases |steps|
  {
    if steps != [] {
      if steps[0].Act? {
        assert OneTask(w, DoAct(w, steps[0].i, steps[0].c), steps[0].i);
      }
      NoWindowRun(cfg, Apply(cfg, w, steps[0]), steps[1..], w');
    }
  }

  lemma NoWindowNoNotices(cfg: Config, w: World)
    requires cfg.ttl < 0 && Reachable(cfg, w)
    ensures forall i :: 0 <= i < |w.tasks| ==> !w.tasks[i].subject.Notice?
  {
    var clock, steps :| Run(cfg, Init(clock), steps, w);
    NoWindowRun(cfg, Init(clock), steps, w);
  }
}
