/** Runs that exist: a delivery can always complete, and where a guarantee has a condition, what
    happens without it. */
module Scenarios {
  import opened Keys
  import Security
  import opened Text
  import opened Splitting
  import opened Store
  import opened Delivery
  import opened Ownership
  import opened Replay
  import opened Guarantees

  lemma Step1(cfg: Config, w: World, s: Step) returns (w': World)
    requires Reachable(cfg, w) && Enabled(cfg, w, s)
    ensures Reachable(cfg, w') && w' == Apply(cfg, w, s)
  {
    ReachableStep(cfg, w, s);
    w' := Apply(cfg, w, s);
  }

  /** The rest of a message goes out one chunk after the other when the provider answers. */
  lemma {:induction false} SendAll(cfg: Config, w: World, i: nat, n: nat) returns (w': World)
    requires Reachable(cfg, w) && w.up && i < |w.tasks| && !w.tasks[i].subject.Chat?
    requires w.tasks[i].pc == Sending(n) && n < |w.tasks[i].chunks|
    ensures Reachable(cfg, w')
    ensures w' == w.(tasks := w.tasks[i := w.tasks[i].(pc := Confirming, confirmed := true)],
                     wire := w'.wire, log := w'.log)
    decreases |w.tasks[i].chunks| - n
  {
    var w2 := PostOne(cfg, w, i, n);
    var w3 := Step1(cfg, w2, Act(i, Ok));
    if n + 1 < |w.tasks[i].chunks| {
      assert w3.tasks[i] == w.tasks[i].(pc := Sending(n + 1));
      w' := SendAll(cfg, w3, i, n + 1);
      assert w3.tasks[i := w'.tasks[i]] == w.tasks[i := w'.tasks[i]];
    } else {
      w' := w3;
    }
  }

  lemma PostOne(cfg: Config, w: World, i: nat, n: nat) returns (w': World)
    requires Reachable(cfg, w) && w.up && i < |w.tasks| && w.tasks[i].pc == Sending(n) && n < |w.tasks[i].chunks|
    ensures Reachable(cfg, w') && Known(w'.log, Key(w.tasks[i]), n)
    ensures w' == w.(wire := w'.wire, log := w'.log) && w.log <= w'.log
  {
    var w1 := Step1(cfg, w, Act(i, Push));
    var p := NextPost(w, i);
    assert p in w1.wire;
    if Known(w1.log, p.key, p.index) {
      w' := w1;
    } else {
      w' := Step1(cfg, w1, Accept(p));
      assert w'.log[|w1.log|] == p;
    }
  }

  predicate Done(t: Task, subject: Subject, stamp: int) {
    t.subject == subject && t.stamp == stamp && t.confirmed && t.pc == Finished(Sent)
  }

  lemma StartTask(cfg: Config, w: World, subject: Subject, stamp: int, text: string) returns (w': World)
    requires Reachable(cfg, w) && w.up && !subject.Chat?
    requires subject.Notice? ==> Security.InsideWindow(w.clock, stamp, cfg.ttl)
    ensures Reachable(cfg, w')
    ensures w' == w.(tasks := w.tasks + [Task(subject, "test", stamp, Chunks(text, LIMIT), Claiming, false, false)])
  {
    hide Chunks;
    w' := Step1(cfg, w, Start(subject, "test", stamp, text));
  }

  lemma WinClaim(cfg: Config, w: World, i: nat) returns (w': World)
    requires Reachable(cfg, w) && w.up && i < |w.tasks| && !w.tasks[i].subject.Chat?
    requires w.tasks[i].pc.Claiming? && Key(w.tasks[i]) !in w.claims
    ensures Reachable(cfg, w')
    ensures w' == w.(tasks := w.tasks[i := w.tasks[i].(pc := Beginning)], owner := w'.owner,
                     claims := w.claims[Key(w.tasks[i]) := Claimed(Processing, w.clock)])
  {
    w' := Step1(cfg, w, Act(i, Go));
  }

  lemma OpenRow(cfg: Config, w: World, i: nat) returns (w': World)
    requires Reachable(cfg, w) && w.up && i < |w.tasks| && !w.tasks[i].subject.Chat?
    requires w.tasks[i].pc.Beginning? && w.tasks[i].chunks != []
    ensures Reachable(cfg, w')
    ensures w' == w.(tasks := w.tasks[i := w.tasks[i].(pc := Sending(0))], ledger := w'.ledger)
    ensures w'.ledger == BeginDelivery(w.ledger, LedgerId(w.tasks[i].subject), w.tasks[i].source, w.clock)
  {
    w' := Step1(cfg, w, Act(i, Go));
  }

  lemma CloseRow(cfg: Config, w: World, i: nat) returns (w': World)
    requires Reachable(cfg, w) && w.up && i < |w.tasks| && !w.tasks[i].subject.Chat? && w.tasks[i].pc.Confirming?
    ensures Reachable(cfg, w')
    ensures w' == w.(tasks := w.tasks[i := w.tasks[i].(pc := Finishing)],
                     ledger := w'.ledger, confirmedBy := w'.confirmedBy)
    ensures w'.ledger == MarkConfirmed(w.ledger, LedgerId(w.tasks[i].subject), w.clock)
  {
    w' := Step1(cfg, w, Act(i, Go));
  }

  lemma CloseClaim(cfg: Config, w: World, i: nat) returns (w': World)
    requires Reachable(cfg, w) && w.up && i < |w.tasks| && w.tasks[i].pc.Finishing?
    ensures Reachable(cfg, w')
    ensures w' == w.(tasks := w.tasks[i := w.tasks[i].(pc := Finished(Sent))], owner := w'.owner,
                     claims := MarkProcessed(w.claims, Key(w.tasks[i]), Delivered, w.clock))
  {
    w' := Step1(cfg, w, Act(i, Go));
  }

  function Fresh(subject: Subject, stamp: int, text: string, pc: Pc): Task {
    Task(subject, "test", stamp, Chunks(text, LIMIT), pc, false, false)
  }

  lemma CanClaim(cfg: Config, w: World, subject: Subject, stamp: int, text: string) returns (w': World)
    requires Reachable(cfg, w) && w.up && !subject.Chat? && ClaimKey(subject) !in w.claims
    requires subject.Notice? ==> Security.InsideWindow(w.clock, stamp, cfg.ttl)
    ensures Reachable(cfg, w')
    ensures w' == w.(
      tasks := w.tasks + [Fresh(subject, stamp, text, Beginning)], owner := w'.owner,
      claims := w.claims[ClaimKey(subject) := Claimed(Processing, w.clock)])
  {
    hide Chunks, Apply, Enabled;
    var w1 := StartTask(cfg, w, subject, stamp, text);
    w' := WinClaim(cfg, w1, |w.tasks|);
    assert w'.tasks == w.tasks + [Fresh(subject, stamp, text, Beginning)];
  }

  lemma ReadableHasChunks(text: string)
    requires !Blank(text)
    ensures Chunks(text, LIMIT) != []
  {
    SplitKeepsText(text, LIMIT);
  }

  /** The first half of a delivery: claimed, entered in the ledger, about to send. */
  lemma CanBegin(cfg: Config, w: World, subject: Subject, stamp: int, text: string) returns (w': World)
    requires Reachable(cfg, w) && w.up && !subject.Chat? && ClaimKey(subject) !in w.claims
    requires subject.Notice? ==> Security.InsideWindow(w.clock, stamp, cfg.ttl)
    requires !Blank(text)
    ensures Reachable(cfg, w') && Chunks(text, LIMIT) != []
    ensures w' == w.(
      tasks := w.tasks + [Fresh(subject, stamp, text, Sending(0))], owner := w'.owner,
      claims := w.claims[ClaimKey(subject) := Claimed(Processing, w.clock)],
      ledger := BeginDelivery(w.ledger, LedgerId(subject), "test", w.clock))
  {
    ReadableHasChunks(text);
    hide Chunks, BeginDelivery, Apply, Enabled, Blank, ClaimKey, Security.InsideWindow;
    var w1 := CanClaim(cfg, w, subject, stamp, text);
    w' := OpenRow(cfg, w1, |w.tasks|);
    assert w'.tasks == w.tasks + [Fresh(subject, stamp, text, Sending(0))];
  }

  /** The second half, once every chunk is out. */
  lemma CanFinish(cfg: Config, w: World, i: nat) returns (w': World)
    requires Reachable(cfg, w) && w.up && i < |w.tasks| && !w.tasks[i].subject.Chat?
    requires w.tasks[i].pc == Sending(0) && w.tasks[i].chunks != []
    ensures Reachable(cfg, w') && w'.up && w'.clock == w.clock && w'.expired == w.expired
    ensures w'.tasks == w.tasks[i := w.tasks[i].(pc := Finished(Sent), confirmed := true)]
    ensures w'.claims == MarkProcessed(w.claims, Key(w.tasks[i]), Delivered, w.clock)
    ensures w'.ledger == MarkConfirmed(w.ledger, LedgerId(w.tasks[i].subject), w.clock)
  {
    var w1 := SendAll(cfg, w, i, 0);
    var w2 := CloseRow(cfg, w1, i);
    w' := CloseClaim(cfg, w2, i);
  }

  /** From any state in which the service is up and the claim is free, a notification inside its
      window or an alert can be delivered to completion. */
  lemma CanDeliver(cfg: Config, w: World, subject: Subject, stamp: int, text: string) returns (w': World)
    requires Reachable(cfg, w) && w.up && !subject.Chat? && ClaimKey(subject) !in w.claims
    requires subject.Notice? ==> Security.InsideWindow(w.clock, stamp, cfg.ttl)
    requires !Blank(text)
    ensures Reachable(cfg, w') && w'.up && w'.clock == w.clock && w'.expired == w.expired
    ensures |w'.tasks| == |w.tasks| + 1 && w'.tasks[..|w.tasks|] == w.tasks && Done(w'.tasks[|w.tasks|], subject, stamp)
    ensures w'.claims == w.claims[ClaimKey(subject) := Claimed(Delivered, w.clock)]
    ensures LedgerId(subject) in w'.ledger && w'.ledger[LedgerId(subject)].status.DeliveryConfirmed?
  {
    hide Chunks, BeginDelivery;
    var w1 := CanBegin(cfg, w, subject, stamp, text);
    w' := CanFinish(cfg, w1, |w.tasks|);
  }

  lemma LoseClaim(cfg: Config, w: World, i: nat) returns (w': World)
    requires Reachable(cfg, w) && w.up && i < |w.tasks| && w.tasks[i].subject.Notice?
    requires w.tasks[i].pc.Claiming? && Key(w.tasks[i]) in w.claims
    ensures Reachable(cfg, w') && w' == At(w, i, Answering)
  {
    w' := Step1(cfg, w, Act(i, Go));
  }

  lemma ReadRow(cfg: Config, w: World, i: nat) returns (w': World)
    requires Reachable(cfg, w) && w.up && i < |w.tasks| && w.tasks[i].subject.Notice? && w.tasks[i].pc.Answering?
    ensures Reachable(cfg, w') && w' == At(w, i, Finished(Answered(w.ledger, w.tasks[i].subject.eventId)))
  {
    w' := Step1(cfg, w, Act(i, Go));
  }

  /** A notification whose claim is taken is answered from its row. */
  lemma AskAgain(cfg: Config, w: World, eventId: string, stamp: int, text: string) returns (w': World)
    requires Reachable(cfg, w) && w.up && ClaimKey(Notice(eventId)) in w.claims
    requires Security.InsideWindow(w.clock, stamp, cfg.ttl)
    ensures Reachable(cfg, w')
    ensures w' == w.(tasks := w.tasks + [Fresh(Notice(eventId), stamp, text, Finished(Answered(w.ledger, eventId)))])
  {
    hide Chunks, Apply, Enabled, Answered;
    var w1 := StartTask(cfg, w, Notice(eventId), stamp, text);
    var w2 := LoseClaim(cfg, w1, |w.tasks|);
    w' := ReadRow(cfg, w2, |w.tasks|);
    assert w'.tasks == w.tasks + [Fresh(Notice(eventId), stamp, text, Finished(Answered(w.ledger, eventId)))];
  }

  /** A crash, some time and a restart. */
  lemma Restart(cfg: Config, w: World, seconds: nat) returns (w': World)
    requires Reachable(cfg, w) && w.up
    ensures Reachable(cfg, w') && w'.up && w'.clock == w.clock + seconds
    ensures |w'.tasks| == |w.tasks| && forall i :: 0 <= i < |w.tasks| ==> w'.tasks[i] == Vanish(w.tasks[i])
    ensures w'.claims == PruneClaims(w.claims, w'.clock - cfg.retention)
    ensures w'.ledger == PruneLedger(w.ledger, w'.clock - cfg.retention)
  {
    var w1 := Step1(cfg, w, Crash);
    var w2 := Step1(cfg, w1, Tick(seconds));
    w' := Step1(cfg, w2, Boot);
  }

  lemma Freed(cfg: Config, w: World, k: string) returns (w': World)
    requires Reachable(cfg, w) && w.up
    ensures Reachable(cfg, w') && w'.up && w'.clock == w.clock + Seconds(cfg) && k !in w'.claims
    ensures |w'.tasks| == |w.tasks|
  {
    InvReachable(cfg, w);
    assert k in w.claims ==> ClaimOwned(w, k);
    hide Reachable, Inv;
    w' := Restart(cfg, w, Seconds(cfg));
    PruneIsExact(w.claims, w.ledger, map[], w'.clock - cfg.retention);
  }

  /** A claim whose task was lost blocks its key until a restart past the retention; that restart frees it, and
      the event can be delivered after all. */
  lemma OrphanIsFreed(cfg: Config, w: World, subject: Subject, stamp: int, text: string)
    returns (freed: World, w': World)
    requires Reachable(cfg, w) && w.up && !subject.Chat? && ClaimKey(subject) in w.claims && !Blank(text)
    requires subject.Notice? ==> Security.InsideWindow(w.clock + Seconds(cfg), stamp, cfg.ttl)
    ensures Reachable(cfg, freed) && freed.up && freed.clock == w.clock + Seconds(cfg)
    ensures ClaimKey(subject) !in freed.claims
    ensures Reachable(cfg, w') && |w'.tasks| == |w.tasks| + 1 && Done(w'.tasks[|w.tasks|], subject, stamp)
  {
    hide Reachable, Chunks, Blank, Inv;
    freed := Freed(cfg, w, ClaimKey(subject));
    w' := CanDeliver(cfg, freed, subject, stamp, text);
  }

  /** Just past the retention. */
  function Seconds(cfg: Config): nat { if cfg.retention < 0 then 0 else cfg.retention + 1 }

  /** Any earlier restart keeps it, so no repetition is delivered before. */
  lemma OrphanBlocks(cfg: Config, w: World, k: string, seconds: nat) returns (w': World)
    requires Reachable(cfg, w) && w.up && k in w.claims && w.clock + seconds <= w.claims[k].createdAt + cfg.retention
    ensures Reachable(cfg, w') && w'.up && w'.clock == w.clock + seconds
    ensures k in w'.claims && w'.claims[k] == w.claims[k]
  {
    w' := Restart(cfg, w, seconds);
    PruneIsExact(w.claims, w.ledger, map[], w'.clock - cfg.retention);
  }

  lemma FirstBoot(cfg: Config) returns (w: World)
    ensures !Blank("x")
    ensures Reachable(cfg, w) && w.up && w.clock == 0 && w.tasks == [] && w.claims == map[] && w.ledger == map[]
    ensures w.expired == {}
  {
    assert "x"[0] == 'x';
    ReachableInit(cfg, 0);
    w := Step1(cfg, Init(0), Boot);
    assert PruneClaims(map[], 0 - cfg.retention) == map[] && PruneLedger(map[], 0 - cfg.retention) == map[];
  }

  /** When claims are kept for less than two windows, a request can be delivered at the opening of its
      window and again, after a restart, at its close. */
  lemma EarlyPruneDeliversTwice(cfg: Config) returns (w: World)
    requires cfg.ttl >= 0 && 2 * cfg.ttl > cfg.retention
    ensures Reachable(cfg, w) && !OnceEach(w)
  {
    var request := Notice("event");
    var w1 := FirstBoot(cfg);
    var w2 := CanDeliver(cfg, w1, request, cfg.ttl, "x");
    var w3 := Restart(cfg, w2, 2 * cfg.ttl);
    assert ClaimKey(request) !in w3.claims;
    assert w3.tasks[0] == Vanish(w2.tasks[0]);
    w := CanDeliver(cfg, w3, request, cfg.ttl, "x");
    assert w.tasks[0] == w.tasks[..1][0] == w3.tasks[0];
    assert Done(w.tasks[0], request, cfg.ttl) && Done(w.tasks[1], request, cfg.ttl);
    assert SameRequest(w.tasks[0], w.tasks[1]);
  }

  /** The exact bound: replays are harmless in all runs if and only if claims outlive two windows (or no
      request is let in at all). */
  lemma ReplayBoundIsExact(cfg: Config)
    ensures (forall w :: Reachable(cfg, w) ==> OnceEach(w)) <==> cfg.ttl < 0 || 2 * cfg.ttl <= cfg.retention
  {
    if cfg.ttl < 0 {
      forall w | Reachable(cfg, w) ensures OnceEach(w) {
        NoWindowNoNotices(cfg, w);
      }
    } else if 2 * cfg.ttl <= cfg.retention {
      forall w | Reachable(cfg, w) ensures OnceEach(w) {
        SignedRequestDeliversOnce(cfg, w);
      }
    } else {
      var w := EarlyPruneDeliversTwice(cfg);
    }
  }

  /** What a request of this subject may do at all. */
  predicate Admissible(cfg: Config, subject: Subject) {
    subject.Notice? ==> cfg.ttl >= 0
  }

  /** The confirmed flag of a row can outlive the claim it was won under: after a restart that prunes
      the claim but not the row, a new delivery runs with the flag still set. */
  lemma FlagOutlivesClaim(cfg: Config, subject: Subject) returns (w: World)
    requires cfg.retention >= 0 && !subject.Chat? && Admissible(cfg, subject)
    ensures Reachable(cfg, w) && forall i :: 0 <= i < |w.tasks| ==> w.tasks[i].subject == subject
    ensures var id := LedgerId(subject);
            id in w.ledger && w.ledger[id].status.Delivering? && w.ledger[id].deliveryConfirmed
  {
    hide Chunks, Apply, Enabled;
    var w1 := FirstBoot(cfg);
    var w2 := CanBegin(cfg, w1, subject, 0, "x");
    var w3 := Wait(cfg, w2, 1);
    var w4 := CanFinish(cfg, w3, 0);
    assert w4.claims[ClaimKey(subject)].createdAt == 0 && w4.ledger[LedgerId(subject)].updatedAt == 1;
    var w5 := Restart(cfg, w4, cfg.retention);
    w := CanBegin(cfg, w5, subject, w5.clock, "x");
  }

  lemma Wait(cfg: Config, w: World, seconds: nat) returns (w': World)
    requires Reachable(cfg, w)
    ensures Reachable(cfg, w') && w' == w.(clock := w.clock + seconds)
  {
    w' := Step1(cfg, w, Tick(seconds));
  }
}
