/** Alerts and notifications share the ledger. What goes wrong when a notification id spells the key of
    an alert, and that nothing goes wrong otherwise. */
module Collisions {
  import opened Keys
  import Security
  import opened Splitting
  import opened Delivery
  import opened Rows
  import opened Flags
  import opened Replay
  import opened Guarantees
  import opened Scenarios

  ghost predicate OnlyFrom(w: World, subjects: iset<Subject>) {
    forall i :: 0 <= i < |w.tasks| ==> w.tasks[i].subject in subjects
  }

  /** No notification id among these spells the key of an alert among these. */
  ghost predicate Separate(subjects: iset<Subject>) {
    forall digest: string :: Alarm(digest) in subjects ==> Notice(ALERT + digest) !in subjects
  }

  // ----- such an id passes the format check

  /** SHA-256 as hex text. */
  predicate HexDigest(s: string) {
    |s| == 64 && forall i :: 0 <= i < |s| ==> '0' <= s[i] <= '9' || 'a' <= s[i] <= 'f'
  }

  lemma AlertKeyIsEventId(digest: string)
    requires HexDigest(digest)
    ensures Security.ValidEventId(ALERT + digest)
  {
    var id := ALERT + digest;
    forall i | 0 <= i < |id| ensures Security.EventIdChar(id[i]) {
      assert i >= |ALERT| ==> id[i] == digest[i - |ALERT|];
    }
  }

  // ----- what goes wrong

  /** The alert is delivered, its claim finished; then the notification takes over its ledger row, which
      says "delivering" and "confirmed" at once. */
  lemma CollidingIdTakesRow(cfg: Config, digest: string) returns (w: World)
    requires cfg.ttl >= 0
    ensures Reachable(cfg, w) && w.up && w.clock == 0 && OnlyFrom(w, iset{Alarm(digest), Notice(ALERT + digest)})
    ensures |w.tasks| == 2 && w.tasks[0].subject == Alarm(digest) && w.expired == {}
    ensures w.tasks[1].subject == Notice(ALERT + digest) && !w.tasks[1].confirmed
    ensures ClaimKey(Notice(ALERT + digest)) in w.claims && !RowFollowsClaim(w, Alarm(digest))
    ensures var id := ALERT + digest;
            id in w.ledger && w.ledger[id].status.Delivering? && w.ledger[id].deliveryConfirmed
  {
    var alarm, notice := Alarm(digest), Notice(ALERT + digest);
    if ClaimKey(notice) == ClaimKey(alarm) {
      ClaimKeyInjective(notice, alarm);
    }
    hide Apply, Enabled, Chunks;
    var w1 := FirstBoot(cfg);
    var w2 := CanBegin(cfg, w1, alarm, 0, "x");
    var w3 := CanFinish(cfg, w2, 0);
    w := CanBegin(cfg, w3, notice, 0, "x");
  }

  /** And a second request for the notification is answered "confirmed", although no request for it was. */
  lemma CollidingIdIsToldConfirmed(cfg: Config, digest: string) returns (w: World)
    requires cfg.ttl >= 0
    ensures Reachable(cfg, w) && OnlyFrom(w, iset{Alarm(digest), Notice(ALERT + digest)})
    ensures |w.tasks| == 3 && w.tasks[2].subject == Notice(ALERT + digest) && SaysConfirmed(w.tasks[2].pc)
    ensures !ConfirmedFor(w, Notice(ALERT + digest))
  {
    hide Apply, Enabled, Chunks;
    var w1 := CollidingIdTakesRow(cfg, digest);
    w := AskAgain(cfg, w1, ALERT + digest, 0, "x");
    assert w.tasks[0] == w1.tasks[0] && w.tasks[1] == w1.tasks[1];
  }

  // ----- and exactly when

  lemma SeparateIsApart(w: World, subjects: iset<Subject>)
    requires OnlyFrom(w, subjects) && Separate(subjects)
    ensures Apart(w)
  {
    forall i, j | 0 <= i < |w.tasks| && 0 <= j < |w.tasks|
                  && !w.tasks[i].subject.Chat? && !w.tasks[j].subject.Chat?
                  && LedgerId(w.tasks[i].subject) == LedgerId(w.tasks[j].subject)
      ensures w.tasks[i].subject == w.tasks[j].subject
    {
      var a, b := w.tasks[i].subject, w.tasks[j].subject;
      if a != b {
        LedgerIdsCollide(a, b);
      }
    }
  }

  lemma NoWindowIsApart(cfg: Config, w: World)
    requires cfg.ttl < 0 && Reachable(cfg, w)
    ensures Apart(w)
  {
    NoWindowNoNotices(cfg, w);
    forall i, j | 0 <= i < |w.tasks| && 0 <= j < |w.tasks|
                  && !w.tasks[i].subject.Chat? && !w.tasks[j].subject.Chat?
                  && LedgerId(w.tasks[i].subject) == LedgerId(w.tasks[j].subject)
      ensures w.tasks[i].subject == w.tasks[j].subject
    {
      ClaimKeyInjective(w.tasks[i].subject, w.tasks[j].subject);
    }
  }

  ghost predicate Safe(cfg: Config, subjects: iset<Subject>) {
    cfg.ttl < 0 || Separate(subjects)
  }

  lemma SafeIsApart(cfg: Config, w: World, subjects: iset<Subject>)
    requires Safe(cfg, subjects) && Reachable(cfg, w) && OnlyFrom(w, subjects)
    ensures Apart(w)
  {
    if cfg.ttl < 0 {
      NoWindowIsApart(cfg, w);
    } else {
      SeparateIsApart(w, subjects);
    }
  }

  ghost predicate RowsFollowClaims(w: World) {
    forall subject: Subject :: RowFollowsClaim(w, subject)
  }

  ghost predicate FlagsTell(w: World) {
    forall id: string :: FlagTells(w, id)
  }

  ghost predicate AllIsWell(w: World) {
    RowsFollowClaims(w) && RowsAreTrue(w) && AnswersAreTrue(w) && FlagsTell(w)
  }

  lemma ApartIsWell(cfg: Config, w: World)
    requires Reachable(cfg, w) && Apart(w)
    ensures AllIsWell(w)
  {
    hide Reachable, Apart, FlagTells, RowFollowsClaim;
    ConfirmedMeansConfirmed(cfg, w);
    forall subject: Subject ensures RowFollowsClaim(w, subject) {
      FinishedClaimsHaveRows(cfg, w, subject);
    }
    forall id: string ensures FlagTells(w, id) {
      FlagOutlivesOnlyPrunedClaims(cfg, w, id);
    }
  }

  /** Two subjects that collide spoil all four guarantees. */
  lemma CollisionSpoils(cfg: Config, digest: string) returns (w: World, told: World)
    requires cfg.ttl >= 0
    ensures Reachable(cfg, w) && OnlyFrom(w, iset{Alarm(digest), Notice(ALERT + digest)})
    ensures !RowsFollowClaims(w) && !RowsAreTrue(w) && !FlagsTell(w)
    ensures Reachable(cfg, told) && OnlyFrom(told, iset{Alarm(digest), Notice(ALERT + digest)})
    ensures !AnswersAreTrue(told)
  {
    hide Reachable;
    w := CollidingIdTakesRow(cfg, digest);
    told := CollidingIdIsToldConfirmed(cfg, digest);
    assert !RowFollowsClaim(w, Alarm(digest));
    assert !ConfirmedFor(w, w.tasks[1].subject) && !RowIsTrue(w, w.tasks[1].subject);
    assert !FlagTells(w, ALERT + digest);
  }

  /** The exact condition. For requests from any set of subjects, each of these holds in all runs if and
      only if no notification id in the set spells the key of an alert in it (or nothing is let in): finished
      claims have their rows, rows and answers say "confirmed" only of events that were, and the flag of a row
      departs from its status only after its claim was pruned. */
  lemma SeparationIsExact(cfg: Config, subjects: iset<Subject>)
    ensures (forall w :: Reachable(cfg, w) && OnlyFrom(w, subjects) ==> RowsFollowClaims(w)) <==> Safe(cfg, subjects)
    ensures (forall w :: Reachable(cfg, w) && OnlyFrom(w, subjects) ==> RowsAreTrue(w)) <==> Safe(cfg, subjects)
    ensures (forall w :: Reachable(cfg, w) && OnlyFrom(w, subjects) ==> AnswersAreTrue(w)) <==> Safe(cfg, subjects)
    ensures (forall w :: Reachable(cfg, w) && OnlyFrom(w, subjects) ==> FlagsTell(w)) <==> Safe(cfg, subjects)
  {
    hide Reachable, RowsFollowClaims, RowsAreTrue, AnswersAreTrue, FlagsTell;
    if Safe(cfg, subjects) {
      forall w | Reachable(cfg, w) && OnlyFrom(w, subjects) ensures AllIsWell(w) {
        SafeIsApart(cfg, w, subjects);
        ApartIsWell(cfg, w);
      }
    } else {
      var digest: string :| Alarm(digest) in subjects && Notice(ALERT + digest) in subjects;
      var w, told := CollisionSpoils(cfg, digest);
      assert OnlyFrom(w, subjects) && OnlyFrom(told, subjects);
    }
  }

  // ----- the flag itself

  /** A row that carries the flag is confirmed. */
  ghost predicate FlaggedIsConfirmed(w: World) {
    forall id :: id in w.ledger && w.ledger[id].deliveryConfirmed ==> w.ledger[id].status.DeliveryConfirmed?
  }

  lemma {:induction false} FirmRun(cfg: Config, w: World, steps: seq<Step>, w': World)
    requires Inv(w) && FirmInv(w) && Run(cfg, w, steps, w') && Apart(w') && cfg.retention < 0
    ensures FirmInv(w')
    decreases |steps|
  {
    hide Apply, Enabled, Apart, FirmInv;
    if steps != [] {
      AwaitApart(cfg, w, steps, w');
      FirmStep(cfg, w, steps[0]);
      InvStep(cfg, w, steps[0]);
      FirmRun(cfg, Apply(cfg, w, steps[0]), steps[1..], w');
    }
  }

  lemma NegativeRetentionIsFirm(cfg: Config, w: World)
    requires cfg.retention < 0 && Reachable(cfg, w) && Apart(w)
    ensures FlaggedIsConfirmed(w)
  {
    var clock, steps :| Run(cfg, Init(clock), steps, w);
    FirmRun(cfg, Init(clock), steps, w);
    forall id | id in w.ledger ensures FirmOk(w, id) {
    }
  }

  /** Nothing is delivered but chat. */
  lemma OnlyChatHasNoRows(cfg: Config, w: World, subjects: iset<Subject>)
    requires forall s :: s in subjects ==> s.Chat? || !Admissible(cfg, s)
    requires Reachable(cfg, w) && OnlyFrom(w, subjects)
    ensures FlaggedIsConfirmed(w)
  {
    forall id | id in w.ledger ensures !w.ledger[id].deliveryConfirmed {
      if w.ledger[id].deliveryConfirmed {
        FlagMeansConfirmed(cfg, w, id);
        if cfg.ttl < 0 {
          NoWindowNoNotices(cfg, w);
        }
        assert false;
      }
    }
  }

  /** The exact condition for "a row that carries the flag is confirmed": nothing but chat is delivered, or no
      claim outlives a restart and no ids collide. So no retention of zero or more can keep it. */
  lemma FlagIsExact(cfg: Config, subjects: iset<Subject>)
    ensures (forall w :: Reachable(cfg, w) && OnlyFrom(w, subjects) ==> FlaggedIsConfirmed(w))
            <==> (forall s :: s in subjects ==> s.Chat? || !Admissible(cfg, s))
                 || (cfg.retention < 0 && Safe(cfg, subjects))
  {
    hide Reachable, FlaggedIsConfirmed;
    if forall s :: s in subjects ==> s.Chat? || !Admissible(cfg, s) {
      forall w | Reachable(cfg, w) && OnlyFrom(w, subjects) ensures FlaggedIsConfirmed(w) {
        OnlyChatHasNoRows(cfg, w, subjects);
      }
    } else if cfg.retention >= 0 {
      var s :| s in subjects && !s.Chat? && Admissible(cfg, s);
      var w := FlagOutlivesClaim(cfg, s);
      FlagSpoils(w, LedgerId(s));
    } else if Safe(cfg, subjects) {
      forall w | Reachable(cfg, w) && OnlyFrom(w, subjects) ensures FlaggedIsConfirmed(w) {
        SafeIsApart(cfg, w, subjects);
        NegativeRetentionIsFirm(cfg, w);
      }
    } else {
      var digest: string :| Alarm(digest) in subjects && Notice(ALERT + digest) in subjects;
      var w := CollidingIdTakesRow(cfg, digest);
      assert OnlyFrom(w, subjects);
      FlagSpoils(w, ALERT + digest);
    }
  }

  lemma FlagSpoils(w: World, id: string)
    requires id in w.ledger && w.ledger[id].deliveryConfirmed && !w.ledger[id].status.DeliveryConfirmed?
    ensures !FlaggedIsConfirmed(w)
  {
  }
}
