/** What the delivery protocol guarantees in every state that any run can reach: any interleaving of
    any number of tasks, any behaviour of the network, any crashes, cancellations and restarts. */
module Guarantees {
  import opened Keys
  import opened Splitting
  import opened Store
  import opened Delivery
  import opened Ownership
  import opened Rows
  import opened Network
  import opened Replay
  import opened Flags

  ghost predicate Inv(w: World) {
    && TaskInv(w) && RowInv(w)
    && WireInv(w) && ProgressInv(w) && ProofInv(w)
    && (Apart(w) ==> StageInv(w) && FlagInv(w))
  }

  lemma InvStep(cfg: Config, w: World, s: Step)
    requires Inv(w) && Enabled(cfg, w, s)
    ensures Inv(Apply(cfg, w, s))
  {
    hide Apply, Enabled;
    TaskStep(cfg, w, s);
    RowStep(cfg, w, s);
    WireStep(cfg, w, s);
    ProgressStep(cfg, w, s);
    ProofStep(cfg, w, s);
    if Apart(Apply(cfg, w, s)) {
      ApartBefore(cfg, w, s);
      StageStep(cfg, w, s);
      FlagStep(cfg, w, s);
    }
  }

  lemma {:induction false} InvRun(cfg: Config, w: World, steps: seq<Step>, w': World)
    requires Inv(w) && Run(cfg, w, steps, w')
    ensures Inv(w')
    decreases |steps|
  {
    hide Apply, Enabled;
    if steps != [] {
      InvStep(cfg, w, steps[0]);
      InvRun(cfg, Apply(cfg, w, steps[0]), steps[1..], w');
    }
  }

  lemma {:induction false} AwaitApart(cfg: Config, w: World, steps: seq<Step>, w': World)
    requires Run(cfg, w, steps, w') && Apart(w')
    ensures Apart(w)
    decreases |steps|
  {
    hide Apply, Enabled, Apart;
    if steps != [] {
      AwaitApart(cfg, Apply(cfg, w, steps[0]), steps[1..], w');
      ApartBefore(cfg, w, steps[0]);
    }
  }

  lemma InvReachable(cfg: Config, w: World)
    requires Reachable(cfg, w)
    ensures Inv(w)
  {
    var clock, steps :| Run(cfg, Init(clock), steps, w);
    InvRun(cfg, Init(clock), steps, w);
  }

  // ----- claims

  /** A claim under way has one winner, who is still at work on it or was lost with it; no other task
      is at work under the same key. */
  lemma ClaimsAreExclusive(cfg: Config, w: World)
    requires Reachable(cfg, w)
    ensures forall i, j :: 0 <= i < |w.tasks| && 0 <= j < |w.tasks| && Holds(w.tasks[i].pc)
                           && Holds(w.tasks[j].pc) && Key(w.tasks[i]) == Key(w.tasks[j])
                           ==> i == j
    ensures forall i :: 0 <= i < |w.tasks| && Holds(w.tasks[i].pc) ==>
                          Key(w.tasks[i]) in w.claims && w.claims[Key(w.tasks[i])].status.Processing?
    ensures forall k :: k in w.claims && w.claims[k].status.Processing? ==>
                          && k in w.owner && w.owner[k] < |w.tasks| && Key(w.tasks[w.owner[k]]) == k
                          && (Holds(w.tasks[w.owner[k]].pc) || w.tasks[w.owner[k]].pc == Vanished(true))
  {
    InvReachable(cfg, w);
    forall i | 0 <= i < |w.tasks| && Holds(w.tasks[i].pc)
      ensures Holder(w, i)
    {
    }
    forall k | k in w.claims && w.claims[k].status.Processing? ensures k in w.owner && ClaimOwned(w, k) {
    }
  }

  /** Until the next restart a finished claim stays as it is, and only its winner takes a claim under
      way out of the table. */
  lemma ClaimsPersist(cfg: Config, w: World, s: Step, k: string)
    requires Reachable(cfg, w) && Enabled(cfg, w, s) && !s.Boot? && k in w.claims
    ensures var w' := Apply(cfg, w, s);
            (k in w'.claims && w'.claims[k].createdAt == w.claims[k].createdAt)
            || (s.Act? && w.tasks[s.i].pc.Releasing? && Holder(w, s.i) && Key(w.tasks[s.i]) == k)
    ensures !w.claims[k].status.Processing? ==>
              k in Apply(cfg, w, s).claims && Apply(cfg, w, s).claims[k] == w.claims[k]
  {
    InvReachable(cfg, w);
    if s.Act? {
      ClaimPersistsAct(w, s.i, s.c, k);
    }
  }

  lemma ClaimPersistsAct(w: World, i: nat, c: Choice, k: string)
    requires TaskInv(w) && CanAct(w, i, c) && k in w.claims
    ensures var claims := DoAct(w, i, c).claims;
            && ((k in claims && claims[k].createdAt == w.claims[k].createdAt)
                || (w.tasks[i].pc.Releasing? && Holder(w, i) && Key(w.tasks[i]) == k))
            && (!w.claims[k].status.Processing? ==> k in claims && claims[k] == w.claims[k])
  {
    hide DoAct, LedgerAfter, Answered;
    assert ClaimOwned(w, k);
    ClaimUnderAct(w, i, c, k);
  }

  /** A restart prunes exactly the claims won, and the settled rows written, before its cutoff. */
  lemma RestartPrunes(cfg: Config, w: World)
    requires Enabled(cfg, w, Boot)
    ensures var w', cutoff := Apply(cfg, w, Boot), w.clock - cfg.retention;
            w'.up && w'.tasks == w.tasks && ClaimsPruned(w.claims, w'.claims, cutoff)
            && RowsPruned(w.ledger, w'.ledger, cutoff)
  {
    PruneIsExact(w.claims, w.ledger, map[], w.clock - cfg.retention);
  }

  /** The tasks of one key that made a control-plane request, gave the claim up, or had their claim
      pruned. */
  function Asked(w: World, key: string): set<nat> {
    set i: nat | i < |w.tasks| && Key(w.tasks[i]) == key && w.tasks[i].asked
  }

  function GivenUp(w: World, key: string): set<nat> {
    set i: nat | i < |w.tasks| && Key(w.tasks[i]) == key && GaveUp(w.tasks[i])
  }

  function Expired(w: World, key: string): set<nat> {
    set i: nat | i < |w.tasks| && Key(w.tasks[i]) == key && i in w.expired && !GaveUp(w.tasks[i])
  }

  /** Each chat event causes at most one control-plane request, and one more for each time its claim
      was released, lost in a crash or a cancellation, or pruned after it was finished. */
  lemma DispatchesAreBounded(cfg: Config, w: World, key: string)
    requires Reachable(cfg, w)
    ensures |Asked(w, key)| <= 1 + |GivenUp(w, key)| + |Expired(w, key)|
  {
    InvReachable(cfg, w);
    var current := if key in w.owner then {w.owner[key]} else {};
    var others := GivenUp(w, key) + Expired(w, key);
    forall i | i in Asked(w, key) ensures i in current + others {
      assert Shaped(w.tasks[i]);
      if Holds(w.tasks[i].pc) {
        assert Holder(w, i);
      }
    }
    assert Asked(w, key) <= current + others;
    SubsetSize(Asked(w, key), current + others);
    assert |current| <= 1 && |current + others| <= |current| + |others|;
    assert |others| <= |GivenUp(w, key)| + |Expired(w, key)|;
  }

  lemma {:induction false} ExpiredAtRestartOnly(cfg: Config, w: World, steps: seq<Step>, w': World)
    requires Run(cfg, w, steps, w') && forall n :: 0 <= n < |steps| ==> !steps[n].Boot?
    ensures w'.expired == w.expired
    decreases |steps|
  {
    if steps != [] {
      assert !steps[0].Boot?;
      ExpiredStep(cfg, w, steps[0]);
      hide Apply, Enabled;
      ExpiredAtRestartOnly(cfg, Apply(cfg, w, steps[0]), steps[1..], w');
    }
  }

  lemma ExpiredStep(cfg: Config, w: World, s: Step)
    requires Enabled(cfg, w, s) && !s.Boot?
    ensures Apply(cfg, w, s).expired == w.expired
  {
    if s.Act? {
      assert OneTask(w, DoAct(w, s.i, s.c), s.i);
    }
  }

  /** Until the next restart each key is delivered to completion at most once, by any number of requests
      and with what was delivered before, unless its claim was pruned already. */
  lemma KeysCompleteOnce(cfg: Config, w: World, steps: seq<Step>, w': World)
    requires Reachable(cfg, w) && Run(cfg, w, steps, w') && forall n :: 0 <= n < |steps| ==> !steps[n].Boot?
    ensures forall i, j :: 0 <= i < |w'.tasks| && 0 <= j < |w'.tasks| && i !in w.expired && j !in w.expired
                           && Key(w'.tasks[i]) == Key(w'.tasks[j])
                           && w'.tasks[i].pc == Finished(Sent) && w'.tasks[j].pc == Finished(Sent)
                           ==> i == j
  {
    InvReachable(cfg, w);
    InvRun(cfg, w, steps, w');
    ExpiredAtRestartOnly(cfg, w, steps, w');
    forall i | 0 <= i < |w'.tasks| && i !in w.expired && w'.tasks[i].pc == Finished(Sent) ensures Owns(w', i) {
      assert Settled(w'.tasks[i]);
    }
  }

  // ----- the ledger

  lemma RowsKeepTheirShape(cfg: Config, w: World, id: string)
    requires Reachable(cfg, w) && id in w.ledger
    ensures RowShape(w.ledger[id]) && w.ledger[id].updatedAt <= w.clock
  {
    InvReachable(cfg, w);
    assert SoundRow(w.ledger, id, w.clock);
  }

  /** The finished claim of a notification or alert has its ledger row in the matching final state,
      written after the claim was won. */
  ghost predicate RowFollowsClaim(w: World, subject: Subject) {
    var k := ClaimKey(subject);
    !subject.Chat? && k in w.claims ==>
      && (w.claims[k].status.Delivered? ==> Matches(w, k, LedgerId(subject), DeliveryConfirmed))
      && (w.claims[k].status.Abandoned? ==> Matches(w, k, LedgerId(subject), PermanentFailed))
  }

  /** So it is as long as no notification id spells the key of an alert. (Module Collisions tells when this
      can be relied on.) */
  lemma FinishedClaimsHaveRows(cfg: Config, w: World, subject: Subject)
    requires Reachable(cfg, w) && Apart(w)
    ensures RowFollowsClaim(w, subject)
  {
    InvReachable(cfg, w);
    var k := ClaimKey(subject);
    if k in w.claims {
      assert ClaimOwned(w, k) && ClaimHasRow(w, k);
      ClaimKeyInjective(w.tasks[w.owner[k]].subject, subject);
    }
  }

  /** So a restart never drops the row of a delivery while it keeps the finished claim. */
  lemma RestartKeepsRows(cfg: Config, w: World, subject: Subject)
    requires Reachable(cfg, w) && Apart(w) && !w.up && !subject.Chat?
    requires ClaimKey(subject) in w.claims && !w.claims[ClaimKey(subject)].status.Processing?
    requires ClaimKey(subject) in DoBoot(cfg, w).claims
    ensures LedgerId(subject) in w.ledger && LedgerId(subject) in DoBoot(cfg, w).ledger
    ensures DoBoot(cfg, w).ledger[LedgerId(subject)] == w.ledger[LedgerId(subject)]
  {
    FinishedClaimsHaveRows(cfg, w, subject);
  }

  // ----- confirmation

  /** The provider has confirmed every chunk, and there is at least one. It confirms a name; whether the
      text on display under that name is the text of this task is another matter (module Wording). */
  ghost predicate AllKnown(w: World, t: Task) {
    t.chunks != [] && forall n: nat :: n < |t.chunks| ==> Known(w.log, Key(t), n)
  }

  /** Some task of this event saw all of its chunks confirmed. */
  ghost predicate ConfirmedFor(w: World, subject: Subject) {
    exists i :: 0 <= i < |w.tasks| && w.tasks[i].subject == subject && w.tasks[i].confirmed && AllKnown(w, w.tasks[i])
  }

  lemma AllChunksKnown(w: World, i: nat)
    requires Inv(w) && i < |w.tasks| && w.tasks[i].confirmed
    ensures AllKnown(w, w.tasks[i])
  {
    assert Progress(w, w.tasks[i]);
    forall n: nat | n < |w.tasks[i].chunks| ensures Known(w.log, Key(w.tasks[i]), n) {
      KnownIffSeen(w.log, Key(w.tasks[i]), n);
    }
  }

  /** A task that reports success saw the name of every one of its own chunks confirmed. */
  lemma SuccessMeansConfirmed(cfg: Config, w: World, i: nat)
    requires Reachable(cfg, w) && i < |w.tasks| && w.tasks[i].pc == Finished(Sent)
    ensures w.tasks[i].confirmed && AllKnown(w, w.tasks[i])
  {
    InvReachable(cfg, w);
    assert Shaped(w.tasks[i]);
    AllChunksKnown(w, i);
  }

  /** A row that says "confirmed" was confirmed to some event with this ledger id. */
  lemma FlagMeansConfirmed(cfg: Config, w: World, id: string)
    requires Reachable(cfg, w) && id in w.ledger && w.ledger[id].deliveryConfirmed
    ensures exists subject: Subject :: !subject.Chat? && LedgerId(subject) == id && ConfirmedFor(w, subject)
  {
    InvReachable(cfg, w);
    assert Proven(w, id);
    var i := w.confirmedBy[id];
    AllChunksKnown(w, i);
    assert ConfirmedFor(w, w.tasks[i].subject);
  }

  /** The row of an event says "confirmed" only if the event was. */
  ghost predicate RowIsTrue(w: World, subject: Subject) {
    !subject.Chat? && LedgerId(subject) in w.ledger && w.ledger[LedgerId(subject)].deliveryConfirmed ==>
      ConfirmedFor(w, subject)
  }

  ghost predicate RowsAreTrue(w: World) {
    forall i :: 0 <= i < |w.tasks| ==> RowIsTrue(w, w.tasks[i].subject)
  }

  /** The answer to a duplicate says "confirmed" only if its event was. */
  ghost predicate AnswersAreTrue(w: World) {
    forall i :: 0 <= i < |w.tasks| && SaysConfirmed(w.tasks[i].pc) ==> ConfirmedFor(w, w.tasks[i].subject)
  }

  lemma ConfirmedSubject(w: World, subject: Subject, i: nat)
    requires Inv(w) && Apart(w) && i < |w.tasks| && w.tasks[i].subject == subject && !subject.Chat?
    requires LedgerId(subject) in w.confirmedBy
    ensures ConfirmedFor(w, subject)
  {
    assert Proven(w, LedgerId(subject));
    AllChunksKnown(w, w.confirmedBy[LedgerId(subject)]);
  }

  /** As long as no notification id spells the key of an alert, neither a ledger row nor the answer to a
      duplicate says "confirmed" of an event that was not. */
  lemma ConfirmedMeansConfirmed(cfg: Config, w: World)
    requires Reachable(cfg, w) && Apart(w)
    ensures RowsAreTrue(w) && AnswersAreTrue(w)
  {
    InvReachable(cfg, w);
    forall i | 0 <= i < |w.tasks| && !w.tasks[i].subject.Chat? && LedgerId(w.tasks[i].subject) in w.confirmedBy
      ensures ConfirmedFor(w, w.tasks[i].subject)
    {
      ConfirmedSubject(w, w.tasks[i].subject, i);
    }
    forall i | 0 <= i < |w.tasks| ensures Truthful(w, w.tasks[i]) {
    }
  }

  /** A row whose flag is set is confirmed, or the claim of a delivery that it was confirmed to has been
      pruned. */
  ghost predicate FlagTells(w: World, id: string) {
    id in w.ledger && w.ledger[id].deliveryConfirmed ==>
      || w.ledger[id].status.DeliveryConfirmed?
      || exists e :: e in w.expired && e < |w.tasks| && !w.tasks[e].subject.Chat?
                     && LedgerId(w.tasks[e].subject) == id && w.tasks[e].confirmed
  }

  lemma FlagOutlivesOnlyPrunedClaims(cfg: Config, w: World, id: string)
    requires Reachable(cfg, w) && Apart(w)
    ensures FlagTells(w, id)
  {
    InvReachable(cfg, w);
    if id in w.ledger && w.ledger[id].deliveryConfirmed {
      assert FlagOk(w, id) && Proven(w, id);
    }
  }

  // ----- what the recipient sees

  /** The accepted posts of one delivery, as displayed. */
  function Shown(log: seq<Post>, key: string): seq<Post> {
    if log == [] then []
    else
      var rest := Shown(log[..|log| - 1], key);
      if log[|log| - 1].key == key then rest + [log[|log| - 1]] else rest
  }

  lemma {:induction false} ShownIsOrdered(log: seq<Post>, key: string)
    requires Ordered(log)
    ensures |Shown(log, key)| == Seen(log, key)
    ensures forall a :: 0 <= a < |Shown(log, key)| ==>
                          Shown(log, key)[a].index == a && Shown(log, key)[a].key == key && Shown(log, key)[a] in log
    decreases |log|
  {
    if log != [] {
      OrderedInit(log);
      ShownIsOrdered(log[..|log| - 1], key);
    }
  }

  /** The posts shown for a delivery are its chunks 0, 1, 2, ... without a gap or a repeat, each with
      the text that some task of this delivery gave that chunk. */
  lemma ChunksAreShownInOrder(cfg: Config, w: World, key: string)
    requires Reachable(cfg, w)
    ensures forall a :: 0 <= a < |Shown(w.log, key)| ==>
                          var p := Shown(w.log, key)[a];
                          p.index == a && p.key == key && Genuine(w, p)
  {
    InvReachable(cfg, w);
    ShownIsOrdered(w.log, key);
    forall p | p in w.wire ensures Genuine(w, p) {
    }
  }

  /** Every task of this delivery whose text is settled and not blank has the same one. */
  ghost predicate SameMessage(w: World, key: string, chunks: seq<string>) {
    forall i :: 0 <= i < |w.tasks| && Key(w.tasks[i]) == key && Fixed(w.tasks[i]) && w.tasks[i].chunks != [] ==>
                  w.tasks[i].chunks == chunks
  }

  function Texts(posts: seq<Post>): seq<string> {
    seq(|posts|, i requires 0 <= i < |posts| => posts[i].text)
  }

  lemma ShownText(w: World, key: string, chunks: seq<string>, a: nat)
    requires Inv(w) && SameMessage(w, key, chunks) && a < Seen(w.log, key)
    ensures |Shown(w.log, key)| == Seen(w.log, key)
    ensures a < |chunks| && Shown(w.log, key)[a].text == chunks[a]
  {
    ShownIsOrdered(w.log, key);
    var p := Shown(w.log, key)[a];
    assert p in w.wire && Genuine(w, p) && w.tasks[p.origin].chunks == chunks;
  }

  lemma ShownPrefix(w: World, key: string, chunks: seq<string>)
    requires Inv(w) && SameMessage(w, key, chunks)
    ensures Seen(w.log, key) <= |chunks|
    ensures Texts(Shown(w.log, key)) == chunks[..Seen(w.log, key)]
  {
    var n := Seen(w.log, key);
    ShownIsOrdered(w.log, key);
    if n > 0 {
      ShownText(w, key, chunks, n - 1);
    }
    forall a | 0 <= a < n ensures Texts(Shown(w.log, key))[a] == chunks[a] {
      ShownText(w, key, chunks, a);
    }
  }

  lemma ConfirmedSeesAll(w: World, i: nat, chunks: seq<string>)
    requires Inv(w) && i < |w.tasks| && w.tasks[i].confirmed && SameMessage(w, Key(w.tasks[i]), chunks)
    ensures |chunks| <= Seen(w.log, Key(w.tasks[i]))
  {
    assert Progress(w, w.tasks[i]) && Shaped(w.tasks[i]);
  }

  /** With one message per event, the recipient always sees a prefix of its chunks, once each, over
      any retries, crashes and restarts; and all of them once a task of the event is done. */
  lemma RecipientSeesMessageOnce(cfg: Config, w: World, subject: Subject, chunks: seq<string>)
    requires Reachable(cfg, w) && SameMessage(w, ClaimKey(subject), chunks)
    ensures Texts(Shown(w.log, ClaimKey(subject))) <= chunks
    ensures (exists i :: 0 <= i < |w.tasks| && w.tasks[i].subject == subject && w.tasks[i].confirmed) ==>
              Texts(Shown(w.log, ClaimKey(subject))) == chunks
  {
    InvReachable(cfg, w);
    ShownPrefix(w, ClaimKey(subject), chunks);
    forall i | 0 <= i < |w.tasks| && w.tasks[i].subject == subject && w.tasks[i].confirmed
      ensures chunks[..Seen(w.log, ClaimKey(subject))] == chunks
    {
      ConfirmedSeesAll(w, i, chunks);
    }
  }

  predicate Carries(s: Step, subject: Subject, text: string) {
    s.Start? && s.subject == subject ==> s.text == text
  }

  ghost predicate OneText(w: World, subject: Subject, text: string) {
    forall i :: 0 <= i < |w.tasks| && w.tasks[i].subject == subject ==> w.tasks[i].chunks == Chunks(text, LIMIT)
  }

  lemma OneTextStep(cfg: Config, w: World, s: Step, subject: Subject, text: string)
    requires !subject.Chat? && OneText(w, subject, text) && Enabled(cfg, w, s) && Carries(s, subject, text)
    ensures OneText(Apply(cfg, w, s), subject, text)
  {
    hide Chunks;
    if s.Act? {
      assert OneTask(w, DoAct(w, s.i, s.c), s.i);
    }
  }

  lemma {:induction false} OneTextRun(cfg: Config, w: World, steps: seq<Step>, w': World,
                                      subject: Subject, text: string)
    requires !subject.Chat? && OneText(w, subject, text) && Run(cfg, w, steps, w')
    requires forall n :: 0 <= n < |steps| ==> Carries(steps[n], subject, text)
    ensures OneText(w', subject, text)
    decreases |steps|
  {
    hide Apply, Enabled, OneText, Carries;
    if steps != [] {
      OneTextStep(cfg, w, steps[0], subject, text);
      OneTextRun(cfg, Apply(cfg, w, steps[0]), steps[1..], w', subject, text);
    }
  }

  /** When every request of a notification or alert carries the same text, then whatever else happens the
      recipient sees a prefix of the chunks of that text, and all of them once one request is done. */
  lemma SameTextIsShownOnce(cfg: Config, clock: int, steps: seq<Step>, w: World, subject: Subject, text: string)
    requires !subject.Chat? && Run(cfg, Init(clock), steps, w)
    requires forall n :: 0 <= n < |steps| ==> Carries(steps[n], subject, text)
    ensures Texts(Shown(w.log, ClaimKey(subject))) <= Chunks(text, LIMIT)
    ensures (exists i :: 0 <= i < |w.tasks| && w.tasks[i].subject == subject && w.tasks[i].pc == Finished(Sent)) ==>
              Texts(Shown(w.log, ClaimKey(subject))) == Chunks(text, LIMIT)
  {
    OneTextRun(cfg, Init(clock), steps, w, subject, text);
    assert Reachable(cfg, w);
    forall i | 0 <= i < |w.tasks| && Key(w.tasks[i]) == ClaimKey(subject) ensures w.tasks[i].subject == subject {
      ClaimKeyInjective(w.tasks[i].subject, subject);
    }
    RecipientSeesMessageOnce(cfg, w, subject, Chunks(text, LIMIT));
    forall i | 0 <= i < |w.tasks| && w.tasks[i].pc == Finished(Sent) ensures w.tasks[i].confirmed {
      SuccessMeansConfirmed(cfg, w, i);
    }
  }

  /** A ledger row that says "confirmed" vouches that the whole message is on display, unless a
      notification id spells the key of an alert. */
  lemma ConfirmedRowShowsAll(cfg: Config, w: World, j: nat, chunks: seq<string>)
    requires Reachable(cfg, w) && Apart(w) && j < |w.tasks| && !w.tasks[j].subject.Chat?
    requires SameMessage(w, Key(w.tasks[j]), chunks)
    requires LedgerId(w.tasks[j].subject) in w.ledger && w.ledger[LedgerId(w.tasks[j].subject)].deliveryConfirmed
    ensures Texts(Shown(w.log, Key(w.tasks[j]))) == chunks
  {
    InvReachable(cfg, w);
    var id := LedgerId(w.tasks[j].subject);
    assert Proven(w, id);
    var i := w.confirmedBy[id];
    assert w.tasks[i].subject == w.tasks[j].subject;
    RecipientSeesMessageOnce(cfg, w, w.tasks[j].subject, chunks);
  }

  // ----- replays

  lemma {:induction false} ReplayRun(cfg: Config, w: World, steps: seq<Step>, w': World)
    requires TaskInv(w) && ReplayInv(cfg, w) && Run(cfg, w, steps, w') && 2 * cfg.ttl <= cfg.retention
    ensures ReplayInv(cfg, w')
    decreases |steps|
  {
    hide Apply, Enabled;
    if steps != [] {
      TaskStep(cfg, w, steps[0]);
      ReplayStep(cfg, w, steps[0]);
      ReplayRun(cfg, Apply(cfg, w, steps[0]), steps[1..], w');
    }
  }

  /** When claims are kept for two windows, one signed notification request is delivered to completion
      at most once, over any resubmissions, crashes and restarts. */
  lemma SignedRequestDeliversOnce(cfg: Config, w: World)
    requires Reachable(cfg, w) && 2 * cfg.ttl <= cfg.retention
    ensures OnceEach(w)
  {
    var clock, steps :| Run(cfg, Init(clock), steps, w);
    ReplayRun(cfg, Init(clock), steps, w);
  }
}
