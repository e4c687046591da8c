/** The provider knows a post by its name and drops a repetition whatever its text. When a task reports
    success, is its own text on display? */
module Wording {
  import opened Keys
  import opened Text
  import opened Splitting
  import opened Store
  import opened Delivery
  import opened Network
  import opened Replay
  import opened Guarantees
  import opened Scenarios

  /** What may come in: subjects, each with the texts of its requests. */
  type Requests = iset<(Subject, string)>

  /** Every task stems from one of these requests. */
  ghost predicate Requested(w: World, requests: Requests) {
    forall i :: 0 <= i < |w.tasks| ==> RequestOf(w.tasks[i], requests)
  }

  ghost predicate RequestOf(t: Task, requests: Requests) {
    exists text :: (t.subject, text) in requests && (!t.subject.Chat? ==> t.chunks == Chunks(text, LIMIT))
  }

  /** The recipient sees exactly the text of every task that reports success. */
  ghost predicate SuccessIsShown(w: World) {
    forall i :: 0 <= i < |w.tasks| && w.tasks[i].pc == Finished(Sent) ==>
                  Texts(Shown(w.log, Key(w.tasks[i]))) == w.tasks[i].chunks
  }

  /** No event comes with two readable texts that split differently, and no chat message is answered. */
  ghost predicate OneWording(cfg: Config, requests: Requests) {
    && (forall r :: r in requests ==> !r.0.Chat?)
    && (forall r, q :: r in requests && q in requests && r.0 == q.0 && Admissible(cfg, r.0)
                       && !Blank(r.1) && !Blank(q.1) ==>
                         Chunks(r.1, LIMIT) == Chunks(q.1, LIMIT))
  }

  // ----- where it holds

  lemma BlankHasNoChunks(text: string)
    ensures Chunks(text, LIMIT) == [] <==> Blank(text)
  {
    SplitKeepsText(text, LIMIT);
  }

  lemma SuccessIsShownAt(cfg: Config, w: World, requests: Requests, i: nat)
    requires Reachable(cfg, w) && Requested(w, requests) && OneWording(cfg, requests)
    requires i < |w.tasks| && w.tasks[i].pc == Finished(Sent)
    ensures Texts(Shown(w.log, Key(w.tasks[i]))) == w.tasks[i].chunks
  {
    hide Chunks, Blank;
    var t := w.tasks[i];
    SuccessMeansConfirmed(cfg, w, i);
    assert RequestOf(t, requests);
    var text :| (t.subject, text) in requests && t.chunks == Chunks(text, LIMIT);
    BlankHasNoChunks(text);
    if !Admissible(cfg, t.subject) {
      NoWindowNoNotices(cfg, w);
    }
    forall j | 0 <= j < |w.tasks| && Key(w.tasks[j]) == Key(t) && w.tasks[j].chunks != []
      ensures w.tasks[j].chunks == t.chunks
    {
      ClaimKeyInjective(w.tasks[j].subject, t.subject);
      assert RequestOf(w.tasks[j], requests);
      var other :| (t.subject, other) in requests && w.tasks[j].chunks == Chunks(other, LIMIT);
      BlankHasNoChunks(other);
      assert (t.subject, text).0 == (t.subject, other).0;
    }
    RecipientSeesMessageOnce(cfg, w, t.subject, t.chunks);
  }

  // ----- where it fails

  const LOST := Failure("LOST", true)

  predicate AllNamesKnown(w: World, key: string, count: nat) {
    forall n: nat :: n < count ==> Known(w.log, key, n)
  }

  /** A task that is about to send its first chunk. */
  predicate AboutToSend(w: World, i: nat) {
    i < |w.tasks| && w.tasks[i].pc == Sending(0) && w.tasks[i].chunks != []
  }

  /** A request comes in and comes to its first chunk; a chat message is answered with this text. */
  lemma CanOpen(cfg: Config, w: World, subject: Subject, text: string) returns (w': World)
    requires Reachable(cfg, w) && w.up && ClaimKey(subject) !in w.claims && Admissible(cfg, subject) && !Blank(text)
    ensures Reachable(cfg, w') && AboutToSend(w', |w.tasks|)
    ensures w' == w.(tasks := w.tasks + [w'.tasks[|w.tasks|]], owner := w'.owner, ledger := w'.ledger,
                     claims := w.claims[ClaimKey(subject) := Claimed(Processing, w.clock)])
    ensures var t := w'.tasks[|w.tasks|]; t.subject == subject && t.chunks == Chunks(text, LIMIT)
  {
    ReadableHasChunks(text);
    hide Chunks, Blank;
    if subject.Chat? {
      w' := CanAnswer(cfg, w, subject, text);
    } else {
      w' := CanBegin(cfg, w, subject, w.clock, text);
    }
  }

  lemma CanAnswer(cfg: Config, w: World, subject: Subject, text: string) returns (w': World)
    requires Reachable(cfg, w) && w.up && subject.Chat? && ClaimKey(subject) !in w.claims && Chunks(text, LIMIT) != []
    ensures Reachable(cfg, w')
    ensures w' == w.(tasks := w.tasks + [Task(subject, "chat", 0, Chunks(text, LIMIT), Sending(0), false, false)],
                     owner := w'.owner, claims := w.claims[ClaimKey(subject) := Claimed(Processing, w.clock)])
  {
    hide Chunks;
    var i := |w.tasks|;
    var w1 := Step1(cfg, w, Start(subject, "chat", 0, text));
    var w2 := Step1(cfg, w1, Act(i, Go));
    assert w2.tasks == w.tasks + [Task(subject, "chat", 0, [], Asking, false, false)];
    w' := Step1(cfg, w2, Act(i, Answer(text)));
    assert w'.tasks == w.tasks + [Task(subject, "chat", 0, Chunks(text, LIMIT), Sending(0), false, false)];
  }

  lemma KnownGrows(a: seq<Post>, b: seq<Post>, key: string, n: nat)
    requires a <= b && Known(a, key, n)
    ensures Known(b, key, n)
  {
    var k :| 0 <= k < |a| && ChunkName(a[k].key, a[k].index) == ChunkName(key, n);
    assert b[k] == a[k];
  }

  lemma OneMoreKnown(w: World, w': World, key: string, n: nat)
    requires AllNamesKnown(w, key, n) && w.log <= w'.log && Known(w'.log, key, n)
    ensures AllNamesKnown(w', key, n + 1)
  {
    forall k: nat | k < n + 1 ensures Known(w'.log, key, k) {
      if k < n {
        KnownGrows(w.log, w'.log, key, k);
      }
    }
  }

  lemma PostNext(cfg: Config, w: World, i: nat, n: nat) returns (w': World)
    requires Reachable(cfg, w) && w.up && i < |w.tasks| && w.tasks[i].pc == Sending(n) && n + 1 < |w.tasks[i].chunks|
    requires AllNamesKnown(w, Key(w.tasks[i]), n)
    ensures Reachable(cfg, w') && AllNamesKnown(w', Key(w.tasks[i]), n + 1)
    ensures w' == At(w, i, Sending(n + 1)).(wire := w'.wire, log := w'.log)
  {
    var w1 := PostOne(cfg, w, i, n);
    OneMoreKnown(w, w1, Key(w.tasks[i]), n);
    w' := Step1(cfg, w1, Act(i, Ok));
  }

  /** All chunks but the last go out and are confirmed. */
  lemma {:induction false} PostUpToLast(cfg: Config, w: World, i: nat, n: nat) returns (w': World)
    requires Reachable(cfg, w) && w.up && i < |w.tasks| && w.tasks[i].pc == Sending(n) && n < |w.tasks[i].chunks|
    requires AllNamesKnown(w, Key(w.tasks[i]), n)
    ensures Reachable(cfg, w') && AllNamesKnown(w', Key(w.tasks[i]), |w.tasks[i].chunks| - 1)
    ensures w' == At(w, i, Sending(|w.tasks[i].chunks| - 1)).(wire := w'.wire, log := w'.log)
    decreases |w.tasks[i].chunks| - n
  {
    hide Reachable, AllNamesKnown;
    if n + 1 < |w.tasks[i].chunks| {
      var w1 := PostNext(cfg, w, i, n);
      w' := PostUpToLast(cfg, w1, i, n + 1);
      assert w'.tasks == At(w, i, Sending(|w.tasks[i].chunks| - 1)).tasks;
    } else {
      w' := w;
      assert w'.tasks == At(w, i, Sending(n)).tasks;
    }
  }

  /** The last reply is lost, and the task gives up its claim. */
  lemma GiveUp(cfg: Config, w: World, i: nat) returns (w': World)
    requires Reachable(cfg, w) && w.up && i < |w.tasks| && w.tasks[i].pc.Sending?
    requires w.tasks[i].pc.next < |w.tasks[i].chunks|
    requires Key(w.tasks[i]) in w.claims && w.claims[Key(w.tasks[i])].status.Processing?
    ensures Reachable(cfg, w') && w'.up && w'.log == w.log && w'.clock == w.clock
    ensures w'.tasks == At(w, i, Finished(Raised(LOST))).tasks
    ensures Key(w.tasks[i]) !in w'.claims
  {
    hide Reachable;
    var w1 := Step1(cfg, w, Act(i, Err(LOST)));
    assert w1 == At(w, i, if w.tasks[i].subject.Chat? then Releasing(LOST) else Recording(LOST));
    if w.tasks[i].subject.Chat? {
      w' := Release(cfg, w1, i);
    } else {
      var w2 := RecordLoss(cfg, w1, i);
      w' := Release(cfg, w2, i);
    }
    assert w'.tasks == At(w, i, Finished(Raised(LOST))).tasks;
  }

  lemma RecordLoss(cfg: Config, w: World, i: nat) returns (w': World)
    requires Reachable(cfg, w) && w.up && i < |w.tasks| && !w.tasks[i].subject.Chat? && w.tasks[i].pc == Recording(LOST)
    ensures Reachable(cfg, w') && w' == At(w, i, Releasing(LOST)).(ledger := w'.ledger)
  {
    w' := Step1(cfg, w, Act(i, Go));
  }

  lemma Release(cfg: Config, w: World, i: nat) returns (w': World)
    requires Reachable(cfg, w) && w.up && i < |w.tasks| && w.tasks[i].pc == Releasing(LOST)
    requires Key(w.tasks[i]) in w.claims && w.claims[Key(w.tasks[i])].status.Processing?
    ensures Reachable(cfg, w') && Key(w.tasks[i]) !in w'.claims
    ensures w' == At(w, i, Finished(Raised(LOST))).(claims := w'.claims, owner := w'.owner)
  {
    w' := Step1(cfg, w, Act(i, Go));
  }

  /** Where the provider knows every name already, each chunk is confirmed and nothing new is shown. */
  lemma {:induction false} OkUpToEnd(cfg: Config, w: World, i: nat, n: nat) returns (w': World)
    requires Reachable(cfg, w) && w.up && i < |w.tasks| && w.tasks[i].pc == Sending(n) && n < |w.tasks[i].chunks|
    requires AllNamesKnown(w, Key(w.tasks[i]), |w.tasks[i].chunks|)
    ensures Reachable(cfg, w') && i < |w'.tasks| && w'.tasks[i].subject == w.tasks[i].subject
    ensures w' == w.(tasks := w.tasks[i := w.tasks[i].(
                                confirmed := true, pc := if w.tasks[i].subject.Chat? then Finishing else Confirming)])
    decreases |w.tasks[i].chunks| - n
  {
    var w1 := Step1(cfg, w, Act(i, Ok));
    if n + 1 < |w.tasks[i].chunks| {
      assert w1 == At(w, i, Sending(n + 1));
      w' := OkUpToEnd(cfg, w1, i, n + 1);
      assert w1.tasks[i := w'.tasks[i]] == w.tasks[i := w'.tasks[i]];
    } else {
      w' := w1;
    }
  }

  lemma SucceedUnseen(cfg: Config, w: World, i: nat) returns (w': World)
    requires Reachable(cfg, w) && w.up && AboutToSend(w, i)
    requires AllNamesKnown(w, Key(w.tasks[i]), |w.tasks[i].chunks|)
    ensures Reachable(cfg, w') && w'.log == w.log
    ensures w'.tasks == w.tasks[i := w.tasks[i].(confirmed := true, pc := Finished(Sent))]
  {
    hide Reachable, AllNamesKnown;
    w' := OkUpToEnd(cfg, w, i, 0);
    if !w.tasks[i].subject.Chat? {
      w' := CloseRow(cfg, w', i);
    }
    w' := CloseClaim(cfg, w', i);
    assert w'.tasks == w.tasks[i := w.tasks[i].(confirmed := true, pc := Finished(Sent))];
  }

  /** The whole message is on display when every name is known and only this text was ever sent. */
  lemma ShownInFull(cfg: Config, w: World, key: string, chunks: seq<string>)
    requires Reachable(cfg, w) && SameMessage(w, key, chunks) && AllNamesKnown(w, key, |chunks|)
    ensures Texts(Shown(w.log, key)) == chunks
  {
    InvReachable(cfg, w);
    ShownPrefix(w, key, chunks);
    if chunks != [] {
      KnownIffSeen(w.log, key, |chunks| - 1);
    }
  }

  /** The first request shows its text, but the last reply is lost. */
  lemma ShownButLost(cfg: Config, subject: Subject, text: string) returns (w: World)
    requires Admissible(cfg, subject) && !Blank(text)
    ensures Reachable(cfg, w) && w.up && |w.tasks| == 1 && ClaimKey(subject) !in w.claims
    ensures w.tasks[0].subject == subject && w.tasks[0].chunks == Chunks(text, LIMIT)
    ensures Texts(Shown(w.log, ClaimKey(subject))) == Chunks(text, LIMIT)
    ensures AllNamesKnown(w, ClaimKey(subject), |Chunks(text, LIMIT)|)
  {
    hide Reachable, Chunks, Blank, AllNamesKnown;
    var w1 := FirstBoot(cfg);
    var w2 := CanOpen(cfg, w1, subject, text);
    NothingKnown(w2, ClaimKey(subject));
    var w3 := PostUpToLast(cfg, w2, 0, 0);
    var w4 := PostOne(cfg, w3, 0, |Chunks(text, LIMIT)| - 1);
    OneMoreKnown(w3, w4, ClaimKey(subject), |Chunks(text, LIMIT)| - 1);
    w := GiveUp(cfg, w4, 0);
    SameLog(w4, w, ClaimKey(subject), |Chunks(text, LIMIT)|);
    ShownInFull(cfg, w, ClaimKey(subject), Chunks(text, LIMIT));
  }

  lemma NothingKnown(w: World, key: string)
    ensures AllNamesKnown(w, key, 0)
  {
  }

  lemma SameLog(w: World, w': World, key: string, count: nat)
    requires AllNamesKnown(w, key, count) && w'.log == w.log
    ensures forall n: nat :: n <= count ==> AllNamesKnown(w', key, n)
  {
  }

  /** A second request with another text is confirmed, succeeds, and is never shown. */
  lemma SecondWordingIsNotShown(cfg: Config, subject: Subject, first: string, second: string) returns (w: World)
    requires Admissible(cfg, subject) && !Blank(first) && !Blank(second)
    requires |Chunks(second, LIMIT)| <= |Chunks(first, LIMIT)|
    ensures Reachable(cfg, w) && |w.tasks| == 2
    ensures w.tasks[0].subject == w.tasks[1].subject == subject && w.tasks[0].chunks == Chunks(first, LIMIT)
    ensures w.tasks[1].pc == Finished(Sent) && w.tasks[1].chunks == Chunks(second, LIMIT)
    ensures Texts(Shown(w.log, ClaimKey(subject))) == Chunks(first, LIMIT)
  {
    hide Reachable, Chunks, Blank, AllNamesKnown;
    var w1 := ShownButLost(cfg, subject, first);
    var w2 := CanOpen(cfg, w1, subject, second);
    SameLog(w1, w2, ClaimKey(subject), |Chunks(first, LIMIT)|);
    w := SucceedUnseen(cfg, w2, 1);
  }

  lemma OneLetter(c: char)
    requires !IsSpace(c)
    ensures Chunks([c], LIMIT) == [[c]] && !Blank([c])
  {
    StripTrimmed([c]);
    assert [c][0] == c;
  }

  lemma WordingSpoils(cfg: Config, subject: Subject, a: string, b: string, requests: Requests) returns (w: World)
    requires Admissible(cfg, subject) && !Blank(a) && !Blank(b) && Chunks(a, LIMIT) != Chunks(b, LIMIT)
    requires if subject.Chat? then exists t :: (subject, t) in requests
             else (subject, a) in requests && (subject, b) in requests
    ensures Reachable(cfg, w) && Requested(w, requests) && !SuccessIsShown(w)
  {
    hide Reachable, Chunks, Blank;
    if |Chunks(b, LIMIT)| <= |Chunks(a, LIMIT)| {
      w := SecondWordingIsNotShown(cfg, subject, a, b);
    } else {
      w := SecondWordingIsNotShown(cfg, subject, b, a);
    }
    assert RequestOf(w.tasks[0], requests) && RequestOf(w.tasks[1], requests);
  }

  /** The exact condition. For any set of requests, every task that reports success has exactly its own
      text on display in all runs, if and only if no event comes with two readable texts that split
      differently and there is no chat, whose answers are composed afresh each time. */
  lemma WordingIsExact(cfg: Config, requests: Requests)
    ensures (forall w :: Reachable(cfg, w) && Requested(w, requests) ==> SuccessIsShown(w))
            <==> OneWording(cfg, requests)
  {
    hide Reachable, Requested, Chunks, Blank;
    if OneWording(cfg, requests) {
      forall w | Reachable(cfg, w) && Requested(w, requests) ensures SuccessIsShown(w) {
        forall i | 0 <= i < |w.tasks| && w.tasks[i].pc == Finished(Sent)
          ensures Texts(Shown(w.log, Key(w.tasks[i]))) == w.tasks[i].chunks
        {
          SuccessIsShownAt(cfg, w, requests, i);
        }
      }
    } else if exists r :: r in requests && r.0.Chat? {
      var r :| r in requests && r.0.Chat?;
      OneLetter('x');
      OneLetter('y');
      assert (r.0, r.1) in requests && "x"[0] != "y"[0];
      var w := WordingSpoils(cfg, r.0, "x", "y", requests);
    } else {
      var r, q :| r in requests && q in requests && r.0 == q.0 && Admissible(cfg, r.0) && !Blank(r.1) && !Blank(q.1)
                  && Chunks(r.1, LIMIT) != Chunks(q.1, LIMIT);
      assert (r.0, r.1) in requests && (r.0, q.1) in requests;
      var w := WordingSpoils(cfg, r.0, r.1, q.1, requests);
    }
  }
}
