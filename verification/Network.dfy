/** What the recipient sees: posts that may be lost, delayed and repeated, and a provider that
    drops a name it knows. */
module Network {
  import opened Keys
  import opened Store
  import opened Delivery
  import opened Ownership

  /** How many posts of one delivery the provider has accepted. */
  function Seen(log: seq<Post>, key: string): nat {
    if log == [] then 0
    else Seen(log[..|log| - 1], key) + if log[|log| - 1].key == key then 1 else 0
  }

  /** Every accepted post carried the next index of its delivery. */
  ghost predicate Ordered(log: seq<Post>) {
    forall a :: 0 <= a < |log| ==> log[a].index == Seen(log[..a], log[a].key)
  }

  lemma OrderedInit(log: seq<Post>)
    requires log != [] && Ordered(log)
    ensures Ordered(log[..|log| - 1])
  {
    var front := log[..|log| - 1];
    forall a | 0 <= a < |front| ensures front[a].index == Seen(front[..a], front[a].key) {
      assert front[..a] == log[..a];
    }
  }

  lemma OrderedSnoc(log: seq<Post>, p: Post)
    requires Ordered(log) && p.index == Seen(log, p.key)
    ensures Ordered(log + [p])
  {
    var longer := log + [p];
    forall a | 0 <= a < |longer| ensures longer[a].index == Seen(longer[..a], longer[a].key) {
      assert longer[..a] == log[..a];
      assert log[..|log|] == log;
    }
  }

  lemma KnownSnoc(log: seq<Post>, key: string, n: nat)
    requires log != []
    ensures var last := log[|log| - 1];
            Known(log, key, n) <==> Known(log[..|log| - 1], key, n) || (last.key == key && last.index == n)
  {
    var front, last := log[..|log| - 1], log[|log| - 1];
    if Known(front, key, n) {
      var a :| 0 <= a < |front| && ChunkName(front[a].key, front[a].index) == ChunkName(key, n);
      assert log[a] == front[a];
    }
    if Known(log, key, n) {
      var a :| 0 <= a < |log| && ChunkName(log[a].key, log[a].index) == ChunkName(key, n);
      if a < |front| {
        assert front[a] == log[a];
      } else {
        ChunkNameInjective(last.key, last.index, key, n);
      }
    }
  }

  /** In an ordered log the names the provider knows are exactly the first ones of each delivery. */
  lemma {:induction false} KnownIffSeen(log: seq<Post>, key: string, n: nat)
    requires Ordered(log)
    ensures Known(log, key, n) <==> n < Seen(log, key)
    decreases |log|
  {
    if log != [] {
      OrderedInit(log);
      KnownIffSeen(log[..|log| - 1], key, n);
      KnownSnoc(log, key, n);
      assert log[|log| - 1].index == Seen(log[..|log| - 1], log[|log| - 1].key);
    }
  }

  // ----- invariants

  predicate Genuine(w: World, p: Post) {
    && p.origin < |w.tasks|
    && var t := w.tasks[p.origin];
       Fixed(t) && Key(t) == p.key && p.index < |t.chunks| && p.text == t.chunks[p.index]
  }

  ghost predicate WireInv(w: World) {
    && (forall p :: p in w.wire ==> Genuine(w, p) && p.index <= Seen(w.log, p.key))
    && (forall a :: 0 <= a < |w.log| ==> w.log[a] in w.wire)
    && Ordered(w.log)
  }

  predicate Progress(w: World, t: Task) {
    && (t.pc.Sending? ==> t.pc.next <= Seen(w.log, Key(t)))
    && (t.confirmed ==> t.chunks != [] && |t.chunks| <= Seen(w.log, Key(t)))
  }

  ghost predicate ProgressInv(w: World) {
    forall i :: 0 <= i < |w.tasks| ==> Progress(w, w.tasks[i])
  }

  predicate Proven(w: World, id: string) {
    && id in w.confirmedBy && w.confirmedBy[id] < |w.tasks|
    && var t := w.tasks[w.confirmedBy[id]];
       !t.subject.Chat? && LedgerId(t.subject) == id && t.confirmed
  }

  predicate Truthful(w: World, t: Task) {
    SaysConfirmed(t.pc) ==> t.subject.Notice? && LedgerId(t.subject) in w.confirmedBy
  }

  ghost predicate ProofInv(w: World) {
    && (forall id :: id in w.confirmedBy ==> Proven(w, id))
    && (forall id :: id in w.ledger && w.ledger[id].deliveryConfirmed ==> id in w.confirmedBy)
    && (forall i :: 0 <= i < |w.tasks| ==> Truthful(w, w.tasks[i]))
  }

  // ----- the wire and the log

  lemma WireAct(w: World, i: nat, c: Choice)
    requires WireInv(w) && ProgressInv(w) && CanAct(w, i, c)
    ensures WireInv(DoAct(w, i, c))
  {
    hide DoAct;
    var w' := DoAct(w, i, c);
    assert OneTask(w, w', i);
    assert Progress(w, w.tasks[i]);
    forall p | p in w'.wire ensures Genuine(w', p) && p.index <= Seen(w'.log, p.key) {
      if p in w.wire {
        assert Genuine(w, p);
      }
    }
  }

  lemma WireAccept(w: World, p: Post)
    requires WireInv(w) && p in w.wire && !Known(w.log, p.key, p.index)
    ensures WireInv(w.(log := w.log + [p])) && p.index == Seen(w.log, p.key)
  {
    var w' := w.(log := w.log + [p]);
    KnownIffSeen(w.log, p.key, p.index);
    OrderedSnoc(w.log, p);
    assert (w.log + [p])[..|w.log|] == w.log;
    forall q | q in w'.wire ensures Genuine(w', q) && q.index <= Seen(w'.log, q.key) {
      assert Genuine(w, q);
    }
  }

  lemma WireTasks(w: World, w': World)
    requires WireInv(w) && w'.wire == w.wire && w'.log == w.log && |w.tasks| <= |w'.tasks|
    requires forall i :: 0 <= i < |w.tasks| ==> w'.tasks[i] == w.tasks[i] || w'.tasks[i] == Vanish(w.tasks[i])
    ensures WireInv(w')
  {
    forall p | p in w'.wire ensures Genuine(w', p) && p.index <= Seen(w'.log, p.key) {
      assert Genuine(w, p);
    }
  }

  lemma WireStep(cfg: Config, w: World, s: Step)
    requires WireInv(w) && ProgressInv(w) && Enabled(cfg, w, s)
    ensures WireInv(Apply(cfg, w, s))
  {
    match s
    case Act(i, c) => WireAct(w, i, c);
    case Accept(p) => WireAccept(w, p);
    case _ => WireTasks(w, Apply(cfg, w, s));
  }

  // ----- the progress of each task

  lemma ProgressAct(w: World, i: nat, c: Choice)
    requires WireInv(w) && ProgressInv(w) && ShapeInv(w) && CanAct(w, i, c)
    ensures ProgressInv(DoAct(w, i, c))
  {
    var w' := DoAct(w, i, c);
    assert OneTask(w, w', i);
    ProgressMine(w, i, c);
    forall j | 0 <= j < |w'.tasks| ensures Progress(w', w'.tasks[j]) {
      assert Progress(w, w.tasks[j]);
    }
  }

  lemma ProgressMine(w: World, i: nat, c: Choice)
    requires WireInv(w) && ProgressInv(w) && ShapeInv(w) && CanAct(w, i, c)
    ensures Progress(DoAct(w, i, c), DoAct(w, i, c).tasks[i])
  {
    if w.tasks[i].pc.Sending? {
      ProgressSend(w, i, c);
    } else {
      ProgressRest(w, i, c);
    }
  }

  lemma ProgressSend(w: World, i: nat, c: Choice)
    requires WireInv(w) && ProgressInv(w) && ShapeInv(w) && CanAct(w, i, c) && w.tasks[i].pc.Sending?
    ensures Progress(DoAct(w, i, c), DoAct(w, i, c).tasks[i])
  {
    var t := w.tasks[i];
    assert Progress(w, t) && Shaped(t);
    if c.Ok? {
      KnownIffSeen(w.log, Key(t), t.pc.next);
    }
  }

  lemma ProgressRest(w: World, i: nat, c: Choice)
    requires ProgressInv(w) && CanAct(w, i, c) && !w.tasks[i].pc.Sending? && Shaped(w.tasks[i])
    ensures Progress(DoAct(w, i, c), DoAct(w, i, c).tasks[i])
  {
    hide DoAct, LedgerAfter, Answered, ClaimKey;
    assert OneTask(w, DoAct(w, i, c), i);
    assert Progress(w, w.tasks[i]);
  }

  lemma ProgressAccept(w: World, p: Post)
    requires ProgressInv(w)
    ensures ProgressInv(w.(log := w.log + [p]))
  {
    var w' := w.(log := w.log + [p]);
    assert (w.log + [p])[..|w.log|] == w.log;
    forall j | 0 <= j < |w'.tasks| ensures Progress(w', w'.tasks[j]) {
      assert Progress(w, w.tasks[j]);
    }
  }

  lemma ProgressStep(cfg: Config, w: World, s: Step)
    requires WireInv(w) && ProgressInv(w) && ShapeInv(w) && Enabled(cfg, w, s)
    ensures ProgressInv(Apply(cfg, w, s))
  {
    var w' := Apply(cfg, w, s);
    match s
    case Act(i, c) => ProgressAct(w, i, c);
    case Accept(p) => ProgressAccept(w, p);
    case _ =>
      forall j | 0 <= j < |w'.tasks| ensures Progress(w', w'.tasks[j]) {
        assert j < |w.tasks| ==> Progress(w, w.tasks[j]);
      }
  }

  // ----- confirmations

  lemma ProofAct(w: World, i: nat, c: Choice)
    requires ProofInv(w) && ShapeInv(w) && CanAct(w, i, c)
    ensures ProofInv(DoAct(w, i, c))
  {
    var w' := DoAct(w, i, c);
    FlagFrame(w, i, c);
    TruthfulMine(w, i, c);
    assert Shaped(w.tasks[i]) && OneTask(w, w', i);
    forall id | id in w'.confirmedBy ensures Proven(w', id) {
      assert id in w.confirmedBy ==> Proven(w, id);
    }
    forall id | id in w'.ledger && w'.ledger[id].deliveryConfirmed ensures id in w'.confirmedBy {
    }
    forall j | 0 <= j < |w'.tasks| ensures Truthful(w', w'.tasks[j]) {
      assert Truthful(w, w.tasks[j]);
    }
  }

  /** Only mark_delivery_confirmed sets the flag of a row. */
  lemma FlagFrame(w: World, i: nat, c: Choice)
    requires CanAct(w, i, c)
    ensures forall id :: id in DoAct(w, i, c).ledger && DoAct(w, i, c).ledger[id].deliveryConfirmed ==>
                           (id in w.ledger && w.ledger[id].deliveryConfirmed)
                           || (w.tasks[i].pc.Confirming? && id == LedgerId(w.tasks[i].subject))
  {
    hide DoAct, RowShape;
    assert OneTask(w, DoAct(w, i, c), i);
  }

  lemma TruthfulMine(w: World, i: nat, c: Choice)
    requires ProofInv(w) && CanAct(w, i, c)
    ensures Truthful(DoAct(w, i, c), DoAct(w, i, c).tasks[i])
  {
    hide DoAct;
    assert OneTask(w, DoAct(w, i, c), i);
  }

  lemma ProofTasks(w: World, w': World)
    requires ProofInv(w) && w'.confirmedBy == w.confirmedBy && |w.tasks| <= |w'.tasks|
    requires forall i :: 0 <= i < |w.tasks| ==> w'.tasks[i] == w.tasks[i] || w'.tasks[i] == Vanish(w.tasks[i])
    requires forall i :: |w.tasks| <= i < |w'.tasks| ==> w'.tasks[i].pc == Claiming
    requires forall id :: id in w'.ledger && w'.ledger[id].deliveryConfirmed ==>
               id in w.ledger && w.ledger[id].deliveryConfirmed
    ensures ProofInv(w')
  {
    forall id | id in w'.confirmedBy ensures Proven(w', id) {
      assert Proven(w, id);
    }
    forall j | 0 <= j < |w'.tasks| ensures Truthful(w', w'.tasks[j]) {
      assert j < |w.tasks| ==> Truthful(w, w.tasks[j]);
    }
  }

  lemma ProofStep(cfg: Config, w: World, s: Step)
    requires ProofInv(w) && ShapeInv(w) && Enabled(cfg, w, s)
    ensures ProofInv(Apply(cfg, w, s))
  {
    match s
    case Act(i, c) => ProofAct(w, i, c);
    case _ => ProofTasks(w, Apply(cfg, w, s));
  }
}
