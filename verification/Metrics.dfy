/** The delivery_attempts counters of one process: nothing is counted twice and nothing is lost. */
module Metrics {
  import opened Keys
  import opened Store
  import opened Delivery

  /** The counters of one source, and beside them what nothing counts: its attempts that were cancelled, and
      what had ended well and for good before this process. */
  datatype Counters = Counters(
    attempt: nat, confirmed: nat, retryable: nat, permanent: nat, cancelled: nat,
    succeededBefore: nat, failedBefore: nat)

  const ZERO := Counters(0, 0, 0, 0, 0, 0, 0)

  /** An attempt that has been counted and has no counted outcome yet; one that succeeded; one that failed for
      good. */
  datatype Kind = Open | Succeeded | FailedForGood

  predicate Is(t: Task, source: string, kind: Kind) {
    t.source == source && !t.subject.Chat?
    && match kind
       case Open => Trying(t.pc)
       case Succeeded => t.pc == Finished(Sent)
       case FailedForGood => t.pc.Finished? && t.pc.result.Raised? && !t.pc.result.failure.retryable
  }

  function CountOf(tasks: seq<Task>, source: string, kind: Kind): nat {
    if tasks == [] then 0
    else CountOf(tasks[..|tasks| - 1], source, kind) + if Is(tasks[|tasks| - 1], source, kind) then 1 else 0
  }

  /** The counters start at zero with each process and move with the statements of the tasks. */
  function Count(m: Counters, w: World, s: Step, source: string): Counters {
    match s
    case Boot =>
      ZERO.(succeededBefore := CountOf(w.tasks, source, Succeeded),
            failedBefore := CountOf(w.tasks, source, FailedForGood))
    case Cancel(i) =>
      if i < |w.tasks| && Is(w.tasks[i], source, Open) then m.(cancelled := m.cancelled + 1) else m
    case Act(i, c) =>
      if i >= |w.tasks| || w.tasks[i].source != source || w.tasks[i].subject.Chat? then m
      else
        (match w.tasks[i].pc
         case Beginning => m.(attempt := m.attempt + 1)
         case Finishing => m.(confirmed := m.confirmed + 1)
         case Recording(f) => if f.retryable then m.(retryable := m.retryable + 1) else m
         case Burying(_) => m.(permanent := m.permanent + 1)
         case _ => m)
    case _ => m
  }

  lemma {:induction false} CountUpdate(tasks: seq<Task>, i: nat, t: Task, source: string, kind: Kind)
    requires i < |tasks|
    ensures CountOf(tasks[i := t], source, kind)
            == CountOf(tasks, source, kind) - (if Is(tasks[i], source, kind) then 1 else 0)
               + (if Is(t, source, kind) then 1 else 0)
    decreases |tasks|
  {
    var n := |tasks| - 1;
    if i < n {
      assert tasks[i := t][..n] == tasks[..n][i := t];
      CountUpdate(tasks[..n], i, t, source, kind);
    } else {
      assert tasks[i := t][..n] == tasks[..n];
    }
  }

  lemma {:induction false} CountNone(tasks: seq<Task>, source: string)
    requires forall i :: 0 <= i < |tasks| ==> !Is(tasks[i], source, Open)
    ensures CountOf(tasks, source, Open) == 0
  {
    if tasks != [] {
      CountNone(tasks[..|tasks| - 1], source);
    }
  }

  ghost predicate Balanced(m: Counters, w: World, source: string) {
    && (!w.up ==> forall i :: 0 <= i < |w.tasks| ==> !Live(w.tasks[i].pc))
    && (w.up ==> m.attempt == m.confirmed + m.retryable + m.permanent + m.cancelled + CountOf(w.tasks, source, Open))
    && (w.up ==> m.succeededBefore + m.confirmed == CountOf(w.tasks, source, Succeeded))
    && (w.up ==> m.failedBefore + m.permanent == CountOf(w.tasks, source, FailedForGood))
  }

  lemma BalancedAct(m: Counters, w: World, i: nat, c: Choice, source: string)
    requires Balanced(m, w, source) && w.up && CanAct(w, i, c)
    ensures Balanced(Count(m, w, Act(i, c), source), DoAct(w, i, c), source)
  {
    var w' := DoAct(w, i, c);
    hide DoAct, LedgerAfter, Answered, NextPost, Shaped;
    assert OneTask(w, w', i);
    CountUpdate(w.tasks, i, w'.tasks[i], source, Open);
    CountUpdate(w.tasks, i, w'.tasks[i], source, Succeeded);
    CountUpdate(w.tasks, i, w'.tasks[i], source, FailedForGood);
  }

  lemma CountVanished(w: World, i: nat, source: string)
    requires i < |w.tasks|
    ensures var tasks := w.tasks[i := Vanish(w.tasks[i])];
            && CountOf(tasks, source, Open)
               == CountOf(w.tasks, source, Open) - (if Is(w.tasks[i], source, Open) then 1 else 0)
            && CountOf(tasks, source, Succeeded) == CountOf(w.tasks, source, Succeeded)
            && CountOf(tasks, source, FailedForGood) == CountOf(w.tasks, source, FailedForGood)
  {
    CountUpdate(w.tasks, i, Vanish(w.tasks[i]), source, Open);
    CountUpdate(w.tasks, i, Vanish(w.tasks[i]), source, Succeeded);
    CountUpdate(w.tasks, i, Vanish(w.tasks[i]), source, FailedForGood);
  }

  lemma CountStarted(tasks: seq<Task>, t: Task, source: string, kind: Kind)
    requires !Is(t, source, kind)
    ensures CountOf(tasks + [t], source, kind) == CountOf(tasks, source, kind)
  {
    assert (tasks + [t])[..|tasks|] == tasks;
  }

  lemma BalancedStep(cfg: Config, m: Counters, w: World, s: Step, source: string)
    requires Balanced(m, w, source) && Enabled(cfg, w, s)
    ensures Balanced(Count(m, w, s, source), Apply(cfg, w, s), source)
  {
    var w' := Apply(cfg, w, s);
    match s
    case Act(i, c) => BalancedAct(m, w, i, c, source);
    case Cancel(i) => CountVanished(w, i, source);
    case Boot => CountNone(w.tasks, source);
    case Start(_, _, _, _) =>
      var t := w'.tasks[|w.tasks|];
      CountStarted(w.tasks, t, source, Open);
      CountStarted(w.tasks, t, source, Succeeded);
      CountStarted(w.tasks, t, source, FailedForGood);
    case _ =>
  }

  /** The counters after a run. */
  ghost predicate Counted(cfg: Config, m: Counters, w: World, steps: seq<Step>, m': Counters, w': World, source: string)
    decreases |steps|
  {
    if steps == [] then m' == m && w' == w
    else
      Enabled(cfg, w, steps[0])
      && Counted(cfg, Count(m, w, steps[0], source), Apply(cfg, w, steps[0]), steps[1..], m', w', source)
  }

  lemma {:induction false} BalancedRun(cfg: Config, m: Counters, w: World, steps: seq<Step>,
                                       m': Counters, w': World, source: string)
    requires Balanced(m, w, source) && Counted(cfg, m, w, steps, m', w', source)
    ensures Balanced(m', w', source)
    decreases |steps|
  {
    hide Apply, Enabled, Count, Balanced;
    if steps != [] {
      BalancedStep(cfg, m, w, steps[0], source);
      BalancedRun(cfg, Count(m, w, steps[0], source), Apply(cfg, w, steps[0]), steps[1..], m', w', source);
    }
  }

  /** While a process is up, its counted attempts of a source are its counted outcomes, the attempts
      under way and the cancelled ones; without cancellations nothing is missing. Its counted successes and
      final failures are the tasks that ended so in this process. */
  lemma AttemptsAreConserved(cfg: Config, clock: int, steps: seq<Step>, m: Counters, w: World, source: string)
    requires Counted(cfg, ZERO, Init(clock), steps, m, w, source) && w.up
    ensures m.attempt == m.confirmed + m.retryable + m.permanent + m.cancelled + CountOf(w.tasks, source, Open)
    ensures m.confirmed == CountOf(w.tasks, source, Succeeded) - m.succeededBefore
    ensures m.permanent == CountOf(w.tasks, source, FailedForGood) - m.failedBefore
  {
    BalancedRun(cfg, ZERO, Init(clock), steps, m, w, source);
  }

  // ----- the attempts of one row

  /** A begin_delivery call for this id. */
  predicate Begins(w: World, s: Step, id: string) {
    && s.Act? && s.i < |w.tasks| && w.tasks[s.i].pc.Beginning?
    && !w.tasks[s.i].subject.Chat? && LedgerId(w.tasks[s.i].subject) == id
  }

  /** `n` calls before a run have become `n'` after it; they are forgotten with the row. */
  ghost predicate Called(cfg: Config, n: nat, w: World, steps: seq<Step>, n': nat, w': World, id: string)
    decreases |steps|
  {
    if steps == [] then n' == n && w' == w
    else
      Enabled(cfg, w, steps[0])
      && var w1 := Apply(cfg, w, steps[0]);
         Called(cfg, if id !in w1.ledger then 0 else n + if Begins(w, steps[0], id) then 1 else 0,
                w1, steps[1..], n', w', id)
  }

  lemma AttemptsUnderAct(w: World, i: nat, id: string)
    requires i < |w.tasks| && id in LedgerAfter(w, i)
    ensures Attempts(LedgerAfter(w, i), id) == Attempts(w.ledger, id) + if Begins(w, Act(i, Go), id) then 1 else 0
  {
  }

  lemma AttemptsStep(cfg: Config, w: World, s: Step, id: string)
    requires Enabled(cfg, w, s)
    ensures id in Apply(cfg, w, s).ledger ==>
              Attempts(Apply(cfg, w, s).ledger, id) == Attempts(w.ledger, id) + if Begins(w, s, id) then 1 else 0
  {
    if s.Act? {
      hide DoAct;
      assert OneTask(w, DoAct(w, s.i, s.c), s.i);
      if id in LedgerAfter(w, s.i) {
        AttemptsUnderAct(w, s.i, id);
      }
    }
  }

  lemma {:induction false} AttemptsRun(cfg: Config, n: nat, w: World, steps: seq<Step>, n': nat, w': World, id: string)
    requires n == Attempts(w.ledger, id) && Called(cfg, n, w, steps, n', w', id)
    ensures n' == Attempts(w'.ledger, id)
    decreases |steps|
  {
    hide Apply, Enabled, Begins;
    if steps != [] {
      AttemptsStep(cfg, w, steps[0], id);
      var w1 := Apply(cfg, w, steps[0]);
      AttemptsRun(cfg, Attempts(w1.ledger, id), w1, steps[1..], n', w', id);
    }
  }

  /** The attempts of a ledger row are the begin_delivery calls for its id since the row was made, over
      any run with any crashes and restarts. */
  lemma AttemptsCountCalls(cfg: Config, clock: int, steps: seq<Step>, n: nat, w: World, id: string)
    requires Called(cfg, 0, Init(clock), steps, n, w, id) && id in w.ledger
    ensures w.ledger[id].attempts == n
  {
    AttemptsRun(cfg, 0, Init(clock), steps, n, w, id);
  }
}
