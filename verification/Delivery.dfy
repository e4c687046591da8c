/** The delivery protocol as a step system: concurrent handlers that interleave between any two
    store statements, a network that may delay, repeat or lose anything, crashes, and restarts
    that prune.

    A task is one delivery: a notification, one alert of an alertmanager payload, or the answer
    to a chat message. `tasks` keeps every task that ever started, so that statements about a
    state are statements about the whole run that led to it. */
module Delivery {
  import opened Wrappers
  import opened Keys
  import Security
  import opened Store
  import opened Splitting

  datatype Config = Config(ttl: int, retention: int)

  datatype Failure = Failure(code: string, retryable: bool)

  const EMPTY_MESSAGE := Failure("EMPTY_MESSAGE", false)

  datatype Result =
    | Sent
    | Deduplicated(status: Option<RowStatus>, accepted: bool, confirmed: bool)
    | Raised(failure: Failure)

  /** The statement a task runs next. */
  datatype Pc =
    | Claiming               // claim_event
    | Answering              // lost the claim: delivery_for
    | Asking                 // chat: inside _command_or_chat
    | Beginning              // begin_delivery
    | Sending(next: nat)     // inside send_text for this chunk
    | Confirming             // mark_delivery_confirmed
    | Finishing              // mark_processed
    | Recording(f: Failure)  // mark_delivery_retrying or mark_delivery_permanent_failed
    | Releasing(f: Failure)  // release_event
    | Burying(f: Failure)    // mark_processed as permanently failed
    | Finished(result: Result)
    | Vanished(held: bool)   // lost in a crash or cancelled, with or without its claim

  datatype Task = Task(
    subject: Subject,
    source: string,
    stamp: int,           // the signed timestamp of a notification request
    chunks: seq<string>,  // fixed before the first chunk is sent
    pc: Pc,
    asked: bool,          // has made its control-plane request
    confirmed: bool)      // has seen every chunk confirmed

  /** A message-post on its way to the provider, with the task that made it. */
  datatype Post = Post(origin: nat, key: string, index: nat, text: string)

  datatype World = World(
    claims: Claims,
    ledger: Ledger,
    tasks: seq<Task>,
    wire: set<Post>,                // everything ever posted; any of it may still arrive, or arrive again
    log: seq<Post>,                 // what the provider accepted and displayed, in order
    clock: int,
    up: bool,
    owner: map<string, nat>,        // history: who won each claim that is in the table
    expired: set<nat>,              // history: winners whose claim was pruned
    confirmedBy: map<string, nat>)  // history: who last confirmed each ledger id

  function Init(clock: int): World {
    World(map[], map[], [], {}, [], clock, false, map[], {}, map[])
  }

  function Key(t: Task): string { ClaimKey(t.subject) }

  predicate Live(pc: Pc) { !pc.Finished? && !pc.Vanished? }

  /** Between winning the claim and finishing or releasing it. */
  predicate Holds(pc: Pc) { Live(pc) && !pc.Claiming? && !pc.Answering? }

  /** The provider knows a post by its name only. */
  predicate Known(log: seq<Post>, key: string, index: nat) {
    exists a :: 0 <= a < |log| && ChunkName(log[a].key, log[a].index) == ChunkName(key, index)
  }

  datatype Choice =
    | Go
    | Push                    // post the message, for the first time or again
    | Ok                      // a 2xx reply with code 0
    | Err(f: Failure)         // any exception
    | Dispatch                // the control-plane request
    | Answer(text: string)    // the text to reply with

  datatype Step =
    | Start(subject: Subject, source: string, stamp: int, text: string)
    | Act(i: nat, c: Choice)
    | Accept(p: Post)
    | Prepare(id: string)
    | Tick(seconds: nat)
    | Cancel(i: nat)
    | Crash
    | Boot

  // ----- one statement of one task

  /** A chat task has no ledger row, only a notification reads one for its answer, a task that sends
      has a chunk to send, and a recorded failure decides between release and burial. Every reachable
      task is like this. */
  predicate Typed(t: Task) {
    match t.pc
    case Answering => t.subject.Notice?
    case Asking => t.subject.Chat?
    case Beginning | Confirming => !t.subject.Chat?
    case Recording(f) => !t.subject.Chat? && f.code != ""
    case Releasing(f) => t.subject.Chat? || f.retryable
    case Burying(f) => !t.subject.Chat? && !f.retryable
    case Sending(n) => n < |t.chunks|
    case _ => true
  }

  /** Lost its claim to a crash or a cancellation, or gave it back. */
  predicate GaveUp(t: Task) {
    t.pc == Vanished(true) || (t.pc.Finished? && t.pc.result.Raised?)
  }

  /** Only a task that won its claim asks or confirms, and a confirmed one cannot fail any more. */
  predicate Historic(t: Task) {
    && (t.asked ==> t.subject.Chat? && (Holds(t.pc) || GaveUp(t) || t.pc == Finished(Sent)))
    && (t.confirmed ==> t.pc.Confirming? || t.pc.Finishing? || t.pc == Vanished(true) || t.pc == Finished(Sent))
    && (t.pc.Confirming? || t.pc.Finishing? || t.pc == Finished(Sent) ==> t.confirmed)
  }

  predicate Shaped(t: Task) { Typed(t) && Historic(t) }

  /** The chunks of a chat answer are fixed once it is there; those of other tasks always are. */
  predicate Fixed(t: Task) {
    t.subject.Chat? ==> !t.pc.Claiming? && !t.pc.Asking?
  }

  function NextPost(w: World, i: nat): Post
    requires i < |w.tasks| && w.tasks[i].pc.Sending? && w.tasks[i].pc.next < |w.tasks[i].chunks|
  {
    var t := w.tasks[i];
    Post(i, Key(t), t.pc.next, t.chunks[t.pc.next])
  }

  function Answered(ledger: Ledger, id: string): (r: Result)
    ensures r.Deduplicated?
  {
    if id !in ledger then Deduplicated(None, false, false)
    else
      var row := ledger[id];
      Deduplicated(
        if row.status.Prepared? then None else Some(row.status), row.transportAccepted, row.deliveryConfirmed)
  }

  /** The ledger statement of task `i`, if it is at one. */
  function LedgerAfter(w: World, i: nat): Ledger
    requires i < |w.tasks|
  {
    var t := w.tasks[i];
    if t.subject.Chat? then w.ledger
    else
      match t.pc
      case Beginning => BeginDelivery(w.ledger, LedgerId(t.subject), t.source, w.clock)
      case Confirming => MarkConfirmed(w.ledger, LedgerId(t.subject), w.clock)
      case Recording(f) =>
        if f.retryable then MarkRetrying(w.ledger, LedgerId(t.subject), f.code, w.clock, w.clock)
        else MarkPermanentFailed(w.ledger, LedgerId(t.subject), f.code, w.clock)
      case _ => w.ledger
  }

  /** Begun, and not yet at an end that the counters know. */
  predicate Trying(pc: Pc) {
    pc.Sending? || pc.Confirming? || pc.Finishing? || pc.Recording? || pc.Burying?
  }

  predicate Onward(t: Task, t': Task) {
    && t'.subject == t.subject && t'.source == t.source && t'.stamp == t.stamp
    && (t'.pc.Sending? && !t.pc.Sending? ==> t'.pc.next == 0)
    && (t.pc.Releasing? ==> t'.pc == Finished(Raised(t.pc.f)))
    && (t.pc.Burying? ==> t'.pc == Finished(Raised(t.pc.f)))
    && (t.pc.Finishing? ==> t'.pc == Finished(Sent))
    && (t'.pc.Finished? && !t.pc.Releasing? && !t.pc.Finishing? && !t.pc.Burying? ==> t'.pc.result.Deduplicated?)
    && (t'.pc.Vanished? ==> t.pc.Vanished?)
    && (!t.subject.Chat? ==>
          (Trying(t'.pc) <==>
           t.pc.Beginning? || t.pc.Sending? || t.pc.Confirming? || (t.pc.Recording? && !t.pc.f.retryable)))
  }

  /** `w'` is `w` but for task `i`, its post and its rows; its request and fixed chunks stay. */
  ghost predicate OneTask(w: World, w': World, i: nat) {
    && i < |w.tasks| && |w'.tasks| == |w.tasks|
    && w'.tasks == w.tasks[i := w'.tasks[i]]
    && Onward(w.tasks[i], w'.tasks[i])
    && w'.expired == w.expired && w'.up == w.up && w'.clock == w.clock && w'.log == w.log
    && (w'.wire == w.wire
        || (w.tasks[i].pc.Sending? && w.tasks[i].pc.next < |w.tasks[i].chunks| && w'.wire == w.wire + {NextPost(w, i)}))
    && (Fixed(w.tasks[i]) ==> Fixed(w'.tasks[i]) && w'.tasks[i].chunks == w.tasks[i].chunks)
    && w'.ledger == LedgerAfter(w, i)
    && w'.confirmedBy == (if w.tasks[i].pc.Confirming? && !w.tasks[i].subject.Chat?
                          then w.confirmedBy[LedgerId(w.tasks[i].subject) := i] else w.confirmedBy)
    && (w.tasks[i].confirmed ==> w'.tasks[i].confirmed)
    && (w'.tasks[i].confirmed ==> w.tasks[i].confirmed || w.tasks[i].pc.Sending?)
    && (SaysConfirmed(w'.tasks[i].pc) ==>
          w.tasks[i].subject.Notice? && w'.tasks[i].pc == Finished(Answered(w.ledger, w.tasks[i].subject.eventId)))
  }

  /** The answer to a duplicate claims that the event was confirmed. */
  predicate SaysConfirmed(pc: Pc) {
    pc.Finished? && pc.result.Deduplicated? && pc.result.confirmed
  }

  /** A statement of task `i` that wins, finishes and releases no claim. */
  ghost predicate Quiet(w: World, w': World, i: nat) {
    && OneTask(w, w', i)
    && w'.claims == w.claims && w'.owner == w.owner
    && (Holds(w'.tasks[i].pc) <==> Holds(w.tasks[i].pc))
    && (Shaped(w.tasks[i]) ==> Shaped(w'.tasks[i]))
  }

  predicate CanAct(w: World, i: nat, c: Choice) {
    && i < |w.tasks| && Typed(w.tasks[i])
    && (c.Err? ==> c.f.code != "")
    && match w.tasks[i].pc
       case Asking => (c.Dispatch? && !w.tasks[i].asked) || c.Answer? || c.Err?
       case Sending(n) => c.Push? || (c.Ok? && Known(w.log, Key(w.tasks[i]), n)) || c.Err?
       case Finished(_) => false
       case Vanished(_) => false
       case _ => c.Go?
  }

  function At(w: World, i: nat, pc: Pc): World
    requires i < |w.tasks|
  {
    w.(tasks := w.tasks[i := w.tasks[i].(pc := pc)])
  }

  function ActLose(w: World, i: nat): (w': World)
    requires i < |w.tasks| && w.tasks[i].pc.Claiming?
    ensures Quiet(w, w', i)
  {
    At(w, i, if w.tasks[i].subject.Notice? then Answering else Finished(Deduplicated(None, false, false)))
  }

  function ActWin(w: World, i: nat): (w': World)
    requires i < |w.tasks| && w.tasks[i].pc.Claiming?
    ensures OneTask(w, w', i) && (Shaped(w.tasks[i]) ==> Shaped(w'.tasks[i]))
  {
    hide Answered, NextPost;
    var key := Key(w.tasks[i]);
    At(w, i, if w.tasks[i].subject.Chat? then Asking else Beginning).(
      claims := ClaimEvent(w.claims, key, w.clock), owner := w.owner[key := i])
  }

  function ActClaim(w: World, i: nat): (w': World)
    requires i < |w.tasks| && w.tasks[i].pc.Claiming?
    ensures OneTask(w, w', i) && (Shaped(w.tasks[i]) ==> Shaped(w'.tasks[i]))
  {
    if Key(w.tasks[i]) in w.claims then ActLose(w, i) else ActWin(w, i)
  }

  function FirstPc(t: Task): Pc {
    if t.chunks != [] then Sending(0)
    else if t.subject.Chat? then Releasing(EMPTY_MESSAGE)
    else Recording(EMPTY_MESSAGE)
  }

  function ActBegin(w: World, i: nat): (w': World)
    requires i < |w.tasks| && !w.tasks[i].subject.Chat?
    requires w.tasks[i].pc.Beginning?
    ensures Quiet(w, w', i)
  {
    var t := w.tasks[i];
    At(w, i, FirstPc(t)).(ledger := LedgerAfter(w, i))
  }

  predicate CanSend(w: World, i: nat) {
    i < |w.tasks| && w.tasks[i].pc.Sending? && w.tasks[i].pc.next < |w.tasks[i].chunks|
  }

  function ActPush(w: World, i: nat): (w': World)
    requires CanSend(w, i)
    ensures Quiet(w, w', i)
  {
    w.(wire := w.wire + {NextPost(w, i)})
  }

  function ActNext(w: World, i: nat): (w': World)
    requires CanSend(w, i) && w.tasks[i].pc.next + 1 < |w.tasks[i].chunks|
    ensures Quiet(w, w', i)
  {
    At(w, i, Sending(w.tasks[i].pc.next + 1))
  }

  function ActLast(w: World, i: nat): (w': World)
    requires CanSend(w, i)
    ensures Quiet(w, w', i)
  {
    var t := w.tasks[i];
    w.(tasks := w.tasks[i := t.(confirmed := true, pc := if t.subject.Chat? then Finishing else Confirming)])
  }

  function ActOk(w: World, i: nat): (w': World)
    requires CanSend(w, i)
    ensures Quiet(w, w', i)
  {
    if w.tasks[i].pc.next + 1 < |w.tasks[i].chunks| then ActNext(w, i) else ActLast(w, i)
  }

  function ActErr(w: World, i: nat, f: Failure): (w': World)
    requires CanSend(w, i) && f.code != ""
    ensures Quiet(w, w', i)
  {
    At(w, i, if w.tasks[i].subject.Chat? then Releasing(f) else Recording(f))
  }

  function ActAnswered(w: World, i: nat, chunks: seq<string>): (w': World)
    requires i < |w.tasks| && w.tasks[i].subject.Chat? && w.tasks[i].pc.Asking?
    ensures Quiet(w, w', i)
  {
    var t := w.tasks[i].(chunks := chunks);
    w.(tasks := w.tasks[i := t.(pc := FirstPc(t))])
  }

  function ActAsk(w: World, i: nat, c: Choice): (w': World)
    requires i < |w.tasks| && (c.Dispatch? || c.Answer? || c.Err?)
    requires w.tasks[i].subject.Chat? && w.tasks[i].pc.Asking?
    ensures Quiet(w, w', i)
  {
    var t := w.tasks[i];
    match c
    case Dispatch => w.(tasks := w.tasks[i := t.(asked := true)])
    case Answer(text) => ActAnswered(w, i, Chunks(text, LIMIT))
    case Err(f) => At(w, i, Releasing(f))
  }

  function ActConfirm(w: World, i: nat): (w': World)
    requires i < |w.tasks| && !w.tasks[i].subject.Chat?
    requires w.tasks[i].pc.Confirming?
    ensures Quiet(w, w', i)
  {
    At(w, i, Finishing).(
      ledger := LedgerAfter(w, i), confirmedBy := w.confirmedBy[LedgerId(w.tasks[i].subject) := i])
  }

  function ActRecord(w: World, i: nat, f: Failure): (w': World)
    requires i < |w.tasks| && !w.tasks[i].subject.Chat?
    requires w.tasks[i].pc == Recording(f)
    ensures Quiet(w, w', i)
  {
    At(w, i, if f.retryable then Releasing(f) else Burying(f)).(ledger := LedgerAfter(w, i))
  }

  function ActFinish(w: World, i: nat, status: ClaimStatus, result: Result): (w': World)
    requires i < |w.tasks|
    requires if result == Sent then w.tasks[i].pc.Finishing?
             else result.Raised? && w.tasks[i].pc == Burying(result.failure)
    ensures OneTask(w, w', i) && (Shaped(w.tasks[i]) ==> Shaped(w'.tasks[i]))
  {
    var key := Key(w.tasks[i]);
    At(w, i, Finished(result)).(
      claims := MarkProcessed(w.claims, key, status, w.clock), owner := w.owner[key := i])
  }

  function ActRelease(w: World, i: nat, f: Failure): (w': World)
    requires i < |w.tasks| && w.tasks[i].pc == Releasing(f)
    ensures OneTask(w, w', i) && (Shaped(w.tasks[i]) ==> Shaped(w'.tasks[i]))
  {
    var claims := ReleaseEvent(w.claims, Key(w.tasks[i]));
    At(w, i, Finished(Raised(f))).(
      claims := claims, owner := map k | k in w.owner && k in claims :: w.owner[k])
  }

  function ActAnswer(w: World, i: nat): (w': World)
    requires i < |w.tasks| && w.tasks[i].subject.Notice? && w.tasks[i].pc.Answering?
    ensures Quiet(w, w', i)
  {
    At(w, i, Finished(Answered(w.ledger, w.tasks[i].subject.eventId)))
  }

  /** Whether the next statement is about the claim itself. */
  predicate OnClaim(pc: Pc) { pc.Claiming? || pc.Finishing? || pc.Releasing? || pc.Burying? }

  function DoAct(w: World, i: nat, c: Choice): (w': World)
    requires CanAct(w, i, c)
    ensures OneTask(w, w', i) && (Shaped(w.tasks[i]) ==> Shaped(w'.tasks[i]))
    ensures !OnClaim(w.tasks[i].pc) ==> Quiet(w, w', i)
  {
    match w.tasks[i].pc
    case Claiming => ActClaim(w, i)
    case Answering => ActAnswer(w, i)
    case Asking => ActAsk(w, i, c)
    case Beginning => ActBegin(w, i)
    case Sending(n) => if c.Push? then ActPush(w, i) else if c.Ok? then ActOk(w, i) else ActErr(w, i, c.f)
    case Confirming => ActConfirm(w, i)
    case Finishing => ActFinish(w, i, Delivered, Sent)
    case Recording(f) => ActRecord(w, i, f)
    case Releasing(f) => ActRelease(w, i, f)
    case Burying(f) => ActFinish(w, i, Abandoned, Raised(f))
  }

  // ----- all steps

  predicate Enabled(cfg: Config, w: World, s: Step) {
    match s
    case Start(subject, _, stamp, _) => w.up && (subject.Notice? ==> Security.InsideWindow(w.clock, stamp, cfg.ttl))
    case Act(i, c) => w.up && CanAct(w, i, c)
    case Accept(p) => p in w.wire && !Known(w.log, p.key, p.index)
    case Prepare(_) => w.up
    case Tick(_) => true
    case Cancel(i) => i < |w.tasks| && Live(w.tasks[i].pc)
    case Crash => w.up
    case Boot => !w.up
  }

  function Vanish(t: Task): Task {
    if Live(t.pc) then t.(pc := Vanished(Holds(t.pc))) else t
  }

  function DoBoot(cfg: Config, w: World): World {
    var cutoff := w.clock - cfg.retention;
    var claims := PruneClaims(w.claims, cutoff);
    w.(up := true,
       claims := claims,
       ledger := PruneLedger(w.ledger, cutoff),
       owner := map k | k in w.owner && k in claims :: w.owner[k],
       expired := w.expired + set k | k in w.owner && k !in claims :: w.owner[k])
  }

  function Apply(cfg: Config, w: World, s: Step): World
    requires Enabled(cfg, w, s)
  {
    match s
    case Start(subject, source, stamp, text) =>
      var chunks := if subject.Chat? then [] else Chunks(text, LIMIT);
      w.(tasks := w.tasks + [Task(subject, source, stamp, chunks, Claiming, false, false)])
    case Act(i, c) => DoAct(w, i, c)
    case Accept(p) => w.(log := w.log + [p])
    case Prepare(id) => w.(ledger := PrepareSynthetic(w.ledger, id, "test", w.clock))
    case Tick(seconds) => w.(clock := w.clock + seconds)
    case Cancel(i) => w.(tasks := w.tasks[i := Vanish(w.tasks[i])])
    case Crash => w.(up := false, tasks := seq(|w.tasks|, i requires 0 <= i < |w.tasks| => Vanish(w.tasks[i])))
    case Boot => DoBoot(cfg, w)
  }

  // ----- runs

  ghost predicate Run(cfg: Config, w: World, steps: seq<Step>, w': World)
    decreases |steps|
  {
    if steps == [] then w' == w
    else Enabled(cfg, w, steps[0]) && Run(cfg, Apply(cfg, w, steps[0]), steps[1..], w')
  }

  /** Every state that some run from an empty store leads to. */
  ghost predicate Reachable(cfg: Config, w: World) {
    exists clock, steps :: Run(cfg, Init(clock), steps, w)
  }

  lemma {:induction false} RunSnoc(cfg: Config, w: World, steps: seq<Step>, w': World, s: Step)
    requires Run(cfg, w, steps, w') && Enabled(cfg, w', s)
    ensures Run(cfg, w, steps + [s], Apply(cfg, w', s))
    decreases |steps|
  {
    if steps == [] {
      assert [s][1..] == [];
      assert Run(cfg, Apply(cfg, w', s), [], Apply(cfg, w', s));
      assert steps + [s] == [s];
    } else {
      assert (steps + [s])[1..] == steps[1..] + [s];
      RunSnoc(cfg, Apply(cfg, w, steps[0]), steps[1..], w', s);
    }
  }

  lemma ReachableStep(cfg: Config, w: World, s: Step)
    requires Reachable(cfg, w) && Enabled(cfg, w, s)
    ensures Reachable(cfg, Apply(cfg, w, s))
  {
    var clock, steps :| Run(cfg, Init(clock), steps, w);
    RunSnoc(cfg, Init(clock), steps, w, s);
  }

  lemma ReachableInit(cfg: Config, clock: int)
    ensures Reachable(cfg, Init(clock))
  {
    assert Run(cfg, Init(clock), [], Init(clock));
  }
}
