/** The tenant token cache under any interleaving of callers: a double-checked lock, and a 401 of any
    task that clears the cache behind everyone's back. */
module TokenCache {
  import opened Wrappers
  import Sender

  /** A reply whose token was stored, and when. */
  datatype Grant = Grant(reply: Sender.Outcome, storedAt: real)

  datatype Pc =
    | Checking                 // before the lock
    | Queued                   // waiting for the lock
    | Rechecking               // has the lock
    | Posting(attempt: nat)    // has the lock, waiting for the reply
    | Sleeping(attempt: nat)   // has the lock, waits before the next post
    | Returned(token: string, at: real, until: real)
    | Failed
    | Gone

  datatype Cache = Cache(
    maxAttempts: Sender.Attempts,
    token: string,
    expiresAt: real,
    lock: Option<nat>,
    callers: seq<Pc>,
    clock: real,
    authPosts: nat,
    grants: set<Grant>,   // history: every grant ever stored
    calm: bool)           // history: no 401, expiry, failure, retry or cancellation so far

  function Init(maxAttempts: Sender.Attempts, clock: real): Cache {
    Cache(maxAttempts, "", 0.0, None, [], clock, 0, {}, true)
  }

  datatype Choice = Go | Reply(outcome: Sender.Outcome)

  datatype Step =
    | Arrive
    | Act(i: nat, c: Choice)
    | Unauthorized           // some message post was answered with 401
    | Tick(seconds: real)
    | Cancel(i: nat)

  predicate InLock(pc: Pc) { pc.Rechecking? || pc.Posting? || pc.Sleeping? }

  predicate Live(pc: Pc) { pc.Checking? || pc.Queued? || InLock(pc) }

  predicate Fresh(w: Cache) { w.token != "" && w.clock < w.expiresAt }

  function Until(w: Cache, expire: int): real { w.clock + Sender.Lifetime(expire) as real }

  predicate CanAct(w: Cache, i: nat, c: Choice) {
    && i < |w.callers|
    && match w.callers[i]
       case Checking => c.Go?
       case Queued => c.Go? && w.lock.None?
       case Rechecking => c.Go?
       case Sleeping(_) => c.Go?
       case Posting(_) => c.Reply?
       case _ => false
  }

  predicate Enabled(w: Cache, s: Step) {
    match s
    case Act(i, c) => CanAct(w, i, c)
    case Tick(seconds) => seconds >= 0.0
    case Cancel(i) => i < |w.callers| && Live(w.callers[i])
    case _ => true
  }

  function At(w: Cache, i: nat, pc: Pc): Cache
    requires i < |w.callers|
  {
    w.(callers := w.callers[i := pc])
  }

  function DoAct(w: Cache, i: nat, c: Choice): Cache
    requires CanAct(w, i, c)
  {
    match w.callers[i]
    case Checking => At(w, i, if Fresh(w) then Returned(w.token, w.clock, w.expiresAt) else Queued)
    case Queued => At(w, i, Rechecking).(lock := Some(i))
    case Rechecking =>
      if Fresh(w) then At(w, i, Returned(w.token, w.clock, w.expiresAt)).(lock := None)
      else At(w, i, Posting(0)).(authPosts := w.authPosts + 1)
    case Sleeping(attempt) => At(w, i, Posting(attempt)).(authPosts := w.authPosts + 1)
    case Posting(attempt) =>
      (match c
       case Reply(o) =>
         if Sender.TriesAgain(w.maxAttempts, attempt, o) then At(w, i, Sleeping(attempt + 1)).(calm := false)
         else if Sender.Grants(o) then
           At(w, i, Returned(o.body.token, w.clock, Until(w, o.body.expire))).(
             token := o.body.token, expiresAt := Until(w, o.body.expire), lock := None,
             grants := w.grants + {Grant(o, w.clock)})
         else At(w, i, Failed).(lock := None, calm := false)
       case Go => w)
  }

  function Apply(w: Cache, s: Step): Cache
    requires Enabled(w, s)
  {
    match s
    case Arrive => w.(callers := w.callers + [Checking])
    case Act(i, c) => DoAct(w, i, c)
    case Unauthorized => w.(token := "", expiresAt := 0.0, calm := false)
    case Tick(seconds) =>
      w.(clock := w.clock + seconds, calm := w.calm && (w.token != "" ==> w.clock + seconds < w.expiresAt))
    case Cancel(i) =>
      At(w, i, Gone).(lock := if w.lock == Some(i) then None else w.lock, calm := false)
  }

  ghost predicate Run(w: Cache, steps: seq<Step>, w': Cache)
    decreases |steps|
  {
    if steps == [] then w' == w
    else Enabled(w, steps[0]) && Run(Apply(w, steps[0]), steps[1..], w')
  }

  ghost predicate Reachable(w: Cache) {
    exists maxAttempts, clock, steps :: Run(Init(maxAttempts, clock), steps, w)
  }

  // ----- invariants

  /** The lock is held by exactly the caller that is inside it. */
  ghost predicate LockInv(w: Cache) {
    && (forall i :: 0 <= i < |w.callers| ==> (InLock(w.callers[i]) <==> w.lock == Some(i)))
    && (w.lock.Some? ==> w.lock.value < |w.callers|)
  }

  predicate Stems(w: Cache, g: Grant, token: string, until: real) {
    && g in w.grants && Sender.Grants(g.reply) && g.reply.body.token == token
    && until == g.storedAt + Sender.Lifetime(g.reply.body.expire) as real
  }

  /** A token with its expiry that stems from a grant. */
  ghost predicate Issued(w: Cache, token: string, until: real) {
    exists g :: Stems(w, g, token, until)
  }

  ghost predicate TokenInv(w: Cache) {
    && (w.token != "" ==> Issued(w, w.token, w.expiresAt))
    && (forall g :: g in w.grants ==> Sender.Grants(g.reply) && g.storedAt <= w.clock)
    && (forall i :: 0 <= i < |w.callers| && w.callers[i].Returned? ==> GoodReturn(w, w.callers[i]))
  }

  ghost predicate GoodReturn(w: Cache, pc: Pc)
    requires pc.Returned?
  {
    pc.token != "" && pc.at < pc.until && Issued(w, pc.token, pc.until)
  }

  /** While all is calm there is no second token request: the first is under way, or has filled a cache
      that is still fresh. */
  ghost predicate CalmInv(w: Cache) {
    w.calm ==>
      if w.token != "" then
        Fresh(w) && w.authPosts == 1
        && forall i :: 0 <= i < |w.callers| ==> !w.callers[i].Posting? && !w.callers[i].Sleeping?
      else
        && w.authPosts ==
           (if w.lock.Some? && w.lock.value < |w.callers| && w.callers[w.lock.value].Posting? then 1 else 0)
        && forall i :: 0 <= i < |w.callers| ==> !w.callers[i].Sleeping? && !w.callers[i].Returned?
  }

  lemma IssuedGrows(w: Cache, w': Cache, token: string, until: real)
    requires Issued(w, token, until) && w.grants <= w'.grants
    ensures Issued(w', token, until)
  {
    var g :| Stems(w, g, token, until);
    assert Stems(w', g, token, until);
  }

  /** What one step makes of the cache and the grants. */
  lemma TokenMoves(w: Cache, s: Step)
    requires TokenInv(w) && Enabled(w, s)
    ensures var w' := Apply(w, s);
            && w.grants <= w'.grants
            && (forall g :: g in w'.grants ==> Sender.Grants(g.reply) && g.storedAt <= w'.clock)
            && (w'.token != "" ==> Issued(w', w'.token, w'.expiresAt))
  {
    var w' := Apply(w, s);
    if w.token != "" {
      IssuedGrows(w, w', w.token, w.expiresAt);
    }
    if s.Act? && s.c.Reply? && Sender.Grants(s.c.outcome) {
      var o := s.c.outcome;
      assert Grant(o, w.clock) in w'.grants ==> Stems(w', Grant(o, w.clock), o.body.token, Until(w, o.body.expire));
    }
  }

  /** A caller that returns in this step returns the cached token while it is fresh. */
  lemma ReturnMoves(w: Cache, s: Step, i: nat)
    requires Enabled(w, s) && i < |Apply(w, s).callers| && Apply(w, s).callers[i].Returned?
    ensures var w' := Apply(w, s);
            (i < |w.callers| && w'.callers[i] == w.callers[i])
            || (w'.token != "" && w'.callers[i].token == w'.token && w'.callers[i].until == w'.expiresAt
                && w'.callers[i].at < w'.callers[i].until)
  {
  }

  lemma TokenStep(w: Cache, s: Step)
    requires TokenInv(w) && Enabled(w, s)
    ensures TokenInv(Apply(w, s))
  {
    hide Apply, Enabled, Issued;
    var w' := Apply(w, s);
    TokenMoves(w, s);
    forall i | 0 <= i < |w'.callers| && w'.callers[i].Returned? ensures GoodReturn(w', w'.callers[i]) {
      ReturnMoves(w, s, i);
      if i < |w.callers| && w'.callers[i] == w.callers[i] {
        assert GoodReturn(w, w.callers[i]);
        IssuedGrows(w, w', w.callers[i].token, w.callers[i].until);
      }
    }
  }

  lemma LockStep(w: Cache, s: Step)
    requires LockInv(w) && Enabled(w, s)
    ensures LockInv(Apply(w, s))
  {
  }

  lemma CalmStep(w: Cache, s: Step)
    requires LockInv(w) && CalmInv(w) && Enabled(w, s)
    ensures CalmInv(Apply(w, s))
  {
    var w' := Apply(w, s);
    if s.Act? {
      CalmAct(w, s.i, s.c);
    }
  }

  lemma CalmAct(w: Cache, i: nat, c: Choice)
    requires LockInv(w) && CalmInv(w) && CanAct(w, i, c)
    ensures CalmInv(DoAct(w, i, c))
  {
    assert InLock(w.callers[i]) <==> w.lock == Some(i);
    if w.callers[i].Posting? {
      forall j | 0 <= j < |w.callers| && j != i ensures !InLock(w.callers[j]) {
      }
    }
  }

  lemma {:induction false} InvRun(w: Cache, steps: seq<Step>, w': Cache)
    requires LockInv(w) && TokenInv(w) && CalmInv(w) && Run(w, steps, w')
    ensures LockInv(w') && TokenInv(w') && CalmInv(w')
    decreases |steps|
  {
    hide Apply, Enabled;
    if steps != [] {
      LockStep(w, steps[0]);
      TokenStep(w, steps[0]);
      CalmStep(w, steps[0]);
      InvRun(Apply(w, steps[0]), steps[1..], w');
    }
  }

  lemma InvReachable(w: Cache)
    requires Reachable(w)
    ensures LockInv(w) && TokenInv(w) && CalmInv(w)
  {
    var maxAttempts, clock, steps :| Run(Init(maxAttempts, clock), steps, w);
    InvRun(Init(maxAttempts, clock), steps, w);
  }

  // ----- the guarantees

  /** At most one caller at a time is inside the lock, refreshing or about to. */
  lemma OneRefreshAtATime(w: Cache, i: nat, j: nat)
    requires Reachable(w) && i < |w.callers| && j < |w.callers| && InLock(w.callers[i]) && InLock(w.callers[j])
    ensures i == j
  {
    InvReachable(w);
  }

  /** A token with this end came in a 2xx reply with code 0 and was stored max(60, expire - 60) seconds
      before its end. */
  ghost predicate Genuine(w: Cache, token: string, until: real) {
    exists g :: g in w.grants
                && g.reply.Response? && 200 <= g.reply.status < 300 && g.reply.body.Reply? && g.reply.body.code == 0
                && g.reply.body.token == token && token != "" && g.storedAt <= w.clock
                && until ==
                   g.storedAt + (if g.reply.body.expire - 60 < 60 then 60 else g.reply.body.expire - 60) as real
  }

  lemma IssuedIsGenuine(w: Cache, token: string, until: real)
    requires TokenInv(w) && Issued(w, token, until)
    ensures Genuine(w, token, until)
  {
    var g :| Stems(w, g, token, until);
  }

  /** The token in the cache and every token a caller was given are genuine, and callers get them only
      before their end. */
  lemma TokensAreGenuine(w: Cache, i: nat)
    requires Reachable(w)
    ensures w.token != "" ==> Genuine(w, w.token, w.expiresAt)
    ensures i < |w.callers| && w.callers[i].Returned? ==>
              var pc := w.callers[i]; pc.at < pc.until && Genuine(w, pc.token, pc.until)
  {
    InvReachable(w);
    if w.token != "" {
      IssuedIsGenuine(w, w.token, w.expiresAt);
    }
    if i < |w.callers| && w.callers[i].Returned? {
      assert GoodReturn(w, w.callers[i]);
      IssuedIsGenuine(w, w.callers[i].token, w.callers[i].until);
    }
  }

  /** However many callers meet on a cold cache, without a 401, an expiry, a failure or a cancellation
      there is at most one token request, and exactly one once any of them has returned. */
  lemma ColdCacheAsksOnce(w: Cache)
    requires Reachable(w) && w.calm
    ensures w.authPosts <= 1
    ensures (exists i :: 0 <= i < |w.callers| && w.callers[i].Returned?) ==> w.authPosts == 1
  {
    InvReachable(w);
  }
}
