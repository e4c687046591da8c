/** `FeishuSender._access_token` and the token cache: one caller's code, with whatever the other callers do
    at each of its awaits, is a run of the cache. */
module TokenRefinement {
  import Sender
  import opened TokenCache

  /** One await of a caller: from `start` the other callers, resets and the clock lead to `end`. */
  datatype Await = Await(start: Cache, steps: seq<Step>, end: Cache)

  type Script = map<nat, Await>

  predicate ByOthers(s: Step, i: nat) {
    s != Cancel(i) && (s.Act? ==> s.i != i)
  }

  /** This await of caller `i` is in the script, and the world of the sender is what it leads to. */
  ghost predicate Plays(u: Sender.Setup, script: Script, w: Cache, i: nat, turn: nat) {
    && turn in script && script[turn].start == w && Run(w, script[turn].steps, script[turn].end)
    && (forall m :: 0 <= m < |script[turn].steps| ==> ByOthers(script[turn].steps[m], i))
    && var e := script[turn].end;
    u.world(turn).now == e.clock && u.world(turn).token == e.token && u.world(turn).expiresAt == e.expiresAt
  }

  /** What the sender sees of the cache. */
  predicate Mirrors(s: Sender.State, w: Cache) {
    s.token == w.token && s.expiresAt == w.expiresAt && s.did.now == w.clock
  }

  function Do(w: Cache, s: Step): Cache {
    if Enabled(w, s) then Apply(w, s) else w
  }

  lemma {:induction false} RunSnoc(w: Cache, steps: seq<Step>, w': Cache, s: Step)
    requires Run(w, steps, w') && Enabled(w', s)
    ensures Run(w, steps + [s], Apply(w', s))
    decreases |steps|
  {
    hide Apply, Enabled;
    if steps == [] {
      assert steps + [s] == [s] && [s][1..] == [];
      assert Run(Apply(w', s), [], Apply(w', s));
    } else {
      assert (steps + [s])[1..] == steps[1..] + [s];
      RunSnoc(Apply(w, steps[0]), steps[1..], w', s);
    }
  }

  lemma DoReaches(w: Cache, s: Step)
    requires Reachable(w)
    ensures Reachable(Do(w, s))
  {
    if Enabled(w, s) {
      var maxAttempts, clock, steps :| Run(Init(maxAttempts, clock), steps, w);
      RunSnoc(Init(maxAttempts, clock), steps, w, s);
    }
  }

  lemma {:induction false} OthersSpare(w: Cache, steps: seq<Step>, w': Cache, i: nat)
    requires Reachable(w) && Run(w, steps, w') && i < |w.callers|
    requires forall m :: 0 <= m < |steps| ==> ByOthers(steps[m], i)
    ensures Reachable(w') && i < |w'.callers| && w'.callers[i] == w.callers[i] && w'.maxAttempts == w.maxAttempts
    decreases |steps|
  {
    hide Reachable;
    if steps != [] {
      assert ByOthers(steps[0], i);
      DoReaches(w, steps[0]);
      OthersSpare(Apply(w, steps[0]), steps[1..], w', i);
    }
  }

  // ----- the loop under the lock

  /** The awaits from one token post on. */
  ghost predicate PlaysAuth(u: Sender.Setup, script: Script, w: Cache, i: nat, s: Sender.State, attempt: nat)
    requires attempt < u.maxAttempts
    decreases u.maxAttempts - attempt
  {
    var o := u.world(s.did.turn).outcome;
    && Plays(u, script, w, i, s.did.turn)
    && (Sender.TriesAgain(u.maxAttempts, attempt, o) ==>
          var w1 := Do(script[s.did.turn].end, Act(i, Reply(o)));
          && Plays(u, script, w1, i, s.did.turn + 1)
          && PlaysAuth(u, script, Do(script[s.did.turn + 1].end, Act(i, Go)), i,
                       Sender.AuthSleep(u, Sender.AuthPost(u, s), attempt, o), attempt + 1))
  }

  /** The caller is where its code is: it has returned this token before its end, or has failed. */
  predicate Ends(r: Sender.Result<string>, s: Sender.State, pc: Pc) {
    match r
    case Ok(token) => pc.Returned? && pc.token == token && pc.at == s.did.now && pc.until == s.expiresAt
    case Error(_, _) => pc.Failed?
  }

  lemma PostIsRun(u: Sender.Setup, script: Script, w: Cache, i: nat, s: Sender.State, attempt: nat) returns (w': Cache)
    requires Reachable(w) && i < |w.callers| && w.callers[i] == Posting(attempt) && w.maxAttempts == u.maxAttempts
    requires Plays(u, script, w, i, s.did.turn)
    ensures var o := u.world(s.did.turn).outcome;
            var s1 := Sender.AuthPost(u, s);
            && w' == Do(script[s.did.turn].end, Act(i, Reply(o)))
            && Reachable(w') && i < |w'.callers| && w'.maxAttempts == u.maxAttempts
            && if Sender.TriesAgain(u.maxAttempts, attempt, o) then
                 w'.callers[i] == Sleeping(attempt + 1) && Mirrors(s1, w')
               else if Sender.Grants(o) then
                 var s2 := s1.(token := o.body.token, expiresAt := s1.did.now + Sender.Lifetime(o.body.expire) as real);
                 Mirrors(s2, w') && Ends(Sender.Ok(o.body.token), s2, w'.callers[i])
               else w'.callers[i].Failed? && Mirrors(s1, w')
  {
    var e := script[s.did.turn].end;
    OthersSpare(w, script[s.did.turn].steps, e, i);
    DoReaches(e, Act(i, Reply(u.world(s.did.turn).outcome)));
    hide Reachable, Run;
    w' := Do(e, Act(i, Reply(u.world(s.did.turn).outcome)));
  }

  lemma SleepIsRun(u: Sender.Setup, script: Script, w: Cache, i: nat, s: Sender.State, attempt: nat, o: Sender.Outcome)
    returns (w': Cache)
    requires Reachable(w) && i < |w.callers| && w.callers[i] == Sleeping(attempt + 1) && w.maxAttempts == u.maxAttempts
    requires Plays(u, script, w, i, s.did.turn)
    ensures w' == Do(script[s.did.turn].end, Act(i, Go))
    ensures Reachable(w') && w'.maxAttempts == u.maxAttempts
    ensures i < |w'.callers| && w'.callers[i] == Posting(attempt + 1)
    ensures Mirrors(Sender.AuthSleep(u, s, attempt, o), w')
  {
    var e := script[s.did.turn].end;
    OthersSpare(w, script[s.did.turn].steps, e, i);
    DoReaches(e, Act(i, Go));
    hide Reachable, Run;
    w' := Do(e, Act(i, Go));
  }

  lemma {:induction false} AuthIsRun(u: Sender.Setup, script: Script, w: Cache, i: nat, s: Sender.State, attempt: nat)
    returns (w': Cache)
    requires attempt < u.maxAttempts && PlaysAuth(u, script, w, i, s, attempt) && w.maxAttempts == u.maxAttempts
    requires Reachable(w) && i < |w.callers| && w.callers[i] == Posting(attempt)
    ensures var (r, s') := Sender.AuthWalk(u, s, attempt);
            Reachable(w') && i < |w'.callers| && Mirrors(s', w') && Ends(r, s', w'.callers[i])
    decreases u.maxAttempts - attempt
  {
    hide Reachable, Plays, Do;
    var o := u.world(s.did.turn).outcome;
    w' := PostIsRun(u, script, w, i, s, attempt);
    if Sender.TriesAgain(u.maxAttempts, attempt, o) {
      var s1 := Sender.AuthPost(u, s);
      var w2 := SleepIsRun(u, script, w', i, s1, attempt, o);
      w' := AuthIsRun(u, script, w2, i, Sender.AuthSleep(u, s1, attempt, o), attempt + 1);
    }
  }

  // ----- a whole call

  /** The awaits of a call: for the lock, which is free at the end of it, and under the lock. */
  ghost predicate PlaysToken(u: Sender.Setup, script: Script, w: Cache, i: nat, s: Sender.State) {
    !Sender.Fresh(s) ==>
      && Plays(u, script, Do(w, Act(i, Go)), i, s.did.turn) && script[s.did.turn].end.lock.None?
      && (!Sender.Fresh(Sender.Await(u, s)) ==>
            PlaysAuth(u, script, Do(Do(script[s.did.turn].end, Act(i, Go)), Act(i, Go)), i, Sender.Await(u, s), 0))
  }

  lemma LockIsRun(u: Sender.Setup, script: Script, w: Cache, i: nat, s: Sender.State) returns (w': Cache)
    requires Reachable(w) && i < |w.callers| && w.callers[i].Queued? && w.maxAttempts == u.maxAttempts
    requires Plays(u, script, w, i, s.did.turn) && script[s.did.turn].end.lock.None?
    ensures var s1 := Sender.Await(u, s);
            && w' == Do(Do(script[s.did.turn].end, Act(i, Go)), Act(i, Go))
            && Reachable(w') && i < |w'.callers| && Mirrors(s1, w') && w'.maxAttempts == u.maxAttempts
            && w'.callers[i] == if Sender.Fresh(s1) then Returned(s1.token, s1.did.now, s1.expiresAt) else Posting(0)
  {
    var e := script[s.did.turn].end;
    OthersSpare(w, script[s.did.turn].steps, e, i);
    DoReaches(e, Act(i, Go));
    DoReaches(Do(e, Act(i, Go)), Act(i, Go));
    hide Reachable, Run;
    w' := Do(Do(e, Act(i, Go)), Act(i, Go));
  }

  /** What `_access_token` returns and leaves in the cache is what a run of the cache makes of it; so its token
      is genuine. */
  lemma AccessIsRun(u: Sender.Setup, script: Script, w: Cache, i: nat, s: Sender.State) returns (w': Cache)
    requires Reachable(w) && Mirrors(s, w) && w.maxAttempts == u.maxAttempts
    requires i < |w.callers| && w.callers[i].Checking?
    requires PlaysToken(u, script, w, i, s)
    ensures var (r, s') := Sender.TokenWalk(u, s);
            && Reachable(w') && i < |w'.callers| && Mirrors(s', w') && Ends(r, s', w'.callers[i])
            && (r.Ok? ==> Genuine(w', r.value, s'.expiresAt))
  {
    DoReaches(w, Act(i, Go));
    w' := Do(w, Act(i, Go));
    if !Sender.Fresh(s) {
      w' := LockIsRun(u, script, w', i, s);
      if !Sender.Fresh(Sender.Await(u, s)) {
        w' := AuthIsRun(u, script, w', i, Sender.Await(u, s), 0);
      }
    }
    hide Reachable, PlaysToken, Do, Plays;
    TokensAreGenuine(w', i);
  }
}
