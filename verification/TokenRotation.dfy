/**
 * Refresh-token rotation with reuse detection (src/auth/auth.service.ts), the
 * pattern of section 4.14.2 of RFC 9700. Any number of calls run at once; each
 * database statement is one step, and steps of different calls interleave in
 * every order. Tokens are fresh values, so a session row is named by its token.
 */
module TokenRotation {
  import opened Cardinality
  import opened Entities
  import opened Wrappers

  type Token = nat
  type CallId = nat

  const LIFETIME_MS := 30 * DAY_MS

  datatype Session = Session(user: Id, expiresAt: int, revokedAt: Option<int>)

  datatype Rejection = INVALID | REUSED | USER_INVALID

  /** Where a refresh call stands, between two of its statements. */
  datatype Progress =
    | FoundLive(token: Token, user: Id)      // read an unrevoked row; next: compare-and-set
    | FoundRevoked(user: Id)                 // read a revoked row; next: revoke all
    | LostRace(user: Id)                     // the compare-and-set matched no row; next: revoke all
    | Winner(token: Token, user: Id)         // the compare-and-set revoked the row; next: load the user
    | Loaded(token: Token, user: Id)         // the user is active; next: create the successor
    | Granted(successor: Token)
    | Rejected(reason: Rejection)

  /** How a session came to be: login, MFA or company switch; or a refresh. */
  datatype Origin = Direct | Refreshed(parent: Token, call: CallId)

  /**
   * The session table and the calls in progress. The last three fields are
   * history: who won each row, how each token ever created came to be, and one
   * entry a direct grant.
   */
  datatype State = State(
    sessions: map<Token, Session>, active: set<Id>, now: int, calls: map<CallId, Progress>,
    winner: map<Token, CallId>, origin: map<Token, Origin>, grants: multiset<Id>)
  {
    function Live(user: Id): set<Token> {
      set t | t in sessions && sessions[t].user == user && sessions[t].revokedAt.None?
    }

    /** Calls that revoked a row of the user and have not yet created its successor. */
    function InFlight(user: Id): set<CallId> {
      set c | c in calls && (calls[c].Winner? || calls[c].Loaded?) && calls[c].user == user
    }

    function Budget(user: Id): nat {
      |Live(user)| + |InFlight(user)|
    }
  }

  datatype Step =
    | Read(call: CallId, token: Token)
    | CompareAndSet(call: CallId)
    | RevokeAll(call: CallId)
    | LoadUser(call: CallId)
    | CreateSuccessor(call: CallId, created: Token)
    | Grant(user: Id, created: Token)
    | LogoutAll(user: Id)
    | SetActive(user: Id, value: bool)
    | Advance(ms: nat)

  function Initial(active: set<Id>, now: int): State {
    State(map[], active, now, map[], map[], map[], multiset{})
  }

  /** The first statement of a refresh, and the checks on the row it returns. */
  function AfterRead(s: State, token: Token): Progress {
    if token !in s.sessions || s.sessions[token].expiresAt <= s.now || s.sessions[token].user !in s.active
    then Rejected(INVALID)
    else if s.sessions[token].revokedAt.Some? then FoundRevoked(s.sessions[token].user)
    else FoundLive(token, s.sessions[token].user)
  }

  function RevokeUser(sessions: map<Token, Session>, user: Id, now: int): map<Token, Session> {
    map t | t in sessions ::
      if sessions[t].user == user && sessions[t].revokedAt.None?
      then sessions[t].(revokedAt := Some(now)) else sessions[t]
  }

  predicate Enabled(s: State, step: Step) {
    match step
    case Read(c, _) => c !in s.calls
    case CompareAndSet(c) => c in s.calls && s.calls[c].FoundLive?
    case RevokeAll(c) => c in s.calls && (s.calls[c].FoundRevoked? || s.calls[c].LostRace?)
    case LoadUser(c) => c in s.calls && s.calls[c].Winner?
    case CreateSuccessor(c, created) => c in s.calls && s.calls[c].Loaded? && created !in s.origin
    case Grant(_, created) => created !in s.origin
    case LogoutAll(_) => true
    case SetActive(_, _) => true
    case Advance(_) => true
  }

  function Apply(s: State, step: Step): State
    requires Enabled(s, step)
  {
    match step
    case Read(c, token) => s.(calls := s.calls[c := AfterRead(s, token)])
    case CompareAndSet(c) =>
      var FoundLive(t, user) := s.calls[c];
      if t in s.sessions && s.sessions[t].revokedAt.None? then
        s.(sessions := s.sessions[t := s.sessions[t].(revokedAt := Some(s.now))],
           calls := s.calls[c := Winner(t, user)],
           winner := s.winner[t := c])
      else
        s.(calls := s.calls[c := LostRace(user)])
    case RevokeAll(c) =>
      s.(sessions := RevokeUser(s.sessions, s.calls[c].user, s.now), calls := s.calls[c := Rejected(REUSED)])
    case LoadUser(c) =>
      var Winner(t, user) := s.calls[c];
      s.(calls := s.calls[c := if user in s.active then Loaded(t, user) else Rejected(USER_INVALID)])
    case CreateSuccessor(c, created) =>
      var Loaded(t, user) := s.calls[c];
      s.(sessions := s.sessions[created := Session(user, s.now + LIFETIME_MS, None)],
         calls := s.calls[c := Granted(created)],
         origin := s.origin[created := Refreshed(t, c)])
    case Grant(user, created) =>
      s.(sessions := s.sessions[created := Session(user, s.now + LIFETIME_MS, None)],
         origin := s.origin[created := Direct],
         grants := s.grants + multiset{user})
    case LogoutAll(user) =>
      s.(sessions := map t | t in s.sessions && s.sessions[t].user != user :: s.sessions[t])
    case SetActive(user, value) => s.(active := if value then s.active + {user} else s.active - {user})
    case Advance(ms) => s.(now := s.now + ms)
  }

  /** A step that is not enabled does nothing, so every list of steps is a run. */
  function After(s: State, step: Step): State {
    if Enabled(s, step) then Apply(s, step) else s
  }

  function Run(s: State, steps: seq<Step>): State
    decreases |steps|
  {
    if steps == [] then s else Run(After(s, steps[0]), steps[1..])
  }

  // Who won what.

  ghost predicate CallConsistent(s: State, c: CallId)
    requires c in s.calls
  {
    match s.calls[c]
    case FoundLive(t, user) => t in s.origin && (t in s.sessions ==> s.sessions[t].user == user)
    case Winner(t, _) => t in s.winner && s.winner[t] == c
    case Loaded(t, _) => t in s.winner && s.winner[t] == c
    case FoundRevoked(_) => true
    case LostRace(_) => true
    case Granted(t) => t in s.origin && s.origin[t].Refreshed? && s.origin[t].call == c
    case Rejected(_) => true
  }

  /** A won row is gone or revoked, and each refreshed token is the one its winner was granted. */
  ghost predicate Lineage(s: State) {
    && s.sessions.Keys <= s.origin.Keys
    && s.winner.Keys <= s.origin.Keys
    && (forall c :: c in s.calls ==> CallConsistent(s, c))
    && (forall t :: t in s.winner ==> s.winner[t] in s.calls)
    && (forall t :: t in s.winner && t in s.sessions ==> s.sessions[t].revokedAt.Some?)
    && (forall t :: t in s.origin ==> OriginConsistent(s, t))
  }

  /** Each refreshed token is the one its parent's winner was granted. */
  ghost predicate OriginConsistent(s: State, t: Token)
    requires t in s.origin
  {
    var o := s.origin[t];
    o.Refreshed? ==>
      && o.parent in s.winner && s.winner[o.parent] == o.call
      && o.call in s.calls && s.calls[o.call] == Granted(t)
  }

  lemma {:induction false} StepKeepsCalls(s: State, step: Step)
    requires Lineage(s) && Enabled(s, step)
    ensures forall c :: c in Apply(s, step).calls ==> CallConsistent(Apply(s, step), c)
  {
    var s' := Apply(s, step);
    forall c | c in s'.calls ensures CallConsistent(s', c) {
      if c in s.calls { assert CallConsistent(s, c); }
    }
  }

  lemma {:induction false} StepKeepsOrigins(s: State, step: Step)
    requires Lineage(s) && Enabled(s, step)
    ensures forall t :: t in Apply(s, step).origin ==> OriginConsistent(Apply(s, step), t)
  {
    var s' := Apply(s, step);
    if step.CompareAndSet? || step.CreateSuccessor? || step.LoadUser? {
      assert CallConsistent(s, step.call);
    }
    forall t | t in s'.origin ensures OriginConsistent(s', t) {
      if t in s.origin { assert OriginConsistent(s, t); }
    }
  }

  lemma {:induction false} StepKeepsLineage(s: State, step: Step)
    requires Lineage(s) && Enabled(s, step)
    ensures Lineage(Apply(s, step))
  {
    StepKeepsCalls(s, step);
    StepKeepsOrigins(s, step);
    if step.CompareAndSet? || step.CreateSuccessor? || step.LoadUser? {
      assert CallConsistent(s, step.call);
    }
  }

  lemma {:induction false} RunKeepsLineage(s: State, steps: seq<Step>)
    requires Lineage(s)
    ensures Lineage(Run(s, steps))
    decreases |steps|
  {
    if steps != [] {
      if Enabled(s, steps[0]) { StepKeepsLineage(s, steps[0]); }
      RunKeepsLineage(After(s, steps[0]), steps[1..]);
    }
  }

  /** In every reachable state a token has at most one successor. */
  lemma {:induction false} AtMostOneSuccessor(active: set<Id>, now: int, steps: seq<Step>, t: Token, u: Token)
    requires var s := Run(Initial(active, now), steps);
      && t in s.origin && u in s.origin && s.origin[t].Refreshed? && s.origin[u].Refreshed?
      && s.origin[t].parent == s.origin[u].parent
    ensures t == u
  {
    RunKeepsLineage(Initial(active, now), steps);
    var s := Run(Initial(active, now), steps);
    assert OriginConsistent(s, t) && OriginConsistent(s, u);
  }

  /** What never changes once set: the winner of a row, the origin of a token, the time a row was revoked. */
  ghost predicate HistoryKept(s: State, s': State) {
    && (forall t :: t in s.winner ==> t in s'.winner && s'.winner[t] == s.winner[t])
    && (forall t :: t in s.origin ==> t in s'.origin && s'.origin[t] == s.origin[t])
    && (forall t :: t in s.sessions && t in s'.sessions && s.sessions[t].revokedAt.Some? ==>
          s'.sessions[t].revokedAt == s.sessions[t].revokedAt)
    && (forall t :: t in s.origin && t !in s.sessions ==> t !in s'.sessions)
    && s.grants <= s'.grants
  }

  /** Each row is won by at most one refresh, and `revokedAt` is never cleared nor rewritten. */
  lemma {:induction false} RunKeepsHistory(s: State, steps: seq<Step>)
    requires Lineage(s)
    ensures HistoryKept(s, Run(s, steps))
    decreases |steps|
  {
    if steps != [] {
      var s' := After(s, steps[0]);
      if Enabled(s, steps[0]) {
        StepKeepsLineage(s, steps[0]);
        assert HistoryKept(s, s');
      }
      RunKeepsHistory(s', steps[1..]);
    }
  }

  // Live sessions against direct grants.

  lemma {:induction false} RemovedCard<T>(a: set<T>, x: T, b: set<T>)
    requires x in a && b <= a - {x}
    ensures |b| + 1 <= |a|
  {
    SubsetCard(b, a - {x});
  }

  lemma {:induction false} AddedCard<T>(a: set<T>, x: T, b: set<T>)
    requires b <= a + {x}
    ensures |b| <= |a| + 1
  {
    SubsetCard(b, a + {x});
  }

  /** Only a direct grant to the user raises live sessions plus winners in flight, and by one. */
  lemma {:induction false} StepBudget(s: State, step: Step, user: Id)
    requires Lineage(s) && Enabled(s, step)
    ensures Apply(s, step).Budget(user) <= s.Budget(user) + if step.Grant? && step.user == user then 1 else 0
  {
    var s' := Apply(s, step);
    match step
    case CompareAndSet(c) =>
      assert CallConsistent(s, c);
      var FoundLive(t, owner) := s.calls[c];
      if t in s.sessions && s.sessions[t].revokedAt.None? && owner == user {
        RemovedCard(s.Live(user), t, s'.Live(user));
        AddedCard(s.InFlight(user), c, s'.InFlight(user));
      } else {
        SubsetCard(s'.Live(user), s.Live(user));
        SubsetCard(s'.InFlight(user), s.InFlight(user));
      }
    case CreateSuccessor(c, created) =>
      if s.calls[c].user == user {
        RemovedCard(s.InFlight(user), c, s'.InFlight(user));
        AddedCard(s.Live(user), created, s'.Live(user));
      } else {
        SubsetCard(s'.Live(user), s.Live(user));
        SubsetCard(s'.InFlight(user), s.InFlight(user));
      }
    case Grant(owner, created) =>
      SubsetCard(s'.InFlight(user), s.InFlight(user));
      if owner == user { AddedCard(s.Live(user), created, s'.Live(user)); }
      else { SubsetCard(s'.Live(user), s.Live(user)); }
    case _ =>
      SubsetCard(s'.Live(user), s.Live(user));
      SubsetCard(s'.InFlight(user), s.InFlight(user));
  }

  /** Over every run the budget of a user grows by no more than the direct grants of the run. */
  lemma {:induction false} RunBudget(s: State, steps: seq<Step>, user: Id)
    requires Lineage(s)
    ensures Run(s, steps).Budget(user) + s.grants[user] <= s.Budget(user) + Run(s, steps).grants[user]
    decreases |steps|
  {
    if steps != [] {
      var s' := After(s, steps[0]);
      if Enabled(s, steps[0]) {
        StepKeepsLineage(s, steps[0]);
        StepBudget(s, steps[0], user);
      }
      RunBudget(s', steps[1..], user);
    }
  }

  /** In every reachable state: live sessions plus winners in flight are at most the direct grants. */
  lemma {:induction false} SessionsBoundedByGrants(active: set<Id>, now: int, steps: seq<Step>, user: Id)
    ensures var s := Run(Initial(active, now), steps);
      |s.Live(user)| + |s.InFlight(user)| <= s.grants[user]
  {
    var s0 := Initial(active, now);
    assert s0.Live(user) == {} && s0.InFlight(user) == {};
    RunBudget(s0, steps, user);
  }

  // How long a token lasts.

  /** The step gives the user a token. */
  predicate Issues(s: State, step: Step, user: Id, created: Token) {
    && Enabled(s, step)
    && ((step.CreateSuccessor? && step.created == created && s.calls[step.call].user == user)
        || step == Grant(user, created))
  }

  /** Whatever runs, a row keeps its user and the time it expires. */
  lemma {:induction false} RunKeepsRow(s: State, steps: seq<Step>, t: Token)
    requires Lineage(s) && t in s.sessions && t in Run(s, steps).sessions
    ensures Run(s, steps).sessions[t].user == s.sessions[t].user
    ensures Run(s, steps).sessions[t].expiresAt == s.sessions[t].expiresAt
    decreases |steps|
  {
    if steps != [] {
      var s' := After(s, steps[0]);
      if Enabled(s, steps[0]) { StepKeepsLineage(s, steps[0]); }
      if t !in s'.sessions {
        assert t in s'.origin;
        RunKeepsHistory(s', steps[1..]);
      } else {
        RunKeepsRow(s', steps[1..], t);
      }
    }
  }

  /**
   * After a token was issued, on every run: while its row is there and not revoked and its user is
   * active, it can be rotated exactly for thirty days.
   */
  lemma TokenLasts(s: State, step: Step, user: Id, created: Token, steps: seq<Step>)
    requires Lineage(s) && Issues(s, step, user, created)
    ensures var s' := Run(After(s, step), steps);
      created in s'.sessions && s'.sessions[created].revokedAt.None? && user in s'.active ==>
        (Presentable(s', created) <==> s'.now < s.now + 2_592_000_000)
  {
    var s1 := After(s, step);
    StepKeepsLineage(s, step);
    assert created in s1.sessions && s1.sessions[created].user == user;
    assert s1.sessions[created].expiresAt == s.now + 2_592_000_000;
    if created in Run(s1, steps).sessions { RunKeepsRow(s1, steps, created); }
  }

  /** Left alone, a token just issued to an active user can be rotated exactly for thirty days. */
  lemma FreshTokenLasts(s: State, step: Step, user: Id, created: Token, ms: nat)
    requires Issues(s, step, user, created) && user in s.active
    ensures Presentable(After(After(s, step), Advance(ms)), created) <==> ms < 2_592_000_000
  {
  }

  /** The statements of a refresh that nothing interrupts. */
  function Refreshing(c: CallId, token: Token, created: Token): seq<Step> {
    [Read(c, token), CompareAndSet(c)] + [LoadUser(c), CreateSuccessor(c, created)]
  }

  /**
   * A refresh that nothing interrupts is granted a token exactly if the one presented can be rotated;
   * the old row is then revoked now, the new one is the user's, and no other row changes.
   */
  lemma RefreshWorks(s: State, c: CallId, token: Token, created: Token)
    requires c !in s.calls && created !in s.origin && created !in s.sessions
    ensures var s' := Run(s, Refreshing(c, token, created));
      && (c in s'.calls && s'.calls[c] == Granted(created) <==> Presentable(s, token))
      && (Presentable(s, token) ==>
            && s'.sessions == s.sessions
                 [token := s.sessions[token].(revokedAt := Some(s.now))]
                 [created := Session(s.sessions[token].user, s.now + 2_592_000_000, None)]
            && Presentable(s', created) && !Presentable(s', token))
  {
    RunTwo(s, Read(c, token), CompareAndSet(c), [LoadUser(c), CreateSuccessor(c, created)]);
    var s2 := After(After(s, Read(c, token)), CompareAndSet(c));
    RunTwo(s2, LoadUser(c), CreateSuccessor(c, created), []);
    assert [LoadUser(c), CreateSuccessor(c, created)] + [] == [LoadUser(c), CreateSuccessor(c, created)];
  }

  lemma RunTwo(s: State, a: Step, b: Step, rest: seq<Step>)
    ensures Run(s, [a, b] + rest) == Run(After(After(s, a), b), rest)
  {
    assert ([a, b] + rest)[0] == a && ([a, b] + rest)[1..] == [b] + rest;
    assert ([b] + rest)[0] == b && ([b] + rest)[1..] == rest;
  }

  /** Deactivated, a user can rotate no token; activated again, the tokens that were left can be rotated. */
  lemma ActivityDecides(s: State, user: Id, value: bool, token: Token)
    requires token in s.sessions && s.sessions[token].user == user
    ensures Presentable(After(s, SetActive(user, value)), token)
       <==> value && s.sessions[token].expiresAt > s.now && s.sessions[token].revokedAt.None?
    ensures forall other :: other != user ==> (other in After(s, SetActive(user, value)).active <==> other in s.active)
  {
  }

  // Reuse detection.

  /** The call is on its way to a rejection, or already there. */
  predicate Doomed(s: State, c: CallId) {
    c in s.calls && (s.calls[c].FoundRevoked? || s.calls[c].LostRace? || s.calls[c].Rejected?)
  }

  /** A token that a refresh may still rotate. */
  predicate Presentable(s: State, token: Token) {
    && token in s.sessions && s.sessions[token].expiresAt > s.now && s.sessions[token].user in s.active
    && s.sessions[token].revokedAt.None?
  }

  /**
   * A call that presents any other token, a revoked one in particular, is never
   * granted tokens, whatever runs beside it; and only then is it doomed at once.
   */
  lemma {:induction false} ReuseNeverGrants(s: State, c: CallId, token: Token, steps: seq<Step>)
    requires c !in s.calls
    ensures !Presentable(s, token) ==> Doomed(Run(After(s, Read(c, token)), steps), c)
    ensures Doomed(After(s, Read(c, token)), c) <==> !Presentable(s, token)
  {
    if !Presentable(s, token) { DoomedForever(After(s, Read(c, token)), c, steps); }
  }

  lemma {:induction false} DoomedForever(s: State, c: CallId, steps: seq<Step>)
    requires Doomed(s, c)
    ensures Doomed(Run(s, steps), c)
    decreases |steps|
  {
    if steps != [] { DoomedForever(After(s, steps[0]), c, steps[1..]); }
  }

  /** A winner whose user was deactivated before being loaded is never granted tokens; one still active goes on. */
  lemma {:induction false} InactiveNeverGranted(s: State, c: CallId, steps: seq<Step>)
    requires c in s.calls && s.calls[c].Winner?
    ensures s.calls[c].user !in s.active ==> Doomed(Run(After(s, LoadUser(c)), steps), c)
    ensures s.calls[c].user in s.active <==> !Doomed(After(s, LoadUser(c)), c)
  {
    if s.calls[c].user !in s.active { DoomedForever(After(s, LoadUser(c)), c, steps); }
  }

  /** The revoking statement leaves no live session of the user, and touches no other user's rows. */
  lemma {:induction false} RevokeAllClears(s: State, c: CallId)
    requires Enabled(s, RevokeAll(c))
    ensures var s' := After(s, RevokeAll(c)); var user := s.calls[c].user;
      && s'.Live(user) == {} && s'.InFlight(user) == s.InFlight(user)
      && (forall t :: t in s.sessions && s.sessions[t].user != user ==>
            t in s'.sessions && s'.sessions[t] == s.sessions[t])
      && (forall t :: t in s.sessions && s.sessions[t].user == user ==>
            t in s'.sessions && s'.sessions[t]
              == s.sessions[t].(revokedAt := Some(s.sessions[t].revokedAt.UnwrapOr(s.now))))
  {
    var s' := After(s, RevokeAll(c));
    assert forall d :: d in s'.InFlight(s.calls[c].user) <==> d in s.InFlight(s.calls[c].user);
  }

  /**
   * Presenting a token enables the revoking statement exactly when the token is unexpired,
   * revoked and of an active user; and the user then has no live session.
   */
  lemma {:induction false} ReuseRevokesFamily(s: State, c: CallId, token: Token)
    requires c !in s.calls
    ensures Enabled(After(s, Read(c, token)), RevokeAll(c))
       <==> token in s.sessions && s.sessions[token].expiresAt > s.now && s.sessions[token].user in s.active
            && s.sessions[token].revokedAt.Some?
    ensures Enabled(After(s, Read(c, token)), RevokeAll(c)) ==>
      After(After(s, Read(c, token)), RevokeAll(c)).Live(s.sessions[token].user) == {}
  {
    var s1 := After(s, Read(c, token));
    if Enabled(s1, RevokeAll(c)) { RevokeAllClears(s1, c); }
  }

  /**
   * After the revoking statement, and until the next direct grant, the user has
   * at most as many live sessions as winners were in flight: none if there were none.
   */
  lemma {:induction false} ReuseClosesFamily(s: State, c: CallId, steps: seq<Step>)
    requires Lineage(s) && Enabled(s, RevokeAll(c))
    requires Run(After(s, RevokeAll(c)), steps).grants[s.calls[c].user] == s.grants[s.calls[c].user]
    ensures |Run(After(s, RevokeAll(c)), steps).Live(s.calls[c].user)| <= |s.InFlight(s.calls[c].user)|
    ensures s.InFlight(s.calls[c].user) == {} ==> Run(After(s, RevokeAll(c)), steps).Live(s.calls[c].user) == {}
  {
    RevokeAllClears(s, c);
    StepKeepsLineage(s, RevokeAll(c));
    RunBudget(After(s, RevokeAll(c)), steps, s.calls[c].user);
  }

  /** A logout removes every session of the user and no other, and closes the family in the same way. */
  lemma {:induction false} LogoutClosesFamily(s: State, user: Id, steps: seq<Step>)
    requires Lineage(s)
    ensures var s1 := After(s, LogoutAll(user)); var s2 := Run(s1, steps);
      && (forall t :: t in s1.sessions <==> t in s.sessions && s.sessions[t].user != user)
      && (forall t :: t in s1.sessions ==> s1.sessions[t] == s.sessions[t])
      && (s2.grants[user] == s.grants[user] ==> |s2.Live(user)| <= |s.InFlight(user)|)
  {
    var s1 := After(s, LogoutAll(user));
    StepKeepsLineage(s, LogoutAll(user));
    assert s1.Live(user) == {};
    assert s1.InFlight(user) == s.InFlight(user);
    RunBudget(s1, steps, user);
  }

  /** The steps that let a winner finish: its user is active, is loaded, and the successor is created. */
  function Finishing(w: CallId, user: Id, created: Token): seq<Step> {
    [SetActive(user, true), LoadUser(w), CreateSuccessor(w, created)]
  }

  lemma {:induction false} RunThree(s: State, a: Step, b: Step, c: Step)
    ensures Run(s, [a, b, c]) == After(After(After(s, a), b), c)
  {
    assert [a, b, c][1..] == [b, c] && [b, c][1..] == [c];
    assert Run(After(s, a), [b, c]) == Run(After(After(s, a), b), [c]);
    assert Run(After(After(s, a), b), [c]) == After(After(After(s, a), b), c);
  }

  /** A winner at any stage brings the user a live session, one that can be rotated, without a direct grant. */
  lemma {:induction false} WinnerRevives(s: State, user: Id, w: CallId, created: Token)
    requires w in s.InFlight(user) && created !in s.origin
    ensures created in Run(s, Finishing(w, user, created)).Live(user)
    ensures Presentable(Run(s, Finishing(w, user, created)), created)
    ensures Run(s, Finishing(w, user, created)).grants == s.grants
  {
    var s2 := After(After(s, SetActive(user, true)), LoadUser(w));
    assert s2.calls[w].Loaded? && s2.calls[w].user == user && created !in s2.origin && s2.grants == s.grants;
    var s3 := After(s2, CreateSuccessor(w, created));
    assert s3.sessions[created] == Session(user, s2.now + LIFETIME_MS, None);
    assert s3.grants == s.grants && created in s3.Live(user);
    RunThree(s, SetActive(user, true), LoadUser(w), CreateSuccessor(w, created));
  }

  lemma {:induction false} UnusedToken(tokens: set<Token>) returns (t: Token)
    ensures forall u :: u in tokens ==> u < t
  {
    if tokens == {} {
      t := 0;
    } else {
      var x :| x in tokens;
      var rest := UnusedToken(tokens - {x});
      t := if rest <= x then x + 1 else rest;
      assert forall u :: u in tokens ==> u == x || u in tokens - {x};
    }
  }

  /** No run without a direct grant to the user brings back a live session. */
  ghost predicate StaysClosed(s: State, user: Id) {
    forall steps :: Run(s, steps).grants[user] == s.grants[user] ==> Run(s, steps).Live(user) == {}
  }

  /** Reuse detection closes the family for good exactly when no winner of the user is in flight. */
  lemma {:induction false} ReuseClosesIff(s: State, c: CallId)
    requires Lineage(s) && Enabled(s, RevokeAll(c))
    ensures StaysClosed(After(s, RevokeAll(c)), s.calls[c].user) <==> s.InFlight(s.calls[c].user) == {}
  {
    var user, s1 := s.calls[c].user, After(s, RevokeAll(c));
    RevokeAllClears(s, c);
    if s.InFlight(user) == {} {
      forall steps | Run(s1, steps).grants[user] == s1.grants[user] ensures Run(s1, steps).Live(user) == {} {
        ReuseClosesFamily(s, c, steps);
      }
    } else {
      var w :| w in s1.InFlight(user);
      var created := UnusedToken(s1.origin.Keys);
      WinnerRevives(s1, user, w, created);
      assert !StaysClosed(s1, user);
    }
  }

  /** One session, granted and then won by call 0. */
  function Won(user: Id, now: int): State {
    State(map[0 := Session(user, now + LIFETIME_MS, Some(now))], {user}, now, map[0 := Winner(0, user)],
          map[0 := 0], map[0 := Direct], multiset{user})
  }

  /** The same, after call 1 presented the token again and revoked the family. */
  function Detected(user: Id, now: int): State {
    Won(user, now).(calls := map[0 := Winner(0, user), 1 := Rejected(REUSED)])
  }

  lemma {:induction false} WonIsReached(user: Id, now: int)
    ensures Run(Initial({user}, now), [Grant(user, 0), Read(0, 0), CompareAndSet(0)]) == Won(user, now)
  {
    var s0 := Initial({user}, now);
    var s1 := After(s0, Grant(user, 0));
    assert s1 == s0.(sessions := map[0 := Session(user, now + LIFETIME_MS, None)], origin := map[0 := Direct],
      grants := multiset{user});
    var s2 := After(s1, Read(0, 0));
    assert s2 == s1.(calls := map[0 := FoundLive(0, user)]);
    assert After(s2, CompareAndSet(0)) == Won(user, now);
    RunThree(s0, Grant(user, 0), Read(0, 0), CompareAndSet(0));
  }

  lemma {:induction false} DetectedIsReached(user: Id, now: int)
    ensures After(After(Won(user, now), Read(1, 0)), RevokeAll(1)) == Detected(user, now)
  {
    var s := Won(user, now);
    var s1 := After(s, Read(1, 0));
    assert s1 == s.(calls := map[0 := Winner(0, user), 1 := FoundRevoked(user)]);
    assert RevokeUser(s.sessions, user, now) == s.sessions;
  }

  /**
   * From an empty table: one refresh wins a row, a second one presents the same token and
   * revokes the family, and then the first creates its successor, which is live.
   */
  lemma {:induction false} RevivalIsReached(user: Id, now: int)
    ensures var s := Run(Initial({user}, now), [Grant(user, 0), Read(0, 0), CompareAndSet(0)]);
      var s' := After(After(s, Read(1, 0)), RevokeAll(1));
      && Enabled(After(s, Read(1, 0)), RevokeAll(1)) && s'.Live(user) == {}
      && 1 in Run(s', Finishing(0, user, 1)).Live(user)
  {
    WonIsReached(user, now);
    DetectedIsReached(user, now);
    assert 0 in Detected(user, now).InFlight(user);
    WinnerRevives(Detected(user, now), user, 0, 1);
  }
}
