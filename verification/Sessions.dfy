/** Refresh-token rotation: a refresh first reads and checks a token, and later commits in a transaction of its own;
    log-outs, reuse detection and password resets may come in between. */
module Sessions {
  import opened Common

  datatype Session = Session(user: string, revoked: bool, expiresAt: int)

  datatype Token = Token(session: string, used: bool, revoked: bool, expiresAt: int)

  /** A refresh that has passed its checks and has not committed yet. */
  datatype Flight = Flight(token: string, session: string, next: string)

  /** consumed lists the tokens in the order they were exchanged. */
  datatype World = World(
    sessions: map<string, Session>,
    tokens: map<string, Token>,
    flights: seq<Flight>,
    consumed: seq<string>)

  datatype Step =
    | Login(session: string, token: string, user: string, expiresAt: int)
    | BeginRefresh(token: string, now: int, secretMatches: bool, blocked: bool, next: string)
    | EndRefresh(flight: nat, expiresAt: int)
    | Logout(user: string, session: string)
    | ResetPassword(user: string)

  const NOBODY := World(map[], map[], [], [])

  predicate Live(t: Token) {
    !t.used && !t.revoked
  }

  function RevokeTokens(tokens: map<string, Token>, session: string): map<string, Token> {
    map id | id in tokens :: if tokens[id].session == session then tokens[id].(revoked := true) else tokens[id]
  }

  function RevokeSession(w: World, session: string): World {
    w.(sessions := if session in w.sessions then w.sessions[session := w.sessions[session].(revoked := true)] else w.sessions,
       tokens := RevokeTokens(w.tokens, session))
  }

  predicate Usable(w: World, token: string, now: int) {
    && token in w.tokens && !w.tokens[token].revoked && now < w.tokens[token].expiresAt
    && w.tokens[token].session in w.sessions
    && !w.sessions[w.tokens[token].session].revoked && now < w.sessions[w.tokens[token].session].expiresAt
  }

  predicate MayCommit(w: World, f: Flight) {
    f.token in w.tokens && Live(w.tokens[f.token]) && f.session in w.sessions && f.next !in w.tokens
  }

  function Commit(w: World, f: Flight, expiresAt: int): World
    requires MayCommit(w, f)
  {
    w.(tokens := w.tokens[f.token := w.tokens[f.token].(used := true)][f.next := Token(f.session, false, false, expiresAt)],
       sessions := w.sessions[f.session := w.sessions[f.session].(expiresAt := expiresAt)],
       consumed := w.consumed + [f.token])
  }

  function Next(w: World, s: Step): World {
    match s
    case Login(session, token, user, expiresAt) =>
      if session in w.sessions || token in w.tokens then w
      else w.(sessions := w.sessions[session := Session(user, false, expiresAt)],
              tokens := w.tokens[token := Token(session, false, false, expiresAt)])
    case BeginRefresh(token, now, secretMatches, blocked, next) =>
      if !Usable(w, token, now) then w
      else if w.tokens[token].used then RevokeSession(w, w.tokens[token].session)
      else if !secretMatches then w
      else if blocked then RevokeSession(w, w.tokens[token].session)
      else w.(flights := w.flights + [Flight(token, w.tokens[token].session, next)])
    case EndRefresh(f, expiresAt) =>
      if f < |w.flights| && MayCommit(w, w.flights[f]) then Commit(w, w.flights[f], expiresAt) else w
    case Logout(user, session) =>
      w.(sessions := if session in w.sessions && w.sessions[session].user == user
                     then w.sessions[session := w.sessions[session].(revoked := true)] else w.sessions,
         tokens := RevokeTokens(w.tokens, session))
    case ResetPassword(user) =>
      w.(sessions := map id | id in w.sessions ::
                       if w.sessions[id].user == user then w.sessions[id].(revoked := true) else w.sessions[id])
  }

  function Run(w: World, steps: seq<Step>): World
    decreases |steps|
  {
    if steps == [] then w else Run(Next(w, steps[0]), steps[1..])
  }

  // ---------- one live token, each consumed once ----------

  ghost predicate OneLive(w: World) {
    forall a, b :: a in w.tokens && b in w.tokens && a != b && w.tokens[a].session == w.tokens[b].session ==>
                     !Live(w.tokens[a]) || !Live(w.tokens[b])
  }

  ghost predicate Inv(w: World) {
    && OneLive(w)
    && (forall id :: id in w.tokens ==> w.tokens[id].session in w.sessions)
    && (forall i :: 0 <= i < |w.flights| ==>
          w.flights[i].token in w.tokens && w.tokens[w.flights[i].token].session == w.flights[i].session)
    && (forall i :: 0 <= i < |w.consumed| ==> w.consumed[i] in w.tokens && w.tokens[w.consumed[i]].used)
    && (forall i, j :: 0 <= i < j < |w.consumed| ==> w.consumed[i] != w.consumed[j])
  }

  lemma RevokingKeepsInv(w: World, session: string)
    requires Inv(w)
    ensures Inv(RevokeSession(w, session))
  {
  }

  lemma CommitKeepsInv(w: World, f: nat, expiresAt: int)
    requires Inv(w) && f < |w.flights| && MayCommit(w, w.flights[f])
    ensures Inv(Commit(w, w.flights[f], expiresAt))
  {
    var w' := Commit(w, w.flights[f], expiresAt);
    forall a, b | a in w'.tokens && b in w'.tokens && a != b && w'.tokens[a].session == w'.tokens[b].session
      ensures !Live(w'.tokens[a]) || !Live(w'.tokens[b])
    {
      var t := w.flights[f].token;
      assert a in w.tokens && a != t ==> !Live(w.tokens[a]) || w.tokens[a].session != w.tokens[t].session;
      assert b in w.tokens && b != t ==> !Live(w.tokens[b]) || w.tokens[b].session != w.tokens[t].session;
    }
    assert w.flights[f].token !in w.consumed;
  }

  lemma NextKeepsInv(w: World, s: Step)
    requires Inv(w)
    ensures Inv(Next(w, s))
  {
    match s
    case BeginRefresh(token, now, _, _, _) =>
      if Usable(w, token, now) {
        RevokingKeepsInv(w, w.tokens[token].session);
      }
    case EndRefresh(f, expiresAt) =>
      if f < |w.flights| && MayCommit(w, w.flights[f]) {
        CommitKeepsInv(w, f, expiresAt);
      }
    case _ =>
  }

  /** In every interleaving each session has at most one live token and no token is exchanged twice. */
  lemma {:induction false} RunsKeepInv(w: World, steps: seq<Step>)
    requires Inv(w)
    ensures Inv(Run(w, steps))
    decreases |steps|
  {
    if steps != [] {
      NextKeepsInv(w, steps[0]);
      RunsKeepInv(Next(w, steps[0]), steps[1..]);
    }
  }

  /** Two live tokens of one session are the same token, and an exchanged token is spent for good. */
  lemma ReachableSessions(steps: seq<Step>, a: string, b: string)
    ensures var w := Run(NOBODY, steps);
            && ((a in w.tokens && b in w.tokens && w.tokens[a].session == w.tokens[b].session
                 && Live(w.tokens[a]) && Live(w.tokens[b])) ==> a == b)
            && (a in w.consumed ==> a in w.tokens && !Live(w.tokens[a]))
            && (forall i, j :: 0 <= i < j < |w.consumed| ==> w.consumed[i] != w.consumed[j])
  {
    RunsKeepInv(NOBODY, steps);
  }

  // ---------- revocation ----------

  /** All tokens of the session have been revoked. */
  ghost predicate Dead(w: World, session: string) {
    session in w.sessions && forall id :: id in w.tokens && w.tokens[id].session == session ==> w.tokens[id].revoked
  }

  /** Logging out, and presenting a token that was already exchanged, kill the session. */
  lemma RevocationKills(w: World, user: string, session: string, token: string, now: int, secretMatches: bool, blocked: bool, next: string)
    requires Inv(w) && session in w.sessions
    ensures Dead(Next(w, Logout(user, session)), session)
    ensures Usable(w, token, now) && w.tokens[token].used ==>
              Dead(Next(w, BeginRefresh(token, now, secretMatches, blocked, next)), w.tokens[token].session)
  {
  }

  lemma NextKeepsDead(w: World, s: Step, session: string)
    requires Inv(w) && Dead(w, session)
    ensures Dead(Next(w, s), session)
  {
  }

  /** No commit, however late, gives a dead session a live token again. */
  lemma {:induction false} DeadSessionsStayDead(w: World, steps: seq<Step>, session: string)
    requires Inv(w) && Dead(w, session)
    ensures Dead(Run(w, steps), session)
    decreases |steps|
  {
    if steps != [] {
      NextKeepsInv(w, steps[0]);
      NextKeepsDead(w, steps[0], session);
      DeadSessionsStayDead(Next(w, steps[0]), steps[1..], session);
    }
  }

  function TokensOf(w: World, session: string): set<string> {
    set id | id in w.tokens && w.tokens[id].session == session
  }

  /** No pending refresh can still exchange the session's live token. */
  ghost predicate Quiet(w: World, session: string) {
    forall i :: 0 <= i < |w.flights| && w.flights[i].session == session && w.flights[i].token in w.tokens ==>
                  !Live(w.tokens[w.flights[i].token])
  }

  ghost predicate SessionRevoked(w: World, session: string) {
    session in w.sessions && w.sessions[session].revoked
  }

  lemma CommitInRevokedSession(w: World, f: nat, expiresAt: int, session: string)
    requires Inv(w) && SessionRevoked(w, session) && f < |w.flights| && MayCommit(w, w.flights[f])
    ensures var w' := Commit(w, w.flights[f], expiresAt);
            && SessionRevoked(w', session)
            && (if w.flights[f].session == session
                then !Quiet(w, session) && Quiet(w', session) && TokensOf(w', session) == TokensOf(w, session) + {w.flights[f].next}
                else (Quiet(w, session) ==> Quiet(w', session)) && TokensOf(w', session) == TokensOf(w, session))
  {
    var w', t := Commit(w, w.flights[f], expiresAt), w.flights[f].token;
    assert w.tokens[t].session == w.flights[f].session;
    forall i | 0 <= i < |w.flights|
      ensures w.flights[i].token in w.tokens && w.flights[i].token != w.flights[f].next
      ensures Live(w'.tokens[w.flights[i].token]) ==> Live(w.tokens[w.flights[i].token]) && w.flights[i].token != t
    {
    }
  }

  /** Apart from commits, steps only age tokens and issue new ones to new sessions. */
  lemma OtherStepsAgeTokens(w: World, s: Step, id: string)
    requires !s.EndRefresh?
    ensures id in w.tokens ==>
              id in Next(w, s).tokens && Next(w, s).tokens[id].session == w.tokens[id].session
              && (Live(Next(w, s).tokens[id]) ==> Live(w.tokens[id]))
    ensures id !in w.tokens && id in Next(w, s).tokens ==> Next(w, s).tokens[id].session !in w.sessions
  {
  }

  /** A refresh of a revoked session does not get under way. */
  lemma NoFlightForRevoked(w: World, s: Step, session: string, i: nat)
    requires SessionRevoked(w, session) && !s.EndRefresh?
    requires i < |Next(w, s).flights| && Next(w, s).flights[i].session == session
    ensures i < |w.flights| && w.flights[i] == Next(w, s).flights[i]
  {
  }

  lemma OtherStepInRevokedSession(w: World, s: Step, session: string)
    requires Inv(w) && SessionRevoked(w, session) && !s.EndRefresh?
    ensures var w' := Next(w, s);
            && SessionRevoked(w', session)
            && (Quiet(w, session) ==> Quiet(w', session))
            && TokensOf(w', session) == TokensOf(w, session)
  {
    var w' := Next(w, s);
    forall id | id in w.tokens || id in w'.tokens
      ensures id in TokensOf(w', session) <==> id in TokensOf(w, session)
    {
      OtherStepsAgeTokens(w, s, id);
    }
    if Quiet(w, session) {
      forall i | 0 <= i < |w'.flights| && w'.flights[i].session == session && w'.flights[i].token in w'.tokens
        ensures !Live(w'.tokens[w'.flights[i].token])
      {
        NoFlightForRevoked(w, s, session, i);
        OtherStepsAgeTokens(w, s, w.flights[i].token);
      }
    }
  }

  lemma StepInRevokedSession(w: World, s: Step, session: string)
    requires Inv(w) && SessionRevoked(w, session)
    ensures var w' := Next(w, s);
            && SessionRevoked(w', session)
            && (Quiet(w, session) ==> Quiet(w', session))
            && |TokensOf(w', session)| <= |TokensOf(w, session)| + if !Quiet(w, session) && Quiet(w', session) then 1 else 0
  {
    if s.EndRefresh? {
      if s.flight < |w.flights| && MayCommit(w, w.flights[s.flight]) {
        CommitInRevokedSession(w, s.flight, s.expiresAt, session);
      }
    } else {
      OtherStepInRevokedSession(w, s, session);
    }
  }

  /** However a session was revoked, at most one more token is ever issued for it, by a refresh that was already
      under way; once that has happened, or if none was under way, no more follow. */
  lemma {:induction false} AtMostOneTokenAfterRevocation(w: World, steps: seq<Step>, session: string)
    requires Inv(w) && SessionRevoked(w, session)
    ensures |TokensOf(Run(w, steps), session)| <= |TokensOf(w, session)| + if Quiet(w, session) then 0 else 1
    decreases |steps|
  {
    if steps != [] {
      NextKeepsInv(w, steps[0]);
      StepInRevokedSession(w, steps[0], session);
      AtMostOneTokenAfterRevocation(Next(w, steps[0]), steps[1..], session);
    }
  }

  // ---------- password resets ----------

  ghost predicate NoneLive(w: World, session: string) {
    forall id :: id in w.tokens && w.tokens[id].session == session ==> !Live(w.tokens[id])
  }

  lemma NextRevivesNothing(w: World, s: Step, session: string)
    requires Inv(w) && session in w.sessions && NoneLive(w, session)
    ensures session in Next(w, s).sessions && NoneLive(Next(w, s), session)
  {
    if !s.EndRefresh? {
      forall id | id in Next(w, s).tokens && Next(w, s).tokens[id].session == session
        ensures !Live(Next(w, s).tokens[id])
      {
        OtherStepsAgeTokens(w, s, id);
      }
    }
  }

  lemma {:induction false} RunsReviveNothing(w: World, steps: seq<Step>, session: string)
    requires Inv(w) && session in w.sessions && NoneLive(w, session)
    ensures NoneLive(Run(w, steps), session)
    decreases |steps|
  {
    if steps != [] {
      NextKeepsInv(w, steps[0]);
      NextRevivesNothing(w, steps[0], session);
      RunsReviveNothing(Next(w, steps[0]), steps[1..], session);
    }
  }

  ghost predicate NeverLive(w: World, session: string) {
    forall steps :: NoneLive(Run(w, steps), session)
  }

  /** A password reset revokes the user's sessions and leaves their tokens alone: a session is rid of live tokens for good
      exactly when it had none before. */
  lemma ResetLeavesTokenIff(w: World, user: string, session: string)
    requires Inv(w) && session in w.sessions && w.sessions[session].user == user
    ensures NeverLive(Next(w, ResetPassword(user)), session) <==> NoneLive(w, session)
  {
    var w' := Next(w, ResetPassword(user));
    if NoneLive(w, session) {
      NextKeepsInv(w, ResetPassword(user));
      forall steps
        ensures NoneLive(Run(w', steps), session)
      {
        RunsReviveNothing(w', steps, session);
      }
    } else {
      ResetSparesTokens(w, user, session);
    }
  }

  lemma ResetSparesTokens(w: World, user: string, session: string)
    requires !NoneLive(w, session)
    ensures !NoneLive(Run(Next(w, ResetPassword(user)), []), session)
  {
    var id :| id in w.tokens && w.tokens[id].session == session && Live(w.tokens[id]);
    assert id in Next(w, ResetPassword(user)).tokens;
  }

  /** However a session was revoked, it stays revoked, and no refresh of any of its tokens, live or not, that begins from
      then on gets under way or changes anything. */
  lemma {:induction false} RevokedSessionsStayClosed(w: World, steps: seq<Step>, session: string, token: string,
                                                     now: int, secretMatches: bool, blocked: bool, next: string)
    requires SessionRevoked(w, session)
    ensures var w' := Run(w, steps);
            && SessionRevoked(w', session)
            && (token in w'.tokens && w'.tokens[token].session == session ==>
                  Next(w', BeginRefresh(token, now, secretMatches, blocked, next)) == w')
    decreases |steps|
  {
    if steps != [] {
      assert SessionRevoked(Next(w, steps[0]), session);
      RevokedSessionsStayClosed(Next(w, steps[0]), steps[1..], session, token, now, secretMatches, blocked, next);
    }
  }

  /** A run in which a reset leaves a token behind: a user who has logged in resets the password. */
  lemma ResetCanLeaveToken() returns (steps: seq<Step>)
    ensures var w := Run(NOBODY, steps);
            && SessionRevoked(w, "s") && "a" in w.tokens && w.tokens["a"].session == "s" && Live(w.tokens["a"])
  {
    steps := [Login("s", "a", "ann", 100), ResetPassword("ann")];
    assert steps[1..] == [ResetPassword("ann")] && steps[1..][1..] == [];
    var w1 := Next(NOBODY, steps[0]);
    var w2 := Next(w1, steps[1]);
    assert Run(w2, []) == w2 && Run(w1, steps[1..]) == w2;
  }

  /** A run in which a refresh under way during the reset even issues a new one. */
  lemma ResetCanIssueToken() returns (steps: seq<Step>)
    ensures var w := Run(NOBODY, steps);
            && SessionRevoked(w, "s") && "b" in w.tokens && w.tokens["b"].session == "s" && Live(w.tokens["b"])
  {
    var s0, s1, s2, s3 := Login("s", "a", "ann", 100), BeginRefresh("a", 1, true, false, "b"), ResetPassword("ann"),
                          EndRefresh(0, 200);
    steps := [s0, s1, s2, s3];
    assert "a"[0] != "b"[0];
    var w1 := Next(NOBODY, s0);
    assert w1.tokens == map["a" := Token("s", false, false, 100)] && w1.sessions == map["s" := Session("ann", false, 100)];
    var w2 := Next(w1, s1);
    assert w2 == w1.(flights := [Flight("a", "s", "b")]);
    var w3 := Next(w2, s2);
    assert w3 == w2.(sessions := map["s" := Session("ann", true, 100)]);
    var w4 := Next(w3, s3);
    assert steps[1..] == [s1, s2, s3] && steps[1..][1..] == [s2, s3] && steps[1..][1..][1..] == [s3];
    assert steps[1..][1..][1..][1..] == [];
    assert Run(w4, []) == w4;
    assert Run(w3, [s3]) == w4;
    assert Run(w2, [s2, s3]) == w4;
    assert Run(w1, [s1, s2, s3]) == w4;
  }

  // ---------- what each operation answers ----------

  /** Token and session are known, neither is revoked, and neither has expired. */
  ghost predicate Presentable(w: World, token: string, now: int) {
    && token in w.tokens && !w.tokens[token].revoked && now < w.tokens[token].expiresAt
    && w.tokens[token].session in w.sessions
    && !w.sessions[w.tokens[token].session].revoked && now < w.sessions[w.tokens[token].session].expiresAt
  }

  /** The session and its tokens are revoked, and nothing else is touched. */
  ghost predicate OnlyRevokes(w: World, w': World, session: string) {
    && w'.flights == w.flights && w'.consumed == w.consumed
    && w'.sessions.Keys == w.sessions.Keys && w'.tokens.Keys == w.tokens.Keys
    && (forall id :: id in w.sessions ==>
          w'.sessions[id] == if id == session then Session(w.sessions[id].user, true, w.sessions[id].expiresAt) else w.sessions[id])
    && (forall id :: id in w.tokens ==>
          w'.tokens[id] == if w.tokens[id].session == session
                           then Token(session, w.tokens[id].used, true, w.tokens[id].expiresAt) else w.tokens[id])
  }

  /** A refresh gets under way exactly for a presentable token that was not exchanged yet, with its secret, for a user who is
      not blocked. An exchanged token, and a blocked user with the right secret, cost the session; anything else changes
      nothing. */
  lemma RefreshAnswers(w: World, token: string, now: int, secretMatches: bool, blocked: bool, next: string)
    ensures var w' := Next(w, BeginRefresh(token, now, secretMatches, blocked, next));
            if !Presentable(w, token, now) then w' == w
            else if w.tokens[token].used then OnlyRevokes(w, w', w.tokens[token].session)
            else if !secretMatches then w' == w
            else if blocked then OnlyRevokes(w, w', w.tokens[token].session)
            else w' == w.(flights := w.flights + [Flight(token, w.tokens[token].session, next)])
  {
  }

  /** An exchange takes place exactly while the old token is live and the new one fresh: the old one is used up, the new one
      belongs to the same session, and token and session last as long as the exchange says. */
  lemma ExchangeAnswers(w: World, f: nat, expiresAt: int)
    requires Inv(w) && f < |w.flights|
    ensures var w', t, n, session := Next(w, EndRefresh(f, expiresAt)), w.flights[f].token, w.flights[f].next, w.flights[f].session;
            if w.tokens[t].used || w.tokens[t].revoked || n in w.tokens then w' == w
            else
              && w'.tokens == w.tokens[t := Token(session, true, false, w.tokens[t].expiresAt)]
                                      [n := Token(session, false, false, expiresAt)]
              && w'.sessions == w.sessions[session := Session(w.sessions[session].user, w.sessions[session].revoked, expiresAt)]
              && w'.flights == w.flights && w'.consumed == w.consumed + [t]
  {
  }

  /** A log-in opens a session with one token; a log-out revokes the session if it is the user's, and its tokens in any case;
      a password reset revokes the user's sessions and leaves every token alone. */
  lemma AccountStepsAnswer(w: World, session: string, token: string, user: string, expiresAt: int)
    ensures Next(w, Login(session, token, user, expiresAt))
            == if session in w.sessions || token in w.tokens then w
               else w.(sessions := w.sessions[session := Session(user, false, expiresAt)],
                       tokens := w.tokens[token := Token(session, false, false, expiresAt)])
    ensures var w' := Next(w, Logout(user, session));
            if session in w.sessions && w.sessions[session].user == user then OnlyRevokes(w, w', session)
            else OnlyRevokes(w.(sessions := map[]), w'.(sessions := map[]), session) && w'.sessions == w.sessions
    ensures var w' := Next(w, ResetPassword(user));
            && w'.tokens == w.tokens && w'.flights == w.flights && w'.consumed == w.consumed
            && w'.sessions.Keys == w.sessions.Keys
            && forall id :: id in w.sessions ==>
                 w'.sessions[id] == if w.sessions[id].user == user then Session(user, true, w.sessions[id].expiresAt)
                                    else w.sessions[id]
  {
  }

  lemma {:induction false} LastStep(w: World, steps: seq<Step>)
    requires steps != []
    ensures Run(w, steps) == Next(Run(w, steps[..|steps| - 1]), steps[|steps| - 1])
    decreases |steps|
  {
    if |steps| > 1 {
      assert steps[1..][..|steps| - 2] == steps[..|steps| - 1][1..];
      LastStep(Next(w, steps[0]), steps[1..]);
    } else {
      assert steps[1..] == [] && steps[..0] == [];
    }
  }

  /** The refresh was asked for with the token's secret, by a user who was not blocked, while the token was presentable and
      not exchanged. */
  ghost predicate AskedFor(steps: seq<Step>, k: nat, f: Flight) {
    && k < |steps| && steps[k].BeginRefresh? && steps[k].token == f.token && steps[k].next == f.next
    && steps[k].secretMatches && !steps[k].blocked
    && Presentable(Run(NOBODY, steps[..k]), f.token, steps[k].now) && !Run(NOBODY, steps[..k]).tokens[f.token].used
  }

  /** Over every run no refresh is under way that was not asked for in that way, so no token is exchanged otherwise. */
  lemma {:induction false} FlightsWereAskedFor(steps: seq<Step>, i: nat)
    requires i < |Run(NOBODY, steps).flights|
    ensures exists k: nat :: AskedFor(steps, k, Run(NOBODY, steps).flights[i])
    decreases |steps|
  {
    var n := |steps| - 1;
    assert steps != [];
    var before, s, w := steps[..n], steps[n], Run(NOBODY, steps[..n]);
    var f := Run(NOBODY, steps).flights[i];
    LastStep(NOBODY, steps);
    if i < |w.flights| {
      assert w.flights[i] == f;
      FlightsWereAskedFor(before, i);
      var k: nat :| AskedFor(before, k, f);
      assert steps[..k] == before[..k];
      assert AskedFor(steps, k, f);
    } else {
      assert AskedFor(steps, n, f);
    }
  }

  // ---------- the service ----------

  class SessionStore {
    var sessions: map<string, Session>
    var tokens: map<string, Token>
    var flights: seq<Flight>
    ghost var consumed: seq<string>

    ghost function View(): World
      reads this
    {
      World(sessions, tokens, flights, consumed)
    }

    constructor ()
      ensures View() == NOBODY && Inv(View())
    {
      sessions, tokens, flights, consumed := map[], map[], [], [];
    }

    method CreateSession(session: string, token: string, user: string, expiresAt: int)
      requires Inv(View())
      modifies this
      ensures View() == Next(old(View()), Login(session, token, user, expiresAt)) && Inv(View())
    {
      NextKeepsInv(View(), Login(session, token, user, expiresAt));
      if session in sessions || token in tokens {
        return;
      }
      sessions := sessions[session := Session(user, false, expiresAt)];
      tokens := tokens[token := Token(session, false, false, expiresAt)];
    }

    /** The update of the session's tokens, which leaves alone those already revoked. */
    method RevokeUnrevoked(session: string)
      modifies this`tokens
      ensures tokens == RevokeTokens(old(tokens), session)
    {
      tokens := map id | id in tokens ::
        if tokens[id].session == session && !tokens[id].revoked then tokens[id].(revoked := true) else tokens[id];
    }

    method Revoke(session: string)
      requires Inv(View())
      modifies this
      ensures View() == RevokeSession(old(View()), session) && Inv(View())
    {
      RevokingKeepsInv(View(), session);
      if session in sessions && !sessions[session].revoked {
        sessions := sessions[session := sessions[session].(revoked := true)];
      }
      RevokeUnrevoked(session);
    }

    method StartRefresh(token: string, now: int, secretMatches: bool, blocked: bool, next: string) returns (flight: Option<nat>)
      requires Inv(View())
      modifies this
      ensures View() == Next(old(View()), BeginRefresh(token, now, secretMatches, blocked, next)) && Inv(View())
      ensures flight == if |flights| > |old(flights)| then Some(|old(flights)|) else None
    {
      NextKeepsInv(View(), BeginRefresh(token, now, secretMatches, blocked, next));
      flight := None;
      if token !in tokens || tokens[token].revoked || tokens[token].expiresAt <= now {
        return;
      }
      var session := tokens[token].session;
      if session !in sessions || sessions[session].revoked || sessions[session].expiresAt <= now {
        return;
      }
      if tokens[token].used {
        Revoke(session);
        return;
      }
      if !secretMatches {
        return;
      }
      if blocked {
        Revoke(session);
        return;
      }
      flight := Some(|flights|);
      flights := flights + [Flight(token, session, next)];
    }

    method FinishRefresh(f: nat, expiresAt: int) returns (ok: bool)
      requires Inv(View()) && f < |flights|
      modifies this
      ensures Inv(View())
      ensures View() == Next(old(View()), EndRefresh(f, expiresAt)) && ok == old(MayCommit(View(), flights[f]))
    {
      NextKeepsInv(View(), EndRefresh(f, expiresAt));
      var flight := flights[f];
      ok := flight.token in tokens && !tokens[flight.token].used && !tokens[flight.token].revoked
            && flight.session in sessions && flight.next !in tokens;
      if ok {
        tokens := tokens[flight.token := tokens[flight.token].(used := true)];
        tokens := tokens[flight.next := Token(flight.session, false, false, expiresAt)];
        sessions := sessions[flight.session := sessions[flight.session].(expiresAt := expiresAt)];
        consumed := consumed + [flight.token];
      }
    }

    method LogoutSession(user: string, session: string)
      requires Inv(View())
      modifies this
      ensures View() == Next(old(View()), Logout(user, session)) && Inv(View())
    {
      NextKeepsInv(View(), Logout(user, session));
      if session in sessions && sessions[session].user == user && !sessions[session].revoked {
        sessions := sessions[session := sessions[session].(revoked := true)];
      }
      RevokeUnrevoked(session);
    }
  }
}
