/**
 Refresh-token sessions of AuthService, SessionsService and TokenService. The session table is a map from row id to
 row; every service call is one step, and random identifiers and clock readings are parameters.
 */
module AuthSessions {
  import opened Wrappers

  type UserId = string
  type SessionId = string
  type Token = string

  datatype Session = Session(userId: UserId, refreshToken: Token, expiresAt: int, isRevoked: bool)

  type Table = map<SessionId, Session>

  datatype AuthError = TokenMissing | Expired | TokenReused | NotFound | UniqueConstraintFailed

  const WEEK_MS := 604_800_000

  // ---------------------------------------------------------------- statements on the table

  /** `session.findUnique({ where: { refreshToken } })`: refresh tokens are unique in the table. */
  ghost predicate TokensUnique(t: Table) {
    forall a, b :: a in t && b in t && t[a].refreshToken == t[b].refreshToken ==> a == b
  }

  predicate Matches(t: Table, token: Token, id: SessionId) {
    id in t && t[id].refreshToken == token
  }

  predicate HasToken(t: Table, token: Token) {
    exists id | id in t :: Matches(t, token, id)
  }

  ghost function Holder(t: Table, token: Token): (id: SessionId)
    requires HasToken(t, token)
    ensures Matches(t, token, id)
  {
    var id :| id in t && Matches(t, token, id);
    id
  }

  /** The rows of `hit` become revoked; nothing else changes. */
  function Revoke(t: Table, hit: set<SessionId>): (r: Table)
    ensures r.Keys == t.Keys
  {
    map id | id in t :: if id in hit then t[id].(isRevoked := true) else t[id]
  }

  function Live(t: Table, user: UserId): set<SessionId> {
    set id | id in t && t[id].userId == user && !t[id].isRevoked
  }

  function WithToken(t: Table, token: Token): set<SessionId> {
    set id | id in t && t[id].refreshToken == token
  }

  // ---------------------------------------------------------------- service calls

  /** The row ids and tokens a call draws at random. */
  datatype Draw = Draw(id: SessionId, token: Token)

  datatype Call =
    | Issue(now: int, user: UserId, draw: Draw)
    | Refresh(now: int, token: Token, draw: Draw)
    | Logout(token: Token)
    | RevokeSession(user: UserId, id: SessionId)
    | RevokeAll(user: UserId, except: Option<Token>)

  /** `generateTokens`: the insert is refused when the id or the token is taken. */
  function IssueStep(t: Table, now: int, user: UserId, draw: Draw): (Table, Result<Token, AuthError>) {
    if draw.id in t || HasToken(t, draw.token) then (t, Err(UniqueConstraintFailed))
    else (t[draw.id := Session(user, draw.token, now + WEEK_MS, false)], Ok(draw.token))
  }

  ghost function RefreshStep(t: Table, now: int, token: Token, draw: Draw): (Table, Result<Token, AuthError>) {
    if token == "" then (t, Err(TokenMissing))
    else if !HasToken(t, token) then (t, Err(Expired))
    else
      var id := Holder(t, token);
      var s := t[id];
      if s.expiresAt < now then (t, Err(Expired))
      else if s.isRevoked then (Revoke(t, Live(t, s.userId)), Err(TokenReused))
      else IssueStep(Revoke(t, {id}), now, s.userId, draw)
  }

  function RevokeSessionStep(t: Table, user: UserId, id: SessionId): (Table, Result<Token, AuthError>) {
    if id !in t || t[id].userId != user then (t, Err(NotFound)) else (Revoke(t, {id}), Ok(""))
  }

  /** An absent or empty `exceptToken` excepts nothing. */
  function RevokeAllStep(t: Table, user: UserId, except: Option<Token>): Table {
    var kept := if except.Some? && except.value != "" then WithToken(t, except.value) else {};
    Revoke(t, Live(t, user) - kept)
  }

  ghost function Step(t: Table, c: Call): (Table, Result<Token, AuthError>) {
    match c
    case Issue(now, user, draw) => IssueStep(t, now, user, draw)
    case Refresh(now, token, draw) => RefreshStep(t, now, token, draw)
    case Logout(token) => (Revoke(t, WithToken(t, token)), Ok(""))
    case RevokeSession(user, id) => RevokeSessionStep(t, user, id)
    case RevokeAll(user, except) => (RevokeAllStep(t, user, except), Ok(""))
  }

  ghost function Run(t: Table, calls: seq<Call>): Table {
    if calls == [] then t else Step(Run(t, calls[..|calls| - 1]), calls[|calls| - 1]).0
  }

  // ---------------------------------------------------------------- what every call keeps

  /** Rows are never removed and never change owner, token or expiry; a revoked row stays revoked. */
  ghost predicate Extends(t: Table, later: Table) {
    forall id :: id in t ==>
      && id in later
      && later[id].userId == t[id].userId && later[id].refreshToken == t[id].refreshToken
      && later[id].expiresAt == t[id].expiresAt
      && (t[id].isRevoked ==> later[id].isRevoked)
  }

  lemma IssueKeeps(t: Table, now: int, user: UserId, draw: Draw)
    requires TokensUnique(t)
    ensures var later := IssueStep(t, now, user, draw).0; TokensUnique(later) && Extends(t, later)
  {
  }

  lemma RevokeKeeps(t: Table, hit: set<SessionId>)
    requires TokensUnique(t)
    ensures TokensUnique(Revoke(t, hit)) && Extends(t, Revoke(t, hit))
  {
  }

  lemma RefreshKeeps(t: Table, now: int, token: Token, draw: Draw)
    requires TokensUnique(t)
    ensures var later := RefreshStep(t, now, token, draw).0; TokensUnique(later) && Extends(t, later)
  {
    hide Revoke, IssueStep, TokensUnique, HasToken;
    if token != "" && HasToken(t, token) {
      var id := Holder(t, token);
      RevokeKeeps(t, {id});
      RevokeKeeps(t, Live(t, t[id].userId));
      IssueKeeps(Revoke(t, {id}), now, t[id].userId, draw);
    } else {
      assert Extends(t, t);
    }
  }

  lemma StepKeeps(t: Table, c: Call)
    requires TokensUnique(t)
    ensures TokensUnique(Step(t, c).0) && Extends(t, Step(t, c).0)
  {
    hide Revoke, TokensUnique, RefreshStep, IssueStep;
    match c
    case Issue(now, user, draw) => IssueKeeps(t, now, user, draw);
    case Refresh(now, token, draw) => RefreshKeeps(t, now, token, draw);
    case Logout(token) => RevokeKeeps(t, WithToken(t, token));
    case RevokeSession(_, id) => RevokeKeeps(t, {id});
    case RevokeAll(user, except) =>
      RevokeKeeps(t, Live(t, user));
      RevokeKeeps(t, Live(t, user) - if except.Some? && except.value != "" then WithToken(t, except.value) else {});
  }

  /** Revocation is permanent over every run. */
  lemma {:induction false} RevocationIsPermanent(t: Table, calls: seq<Call>)
    requires TokensUnique(t)
    ensures TokensUnique(Run(t, calls)) && Extends(t, Run(t, calls))
  {
    hide Step, TokensUnique;
    if calls != [] {
      RevocationIsPermanent(t, calls[..|calls| - 1]);
      StepKeeps(Run(t, calls[..|calls| - 1]), calls[|calls| - 1]);
    }
  }

  // ---------------------------------------------------------------- acceptance

  ghost predicate Accepts(t: Table, c: Call) {
    c.Refresh? && Step(t, c).1.Ok?
  }

  /** A row that may be refreshed now: present under this token, in time, not revoked. */
  predicate Usable(t: Table, token: Token, now: int, id: SessionId) {
    Matches(t, token, id) && !t[id].isRevoked && now <= t[id].expiresAt
  }

  /** Exactly which refreshes succeed. */
  lemma RefreshAcceptedIff(t: Table, now: int, token: Token, draw: Draw)
    requires TokensUnique(t)
    ensures Accepts(t, Refresh(now, token, draw)) <==>
            token != "" && draw.id !in t && !HasToken(t, draw.token) && exists id :: Usable(t, token, now, id)
  {
    if HasToken(t, token) {
      var id := Holder(t, token);
      var rest := Revoke(t, {id});
      assert forall other :: Matches(t, token, other) ==> other == id;
      SameTokens(t, {id}, draw.token);
      assert Usable(t, token, now, id) <==> !t[id].isRevoked && now <= t[id].expiresAt;
    }
  }

  lemma SameTokens(t: Table, hit: set<SessionId>, token: Token)
    ensures HasToken(Revoke(t, hit), token) <==> HasToken(t, token)
  {
  }

  /**
   An accepted refresh revokes the row it consumed and adds one row of the same user, usable for a week: the user has
   as many live sessions as before. Other users' sessions stay as they were.
   */
  lemma RefreshConserves(t: Table, now: int, token: Token, draw: Draw, other: UserId)
    requires TokensUnique(t) && Accepts(t, Refresh(now, token, draw))
    ensures var later := Step(t, Refresh(now, token, draw)).0;
            var id := Holder(t, token);
            var user := t[id].userId;
            && Step(t, Refresh(now, token, draw)).1 == Ok(draw.token)
            && id in later && later[id].isRevoked
            && Live(later, user) == Live(t, user) - {id} + {draw.id} && |Live(later, user)| == |Live(t, user)|
            && (forall when :: Usable(later, draw.token, when, draw.id) <==> when <= now + WEEK_MS)
            && (other != user ==> Live(later, other) == Live(t, other))
  {
    hide Live, Step, Usable, Accepts;
    AcceptedRefresh(t, now, token, draw);
    var id := Holder(t, token);
    var user := t[id].userId;
    var later := Revoke(t, {id})[draw.id := Session(user, draw.token, now + WEEK_MS, false)];
    Swapped(t, id, draw, now + WEEK_MS, user);
    if other != user {
      Swapped(t, id, draw, now + WEEK_MS, other);
    }
    UsableUntil(later, draw.id, now + WEEK_MS);
    SwapKeepsSize(Live(t, user), id, draw.id);
  }

  lemma AcceptedRefresh(t: Table, now: int, token: Token, draw: Draw)
    requires TokensUnique(t) && Accepts(t, Refresh(now, token, draw))
    ensures HasToken(t, token)
    ensures var id := Holder(t, token);
            && !t[id].isRevoked && draw.id !in t
            && Step(t, Refresh(now, token, draw)) ==
               (Revoke(t, {id})[draw.id := Session(t[id].userId, draw.token, now + WEEK_MS, false)], Ok(draw.token))
  {
    hide Live, TokensUnique;
  }

  /** One row revoked, one row added: what that means for the live sessions of any user. */
  lemma Swapped(t: Table, id: SessionId, draw: Draw, expiresAt: int, u: UserId)
    requires id in t && !t[id].isRevoked && draw.id !in t
    ensures var user := t[id].userId;
            var later := Revoke(t, {id})[draw.id := Session(user, draw.token, expiresAt, false)];
            && id in later && later[id].isRevoked
            && id in Live(t, user) && draw.id !in Live(t, u)
            && Live(later, u) == if u == user then Live(t, u) - {id} + {draw.id} else Live(t, u)
  {
  }

  lemma UsableUntil(t: Table, id: SessionId, expiresAt: int)
    requires id in t && !t[id].isRevoked && t[id].expiresAt == expiresAt
    ensures forall when :: Usable(t, t[id].refreshToken, when, id) <==> when <= expiresAt
  {
  }

  lemma SwapKeepsSize(s: set<SessionId>, leaving: SessionId, entering: SessionId)
    requires leaving in s && entering !in s
    ensures |s - {leaving} + {entering}| == |s|
  {
    assert |s - {leaving}| == |s| - 1;
  }

  /** Presenting a revoked token that has not expired leaves its user without a live session. */
  lemma ReuseRevokesEverything(t: Table, now: int, token: Token, draw: Draw, id: SessionId, other: UserId)
    requires TokensUnique(t) && token != "" && Matches(t, token, id) && t[id].isRevoked && now <= t[id].expiresAt
    ensures var (later, r) := Step(t, Refresh(now, token, draw));
            && r == Err(TokenReused) && Live(later, t[id].userId) == {}
            && (other != t[id].userId ==> Live(later, other) == Live(t, other))
  {
    assert HasToken(t, token);
    assert Holder(t, token) == id;
  }

  /** What the calls that end sessions leave alive: exactly the sessions they do not name. */
  lemma EndingCallsLeave(t: Table, c: Call, u: UserId)
    requires c.Logout? || c.RevokeSession? || c.RevokeAll?
    ensures var left := Live(Step(t, c).0, u);
            match c
            case Logout(token) => left == set id | id in Live(t, u) && t[id].refreshToken != token
            case RevokeSession(user, id) =>
              && (Step(t, c).1.Ok? <==> id in t && t[id].userId == user)
              && left == if u == user then Live(t, u) - {id} else Live(t, u)
            case RevokeAll(user, except) =>
              left == if u != user then Live(t, u)
                      else set id | id in Live(t, u) && except == Some(t[id].refreshToken) && except != Some("")
            case _ => true
  {
  }

  // ---------------------------------------------------------------- whole runs

  /** The tokens of the accepted refreshes of a run, in order. */
  ghost function AcceptedTokens(t: Table, calls: seq<Call>): seq<Token> {
    if calls == [] then []
    else
      var front, last := calls[..|calls| - 1], calls[|calls| - 1];
      AcceptedTokens(t, front) + if Accepts(Run(t, front), last) then [last.token] else []
  }

  ghost predicate Spent(t: Table, token: Token) {
    exists id :: Matches(t, token, id) && t[id].isRevoked
  }

  lemma SpentStays(t: Table, c: Call, token: Token)
    requires TokensUnique(t) && Spent(t, token)
    ensures Spent(Step(t, c).0, token)
  {
    hide Step;
    StepKeeps(t, c);
    var id :| Matches(t, token, id) && t[id].isRevoked;
    assert Matches(Step(t, c).0, token, id);
  }

  lemma AcceptedIsFreshThenSpent(t: Table, c: Call)
    requires TokensUnique(t) && Accepts(t, c)
    ensures !Spent(t, c.token) && Spent(Step(t, c).0, c.token)
  {
    RefreshAcceptedIff(t, c.now, c.token, c.draw);
    RefreshConserves(t, c.now, c.token, c.draw, "");
    StepKeeps(t, c);
    var id := Holder(t, c.token);
    assert Matches(Step(t, c).0, c.token, id);
  }

  predicate Distinct(tokens: seq<Token>) {
    forall i, j :: 0 <= i < j < |tokens| ==> tokens[i] != tokens[j]
  }

  ghost predicate AllSpent(t: Table, tokens: seq<Token>) {
    forall token :: token in tokens ==> Spent(t, token)
  }

  lemma AllSpentStays(t: Table, c: Call, tokens: seq<Token>)
    requires TokensUnique(t) && AllSpent(t, tokens)
    ensures AllSpent(Step(t, c).0, tokens)
  {
    hide Step, Spent, TokensUnique;
    forall token | token in tokens ensures Spent(Step(t, c).0, token) {
      SpentStays(t, c, token);
    }
  }

  /** Over every run each refresh token is accepted at most once, and is revoked from then on. */
  lemma {:induction false} AcceptedAtMostOnce(t: Table, calls: seq<Call>)
    requires TokensUnique(t)
    ensures Distinct(AcceptedTokens(t, calls)) && AllSpent(Run(t, calls), AcceptedTokens(t, calls))
  {
    hide Step, Spent, TokensUnique, Accepts;
    if calls != [] {
      var front, last := calls[..|calls| - 1], calls[|calls| - 1];
      AcceptedAtMostOnce(t, front);
      RevocationIsPermanent(t, front);
      AllSpentStays(Run(t, front), last, AcceptedTokens(t, front));
      if Accepts(Run(t, front), last) {
        AcceptedIsFreshThenSpent(Run(t, front), last);
      }
    }
  }

  function Logins(calls: seq<Call>, user: UserId): nat {
    if calls == [] then 0
    else
      var last := calls[|calls| - 1];
      Logins(calls[..|calls| - 1], user) + if last.Issue? && last.user == user then 1 else 0
  }

  lemma StepAddsAtMostLogin(t: Table, c: Call, user: UserId)
    requires TokensUnique(t)
    ensures |Live(Step(t, c).0, user)| <= |Live(t, user)| + if c.Issue? && c.user == user then 1 else 0
  {
    var later := Step(t, c).0;
    if c.Issue? {
      assert Live(later, user) <= Live(t, user) + if c.user == user then {c.draw.id} else {};
      CardinalityMono(Live(later, user), Live(t, user) + if c.user == user then {c.draw.id} else {});
    } else if Accepts(t, c) {
      RefreshConserves(t, c.now, c.token, c.draw, user);
    } else {
      NothingElseAdds(t, c, user);
      CardinalityMono(Live(later, user), Live(t, user));
    }
  }

  lemma NothingElseAdds(t: Table, c: Call, user: UserId)
    requires TokensUnique(t) && !c.Issue? && !Accepts(t, c)
    ensures Live(Step(t, c).0, user) <= Live(t, user)
  {
  }

  lemma {:induction false} CardinalityMono(a: set<SessionId>, b: set<SessionId>)
    requires a <= b
    ensures |a| <= |b|
  {
    if x :| x in a {
      CardinalityMono(a - {x}, b - {x});
    }
  }

  /** Live sessions come from logins only: refreshing never multiplies them. */
  lemma {:induction false} LiveSessionsBoundedByLogins(t: Table, calls: seq<Call>, user: UserId)
    requires TokensUnique(t)
    ensures |Live(Run(t, calls), user)| <= |Live(t, user)| + Logins(calls, user)
  {
    hide Step, TokensUnique, Live;
    if calls != [] {
      var front, last := calls[..|calls| - 1], calls[|calls| - 1];
      LiveSessionsBoundedByLogins(t, front, user);
      RevocationIsPermanent(t, front);
      StepAddsAtMostLogin(Run(t, front), last, user);
    }
  }

  /** After a reuse was detected no session of that user is refreshed before the user logs in again. */
  lemma ReuseEndsTheFamily(t: Table, now: int, token: Token, draw: Draw, id: SessionId, calls: seq<Call>, next: Call)
    requires TokensUnique(t) && token != "" && Matches(t, token, id) && t[id].isRevoked && now <= t[id].expiresAt
    requires Logins(calls, t[id].userId) == 0
    ensures var later := Run(Step(t, Refresh(now, token, draw)).0, calls);
            && Live(later, t[id].userId) == {}
            && (Accepts(later, next) ==> later[Holder(later, next.token)].userId != t[id].userId)
  {
    hide Step, Run, Accepts;
    var start, user := Step(t, Refresh(now, token, draw)).0, t[id].userId;
    ReuseRevokesEverything(t, now, token, draw, id, user);
    StepKeeps(t, Refresh(now, token, draw));
    LiveSessionsBoundedByLogins(start, calls, user);
    RevocationIsPermanent(start, calls);
    var later := Run(start, calls);
    if Accepts(later, next) {
      LiveHolder(later, next);
    }
  }

  lemma LiveHolder(t: Table, c: Call)
    requires TokensUnique(t) && Accepts(t, c)
    ensures HasToken(t, c.token) && Holder(t, c.token) in Live(t, t[Holder(t, c.token)].userId)
  {
  }

  // ---------------------------------------------------------------- the service object

  class AuthService {
    var sessions: Table

    constructor ()
      ensures sessions == map[] && TokensUnique(sessions)
    {
      sessions := map[];
    }

    /** `session.findUnique({ where: { refreshToken } })`. */
    method FindByToken(refreshToken: Token) returns (found: Option<SessionId>)
      requires TokensUnique(sessions)
      ensures found == if HasToken(sessions, refreshToken) then Some(Holder(sessions, refreshToken)) else None
    {
      if id :| id in sessions && sessions[id].refreshToken == refreshToken {
        assert Matches(sessions, refreshToken, id);
        return Some(id);
      }
      assert !HasToken(sessions, refreshToken);
      return None;
    }

    method GenerateTokens(now: int, userId: UserId, draw: Draw) returns (r: Result<Token, AuthError>)
      requires TokensUnique(sessions)
      modifies this
      ensures (sessions, r) == Step(old(sessions), Call.Issue(now, userId, draw)) && TokensUnique(sessions)
    {
      StepKeeps(sessions, Call.Issue(now, userId, draw));
      var taken := FindByToken(draw.token);
      if draw.id in sessions || taken.Some? {
        return Err(UniqueConstraintFailed);
      }
      var expiresAt := now + WEEK_MS;
      sessions := sessions[draw.id := Session(userId, draw.token, expiresAt, false)];
      return Ok(draw.token);
    }

    method Refresh(now: int, refreshToken: Token, draw: Draw) returns (r: Result<Token, AuthError>)
      requires TokensUnique(sessions)
      modifies this
      ensures (sessions, r) == Step(old(sessions), Call.Refresh(now, refreshToken, draw)) && TokensUnique(sessions)
    {
      StepKeeps(sessions, Call.Refresh(now, refreshToken, draw));
      if refreshToken == "" {
        return Err(TokenMissing);
      }
      var found := FindByToken(refreshToken);
      if found.None? || sessions[found.value].expiresAt < now {
        return Err(Expired);
      }
      var session := sessions[found.value];
      if session.isRevoked {
        sessions := Revoke(sessions, Live(sessions, session.userId));
        return Err(TokenReused);
      }
      sessions := Revoke(sessions, {found.value});
      r := GenerateTokens(now, session.userId, draw);
    }

    method Logout(refreshToken: Token)
      requires TokensUnique(sessions)
      modifies this
      ensures sessions == Step(old(sessions), Call.Logout(refreshToken)).0 && TokensUnique(sessions)
    {
      sessions := Revoke(sessions, WithToken(sessions, refreshToken));
    }

    method RevokeSession(userId: UserId, sessionId: SessionId) returns (r: Result<Token, AuthError>)
      requires TokensUnique(sessions)
      modifies this
      ensures (sessions, r) == Step(old(sessions), Call.RevokeSession(userId, sessionId)) && TokensUnique(sessions)
    {
      if sessionId !in sessions || sessions[sessionId].userId != userId {
        return Err(NotFound);
      }
      sessions := Revoke(sessions, {sessionId});
      return Ok("");
    }

    method RevokeAllSessions(userId: UserId, exceptToken: Option<Token>)
      requires TokensUnique(sessions)
      modifies this
      ensures sessions == Step(old(sessions), Call.RevokeAll(userId, exceptToken)).0 && TokensUnique(sessions)
    {
      var hit := Live(sessions, userId);
      if exceptToken.Some? && exceptToken.value != "" {
        hit := hit - WithToken(sessions, exceptToken.value);
      }
      sessions := Revoke(sessions, hit);
    }
  }
}
