/** Sessions, access tokens and the Redis blacklist.  Hashes are taken to be free of collisions. */
module BlacklistModel {
  import opened Common
  import opened RedisStore

  const SESSION_MS: int := 8 * 60 * 60 * 1000
  const SESSION_SECONDS: int := 28800

  /** The session it was issued in, and `exp` in seconds, which a decoded token may lack. */
  datatype Token = Token(serial: nat, session: string, exp: Option<int>)

  /** The session keeps the hash of the token that login issued; times are milliseconds. */
  datatype Session = Session(userId: string, token: Token, expiresAt: int)

  /** A refresh that has read its session: whatever becomes of the row, it goes by what it read. */
  datatype Reading = Reading(id: string, expiresAt: int)

  /** A revocation of all sessions of a user, with the sessions it found. */
  datatype Sweep = Sweep(userId: string, found: seq<Session>)

  datatype State = State(
    now: int,
    sessions: map<string, Session>,
    blacklist: map<Token, int>,   // when the key of the token expires
    issued: seq<Token>,           // every token that login or refresh signed
    revoked: set<Token>,          // every token that logout or a revocation was called for
    refreshing: map<nat, Reading>,
    sweeps: map<nat, Sweep>)

  /** A refresh and a sweep are two steps: other calls may run after their reading. */
  datatype Step =
    | Tick(to: int)
    | Login(id: string, userId: string, signed: int, saved: int)
    | ReadForRefresh(refresh: nat, id: string, userId: string)
    | SignRefresh(refresh: nat, at: int)
    | Logout(id: string, token: Token, at: int, written: int)
    | Revoke(id: string, at: int, written: int)
    | FindSessions(sweep: nat, userId: string, found: seq<string>, at: int)
    | RevokeFound(sweep: nat, at: int, written: int)
    | DropSessions(ids: set<string>)

  function Init(now: int): State {
    State(now, map[], map[], [], {}, map[], map[])
  }

  function CeilSeconds(ms: int): int {
    -((-ms) / 1000)
  }

  function Max0(x: int): int {
    if x < 0 then 0 else x
  }

  /** logout: what is left of the token, with the clock rounded down. */
  function LogoutTtl(exp: int, at: int): int {
    Max0(exp - at / 1000)
  }

  /** A revocation: what is left of the session, rounded up. */
  function SessionTtl(expiresAt: int, at: int): int {
    Max0(CeilSeconds(expiresAt - at))
  }

  /** `lifetime` is the configured life of an access token in seconds. */
  function Issue(s: State, lifetime: int, session: string, signed: int): Token {
    Token(|s.issued|, session, Some(signed / 1000 + lifetime))
  }

  /** A generated session id, a UUID, has never been used. */
  predicate NewId(s: State, id: string) {
    id !in s.sessions && forall token :: token in s.issued ==> token.session != id
  }

  predicate Readings(s: State, at: int, written: int) {
    s.now <= at <= written
  }

  predicate Enabled(s: State, step: Step) {
    match step
    case Tick(to) => s.now <= to
    case Login(id, _, signed, saved) => Readings(s, signed, saved) && NewId(s, id)
    case ReadForRefresh(n, _, _) => n !in s.refreshing
    case SignRefresh(n, at) => n in s.refreshing && s.now <= at
    case Logout(_, _, at, written) => Readings(s, at, written)
    case Revoke(_, at, written) => Readings(s, at, written)
    case FindSessions(n, userId, found, at) =>
      n !in s.sweeps && s.now <= at && Answers(s, userId, at, found)
    case RevokeFound(n, at, written) => n in s.sweeps && Readings(s, at, written)
    case _ => true
  }

  function LoginUser(s: State, lifetime: int, id: string, userId: string, signed: int, saved: int): State {
    var token := Issue(s, lifetime, id, signed);
    s.(now := saved, issued := s.issued + [token],
       sessions := s.sessions[id := Session(userId, token, saved + SESSION_MS)])
  }

  /** Finds the session, if it is there and belongs to the user. */
  function ReadSession(s: State, n: nat, id: string, userId: string): State {
    if id in s.sessions && s.sessions[id].userId == userId
    then s.(refreshing := s.refreshing[n := Reading(id, s.sessions[id].expiresAt)])
    else s
  }

  /** Signs, unless the session that was read has expired. */
  function SignToken(s: State, lifetime: int, n: nat, at: int): State
    requires n in s.refreshing
  {
    var r := s.refreshing[n];
    var after := s.(now := at, refreshing := s.refreshing - {n});
    if r.expiresAt < at then after else after.(issued := s.issued + [Issue(s, lifetime, r.id, at)])
  }

  function LogoutToken(s: State, id: string, token: Token, at: int, written: int): State {
    var after := s.(now := written, sessions := s.sessions - {id}, revoked := s.revoked + {token});
    if token.exp.Some? && LogoutTtl(token.exp.value, at) > 0
    then after.(blacklist := s.blacklist[token := Expiry(written, LogoutTtl(token.exp.value, at))])
    else after
  }

  function RevokeSession(s: State, id: string, at: int, written: int): State {
    if id !in s.sessions then s.(now := at) else
    var session := s.sessions[id];
    var after := s.(now := written, sessions := s.sessions - {id}, revoked := s.revoked + {session.token});
    if SessionTtl(session.expiresAt, at) > 0
    then after.(blacklist := s.blacklist[session.token := Expiry(written, SessionTtl(session.expiresAt, at))])
    else after
  }

  /** The session belongs to the user and has not expired. */
  predicate Unexpired(s: State, userId: string, at: int, id: string) {
    id in s.sessions && s.sessions[id].userId == userId && s.sessions[id].expiresAt > at
  }

  /** The query for the unexpired sessions of the user returned these. */
  predicate Answers(s: State, userId: string, at: int, found: seq<string>) {
    && (forall id :: id in found ==> Unexpired(s, userId, at, id))
    && (forall id :: id in s.sessions && Unexpired(s, userId, at, id) ==> id in found)
  }

  /** The rows that a query returned, in its order. */
  function Rows(s: State, ids: seq<string>): seq<Session>
    requires forall id :: id in ids ==> id in s.sessions
  {
    seq(|ids|, i requires 0 <= i < |ids| => s.sessions[ids[i]])
  }

  /** One key per session found that has time left. */
  function WriteKeys(keys: map<Token, int>, found: seq<Session>, at: int, written: int): map<Token, int> {
    if found == [] then keys
    else
      var before, session := WriteKeys(keys, found[..|found| - 1], at, written), found[|found| - 1];
      if SessionTtl(session.expiresAt, at) > 0
      then before[session.token := Expiry(written, SessionTtl(session.expiresAt, at))]
      else before
  }

  function TokensOf(found: seq<Session>): set<Token> {
    set session | session in found :: session.token
  }

  /** Writes the keys of the sessions found and deletes every session of the user, if any was found. */
  function RevokeSweep(s: State, n: nat, at: int, written: int): State
    requires n in s.sweeps
  {
    var sweep := s.sweeps[n];
    var after := s.(now := written, sweeps := s.sweeps - {n});
    if sweep.found == [] then after
    else after.(
      sessions := map id | id in s.sessions && s.sessions[id].userId != sweep.userId :: s.sessions[id],
      blacklist := WriteKeys(s.blacklist, sweep.found, at, written),
      revoked := s.revoked + TokensOf(sweep.found))
  }

  function Next(s: State, lifetime: int, step: Step): State {
    if !Enabled(s, step) then s else
    match step
    case Tick(to) => s.(now := to)
    case Login(id, userId, signed, saved) => LoginUser(s, lifetime, id, userId, signed, saved)
    case ReadForRefresh(n, id, userId) => ReadSession(s, n, id, userId)
    case SignRefresh(n, at) => SignToken(s, lifetime, n, at)
    case Logout(id, token, at, written) => LogoutToken(s, id, token, at, written)
    case Revoke(id, at, written) => RevokeSession(s, id, at, written)
    case FindSessions(n, userId, found, at) => s.(now := at, sweeps := s.sweeps[n := Sweep(userId, Rows(s, found))])
    case RevokeFound(n, at, written) => RevokeSweep(s, n, at, written)
    case DropSessions(ids) => s.(sessions := s.sessions - ids)
  }

  function Run(s: State, lifetime: int, steps: seq<Step>): State
    decreases |steps|
  {
    if steps == [] then s else Run(Next(s, lifetime, steps[0]), lifetime, steps[1..])
  }

  /** The key of the token is there. */
  predicate Exists(s: State, token: Token) {
    token in s.blacklist && Live(s.blacklist[token], s.now)
  }

  /** Section 4.1.4 of RFC 7519, with the clock in whole seconds. */
  predicate Expired(s: State, token: Token) {
    token.exp.Some? && s.now / 1000 >= token.exp.value
  }

  predicate Validates(s: State, token: Token) {
    !Expired(s, token) && !Exists(s, token)
  }
}

module BlacklistSafety {
  import opened Common
  import opened RedisStore
  import opened BlacklistModel

  /** The key of a revoked token lasts until the token has expired. */
  ghost predicate Covered(s: State, token: Token) {
    token.exp.Some? ==>
      || 1000 * token.exp.value <= s.now
      || (token in s.blacklist && s.blacklist[token] >= 1000 * token.exp.value)
  }

  /** A session outlives the token it was made with. */
  ghost predicate Outlives(session: Session) {
    session.token.exp.Some? && 1000 * session.token.exp.value <= session.expiresAt
  }

  ghost predicate Inv(s: State) {
    && (forall token :: token in s.revoked ==> Covered(s, token))
    && (forall id :: id in s.sessions ==> Outlives(s.sessions[id]))
    && (forall n :: n in s.sweeps ==> AllOutlive(s.sweeps[n].found))
  }

  ghost predicate AllOutlive(found: seq<Session>) {
    forall i :: 0 <= i < |found| ==> Outlives(found[i])
  }

  lemma RoundingDownCovers(exp: int, at: int, written: int)
    requires at <= written
    ensures LogoutTtl(exp, at) > 0 ==> Expiry(written, LogoutTtl(exp, at)) >= 1000 * exp
    ensures LogoutTtl(exp, at) <= 0 ==> 1000 * exp <= at
    ensures LogoutTtl(exp, at) > 0 ==> Expiry(written, LogoutTtl(exp, at)) < 1000 * exp + 1000 + (written - at)
  {
  }

  lemma RoundingUpCovers(expiresAt: int, at: int, written: int)
    requires at <= written
    ensures SessionTtl(expiresAt, at) > 0 ==> Expiry(written, SessionTtl(expiresAt, at)) >= expiresAt
    ensures SessionTtl(expiresAt, at) <= 0 ==> expiresAt <= at
    ensures SessionTtl(expiresAt, at) > 0 ==> Expiry(written, SessionTtl(expiresAt, at)) < expiresAt + 1000 + (written - at)
  {
  }

  /** A key written for any of the sessions found covers its token, and shortens no other cover. */
  lemma {:induction false} WrittenKeysCover(keys: map<Token, int>, found: seq<Session>, at: int, written: int, token: Token)
    requires AllOutlive(found) && at <= written && token.exp.Some?
    requires token in TokensOf(found) || 1000 * token.exp.value <= written
             || (token in keys && keys[token] >= 1000 * token.exp.value)
    ensures var after := WriteKeys(keys, found, at, written);
            || 1000 * token.exp.value <= written
            || (token in after && after[token] >= 1000 * token.exp.value)
    decreases |found|
  {
    if found != [] {
      var front, session := found[..|found| - 1], found[|found| - 1];
      RoundingUpCovers(session.expiresAt, at, written);
      assert Outlives(session);
      if session.token != token {
        assert token in TokensOf(found) ==> token in TokensOf(front);
        WrittenKeysCover(keys, front, at, written, token);
      }
    }
  }

  lemma InvSweep(s: State, n: nat, at: int, written: int)
    requires Inv(s) && n in s.sweeps && Readings(s, at, written)
    ensures Inv(RevokeSweep(s, n, at, written))
  {
    var s', found := RevokeSweep(s, n, at, written), s.sweeps[n].found;
    forall token | token in s'.revoked ensures Covered(s', token) {
      if token in s.revoked { assert Covered(s, token); }
      if token.exp.Some? && found != [] { WrittenKeysCover(s.blacklist, found, at, written, token); }
    }
  }

  lemma InvFind(s: State, n: nat, userId: string, found: seq<string>, at: int)
    requires Inv(s) && Enabled(s, FindSessions(n, userId, found, at))
    ensures Inv(s.(now := at, sweeps := s.sweeps[n := Sweep(userId, Rows(s, found))]))
  {
    var rows := Rows(s, found);
    forall i | 0 <= i < |rows| ensures Outlives(rows[i]) {
      assert found[i] in found && rows[i] == s.sessions[found[i]];
    }
    var s' := s.(now := at, sweeps := s.sweeps[n := Sweep(userId, rows)]);
    forall token | token in s'.revoked ensures Covered(s', token) { assert Covered(s, token); }
  }

  lemma InvStep(s: State, lifetime: int, step: Step)
    requires Inv(s) && lifetime <= SESSION_SECONDS
    ensures Inv(Next(s, lifetime, step))
  {
    if Enabled(s, step) {
      match step
      case Logout(_, token, at, written) =>
        if token.exp.Some? { RoundingDownCovers(token.exp.value, at, written); }
      case Revoke(id, at, written) =>
        if id in s.sessions { RoundingUpCovers(s.sessions[id].expiresAt, at, written); }
      case FindSessions(n, userId, found, at) => InvFind(s, n, userId, found, at);
      case RevokeFound(n, at, written) => InvSweep(s, n, at, written);
      case _ =>
    }
  }

  lemma {:induction false} InvRun(s: State, lifetime: int, steps: seq<Step>)
    requires Inv(s) && lifetime <= SESSION_SECONDS
    ensures Inv(Run(s, lifetime, steps))
    decreases |steps|
  {
    if steps != [] {
      InvStep(s, lifetime, steps[0]);
      InvRun(Next(s, lifetime, steps[0]), lifetime, steps[1..]);
    }
  }

  /** A token with an `exp` is refused from its logout or revocation on. */
  ghost predicate RevokedStayOut(s: State) {
    forall token :: token in s.revoked && token.exp.Some? ==> !Validates(s, token)
  }

  lemma CoveredStaysOut(s: State)
    requires Inv(s)
    ensures RevokedStayOut(s)
  {
    forall token | token in s.revoked && token.exp.Some? ensures !Validates(s, token) { assert Covered(s, token); }
  }

  /**
   No revoked token is ever accepted again, in any run, exactly if access tokens live no longer
   than the eight hours of a session.
   */
  lemma RevocationIsFinalIffTokensAreShort(lifetime: int)
    ensures (forall now, steps :: RevokedStayOut(Run(Init(now), lifetime, steps))) <==> lifetime <= SESSION_SECONDS
  {
    if lifetime <= SESSION_SECONDS {
      forall now, steps ensures RevokedStayOut(Run(Init(now), lifetime, steps)) {
        InvRun(Init(now), lifetime, steps);
        CoveredStaysOut(Run(Init(now), lifetime, steps));
      }
    } else {
      var steps := GapRun();
      GapIsOpen(lifetime);
      assert !RevokedStayOut(Run(Init(0), lifetime, steps));
    }
  }

  /** Log in, have the session revoked at once, and wait for the session to run out. */
  ghost function GapRun(): seq<Step> {
    [Login("s", "u", 0, 0), Revoke("s", 0, 0), Tick(SESSION_MS)]
  }

  lemma GapIsOpen(lifetime: int)
    requires lifetime > SESSION_SECONDS
    ensures !RevokedStayOut(Run(Init(0), lifetime, GapRun()))
  {
    var steps := GapRun();
    var s1 := Next(Init(0), lifetime, steps[0]);
    var s2 := Next(s1, lifetime, steps[1]);
    var s3 := Next(s2, lifetime, steps[2]);
    assert steps[1..][1..] == [steps[2]] && [steps[2]][1..] == [];
    assert Run(Init(0), lifetime, steps) == Run(s1, lifetime, steps[1..]) == Run(s2, lifetime, [steps[2]]) == s3;
    var token := Token(0, "s", Some(lifetime));
    assert token in s3.revoked && Validates(s3, token);
  }

  lemma {:induction false} KeysAreOfRevoked(keys: map<Token, int>, found: seq<Session>, at: int, written: int)
    ensures WriteKeys(keys, found, at, written).Keys <= keys.Keys + TokensOf(found)
    decreases |found|
  {
    if found != [] {
      KeysAreOfRevoked(keys, found[..|found| - 1], at, written);
      assert TokensOf(found[..|found| - 1]) <= TokensOf(found);
    }
  }

  lemma OnlyRevokedStep(s: State, lifetime: int, step: Step)
    requires s.blacklist.Keys <= s.revoked
    ensures Next(s, lifetime, step).blacklist.Keys <= Next(s, lifetime, step).revoked
  {
    if step.RevokeFound? && step.sweep in s.sweeps {
      KeysAreOfRevoked(s.blacklist, s.sweeps[step.sweep].found, step.at, step.written);
    }
  }

  lemma {:induction false} OnlyRevokedRun(s: State, lifetime: int, steps: seq<Step>)
    requires s.blacklist.Keys <= s.revoked
    ensures Run(s, lifetime, steps).blacklist.Keys <= Run(s, lifetime, steps).revoked
    decreases |steps|
  {
    if steps != [] {
      OnlyRevokedStep(s, lifetime, steps[0]);
      OnlyRevokedRun(Next(s, lifetime, steps[0]), lifetime, steps[1..]);
    }
  }

  /** The answer to a token tells exactly whether it has expired or been revoked, in every run. */
  lemma ValidatesIffNeitherExpiredNorRevoked(now: int, lifetime: int, steps: seq<Step>, token: Token)
    requires lifetime <= SESSION_SECONDS && token.exp.Some?
    ensures var s := Run(Init(now), lifetime, steps);
            Validates(s, token) <==> s.now < 1000 * token.exp.value && token !in s.revoked
  {
    RevocationIsFinalIffTokensAreShort(lifetime);
    assert RevokedStayOut(Run(Init(now), lifetime, steps));
    OnlyRevokedRun(Init(now), lifetime, steps);
  }

  // ---- the two ways in which a token is revoked do revoke it ----

  /** As long as a token lives, a logout or a revocation keeps every later write of its key as long. */
  lemma LogoutTakesEffect(s: State, lifetime: int, id: string, token: Token, at: int, written: int, later: seq<Step>)
    requires Inv(s) && lifetime <= SESSION_SECONDS && Readings(s, at, written) && token.exp.Some?
    ensures !Validates(Run(Next(s, lifetime, Logout(id, token, at, written)), lifetime, later), token)
  {
    var s' := Next(s, lifetime, Logout(id, token, at, written));
    InvStep(s, lifetime, Logout(id, token, at, written));
    StaysRevoked(s', lifetime, later, token);
    InvRun(s', lifetime, later);
    CoveredStaysOut(Run(s', lifetime, later));
  }

  lemma RevocationTakesEffect(s: State, lifetime: int, id: string, at: int, written: int, later: seq<Step>)
    requires Inv(s) && lifetime <= SESSION_SECONDS && Readings(s, at, written) && id in s.sessions
    ensures !Validates(Run(Next(s, lifetime, Revoke(id, at, written)), lifetime, later), s.sessions[id].token)
  {
    var s', token := Next(s, lifetime, Revoke(id, at, written)), s.sessions[id].token;
    assert Outlives(s.sessions[id]);
    InvStep(s, lifetime, Revoke(id, at, written));
    StaysRevoked(s', lifetime, later, token);
    InvRun(s', lifetime, later);
    CoveredStaysOut(Run(s', lifetime, later));
  }

  lemma RevokedStep(s: State, lifetime: int, step: Step, token: Token)
    requires token in s.revoked
    ensures token in Next(s, lifetime, step).revoked
  {
  }

  lemma {:induction false} StaysRevoked(s: State, lifetime: int, steps: seq<Step>, token: Token)
    requires token in s.revoked
    ensures token in Run(s, lifetime, steps).revoked
    decreases |steps|
  {
    if steps != [] {
      RevokedStep(s, lifetime, steps[0], token);
      StaysRevoked(Next(s, lifetime, steps[0]), lifetime, steps[1..], token);
    }
  }

  // ---- sessions ----

  /**
   Login gives its user a token of the configured life and a session; a refresh of it signs
   another exactly if it is that user's and comes within eight hours of the login.
   */
  lemma LoginServesItsUser(s: State, lifetime: int, id: string, userId: string, signed: int, saved: int, n: nat, caller: string, at: int)
    requires Enabled(s, Login(id, userId, signed, saved)) && n !in s.refreshing && saved <= at
    ensures var s1 := Next(s, lifetime, Login(id, userId, signed, saved));
            var s2 := Next(Next(s1, lifetime, ReadForRefresh(n, id, caller)), lifetime, SignRefresh(n, at));
            && |s1.issued| == |s.issued| + 1
            && s1.issued[|s.issued|].session == id && s1.issued[|s.issued|].exp == Some(signed / 1000 + lifetime)
            && id in s1.sessions && s1.sessions[id].token == s1.issued[|s.issued|]
            && (|s2.issued| == |s1.issued| + 1 <==> caller == userId && at <= saved + 28800000)
            && (|s2.issued| == |s1.issued| + 1 ==>
                  s2.issued[|s1.issued|].session == id && s2.issued[|s1.issued|].exp == Some(at / 1000 + lifetime))
  {
  }

  /** A sweep finds the tokens of the sessions of its user that have time left, and no others. */
  lemma SweepFindsUnexpired(s: State, lifetime: int, n: nat, userId: string, found: seq<string>, at: int, token: Token)
    requires Enabled(s, FindSessions(n, userId, found, at))
    ensures var s' := Next(s, lifetime, FindSessions(n, userId, found, at));
            && n in s'.sweeps && s'.sweeps[n].userId == userId
            && (token in TokensOf(s'.sweeps[n].found) <==>
                  exists id :: id in s.sessions && s.sessions[id].userId == userId
                    && s.sessions[id].expiresAt > at && s.sessions[id].token == token)
  {
    var rows := Next(s, lifetime, FindSessions(n, userId, found, at)).sweeps[n].found;
    if token in TokensOf(rows) {
      var i :| 0 <= i < |rows| && rows[i].token == token;
      assert found[i] in found && Unexpired(s, userId, at, found[i]);
    }
    if id :| id in s.sessions && s.sessions[id].userId == userId && s.sessions[id].expiresAt > at && s.sessions[id].token == token {
      assert Unexpired(s, userId, at, id) && id in found;
      var i :| 0 <= i < |found| && found[i] == id;
      assert rows[i] == s.sessions[id] && rows[i] in rows;
    }
  }

  ghost predicate Ends(s: State, step: Step, id: string)
    requires Enabled(s, step) && id in s.sessions
  {
    match step
    case Logout(x, _, _, _) => x == id
    case Revoke(x, _, _) => x == id
    case RevokeFound(n, _, _) => s.sweeps[n].found != [] && s.sweeps[n].userId == s.sessions[id].userId
    case DropSessions(ids) => id in ids
    case _ => false
  }

  /** A session ends exactly by its logout or revocation, by a sweep of its user that found some, or by a deletion. */
  lemma SessionEndsIff(s: State, lifetime: int, step: Step, id: string)
    requires Enabled(s, step) && id in s.sessions
    ensures var s' := Next(s, lifetime, step);
            && (id !in s'.sessions <==> Ends(s, step, id))
            && (id in s'.sessions ==> s'.sessions[id] == s.sessions[id])
  {
    hide WriteKeys, LogoutTtl, SessionTtl, Rows;
  }

  // ---- every token of a session ----

  /** The access tokens handed out in the session, by login and by refresh. */
  ghost function SessionTokens(s: State, id: string): set<Token> {
    set token | token in s.issued && token.session == id
  }

  /** Issued tokens are distinct and expire; each session keeps one of its own. */
  ghost predicate Filed(s: State) {
    && (forall i :: 0 <= i < |s.issued| ==> s.issued[i].serial == i && s.issued[i].exp.Some?)
    && (forall id :: id in s.sessions ==> s.sessions[id].token in SessionTokens(s, id))
  }

  /** Nothing is signed, no session added or changed, and no refresh begun. */
  ghost predicate Shrinks(s: State, s': State) {
    && s'.issued == s.issued && s.now <= s'.now && s'.refreshing == s.refreshing
    && (forall id :: id in s'.sessions ==> id in s.sessions && s'.sessions[id] == s.sessions[id])
  }

  lemma RevokersShrink(s: State, lifetime: int, step: Step)
    requires !step.Login? && !step.ReadForRefresh? && !step.SignRefresh?
    ensures Shrinks(s, Next(s, lifetime, step))
  {
  }

  lemma LoginFiled(s: State, lifetime: int, id: string, userId: string, signed: int, saved: int)
    requires Filed(s) && id !in s.sessions
    ensures Filed(LoginUser(s, lifetime, id, userId, signed, saved))
  {
    var s' := LoginUser(s, lifetime, id, userId, signed, saved);
    forall x | x in s'.sessions ensures s'.sessions[x].token in SessionTokens(s', x) {
      if x == id {
        assert s'.sessions[id].token == s'.issued[|s.issued|];
      } else {
        assert s.sessions[x].token in SessionTokens(s, x);
      }
    }
  }

  lemma SignFiled(s: State, lifetime: int, n: nat, at: int)
    requires Filed(s) && n in s.refreshing
    ensures Filed(SignToken(s, lifetime, n, at))
  {
    var s' := SignToken(s, lifetime, n, at);
    forall x | x in s'.sessions ensures s'.sessions[x].token in SessionTokens(s', x) {
      assert s.sessions[x].token in SessionTokens(s, x);
    }
  }

  lemma FiledStep(s: State, lifetime: int, step: Step)
    requires Filed(s)
    ensures Filed(Next(s, lifetime, step))
  {
    match step
    case Login(id, userId, signed, saved) => if Enabled(s, step) { LoginFiled(s, lifetime, id, userId, signed, saved); }
    case ReadForRefresh(_, _, _) =>
    case SignRefresh(n, at) => if n in s.refreshing { SignFiled(s, lifetime, n, at); }
    case _ =>
      RevokersShrink(s, lifetime, step);
      hide Next;
      assert forall x :: SessionTokens(Next(s, lifetime, step), x) == SessionTokens(s, x);
  }

  ghost predicate Sound(s: State) {
    Inv(s) && s.blacklist.Keys <= s.revoked && Filed(s)
  }

  lemma SoundStep(s: State, lifetime: int, step: Step)
    requires Sound(s) && lifetime <= SESSION_SECONDS
    ensures Sound(Next(s, lifetime, step))
  {
    hide Inv, Filed, Next;
    InvStep(s, lifetime, step);
    OnlyRevokedStep(s, lifetime, step);
    FiledStep(s, lifetime, step);
  }

  /** What the tables keep in every run. */
  lemma {:induction false} SoundRun(s: State, lifetime: int, steps: seq<Step>)
    requires Sound(s) && lifetime <= SESSION_SECONDS
    ensures Sound(Run(s, lifetime, steps))
    decreases |steps|
  {
    hide Sound, Next;
    if steps != [] {
      SoundStep(s, lifetime, steps[0]);
      SoundRun(Next(s, lifetime, steps[0]), lifetime, steps[1..]);
    }
  }

  lemma RefusedIff(s: State, token: Token)
    requires Inv(s) && s.blacklist.Keys <= s.revoked && token.exp.Some?
    ensures Validates(s, token) <==> !Expired(s, token) && token !in s.revoked
  {
    CoveredStaysOut(s);
  }

  /** A refresh of the session has read it and may still sign. */
  ghost predicate MaySign(s: State, id: string) {
    exists n :: n in s.refreshing && s.refreshing[n].id == id && s.now <= s.refreshing[n].expiresAt
  }

  /** The session is gone; its id is never given out again. */
  ghost predicate Gone(s: State, id: string) {
    id !in s.sessions && SessionTokens(s, id) != {}
  }

  /** The step leaves the session gone; a token that is new in it has the full lifetime ahead. */
  ghost predicate StaysGone(s: State, lifetime: int, s': State, id: string) {
    && Gone(s', id) && s.now <= s'.now && SessionTokens(s, id) <= SessionTokens(s', id)
    && (!MaySign(s, id) ==> !MaySign(s', id) && SessionTokens(s', id) == SessionTokens(s, id))
    && (forall token :: token in SessionTokens(s', id) - SessionTokens(s, id) ==>
          token.exp == Some(s'.now / 1000 + lifetime))
  }

  lemma GoneLogin(s: State, lifetime: int, id: string, other: string, userId: string, signed: int, saved: int)
    requires Gone(s, id) && NewId(s, other) && Readings(s, signed, saved)
    ensures StaysGone(s, lifetime, LoginUser(s, lifetime, other, userId, signed, saved), id)
  {
    assert SessionTokens(LoginUser(s, lifetime, other, userId, signed, saved), id) == SessionTokens(s, id);
  }

  lemma GoneSign(s: State, lifetime: int, id: string, n: nat, at: int)
    requires Gone(s, id) && n in s.refreshing && s.now <= at
    ensures StaysGone(s, lifetime, SignToken(s, lifetime, n, at), id)
  {
  }

  lemma GoneStep(s: State, lifetime: int, step: Step, id: string)
    requires Gone(s, id)
    ensures StaysGone(s, lifetime, Next(s, lifetime, step), id)
  {
    if Enabled(s, step) {
      match step
      case Login(other, userId, signed, saved) => GoneLogin(s, lifetime, id, other, userId, signed, saved);
      case ReadForRefresh(_, _, _) =>
      case SignRefresh(n, at) => GoneSign(s, lifetime, id, n, at);
      case _ =>
        RevokersShrink(s, lifetime, step);
        hide Next;
        assert SessionTokens(Next(s, lifetime, step), id) == SessionTokens(s, id);
    }
  }

  lemma {:induction false} QuietWhenGone(s: State, lifetime: int, steps: seq<Step>, id: string)
    requires Gone(s, id) && !MaySign(s, id)
    ensures SessionTokens(Run(s, lifetime, steps), id) == SessionTokens(s, id)
    decreases |steps|
  {
    hide Next, Gone, MaySign, SessionTokens;
    if steps != [] {
      GoneStep(s, lifetime, steps[0], id);
      QuietWhenGone(Next(s, lifetime, steps[0]), lifetime, steps[1..], id);
    }
  }

  /** No token of the session is ever signed from here on. */
  ghost predicate IssuesNoMore(s: State, lifetime: int, id: string) {
    forall later :: SessionTokens(Run(s, lifetime, later), id) == SessionTokens(s, id)
  }

  /** The token that a refresh in flight signs if it goes on at once. */
  lemma LateSigning(s: State, lifetime: int, id: string) returns (later: seq<Step>, token: Token)
    requires Filed(s) && MaySign(s, id)
    ensures var s' := Run(s, lifetime, later);
            && token == Token(|s.issued|, id, Some(s.now / 1000 + lifetime)) && token !in s.issued
            && token in SessionTokens(s', id) && s'.now == s.now && s'.revoked == s.revoked
  {
    var n :| n in s.refreshing && s.refreshing[n].id == id && s.now <= s.refreshing[n].expiresAt;
    later := [SignRefresh(n, s.now)];
    token := Token(|s.issued|, id, Some(s.now / 1000 + lifetime));
    var s' := Next(s, lifetime, later[0]);
    assert later[1..] == [] && Run(s, lifetime, later) == s';
    assert s'.issued[|s.issued|] == token;
  }

  /** A session that is gone issues no more exactly if no refresh that has read it may still sign. */
  lemma IssuingEndsIff(s: State, lifetime: int, id: string)
    requires Filed(s) && Gone(s, id)
    ensures IssuesNoMore(s, lifetime, id) <==> !MaySign(s, id)
  {
    if MaySign(s, id) {
      var later, token := LateSigning(s, lifetime, id);
      assert token !in SessionTokens(s, id);
    } else {
      forall later ensures SessionTokens(Run(s, lifetime, later), id) == SessionTokens(s, id) {
        QuietWhenGone(s, lifetime, later, id);
      }
    }
  }

  /** No token of the session is accepted, now or later. */
  ghost predicate StaysOut(s: State, lifetime: int, id: string) {
    forall later, token :: token in SessionTokens(Run(s, lifetime, later), id) ==>
      !Validates(Run(s, lifetime, later), token)
  }

  ghost predicate Over(s: State, token: Token) {
    Expired(s, token) || token in s.revoked
  }

  /** Nothing that could be accepted is left, or can come. */
  ghost predicate AllOver(s: State, lifetime: int, id: string) {
    && (lifetime > 0 ==> !MaySign(s, id))
    && (forall token :: token in SessionTokens(s, id) ==> Over(s, token))
  }

  lemma AllOverStep(s: State, lifetime: int, step: Step, id: string)
    requires Gone(s, id) && AllOver(s, lifetime, id)
    ensures Gone(Next(s, lifetime, step), id) && AllOver(Next(s, lifetime, step), lifetime, id)
  {
    var s' := Next(s, lifetime, step);
    GoneStep(s, lifetime, step, id);
    forall token | token in SessionTokens(s', id) ensures Over(s', token) {
      if token in SessionTokens(s, id) {
        if token in s.revoked { RevokedStep(s, lifetime, step, token); }
      }
    }
  }

  lemma {:induction false} AllOverRun(s: State, lifetime: int, steps: seq<Step>, id: string)
    requires Gone(s, id) && AllOver(s, lifetime, id)
    ensures AllOver(Run(s, lifetime, steps), lifetime, id)
    decreases |steps|
  {
    hide Next, Gone, AllOver;
    if steps != [] {
      AllOverStep(s, lifetime, steps[0], id);
      AllOverRun(Next(s, lifetime, steps[0]), lifetime, steps[1..], id);
    }
  }

  /** No token was logged out before it was signed. */
  ghost predicate NoneForged(s: State) {
    forall token :: token in s.revoked ==> token.serial < |s.issued|
  }

  lemma SessionIsOutIff(s: State, lifetime: int, id: string)
    requires Sound(s) && NoneForged(s) && lifetime <= SESSION_SECONDS && Gone(s, id)
    ensures StaysOut(s, lifetime, id) <==> AllOver(s, lifetime, id)
  {
    if AllOver(s, lifetime, id) {
      forall later, token | token in SessionTokens(Run(s, lifetime, later), id)
        ensures !Validates(Run(s, lifetime, later), token)
      {
        AllOverRun(s, lifetime, later, id);
        SoundRun(s, lifetime, later);
        RefusedIff(Run(s, lifetime, later), token);
      }
    } else if token :| token in SessionTokens(s, id) && !Over(s, token) {
      RefusedIff(s, token);
      assert Run(s, lifetime, []) == s;
    } else {
      var later, token := LateSigning(s, lifetime, id);
      SoundRun(s, lifetime, later);
      RefusedIff(Run(s, lifetime, later), token);
    }
  }

  /** A step that revokes one token of a session and deletes it. */
  ghost predicate Revokes(s: State, s': State, id: string, token: Token) {
    && Sound(s') && NoneForged(s') && Gone(s', id)
    && s'.revoked == s.revoked + {token} && SessionTokens(s', id) == SessionTokens(s, id)
  }

  lemma RevokeRevokes(s: State, lifetime: int, id: string, at: int, written: int)
    requires Sound(s) && NoneForged(s) && lifetime <= SESSION_SECONDS && id in s.sessions && Readings(s, at, written)
    ensures Revokes(s, Next(s, lifetime, Revoke(id, at, written)), id, s.sessions[id].token)
    ensures s.sessions[id].token in SessionTokens(s, id)
  {
    SoundStep(s, lifetime, Revoke(id, at, written));
    assert s.sessions[id].token in SessionTokens(s, id);
    assert s.sessions[id].token.serial < |s.issued|;
  }

  lemma LogoutStep(s: State, lifetime: int, token: Token, at: int, written: int)
    requires Readings(s, at, written)
    ensures var s' := Next(s, lifetime, Logout(token.session, token, at, written));
            && s'.issued == s.issued && s'.revoked == s.revoked + {token}
            && token.session !in s'.sessions
  {
    hide Expiry, LogoutTtl, LoginUser, ReadSession, SignToken, RevokeSession, RevokeSweep, Rows;
  }

  lemma LogoutRevokes(s: State, lifetime: int, token: Token, at: int, written: int)
    requires Sound(s) && NoneForged(s) && lifetime <= SESSION_SECONDS && token in s.issued && Readings(s, at, written)
    ensures Revokes(s, Next(s, lifetime, Logout(token.session, token, at, written)), token.session, token)
  {
    assert token.serial < |s.issued|;
    hide Next, Inv;
    var s' := Next(s, lifetime, Logout(token.session, token, at, written));
    SoundStep(s, lifetime, Logout(token.session, token, at, written));
    LogoutStep(s, lifetime, token, at, written);
    assert token in SessionTokens(s, token.session) && SessionTokens(s', token.session) == SessionTokens(s, token.session);
  }

  /** Then the session is out for good exactly if the other tokens are over and none can come. */
  lemma RevokedSessionIsOutIff(s: State, s': State, lifetime: int, id: string, token: Token)
    requires lifetime <= SESSION_SECONDS && Revokes(s, s', id, token)
    ensures StaysOut(s', lifetime, id) <==>
              && (lifetime > 0 ==> !MaySign(s', id))
              && (forall other :: other in SessionTokens(s, id) - {token} ==> Expired(s', other) || other in s.revoked)
  {
    hide StaysOut, MaySign, Sound;
    SessionIsOutIff(s', lifetime, id);
  }

  /**
   A revocation shuts out its session for good exactly if no refresh that has read the session
   may still sign and every token that refresh has signed in it has expired or been logged out:
   the session keeps the token of its login only.
   */
  lemma RevocationEndsSessionIff(now: int, lifetime: int, before: seq<Step>, id: string, at: int, written: int)
    requires lifetime <= SESSION_SECONDS
    requires var s := Run(Init(now), lifetime, before); id in s.sessions && Readings(s, at, written) && NoneForged(s)
    ensures var s := Run(Init(now), lifetime, before);
            var s' := Next(s, lifetime, Revoke(id, at, written));
            StaysOut(s', lifetime, id) <==>
              && (lifetime > 0 ==> !MaySign(s', id))
              && (forall token :: token in SessionTokens(s, id) - {s.sessions[id].token} ==>
                    Expired(s', token) || token in s.revoked)
  {
    hide StaysOut, MaySign, Next, Run;
    var s := Run(Init(now), lifetime, before);
    SoundRun(Init(now), lifetime, before);
    RevokeRevokes(s, lifetime, id, at, written);
    RevokedSessionIsOutIff(s, Next(s, lifetime, Revoke(id, at, written)), lifetime, id, s.sessions[id].token);
  }

  /** A logout on the same terms: it revokes the token presented and no other of its session. */
  lemma LogoutEndsSessionIff(now: int, lifetime: int, before: seq<Step>, token: Token, at: int, written: int)
    requires lifetime <= SESSION_SECONDS
    requires var s := Run(Init(now), lifetime, before); token in s.issued && Readings(s, at, written) && NoneForged(s)
    ensures var s, id := Run(Init(now), lifetime, before), token.session;
            var s' := Next(s, lifetime, Logout(id, token, at, written));
            StaysOut(s', lifetime, id) <==>
              && (lifetime > 0 ==> !MaySign(s', id))
              && (forall other :: other in SessionTokens(s, id) - {token} ==>
                    Expired(s', other) || other in s.revoked)
  {
    hide StaysOut, MaySign, Next, Run;
    var s, id := Run(Init(now), lifetime, before), token.session;
    SoundRun(Init(now), lifetime, before);
    LogoutRevokes(s, lifetime, token, at, written);
    RevokedSessionIsOutIff(s, Next(s, lifetime, Logout(id, token, at, written)), lifetime, id, token);
  }

  /** Right after the revocation a token that refresh issued is accepted until it expires, unless logged out. */
  lemma RefreshedTokensSurvive(now: int, lifetime: int, before: seq<Step>, id: string, at: int, written: int, token: Token)
    requires lifetime <= SESSION_SECONDS
    requires var s := Run(Init(now), lifetime, before); id in s.sessions && Readings(s, at, written)
    ensures var s := Run(Init(now), lifetime, before);
            var s' := Next(s, lifetime, Revoke(id, at, written));
            token in SessionTokens(s, id) && token != s.sessions[id].token && token !in s.revoked ==>
              (Validates(s', token) <==> !Expired(s', token))
  {
    var s := Run(Init(now), lifetime, before);
    var revoke := Revoke(id, at, written);
    SoundRun(Init(now), lifetime, before);
    SoundStep(s, lifetime, revoke);
    if token in SessionTokens(s, id) { RefusedIff(Next(s, lifetime, revoke), token); }
  }

  /**
   When a revocation of all sessions of a user ends, having found some, the sessions are gone;
   the login token of each is refused exactly if the session was found, or the token is over
   anyway: a session made after the query is deleted without a key.
   */
  lemma SweepRefusesIffFound(now: int, lifetime: int, before: seq<Step>, n: nat, at: int, written: int, id: string)
    requires lifetime <= SESSION_SECONDS
    requires var s := Run(Init(now), lifetime, before);
             && Enabled(s, RevokeFound(n, at, written)) && s.sweeps[n].found != []
             && id in s.sessions && s.sessions[id].userId == s.sweeps[n].userId
    ensures var s := Run(Init(now), lifetime, before);
            var s', token := Next(s, lifetime, RevokeFound(n, at, written)), s.sessions[id].token;
            && id !in s'.sessions
            && (!Validates(s', token) <==>
                  token in TokensOf(s.sweeps[n].found) || Expired(s', token) || token in s.revoked)
  {
    var s := Run(Init(now), lifetime, before);
    SoundRun(Init(now), lifetime, before);
    SoundStep(s, lifetime, RevokeFound(n, at, written));
    assert Outlives(s.sessions[id]);
    RefusedIff(Next(s, lifetime, RevokeFound(n, at, written)), s.sessions[id].token);
  }
}

/** The services over the session table and Redis. */
module TokenServices {
  import opened Common
  import opened RedisStore
  import opened BlacklistModel

  /** The session table, and the blacklist keys in Redis. */
  class Tables {
    var sessions: map<string, Session>
    var blacklist: map<Token, int>
    var serial: nat   // tells tokens apart
    ghost var issued: seq<Token>
    ghost var now: int
    ghost var revoked: set<Token>
    ghost var refreshing: map<nat, Reading>
    ghost var sweeps: map<nat, Sweep>

    ghost function View(): State
      reads this
    {
      State(now, sessions, blacklist, issued, revoked, refreshing, sweeps)
    }

    ghost predicate Valid()
      reads this
    {
      serial == |issued|
    }

    constructor (ghost now: int)
      ensures Valid() && View() == Init(now)
    {
      sessions, blacklist, serial := map[], map[], 0;
      this.now, issued, revoked := now, [], {};
      refreshing, sweeps := map[], map[];
    }

    /** An access token for the session, unlike any before. */
    method Sign(session: string, exp: int) returns (token: Token)
      requires Valid()
      modifies this`serial, this`issued
      ensures Valid() && token == Token(|old(issued)|, session, Some(exp)) && issued == old(issued) + [token]
    {
      token := Token(serial, session, Some(exp));
      serial, issued := serial + 1, issued + [token];
    }

    /** RedisService.set on the key of the token. */
    method SetKey(token: Token, ttl: int, written: int)
      modifies this`blacklist
      ensures blacklist == old(blacklist)[token := Expiry(written, ttl)]
    {
      blacklist := blacklist[token := Expiry(written, ttl)];
    }
  }

  class AuthService {
    const tables: Tables
    const lifetime: int

    constructor (tables: Tables, lifetime: int)
      ensures this.tables == tables && this.lifetime == lifetime
    {
      this.tables, this.lifetime := tables, lifetime;
    }

    /** The part of login after the password has been accepted. */
    method Login(id: string, userId: string, signed: int, saved: int) returns (accessToken: Token)
      requires tables.Valid() && Readings(tables.View(), signed, saved) && NewId(tables.View(), id)
      modifies tables
      ensures tables.Valid()
      ensures tables.View() == Next(old(tables.View()), lifetime, BlacklistModel.Login(id, userId, signed, saved))
      ensures tables.sessions[id].token == accessToken
    {
      accessToken := tables.Sign(id, signed / 1000 + lifetime);
      tables.sessions := tables.sessions[id := Session(userId, accessToken, saved + SESSION_MS)];
      tables.now := saved;
    }

    /** refresh up to its query for the session; Some if the user has it. */
    method ReadForRefresh(ghost refresh: nat, id: string, userId: string) returns (session: Option<Session>)
      requires refresh !in tables.refreshing
      modifies tables`refreshing
      ensures tables.View() == Next(old(tables.View()), lifetime, BlacklistModel.ReadForRefresh(refresh, id, userId))
      ensures session == if id in tables.sessions && tables.sessions[id].userId == userId then Some(tables.sessions[id]) else None
    {
      if id !in tables.sessions || tables.sessions[id].userId != userId {
        return None;
      }
      session := Some(tables.sessions[id]);
      tables.refreshing := tables.refreshing[refresh := Reading(id, session.value.expiresAt)];
    }

    /** The rest of refresh goes by the session that was read, whether or not it is still there. */
    method SignRefresh(ghost refresh: nat, id: string, session: Session, at: int) returns (accessToken: Option<Token>)
      requires tables.Valid() && tables.now <= at
      requires refresh in tables.refreshing && tables.refreshing[refresh] == Reading(id, session.expiresAt)
      modifies tables
      ensures tables.Valid()
      ensures tables.View() == Next(old(tables.View()), lifetime, BlacklistModel.SignRefresh(refresh, at))
      ensures accessToken.Some? <==> session.expiresAt >= at
      ensures accessToken.Some? ==> tables.issued == old(tables.issued) + [accessToken.value]
    {
      tables.now, tables.refreshing := at, tables.refreshing - {refresh};
      if session.expiresAt < at {
        return None;
      }
      var token := tables.Sign(id, at / 1000 + lifetime);
      accessToken := Some(token);
    }

    method Logout(id: string, token: Token, at: int, written: int)
      requires tables.Valid() && Readings(tables.View(), at, written)
      modifies tables
      ensures tables.Valid()
      ensures tables.View() == Next(old(tables.View()), lifetime, BlacklistModel.Logout(id, token, at, written))
    {
      if token.exp.Some? {
        var ttl := Max0(token.exp.value - at / 1000);
        if ttl > 0 {
          tables.SetKey(token, ttl, written);
        }
      }
      tables.sessions := tables.sessions - {id};
      tables.now, tables.revoked := written, tables.revoked + {token};
    }
  }

  class SecurityService {
    const tables: Tables

    constructor (tables: Tables)
      ensures this.tables == tables
    {
      this.tables := tables;
    }

    method RevokeSession(ghost lifetime: int, id: string, at: int, written: int) returns (found: bool)
      requires tables.Valid() && Readings(tables.View(), at, written)
      modifies tables
      ensures tables.Valid()
      ensures found == (id in old(tables.sessions))
      ensures tables.View() == Next(old(tables.View()), lifetime, Revoke(id, at, written))
    {
      if id !in tables.sessions {
        tables.now := at;
        return false;
      }
      var session := tables.sessions[id];
      var ttl := Max0(CeilSeconds(session.expiresAt - at));
      if ttl > 0 {
        tables.SetKey(session.token, ttl, written);
      }
      tables.sessions := tables.sessions - {id};
      tables.now, tables.revoked := written, tables.revoked + {session.token};
      found := true;
    }

    /** `ids` is what the query for the unexpired sessions of the user returned. */
    method FindUserSessions(ghost lifetime: int, ghost sweep: nat, userId: string, ids: seq<string>, at: int)
      returns (found: seq<Session>)
      requires sweep !in tables.sweeps && tables.now <= at
      requires Answers(tables.View(), userId, at, ids)
      modifies tables`now, tables`sweeps
      ensures tables.View() == Next(old(tables.View()), lifetime, FindSessions(sweep, userId, ids, at))
      ensures |found| == |ids| && sweep in tables.sweeps && tables.sweeps[sweep] == Sweep(userId, found)
    {
      var sessions := tables.sessions;
      assert forall i :: 0 <= i < |ids| ==> ids[i] in ids && Unexpired(tables.View(), userId, at, ids[i]);
      found := seq(|ids|, i requires 0 <= i < |ids| && ids[i] in sessions => sessions[ids[i]]);
      assert found == Rows(tables.View(), ids);
      tables.now := at;
      tables.sweeps := tables.sweeps[sweep := Sweep(userId, found)];
    }

    /** One key per session found, then the delete of every session of the user. */
    method RevokeFoundSessions(ghost lifetime: int, ghost sweep: nat, userId: string, found: seq<Session>, at: int, written: int)
      returns (count: nat)
      requires tables.Valid() && Readings(tables.View(), at, written)
      requires sweep in tables.sweeps && tables.sweeps[sweep] == Sweep(userId, found)
      modifies tables
      ensures tables.Valid()
      ensures count == |found|
      ensures tables.View() == Next(old(tables.View()), lifetime, RevokeFound(sweep, at, written))
    {
      WriteAllKeys(found, at, written);
      tables.now, tables.sweeps := written, tables.sweeps - {sweep};
      if |found| > 0 {
        tables.revoked := tables.revoked + TokensOf(found);
        tables.sessions := map id | id in tables.sessions && tables.sessions[id].userId != userId :: tables.sessions[id];
      }
      count := |found|;
    }

    method WriteAllKeys(found: seq<Session>, at: int, written: int)
      modifies tables`blacklist
      ensures tables.blacklist == WriteKeys(old(tables.blacklist), found, at, written)
    {
      ghost var before := tables.blacklist;
      for i := 0 to |found|
        invariant tables.blacklist == WriteKeys(before, found[..i], at, written)
      {
        assert found[..i + 1][..i] == found[..i];
        var session := found[i];
        var ttl := Max0(CeilSeconds(session.expiresAt - at));
        if ttl > 0 {
          tables.SetKey(session.token, ttl, written);
        }
      }
      assert found[..|found|] == found;
    }
  }

  class JwtStrategy {
    const tables: Tables

    constructor (tables: Tables)
      ensures this.tables == tables
    {
      this.tables := tables;
    }

    /** The token's expiry is checked before `validate` looks for its key. */
    method Validate(token: Token, at: int) returns (accepted: bool)
      requires at == tables.now
      ensures accepted <==> Validates(tables.View(), token)
    {
      if token.exp.Some? && at / 1000 >= token.exp.value {
        return false;
      }
      var isBlacklisted := token in tables.blacklist && Live(tables.blacklist[token], at);
      accepted := !isBlacklisted;
    }
  }
}
