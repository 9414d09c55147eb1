/** Refresh-token rotation (`internal/auth/refresh.go`, `sessions.go`, `identity.go`), the
    scheme of section 4.14.2 of RFC 9700.

    A token row stands for its secret: secrets are random and only their hashes are stored, so
    presenting a secret finds its row or none. */
module RefreshTokens {
  import opened Prelude

  datatype Session = Session(principal: nat, expires: int, revokedAt: Option<int>)

  datatype Token = Token(session: nat, expires: int, consumedAt: Option<int>, replacedBy: Option<nat>, revokedAt: Option<int>)

  /** `expiry` of a principal, the principals merged into another one, and the registered
      principals whose user row is gone.  `next` is the source of new identifiers. */
  datatype Tables = Tables(next: nat, sessions: map<nat, Session>, tokens: map<nat, Token>, expiry: map<nat, int>, merged: set<nat>, orphaned: set<nat>)

  datatype Outcome = Rotated(token: nat) | InvalidToken | Reused | ExpiredToken

  function Or(at: Option<int>, now: int): Option<int> { if at.Some? then at else Some(now) }

  function RevokedToken(token: Token, now: int): Token { token.(revokedAt := Or(token.revokedAt, now)) }

  function RevokedSession(t: Tables, session: nat, now: int): Tables {
    t.(sessions := map s | s in t.sessions :: if s == session then t.sessions[s].(revokedAt := Or(t.sessions[s].revokedAt, now)) else t.sessions[s],
       tokens := map k | k in t.tokens :: if t.tokens[k].session == session then RevokedToken(t.tokens[k], now) else t.tokens[k])
  }

  predicate OwnedBy(t: Tables, session: nat, principal: nat) { session in t.sessions && t.sessions[session].principal == principal }

  function RevokedPrincipal(t: Tables, principal: nat, now: int): Tables {
    t.(sessions := map s | s in t.sessions :: if OwnedBy(t, s, principal) then t.sessions[s].(revokedAt := Or(t.sessions[s].revokedAt, now)) else t.sessions[s],
       tokens := map k | k in t.tokens :: if OwnedBy(t, t.tokens[k].session, principal) then RevokedToken(t.tokens[k], now) else t.tokens[k])
  }

  function Granted(t: Tables, principal: nat, expires: int): Tables {
    t.(next := t.next + 2,
       sessions := t.sessions[t.next := Session(principal, expires, None)],
       tokens := t.tokens[t.next + 1 := Token(t.next, expires, None, None, None)])
  }

  predicate Expired(t: Tables, token: Token, session: Session, now: int) {
    token.expires <= now || session.expires <= now || (session.principal in t.expiry && t.expiry[session.principal] <= now)
  }

  function RotatedTables(t: Tables, token: nat, now: int): Tables
    requires token in t.tokens && t.tokens[token].session in t.sessions
  {
    var row := t.tokens[token];
    var issued := Token(row.session, t.sessions[row.session].expires, None, None, None);
    t.(next := t.next + 1, tokens := t.tokens[t.next := issued][token := row.(consumedAt := Some(now), replacedBy := Some(t.next))])
  }

  function Rotate(t: Tables, token: nat, now: int): (Tables, Outcome) {
    if token !in t.tokens || t.tokens[token].session !in t.sessions then (t, InvalidToken)
    else
      var row, session := t.tokens[token], t.sessions[t.tokens[token].session];
      if row.consumedAt.Some? || row.revokedAt.Some? then (RevokedSession(t, row.session, now), Reused)
      else if session.revokedAt.Some? || session.principal in t.merged then (t, InvalidToken)
      else if Expired(t, row, session, now) then (RevokedSession(t, row.session, now), ExpiredToken)
      else if session.principal in t.orphaned then (t, InvalidToken)
      else (RotatedTables(t, token, now), Rotated(t.next))
  }

  /** `RevokeDeviceSession` only acts on a session of the caller that is not revoked yet. */
  function RevokedDevice(t: Tables, principal: nat, session: nat, now: int): (Tables, bool) {
    if OwnedBy(t, session, principal) && t.sessions[session].revokedAt.None? then (RevokedSession(t, session, now), true) else (t, false)
  }

  // ---- What the answers mean ----------------------------------------------------------

  /** The session and all its tokens are revoked, at the given time unless they were before; nothing
      else changes. */
  ghost predicate SessionEnds(t: Tables, t': Tables, session: nat, now: int) {
    && t'.next == t.next && t'.expiry == t.expiry && t'.merged == t.merged && t'.orphaned == t.orphaned
    && t'.sessions.Keys == t.sessions.Keys && t'.tokens.Keys == t.tokens.Keys
    && (forall s :: s in t.sessions && s != session ==> t'.sessions[s] == t.sessions[s])
    && (session in t.sessions ==>
          && t'.sessions[session].principal == t.sessions[session].principal && t'.sessions[session].expires == t.sessions[session].expires
          && t'.sessions[session].revokedAt == Some(if t.sessions[session].revokedAt.Some? then t.sessions[session].revokedAt.value else now))
    && (forall k :: k in t.tokens && t.tokens[k].session != session ==> t'.tokens[k] == t.tokens[k])
    && (forall k :: k in t.tokens && t.tokens[k].session == session ==>
          t'.tokens[k] == t.tokens[k].(revokedAt := Some(if t.tokens[k].revokedAt.Some? then t.tokens[k].revokedAt.value else now)))
  }

  lemma RevocationEnds(t: Tables, session: nat, now: int)
    ensures SessionEnds(t, RevokedSession(t, session, now), session, now)
  {
  }

  /** A row that is there, with its session, and was neither spent nor given up. */
  predicate Presentable(t: Tables, token: nat) {
    && token in t.tokens && t.tokens[token].session in t.sessions
    && t.tokens[token].consumedAt == None && t.tokens[token].revokedAt == None
    && t.sessions[t.tokens[token].session].revokedAt == None
    && t.sessions[t.tokens[token].session].principal !in t.merged
  }

  /** Before the expiry of the token, of its session and of its principal. */
  predicate InTime(t: Tables, token: nat, now: int)
    requires token in t.tokens && t.tokens[token].session in t.sessions
  {
    var session := t.sessions[t.tokens[token].session];
    now < t.tokens[token].expires && now < session.expires && (session.principal in t.expiry ==> now < t.expiry[session.principal])
  }

  /** Exactly a presentable token whose principal still has its user is rotated, in time; a spent or
      revoked one is a reuse and an otherwise presentable one that is late has expired, and both
      end the session. */
  ghost predicate Answered(t: Tables, t': Tables, token: nat, now: int, outcome: Outcome) {
    var known := token in t.tokens && t.tokens[token].session in t.sessions;
    && (outcome.Rotated? <==>
          Presentable(t, token) && InTime(t, token, now) && t.sessions[t.tokens[token].session].principal !in t.orphaned)
    && (outcome == Reused <==> known && (t.tokens[token].consumedAt != None || t.tokens[token].revokedAt != None))
    && (outcome == ExpiredToken <==> Presentable(t, token) && !InTime(t, token, now))
    && (outcome == Reused || outcome == ExpiredToken ==> SessionEnds(t, t', t.tokens[token].session, now))
    && (outcome == InvalidToken ==> t' == t)
    && (outcome.Rotated? ==>
          var was := t.tokens[token];
          && outcome == Rotated(t.next) && t' == t.(next := t.next + 1, tokens := t'.tokens)
          && t'.tokens.Keys == t.tokens.Keys + {t.next} && (forall k :: k in t.tokens && k != token && k != t.next ==> t'.tokens[k] == t.tokens[k])
          && (token != t.next ==>
                && t'.tokens[t.next] == Token(was.session, t.sessions[was.session].expires, None, None, None)
                && t'.tokens[token] == was.(consumedAt := Some(now), replacedBy := Some(t.next))))
  }

  lemma RotationAnswers(t: Tables, token: nat, now: int)
    ensures Answered(t, Rotate(t, token, now).0, token, now, Rotate(t, token, now).1)
  {
    if token in t.tokens { RevocationEnds(t, t.tokens[token].session, now); }
  }

  // ---- The database -------------------------------------------------------------------

  class Database {
    var t: Tables

    constructor ()
      ensures t == Tables(0, map[], map[], map[], {}, {})
    {
      t := Tables(0, map[], map[], map[], {}, {});
    }

    method RevokeSession(session: nat, now: int)
      modifies this
      ensures t == RevokedSession(old(t), session, now)
      ensures SessionEnds(old(t), t, session, now)
    {
      RevocationEnds(t, session, now);
      t := t.(sessions := map s | s in t.sessions ::
                if s == session then t.sessions[s].(revokedAt := Or(t.sessions[s].revokedAt, now)) else t.sessions[s]);
      t := t.(tokens := map k | k in t.tokens ::
                if t.tokens[k].session == session then t.tokens[k].(revokedAt := Or(t.tokens[k].revokedAt, now)) else t.tokens[k]);
    }

    method CreateDeviceGrant(principal: nat, expires: int) returns (token: nat)
      modifies this
      ensures t == Granted(old(t), principal, expires) && token == old(t).next + 1
      ensures t == old(t).(next := token + 1,
                           sessions := old(t).sessions[token - 1 := Session(principal, expires, None)],
                           tokens := old(t).tokens[token := Token(token - 1, expires, None, None, None)])
    {
      var session := t.next;
      token := t.next + 1;
      t := t.(next := t.next + 2);
      t := t.(sessions := t.sessions[session := Session(principal, expires, None)]);
      t := t.(tokens := t.tokens[token := Token(session, expires, None, None, None)]);
    }

    method RotateRefreshToken(token: nat, now: int) returns (outcome: Outcome)
      modifies this
      ensures (t, outcome) == Rotate(old(t), token, now)
      ensures Answered(old(t), t, token, now, outcome)
    {
      RotationAnswers(t, token, now);
      if token !in t.tokens || t.tokens[token].session !in t.sessions {
        return InvalidToken;
      }
      var row := t.tokens[token];
      var session := t.sessions[row.session];
      if row.consumedAt.Some? || row.revokedAt.Some? {
        RevokeSession(row.session, now);
        return Reused;
      }
      if session.revokedAt.Some? || session.principal in t.merged {
        return InvalidToken;
      }
      if row.expires <= now || session.expires <= now || (session.principal in t.expiry && t.expiry[session.principal] <= now) {
        RevokeSession(row.session, now);
        return ExpiredToken;
      }
      if session.principal in t.orphaned {
        return InvalidToken;
      }
      var issued := t.next;
      t := t.(next := t.next + 1, tokens := t.tokens[issued := Token(row.session, session.expires, None, None, None)]);
      t := t.(tokens := t.tokens[token := row.(consumedAt := Some(now), replacedBy := Some(issued))]);
      return Rotated(issued);
    }

    method RevokeDeviceSession(principal: nat, session: nat, now: int) returns (revoked: bool)
      modifies this
      ensures (t, revoked) == RevokedDevice(old(t), principal, session, now)
      ensures revoked <==>
        session in old(t).sessions && old(t).sessions[session].principal == principal && old(t).sessions[session].revokedAt == None
      ensures if revoked then SessionEnds(old(t), t, session, now) else t == old(t)
    {
      if session !in t.sessions || t.sessions[session].principal != principal || t.sessions[session].revokedAt.Some? {
        return false;
      }
      RevokeSession(session, now);
      return true;
    }
  }

  // ---- Runs ---------------------------------------------------------------------------

  datatype Action =
    | Grant(principal: nat, expires: int)
    | Present(token: nat, now: int)
    | RevokeOne(principal: nat, session: nat, now: int)
    | RevokeAll(principal: nat, now: int)
    | Merge(principal: nat, now: int)
    | SetExpiry(principal: nat, expires: int)
    | Orphan(principal: nat)

  const EMPTY := Tables(0, map[], map[], map[], {}, {})

  function Step(t: Tables, a: Action): Tables {
    match a
    case Grant(principal, expires) => Granted(t, principal, expires)
    case Present(token, now) => Rotate(t, token, now).0
    case RevokeOne(principal, session, now) => RevokedDevice(t, principal, session, now).0
    case RevokeAll(principal, now) => RevokedPrincipal(t, principal, now)
    case Merge(principal, now) => RevokedPrincipal(t, principal, now).(merged := t.merged + {principal})
    case SetExpiry(principal, expires) => t.(expiry := t.expiry[principal := expires])
    case Orphan(principal) => t.(orphaned := t.orphaned + {principal})
  }

  function Run(t: Tables, actions: seq<Action>): Tables
    decreases |actions|
  {
    if actions == [] then t else Run(Step(t, actions[0]), actions[1..])
  }

  predicate TokenOk(t: Tables, k: nat) {
    k in t.tokens ==>
      var row := t.tokens[k];
      && k < t.next && row.session in t.sessions
      && (row.consumedAt.Some? <==> row.replacedBy.Some?)
      && (row.replacedBy.Some? ==> k < row.replacedBy.value && row.replacedBy.value in t.tokens && t.tokens[row.replacedBy.value].session == row.session)
      && (t.sessions[row.session].revokedAt.Some? ==> row.revokedAt.Some?)
  }

  ghost predicate TokensOk(t: Tables) { forall k :: k in t.tokens ==> TokenOk(t, k) }

  ghost predicate SessionsKnown(t: Tables) { forall s :: s in t.sessions ==> s < t.next }

  ghost predicate OneUnconsumed(t: Tables) {
    forall j, k | j in t.tokens && k in t.tokens && t.tokens[j].consumedAt.None? && t.tokens[k].consumedAt.None? ::
      t.tokens[j].session == t.tokens[k].session ==> j == k
  }

  ghost predicate ReplacedOnce(t: Tables) {
    forall j, k :: j in t.tokens && k in t.tokens && t.tokens[j].replacedBy.Some? && t.tokens[j].replacedBy == t.tokens[k].replacedBy ==> j == k
  }

  ghost predicate Inv(t: Tables) { TokensOk(t) && SessionsKnown(t) && OneUnconsumed(t) && ReplacedOnce(t) }

  /** The invariant does not look at merges, orphans and expiries of principals. */
  lemma SameRows(t: Tables, t': Tables)
    requires Inv(t) && t'.next == t.next && t'.sessions == t.sessions && t'.tokens == t.tokens
    ensures Inv(t')
  {
    forall k | k in t'.tokens ensures TokenOk(t', k) { assert TokenOk(t, k); }
  }

  /** Tables that differ only in what is revoked, tokens following their sessions. */
  ghost predicate OnlyRevoked(t: Tables, t': Tables) {
    && t'.next == t.next && t'.sessions.Keys == t.sessions.Keys && t'.tokens.Keys == t.tokens.Keys
    && (forall s :: s in t.sessions ==> t'.sessions[s].principal == t.sessions[s].principal && (t.sessions[s].revokedAt.Some? ==> t'.sessions[s].revokedAt.Some?))
    && (forall k :: k in t.tokens ==> t'.tokens[k] == t.tokens[k].(revokedAt := t'.tokens[k].revokedAt))
    && (forall k :: k in t.tokens && t.tokens[k].revokedAt.Some? ==> t'.tokens[k].revokedAt.Some?)
    && (forall k :: k in t.tokens && t.tokens[k].session in t.sessions && t'.sessions[t.tokens[k].session].revokedAt.Some? ==>
          t'.tokens[k].revokedAt.Some? || t.sessions[t.tokens[k].session].revokedAt.Some?)
  }

  lemma OnlyRevokedKeeps(t: Tables, t': Tables)
    requires Inv(t) && OnlyRevoked(t, t')
    ensures Inv(t')
  {
    forall k | k in t'.tokens ensures TokenOk(t', k) { assert TokenOk(t, k); }
  }

  lemma SessionOnlyRevokes(t: Tables, session: nat, now: int)
    ensures OnlyRevoked(t, RevokedSession(t, session, now))
  {
  }

  lemma PrincipalOnlyRevokes(t: Tables, principal: nat, now: int)
    ensures OnlyRevoked(t, RevokedPrincipal(t, principal, now))
  {
  }

  /** What a token has to meet to be rotated. */
  predicate Rotatable(t: Tables, token: nat) {
    && token in t.tokens && t.tokens[token].session in t.sessions
    && t.tokens[token].consumedAt.None? && t.sessions[t.tokens[token].session].revokedAt.None?
  }

  lemma RotationKeepsTokens(t: Tables, token: nat, now: int)
    requires TokensOk(t) && Rotatable(t, token)
    ensures TokensOk(RotatedTables(t, token, now))
  {
    var t' := RotatedTables(t, token, now);
    assert TokenOk(t, token);
    forall k | k in t'.tokens ensures TokenOk(t', k) { assert TokenOk(t, k); }
  }

  lemma RotationKeepsOneUnconsumed(t: Tables, token: nat, now: int)
    requires OneUnconsumed(t) && Rotatable(t, token)
    ensures OneUnconsumed(RotatedTables(t, token, now))
  {
    forall k | k in t.tokens && t.tokens[k].session == t.tokens[token].session && t.tokens[k].consumedAt.None? ensures k == token {}
  }

  lemma RotationKeepsReplacedOnce(t: Tables, token: nat, now: int)
    requires TokensOk(t) && ReplacedOnce(t) && Rotatable(t, token)
    ensures ReplacedOnce(RotatedTables(t, token, now))
  {
    forall k | k in t.tokens ensures t.tokens[k].replacedBy != Some(t.next) { assert TokenOk(t, k); }
  }

  lemma RotationKeeps(t: Tables, token: nat, now: int)
    requires Inv(t) && Rotatable(t, token)
    ensures Inv(RotatedTables(t, token, now))
  {
    RotationKeepsTokens(t, token, now);
    RotationKeepsOneUnconsumed(t, token, now);
    RotationKeepsReplacedOnce(t, token, now);
  }

  lemma GrantKeeps(t: Tables, principal: nat, expires: int)
    requires Inv(t)
    ensures Inv(Granted(t, principal, expires))
  {
    var t' := Granted(t, principal, expires);
    forall k | k in t'.tokens ensures TokenOk(t', k) { assert TokenOk(t, k); }
    forall k | k in t.tokens ensures t.tokens[k].session != t.next { assert TokenOk(t, k); }
  }

  /** Presenting a token rotates it, revokes its session, or changes nothing. */
  lemma RotateCases(t: Tables, token: nat, now: int)
    ensures
      var (t', outcome) := Rotate(t, token, now);
      if outcome.Rotated? then
        && token in t.tokens && t.tokens[token].session in t.sessions && t' == RotatedTables(t, token, now)
        && t.tokens[token].consumedAt.None? && t.sessions[t.tokens[token].session].revokedAt.None?
      else t' == t || (token in t.tokens && t' == RevokedSession(t, t.tokens[token].session, now))
  {
  }

  lemma PresentKeeps(t: Tables, token: nat, now: int)
    requires Inv(t)
    ensures Inv(Rotate(t, token, now).0)
  {
    var (t', outcome) := Rotate(t, token, now);
    RotateCases(t, token, now);
    if outcome.Rotated? {
      RotationKeeps(t, token, now);
    } else if token in t.tokens {
      RevokeSessionKeeps(t, t.tokens[token].session, now);
    }
  }

  lemma RevokeSessionKeeps(t: Tables, session: nat, now: int)
    requires Inv(t)
    ensures Inv(RevokedSession(t, session, now))
  {
    SessionOnlyRevokes(t, session, now);
    OnlyRevokedKeeps(t, RevokedSession(t, session, now));
  }

  lemma RevokePrincipalKeeps(t: Tables, principal: nat, now: int)
    requires Inv(t)
    ensures Inv(RevokedPrincipal(t, principal, now))
  {
    PrincipalOnlyRevokes(t, principal, now);
    OnlyRevokedKeeps(t, RevokedPrincipal(t, principal, now));
  }

  lemma StepKeeps(t: Tables, a: Action)
    requires Inv(t)
    ensures Inv(Step(t, a))
  {
    match a
    case Grant(principal, expires) => GrantKeeps(t, principal, expires);
    case Present(token, now) => PresentKeeps(t, token, now);
    case RevokeOne(principal, session, now) => RevokeOneKeeps(t, principal, session, now);
    case RevokeAll(principal, now) => RevokePrincipalKeeps(t, principal, now);
    case Merge(principal, now) => MergeKeeps(t, principal, now);
    case SetExpiry(principal, expires) => SameRows(t, Step(t, a));
    case Orphan(principal) => SameRows(t, Step(t, a));
  }

  lemma RevokeOneKeeps(t: Tables, principal: nat, session: nat, now: int)
    requires Inv(t)
    ensures Inv(RevokedDevice(t, principal, session, now).0)
  {
    RevokeSessionKeeps(t, session, now);
  }

  lemma MergeKeeps(t: Tables, principal: nat, now: int)
    requires Inv(t)
    ensures Inv(RevokedPrincipal(t, principal, now).(merged := t.merged + {principal}))
  {
    RevokePrincipalKeeps(t, principal, now);
    SameRows(RevokedPrincipal(t, principal, now), RevokedPrincipal(t, principal, now).(merged := t.merged + {principal}));
  }

  lemma {:induction false} RunKeeps(t: Tables, actions: seq<Action>)
    requires Inv(t)
    ensures Inv(Run(t, actions))
    decreases |actions|
  {
    if actions != [] {
      StepKeeps(t, actions[0]);
      RunKeeps(Step(t, actions[0]), actions[1..]);
    }
  }

  // ---- What every run guarantees ------------------------------------------------------

  predicate Usable(t: Tables, k: nat) { k in t.tokens && t.tokens[k].consumedAt.None? && t.tokens[k].revokedAt.None? }

  /** In every reachable state: a session has at most one usable token, and none when it is revoked. */
  lemma OneUsableToken(actions: seq<Action>)
    ensures
      var t := Run(EMPTY, actions);
      && (forall j, k :: Usable(t, j) && Usable(t, k) && t.tokens[j].session == t.tokens[k].session ==> j == k)
      && (forall k :: k in t.tokens && t.tokens[k].session in t.sessions && t.sessions[t.tokens[k].session].revokedAt.Some? ==> t.tokens[k].revokedAt.Some?)
      && (forall k :: k in t.tokens && t.tokens[k].consumedAt.Some? ==>
            && t.tokens[k].replacedBy.Some? && t.tokens[k].replacedBy.value in t.tokens
            && t.tokens[t.tokens[k].replacedBy.value].session == t.tokens[k].session)
  {
    RunKeeps(EMPTY, actions);
    var t := Run(EMPTY, actions);
    forall k | k in t.tokens ensures TokenOk(t, k) {}
  }

  /** Spent: the token, or its whole session, can never be rotated again. */
  predicate Spent(t: Tables, k: nat) { k in t.tokens && (t.tokens[k].consumedAt.Some? || t.tokens[k].revokedAt.Some?) }

  lemma StepKeepsSpent(t: Tables, a: Action, k: nat)
    requires k < t.next && Spent(t, k)
    ensures Spent(Step(t, a), k)
  {
  }

  lemma {:induction false} RunKeepsSpent(t: Tables, actions: seq<Action>, k: nat)
    requires Inv(t) && Spent(t, k)
    ensures Spent(Run(t, actions), k)
    decreases |actions|
  {
    if actions != [] {
      assert TokenOk(t, k);
      StepKeepsSpent(t, actions[0], k);
      StepKeeps(t, actions[0]);
      RunKeepsSpent(Step(t, actions[0]), actions[1..], k);
    }
  }

  /** Each token yields at most one successful rotation, however the run goes on. */
  lemma RotatesOnce(t: Tables, token: nat, now: int, actions: seq<Action>, later: int)
    requires Inv(t) && Rotate(t, token, now).1.Rotated?
    ensures !Rotate(Run(Step(t, Present(token, now)), actions), token, later).1.Rotated?
  {
    StepKeeps(t, Present(token, now));
    RunKeepsSpent(Step(t, Present(token, now)), actions, token);
  }

  predicate SessionRevoked(t: Tables, session: nat) { session in t.sessions && t.sessions[session].revokedAt.Some? }

  lemma StepKeepsRevoked(t: Tables, a: Action, session: nat)
    requires Inv(t) && SessionRevoked(t, session)
    ensures SessionRevoked(Step(t, a), session)
  {
  }

  lemma {:induction false} RunKeepsRevoked(t: Tables, actions: seq<Action>, session: nat)
    requires Inv(t) && SessionRevoked(t, session)
    ensures SessionRevoked(Run(t, actions), session)
    decreases |actions|
  {
    if actions != [] {
      StepKeepsRevoked(t, actions[0], session);
      StepKeeps(t, actions[0]);
      RunKeepsRevoked(Step(t, actions[0]), actions[1..], session);
    }
  }

  /** After any reuse of a spent token, no token of its session, whenever it was issued, is
      rotated again: a thief and the owner cannot both go on. */
  lemma ReuseEndsTheSession(t: Tables, token: nat, now: int, actions: seq<Action>, other: nat, later: int)
    requires Inv(t) && Rotate(t, token, now).1 == Reused
    ensures
      var end := Run(Step(t, Present(token, now)), actions);
      other in end.tokens && end.tokens[other].session == t.tokens[token].session ==> !Rotate(end, other, later).1.Rotated?
  {
    var session, next := t.tokens[token].session, Step(t, Present(token, now));
    assert SessionRevoked(next, session);
    StepKeeps(t, Present(token, now));
    RunKeepsRevoked(next, actions, session);
  }

  /** A granted token rotates for as long as neither it nor its principal has expired, and the token
      it is rotated into does so in turn. */
  lemma GrantRotates(t: Tables, principal: nat, expires: int, now: int)
    requires principal !in t.merged && principal !in t.orphaned
    requires now < expires && (principal in t.expiry ==> now < t.expiry[principal])
    ensures Rotate(Granted(t, principal, expires), t.next + 1, now).1.Rotated?
  {
  }

  lemma RotationRotates(t: Tables, token: nat, now: int, later: int)
    requires Inv(t) && Rotate(t, token, now).1.Rotated?
    requires
      var session := t.sessions[t.tokens[token].session];
      later < session.expires && (session.principal in t.expiry ==> later < t.expiry[session.principal])
    ensures
      var (t', outcome) := Rotate(t, token, now);
      Rotate(t', outcome.token, later).1.Rotated?
  {
    assert TokenOk(t, token);
  }

  /** Revoking or merging a principal ends every session of it, and no other. */
  lemma PrincipalEnds(t: Tables, principal: nat, now: int)
    ensures
      var t' := RevokedPrincipal(t, principal, now);
      && t'.sessions.Keys == t.sessions.Keys && t'.tokens.Keys == t.tokens.Keys
      && (forall s :: s in t.sessions ==> if t.sessions[s].principal == principal then t'.sessions[s].revokedAt.Some? else t'.sessions[s] == t.sessions[s])
      && (forall k :: k in t.tokens && t.tokens[k].session in t.sessions ==>
            if t.sessions[t.tokens[k].session].principal == principal then t'.tokens[k].revokedAt.Some? else t'.tokens[k] == t.tokens[k])
  {
  }
}
