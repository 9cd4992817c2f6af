/**
 * Rotating refresh tokens. Each database transaction is one atomic step; a
 * request in flight holds only what it read, so every interleaving of logins,
 * refreshes, reuse handling, logouts and revocations is a run of steps.
 */
module Sessions {
  import opened Common

  /** A refresh token row; `family` is the index of the session's first token. A swept row is gone from the table. */
  datatype Token = Token(
    user: string, family: nat, expiresAt: int, absoluteExpiresAt: int,
    isRevoked: bool, rotatedAt: Option<int>, swept: bool)

  datatype User = User(tokenVersion: nat, isActive: bool, isDeleted: bool)

  datatype Db = Db(tokens: seq<Token>, users: map<string, User>)

  /** How long a token lives unused, and how long a session lives at all. */
  datatype Lifetimes = Lifetimes(idle: int, absolute: int)

  /** What a signed access token carries. */
  datatype Access = Access(user: string, family: nat, tokenVersion: nat)

  datatype Error = InvalidToken | UserRefused | ReuseDetected

  // ---------------------------------------------------------------------------
  // Single transactions
  // ---------------------------------------------------------------------------

  predicate Matches(t: Token, user: Option<string>, family: Option<nat>) {
    && !t.swept && !t.isRevoked
    && (user.Some? ==> t.user == user.value)
    && (family.Some? ==> t.family == family.value)
  }

  /** Every unrevoked row of a user, of a family or of both is revoked. */
  function RevokedWhere(tokens: seq<Token>, user: Option<string>, family: Option<nat>): (r: seq<Token>)
    ensures |r| == |tokens|
  {
    seq(|tokens|, i requires 0 <= i < |tokens| =>
      if Matches(tokens[i], user, family) then tokens[i].(isRevoked := true) else tokens[i])
  }

  function Bumped(u: User): User { u.(tokenVersion := u.tokenVersion + 1) }

  /** A user's every live token is revoked and the token version moves on; both or neither. */
  function SignedOutEverywhere(db: Db, user: string): Db {
    if user !in db.users then db
    else Db(RevokedWhere(db.tokens, Some(user), None), db.users[user := Bumped(db.users[user])])
  }

  function EveryoneBumped(users: map<string, User>): map<string, User> {
    map u | u in users :: Bumped(users[u])
  }

  function AllSessionsRevoked(db: Db, scope: Option<string>): Db {
    if scope.None? then Db(RevokedWhere(db.tokens, None, None), EveryoneBumped(db.users))
    else if scope.value in db.users then SignedOutEverywhere(db, scope.value)
    else Db(RevokedWhere(db.tokens, scope, None), db.users)
  }

  function Issued(user: string, family: nat, absoluteExpiresAt: int, now: int, life: Lifetimes): Token {
    Token(user, family, Min(now + life.idle, absoluteExpiresAt), absoluteExpiresAt, false, None, false)
  }

  function LoggedIn(db: Db, user: string, now: int, life: Lifetimes): Db {
    db.(tokens := db.tokens + [Issued(user, |db.tokens|, now + life.absolute, now, life)])
  }

  /** Whether the row can still be consumed. */
  predicate Consumable(tokens: seq<Token>, id: nat) {
    id < |tokens| && !tokens[id].swept && !tokens[id].isRevoked && tokens[id].rotatedAt.None?
  }

  /** The conditional consume and the successor, in one transaction; nothing when the row no longer qualifies. */
  function Consumed(db: Db, id: nat, snapshot: Token, now: int, life: Lifetimes): Option<Db> {
    if !Consumable(db.tokens, id) then None
    else Some(db.(tokens := db.tokens[id := db.tokens[id].(isRevoked := true, rotatedAt := Some(now))]
                            + [Issued(snapshot.user, snapshot.family, snapshot.absoluteExpiresAt, now, life)]))
  }

  predicate IsLive(t: Token, now: int) {
    !t.swept && !t.isRevoked && t.expiresAt > now && t.absoluteExpiresAt > now
  }

  predicate IsSessionActive(db: Db, user: string, family: nat, now: int) {
    exists i | 0 <= i < |db.tokens| :: db.tokens[i].user == user && db.tokens[i].family == family && IsLive(db.tokens[i], now)
  }

  /** Whether an access token is accepted. */
  predicate Validate(db: Db, a: Access, now: int) {
    && a.user in db.users
    && !db.users[a.user].isDeleted
    && db.users[a.user].tokenVersion == a.tokenVersion
    && db.users[a.user].isActive
    && IsSessionActive(db, a.user, a.family, now)
  }

  /** What the first read of a refresh decides. */
  datatype Presentation = Refused | Reuse(user: string) | Candidate(snapshot: Token)

  function Presented(db: Db, id: nat, now: int): Presentation {
    if id >= |db.tokens| || db.tokens[id].swept then Refused else
    var t := db.tokens[id];
    if t.rotatedAt.Some? then Reuse(t.user)
    else if t.isRevoked || t.expiresAt <= now || t.absoluteExpiresAt <= now then Refused
    else Candidate(t)
  }

  predicate MayRefresh(db: Db, user: string) {
    user in db.users && !db.users[user].isDeleted && db.users[user].isActive
  }

  /** A refresh that nothing interrupts. */
  function Refreshed(db: Db, id: nat, now: int, life: Lifetimes): (Db, Result<Access, Error>) {
    match Presented(db, id, now)
    case Refused => (db, Err(InvalidToken))
    case Reuse(user) => (SignedOutEverywhere(db, user), Err(ReuseDetected))
    case Candidate(snapshot) =>
      if !MayRefresh(db, snapshot.user) then (db, Err(UserRefused)) else
      match Consumed(db, id, snapshot, now, life)
      case None => (SignedOutEverywhere(db, snapshot.user), Err(ReuseDetected))
      case Some(after) => (after, Ok(Access(snapshot.user, snapshot.family, db.users[snapshot.user].tokenVersion)))
  }

  class AuthService {
    var tokens: seq<Token>
    var users: map<string, User>
    const life: Lifetimes

    ghost function Rows(): Db
      reads this
    {
      Db(tokens, users)
    }

    constructor (users: map<string, User>, life: Lifetimes)
      ensures Rows() == Db([], users) && this.life == life
    {
      tokens, this.users, this.life := [], users, life;
    }

    /** Revokes row by row what the two filters match. */
    method RevokeWhere(user: Option<string>, family: Option<nat>)
      modifies this`tokens
      ensures tokens == RevokedWhere(old(tokens), user, family)
    {
      var before := tokens;
      for i := 0 to |before|
        invariant |tokens| == |before| && tokens[i..] == before[i..]
        invariant forall k | 0 <= k < i :: tokens[k] == RevokedWhere(before, user, family)[k]
      {
        if Matches(before[i], user, family) {
          tokens := tokens[i := before[i].(isRevoked := true)];
        }
      }
    }

    method OnTokenReuse(user: string)
      modifies this
      ensures Rows() == SignedOutEverywhere(old(Rows()), user)
    {
      if user in users {
        RevokeWhere(Some(user), None);
        users := users[user := Bumped(users[user])];
      }
    }

    method Login(user: string, now: int) returns (a: Option<Access>)
      modifies this
      ensures Rows() == LoggedIn(old(Rows()), user, now, life)
      ensures a == if user in old(users) then Some(Access(user, |old(tokens)|, old(users)[user].tokenVersion)) else None
    {
      var family := |tokens|;
      tokens := tokens + [Issued(user, family, now + life.absolute, now, life)];
      return if user in users then Some(Access(user, family, users[user].tokenVersion)) else None;
    }

    method Refresh(id: nat, now: int) returns (r: Result<Access, Error>)
      modifies this
      ensures (Rows(), r) == Refreshed(old(Rows()), id, now, life)
    {
      if id >= |tokens| || tokens[id].swept {
        return Err(InvalidToken);
      }
      var session := tokens[id];
      if session.rotatedAt.Some? {
        OnTokenReuse(session.user);
        return Err(ReuseDetected);
      }
      if session.isRevoked || session.expiresAt <= now || session.absoluteExpiresAt <= now {
        return Err(InvalidToken);
      }
      if !MayRefresh(Db(tokens, users), session.user) {
        return Err(UserRefused);
      }
      tokens := tokens[id := session.(isRevoked := true, rotatedAt := Some(now))];
      tokens := tokens + [Issued(session.user, session.family, session.absoluteExpiresAt, now, life)];
      return Ok(Access(session.user, session.family, users[session.user].tokenVersion));
    }

    method Logout(user: string, family: nat)
      modifies this`tokens
      ensures Rows() == old(Rows()).(tokens := RevokedWhere(old(tokens), Some(user), Some(family)))
    {
      RevokeWhere(Some(user), Some(family));
    }

    /** Revokes the session of a token of this user; another user's token is left alone. */
    method RevokeSession(id: nat, user: string)
      modifies this`tokens
      ensures Rows() == SessionRevoked(old(Rows()), id, user)
    {
      if id < |tokens| && !tokens[id].swept && tokens[id].user == user {
        RevokeWhere(Some(user), Some(tokens[id].family));
      }
    }
  }

  function SessionRevoked(db: Db, id: nat, user: string): Db {
    if id < |db.tokens| && !db.tokens[id].swept && db.tokens[id].user == user
    then db.(tokens := RevokedWhere(db.tokens, Some(user), Some(db.tokens[id].family)))
    else db
  }

  // ---------------------------------------------------------------------------
  // Requests in flight
  // ---------------------------------------------------------------------------

  /** What a request holds between its transactions. */
  datatype Pending =
    | LoggingIn(user: string, tokenVersion: nat)
    | Read(id: nat, snapshot: Token, at: int)
    | Cleared(id: nat, snapshot: Token, tokenVersion: nat, at: int)
    | HandlingReuse(user: string)
    | Finished

  /** The tables, the access tokens signed so far and the requests in flight. */
  datatype System = System(db: Db, signed: seq<Access>, requests: seq<Pending>)

  datatype Step =
    | StartLogin(user: string)
    | FinishLogin(request: nat, now: int)
    | Present(id: nat, now: int)
    | ReadUser(request: nat)
    | Commit(request: nat)
    | HandleReuse(request: nat)
    | LogOut(user: string, family: nat)
    | RevokeOne(id: nat, user: string)
    | RevokeAll(scope: Option<string>)
    | ResetPassword(user: string)
    | SetUser(user: string, isActive: bool, isDeleted: bool)
    | Sweep(rows: set<nat>, before: int)

  predicate Holds(s: System, request: nat) { request < |s.requests| }

  function Settle(s: System, request: nat, p: Pending): System
    requires Holds(s, request)
  {
    s.(requests := s.requests[request := p])
  }

  function Swept(tokens: seq<Token>, rows: set<nat>, before: int): (r: seq<Token>)
    ensures |r| == |tokens|
  {
    seq(|tokens|, i requires 0 <= i < |tokens| =>
      if i in rows && tokens[i].expiresAt < before then tokens[i].(swept := true) else tokens[i])
  }

  function Next(s: System, life: Lifetimes, step: Step): System {
    match step
    case StartLogin(user) =>
      if user in s.db.users then s.(requests := s.requests + [LoggingIn(user, s.db.users[user].tokenVersion)]) else s
    case FinishLogin(r, now) =>
      if !Holds(s, r) || !s.requests[r].LoggingIn? then s else
      var p := s.requests[r];
      Settle(s, r, Finished).(db := LoggedIn(s.db, p.user, now, life),
                              signed := s.signed + [Access(p.user, |s.db.tokens|, p.tokenVersion)])
    case Present(id, now) =>
      var p := Presented(s.db, id, now);
      if p.Refused? then s
      else if p.Reuse? then s.(requests := s.requests + [HandlingReuse(p.user)])
      else s.(requests := s.requests + [Read(id, p.snapshot, now)])
    case ReadUser(r) =>
      if !Holds(s, r) || !s.requests[r].Read? then s else
      var p := s.requests[r];
      if MayRefresh(s.db, p.snapshot.user)
      then Settle(s, r, Cleared(p.id, p.snapshot, s.db.users[p.snapshot.user].tokenVersion, p.at))
      else Settle(s, r, Finished)
    case Commit(r) =>
      if !Holds(s, r) || !s.requests[r].Cleared? then s else
      var p := s.requests[r];
      (match Consumed(s.db, p.id, p.snapshot, p.at, life)
       case None => Settle(s, r, HandlingReuse(p.snapshot.user))
       case Some(db) =>
         Settle(s, r, Finished).(db := db, signed := s.signed + [Access(p.snapshot.user, p.snapshot.family, p.tokenVersion)]))
    case HandleReuse(r) =>
      if !Holds(s, r) || !s.requests[r].HandlingReuse? then s
      else Settle(s, r, Finished).(db := SignedOutEverywhere(s.db, s.requests[r].user))
    case LogOut(user, family) => s.(db := s.db.(tokens := RevokedWhere(s.db.tokens, Some(user), Some(family))))
    case RevokeOne(id, user) => s.(db := SessionRevoked(s.db, id, user))
    case RevokeAll(scope) => s.(db := AllSessionsRevoked(s.db, scope))
    case ResetPassword(user) => s.(db := SignedOutEverywhere(s.db, user))
    case SetUser(user, isActive, isDeleted) =>
      if user in s.db.users
      then s.(db := s.db.(users := s.db.users[user := User(s.db.users[user].tokenVersion + 1, isActive, isDeleted)]))
      else s
    case Sweep(rows, before) => s.(db := s.db.(tokens := Swept(s.db.tokens, rows, before)))
  }

  function Run(s: System, life: Lifetimes, steps: seq<Step>): System {
    if steps == [] then s else Next(Run(s, life, steps[..|steps| - 1]), life, steps[|steps| - 1])
  }

  // ---------------------------------------------------------------------------
  // What every interleaving keeps
  // ---------------------------------------------------------------------------

  /** Rows of one family share their user and their absolute expiry, and only one of them is unrevoked. */
  ghost predicate OnePerFamily(tokens: seq<Token>) {
    forall i, j | 0 <= i < j < |tokens| && tokens[i].family == tokens[j].family ::
      && tokens[i].user == tokens[j].user
      && tokens[i].absoluteExpiresAt == tokens[j].absoluteExpiresAt
      && (tokens[i].isRevoked || tokens[j].isRevoked)
  }

  ghost predicate GoodRows(tokens: seq<Token>) {
    && OnePerFamily(tokens)
    && forall i | 0 <= i < |tokens| ::
         && tokens[i].family <= i && tokens[tokens[i].family].family == tokens[i].family
         && (tokens[i].rotatedAt.Some? ==> tokens[i].isRevoked)
         && tokens[i].expiresAt <= tokens[i].absoluteExpiresAt
  }

  /** What a request remembers of a row are columns that never change, and a version no newer than the user's. */
  ghost predicate Remembers(db: Db, p: Pending) {
    match p
    case LoggingIn(user, version) => user in db.users && version <= db.users[user].tokenVersion
    case Read(id, t, _) => SameSession(db, id, t)
    case Cleared(id, t, version, _) => SameSession(db, id, t) && t.user in db.users && version <= db.users[t.user].tokenVersion
    case HandlingReuse(_) => true
    case Finished => true
  }

  ghost predicate SameSession(db: Db, id: nat, t: Token) {
    && id < |db.tokens| && db.tokens[id].family == t.family && db.tokens[id].user == t.user
    && db.tokens[id].absoluteExpiresAt == t.absoluteExpiresAt
  }

  ghost predicate Good(s: System) {
    && GoodRows(s.db.tokens)
    && (forall i | 0 <= i < |s.requests| :: Remembers(s.db, s.requests[i]))
    && (forall i | 0 <= i < |s.signed| :: IsKnown(s.db, s.signed[i]))
  }

  /** A signed token names a row that exists and a version its user has reached. */
  ghost predicate IsKnown(db: Db, a: Access) {
    a.family < |db.tokens| && a.user in db.users && a.tokenVersion <= db.users[a.user].tokenVersion
  }

  /** What later states can have changed of earlier rows and users: revoked, rotated or swept never goes back. */
  ghost predicate Later(a: Db, b: Db) {
    && |a.tokens| <= |b.tokens|
    && (forall i | 0 <= i < |a.tokens| ::
          && b.tokens[i].user == a.tokens[i].user && b.tokens[i].family == a.tokens[i].family
          && b.tokens[i].expiresAt == a.tokens[i].expiresAt && b.tokens[i].absoluteExpiresAt == a.tokens[i].absoluteExpiresAt
          && (a.tokens[i].isRevoked ==> b.tokens[i].isRevoked)
          && (a.tokens[i].rotatedAt.Some? ==> b.tokens[i].rotatedAt == a.tokens[i].rotatedAt)
          && (a.tokens[i].swept ==> b.tokens[i].swept))
    && (forall i | |a.tokens| <= i < |b.tokens| :: b.tokens[i].family < |a.tokens| ==> HasLive(a.tokens, b.tokens[i].family))
    && (forall u | u in a.users :: u in b.users && a.users[u].tokenVersion <= b.users[u].tokenVersion)
  }

  /** Some row of the family can still be consumed. */
  ghost predicate HasLive(tokens: seq<Token>, family: nat) {
    exists i :: 0 <= i < |tokens| && tokens[i].family == family && !tokens[i].isRevoked && !tokens[i].swept
  }

  lemma {:induction false} RevokingKeepsRows(tokens: seq<Token>, user: Option<string>, family: Option<nat>)
    requires GoodRows(tokens)
    ensures GoodRows(RevokedWhere(tokens, user, family))
  {}

  lemma {:induction false} SweepingKeepsRows(tokens: seq<Token>, rows: set<nat>, before: int)
    requires GoodRows(tokens)
    ensures GoodRows(Swept(tokens, rows, before))
  {}

  lemma {:induction false} LoginKeepsRows(db: Db, user: string, now: int, life: Lifetimes)
    requires GoodRows(db.tokens)
    ensures GoodRows(LoggedIn(db, user, now, life).tokens)
  {}

  /** Consuming frees the family's one place and the successor takes it. */
  lemma {:induction false} ConsumingKeepsRows(db: Db, id: nat, snapshot: Token, now: int, life: Lifetimes)
    requires GoodRows(db.tokens) && SameSession(db, id, snapshot) && Consumed(db, id, snapshot, now, life).Some?
    ensures GoodRows(Consumed(db, id, snapshot, now, life).value.tokens)
  {
    var after := Consumed(db, id, snapshot, now, life).value.tokens;
    assert forall i | 0 <= i < |db.tokens| && i != id && db.tokens[i].family == snapshot.family :: db.tokens[i].isRevoked;
  }

  // ---------------------------------------------------------------------------
  // One step
  // ---------------------------------------------------------------------------

  lemma {:induction false} ConsumingIsLater(db: Db, id: nat, snapshot: Token, now: int, life: Lifetimes)
    requires GoodRows(db.tokens) && SameSession(db, id, snapshot) && Consumed(db, id, snapshot, now, life).Some?
    ensures Later(db, Consumed(db, id, snapshot, now, life).value)
  {
    assert db.tokens[id].family == snapshot.family && !db.tokens[id].isRevoked && !db.tokens[id].swept;
  }

  lemma {:induction false} RemembersLater(a: Db, b: Db, p: Pending)
    requires Remembers(a, p) && Later(a, b)
    ensures Remembers(b, p)
  {
    hide HasLive;
  }

  lemma {:induction false} KnownLater(a: Db, b: Db, signed: Access)
    requires IsKnown(a, signed) && Later(a, b)
    ensures IsKnown(b, signed)
  {
    hide HasLive;
  }

  /** The tables after any step: rows stay good, and nothing is taken back. */
  lemma {:induction false} StepKeepsRows(s: System, life: Lifetimes, step: Step)
    requires Good(s)
    ensures GoodRows(Next(s, life, step).db.tokens) && Later(s.db, Next(s, life, step).db)
  {
    hide GoodRows, HasLive;
    var t := Next(s, life, step);
    match step
    case FinishLogin(r, now) =>
      if Holds(s, r) && s.requests[r].LoggingIn? {
        LoginKeepsRows(s.db, s.requests[r].user, now, life);
      }
    case Commit(r) =>
      if Holds(s, r) && s.requests[r].Cleared? {
        var p := s.requests[r];
        if Consumed(s.db, p.id, p.snapshot, p.at, life).Some? {
          ConsumingKeepsRows(s.db, p.id, p.snapshot, p.at, life);
          ConsumingIsLater(s.db, p.id, p.snapshot, p.at, life);
        }
      }
    case HandleReuse(r) =>
      if Holds(s, r) && s.requests[r].HandlingReuse? {
        RevokingKeepsRows(s.db.tokens, Some(s.requests[r].user), None);
      }
    case LogOut(user, family) => RevokingKeepsRows(s.db.tokens, Some(user), Some(family));
    case RevokeOne(id, user) =>
      if id < |s.db.tokens| {
        RevokingKeepsRows(s.db.tokens, Some(user), Some(s.db.tokens[id].family));
      }
    case RevokeAll(scope) => RevokingKeepsRows(s.db.tokens, scope, None);
    case ResetPassword(user) => RevokingKeepsRows(s.db.tokens, Some(user), None);
    case Sweep(rows, before) => SweepingKeepsRows(s.db.tokens, rows, before);
    case _ =>
  }

  /** Every step of every request keeps the protocol's invariant. */
  lemma {:induction false} StepKeepsGood(s: System, life: Lifetimes, step: Step)
    requires Good(s)
    ensures Good(Next(s, life, step)) && Later(s.db, Next(s, life, step).db)
  {
    hide GoodRows, Later, Remembers, IsKnown, RevokedWhere, Swept, SignedOutEverywhere, AllSessionsRevoked;
    hide SessionRevoked, LoggedIn, Consumed, Presented;
    StepKeepsRows(s, life, step);
    var t := Next(s, life, step);
    forall i | 0 <= i < |s.signed| ensures IsKnown(t.db, s.signed[i]) {
      KnownLater(s.db, t.db, s.signed[i]);
    }
    forall i | 0 <= i < |s.requests| ensures Remembers(t.db, s.requests[i]) {
      RemembersLater(s.db, t.db, s.requests[i]);
    }
    NewRequests(s, life, step);
  }

  /** What a step adds: requests that remember what they just read, access tokens of a row that exists. */
  lemma {:induction false} NewRequests(s: System, life: Lifetimes, step: Step)
    requires Good(s)
    ensures var t := Next(s, life, step);
      && (forall i | 0 <= i < |t.requests| ::
            (i < |s.requests| && t.requests[i] == s.requests[i]) || Remembers(t.db, t.requests[i]))
      && |s.signed| <= |t.signed| && t.signed[..|s.signed|] == s.signed
      && forall i | |s.signed| <= i < |t.signed| :: IsKnown(t.db, t.signed[i])
  {
    hide OnePerFamily, RevokedWhere, Swept, SignedOutEverywhere, AllSessionsRevoked, SessionRevoked;
  }

  // ---------------------------------------------------------------------------
  // Every interleaving
  // ---------------------------------------------------------------------------

  lemma {:induction false} LaterRefl(a: Db)
    ensures Later(a, a)
  {}

  /** Rows appended to a family that had none to consume would need one to consume: `HasLive` only ever goes away. */
  lemma {:induction false} LiveBefore(a: Db, b: Db, family: nat)
    requires Later(a, b) && HasLive(b.tokens, family) && family < |a.tokens|
    ensures HasLive(a.tokens, family)
  {
    var i :| 0 <= i < |b.tokens| && b.tokens[i].family == family && !b.tokens[i].isRevoked && !b.tokens[i].swept;
    if i < |a.tokens| {
      assert !a.tokens[i].isRevoked && !a.tokens[i].swept;
    }
  }

  lemma {:induction false} LaterTrans(a: Db, b: Db, c: Db)
    requires Later(a, b) && Later(b, c)
    ensures Later(a, c)
  {
    forall i | |a.tokens| <= i < |c.tokens| && c.tokens[i].family < |a.tokens| ensures HasLive(a.tokens, c.tokens[i].family) {
      if i >= |b.tokens| {
        LiveBefore(a, b, c.tokens[i].family);
      } else {
        assert b.tokens[i].family == c.tokens[i].family;
      }
    }
  }

  /** Where every run starts: users with any versions, no tokens, no request in flight. */
  lemma {:induction false} NoSessionsIsGood(users: map<string, User>)
    ensures Good(System(Db([], users), [], []))
  {}

  /**
   * Whatever the interleaving: at most one unrevoked token a family, rotated
   * means revoked, one absolute expiry a family that no token outlives, and
   * nothing revoked, rotated or swept ever comes back.
   */
  lemma {:induction false} EveryRunIsGood(s: System, life: Lifetimes, steps: seq<Step>)
    requires Good(s)
    ensures Good(Run(s, life, steps)) && Later(s.db, Run(s, life, steps).db)
  {
    hide Good, Next, Later;
    if steps == [] {
      LaterRefl(s.db);
    } else {
      var before := Run(s, life, steps[..|steps| - 1]);
      EveryRunIsGood(s, life, steps[..|steps| - 1]);
      StepKeepsGood(before, life, steps[|steps| - 1]);
      LaterTrans(s.db, before.db, Run(s, life, steps).db);
    }
  }

  /** A session whose tokens are all revoked or gone never has a live one again, and none of its access tokens is accepted. */
  lemma {:induction false} DeadFamilyStaysDead(s: System, life: Lifetimes, steps: seq<Step>, a: Access, now: int)
    requires Good(s) && a.family < |s.db.tokens| && !HasLive(s.db.tokens, a.family)
    ensures !HasLive(Run(s, life, steps).db.tokens, a.family)
    ensures !Validate(Run(s, life, steps).db, a, now)
  {
    hide Run, Good, Later;
    EveryRunIsGood(s, life, steps);
    var t := Run(s, life, steps);
    if HasLive(t.db.tokens, a.family) {
      LiveBefore(s.db, t.db, a.family);
    }
  }

  /** Signing out ends the session at once: no access token of it is accepted after. */
  lemma {:induction false} LogoutEndsSession(s: System, life: Lifetimes, user: string, steps: seq<Step>, a: Access, now: int)
    requires Good(s) && a.family < |s.db.tokens| && s.db.tokens[a.family].user == user
    ensures !Validate(Run(Next(s, life, LogOut(user, a.family)), life, steps).db, a, now)
  {
    hide Run, Later, Validate, Next;
    StepKeepsGood(s, life, LogOut(user, a.family));
    FamilyOfOneUser(s.db.tokens, a.family);
    LoggedOutIsDead(s, life, user, a.family);
    DeadFamilyStaysDead(Next(s, life, LogOut(user, a.family)), life, steps, a, now);
  }

  lemma {:induction false} FamilyOfOneUser(tokens: seq<Token>, family: nat)
    requires GoodRows(tokens) && family < |tokens|
    ensures forall i | 0 <= i < |tokens| && tokens[i].family == family :: tokens[i].user == tokens[family].user
  {}

  lemma {:induction false} LoggedOutIsDead(s: System, life: Lifetimes, user: string, family: nat)
    requires forall i | 0 <= i < |s.db.tokens| && s.db.tokens[i].family == family :: s.db.tokens[i].user == user
    ensures var t := Next(s, life, LogOut(user, family));
      |t.db.tokens| == |s.db.tokens| && !HasLive(t.db.tokens, family)
  {}

  /**
   * Once reuse handling commits, nothing the user held works, ever again: every
   * refresh token that exists then is dead in every later state, and no access
   * token is accepted that carries a version read before it, signed already or
   * still to be signed by a request in flight.
   */
  lemma {:induction false} ReuseEndsEverything(s: System, life: Lifetimes, request: nat, steps: seq<Step>, now: int)
    requires Good(s) && Holds(s, request) && s.requests[request].HandlingReuse? && s.requests[request].user in s.db.users
    ensures var user := s.requests[request].user;
      var t := Run(Next(s, life, HandleReuse(request)), life, steps);
      && |s.db.tokens| <= |t.db.tokens|
      && (forall i | 0 <= i < |s.db.tokens| && s.db.tokens[i].user == user :: !IsLive(t.db.tokens[i], now) && !Consumable(t.db.tokens, i))
      && (forall a: Access | a.user == user && a.tokenVersion <= s.db.users[user].tokenVersion :: !Validate(t.db, a, now))
  {
    hide Run, Good, IsSessionActive;
    var after := Next(s, life, HandleReuse(request));
    StepKeepsGood(s, life, HandleReuse(request));
    EveryRunIsGood(after, life, steps);
  }

  /** The same for a full revocation, of one user or of all. */
  lemma {:induction false} RevocationEndsEverything(
      s: System, life: Lifetimes, scope: Option<string>, steps: seq<Step>, user: string, now: int)
    requires Good(s) && user in s.db.users && (scope.Some? ==> scope.value == user)
    ensures var t := Run(Next(s, life, RevokeAll(scope)), life, steps);
      && |s.db.tokens| <= |t.db.tokens|
      && (forall i | 0 <= i < |s.db.tokens| && s.db.tokens[i].user == user :: !IsLive(t.db.tokens[i], now) && !Consumable(t.db.tokens, i))
      && (forall a: Access | a.user == user && a.tokenVersion <= s.db.users[user].tokenVersion :: !Validate(t.db, a, now))
  {
    hide Run, Good, IsSessionActive;
    var after := Next(s, life, RevokeAll(scope));
    StepKeepsGood(s, life, RevokeAll(scope));
    EveryRunIsGood(after, life, steps);
  }

  // ---------------------------------------------------------------------------
  // When a refresh is taken for reuse
  // ---------------------------------------------------------------------------

  /**
   * A cleared refresh is handled as reuse exactly when its row can no longer
   * be consumed at commit; otherwise it is answered with one successor.
   */
  lemma {:induction false} CommitDecides(s: System, life: Lifetimes, request: nat)
    requires Good(s) && Holds(s, request) && s.requests[request].Cleared?
    ensures var p, t := s.requests[request], Next(s, life, Commit(request));
      && (t.requests[request] == HandlingReuse(p.snapshot.user) <==> !Consumable(s.db.tokens, p.id))
      && (Consumable(s.db.tokens, p.id) ==>
            && |t.db.tokens| == |s.db.tokens| + 1
            && t.db.tokens[p.id].rotatedAt == Some(p.at) && t.db.tokens[p.id].isRevoked
            && var successor := t.db.tokens[|s.db.tokens|];
            && successor.family == s.db.tokens[p.id].family && successor.user == s.db.tokens[p.id].user
            && successor.absoluteExpiresAt == s.db.tokens[p.id].absoluteExpiresAt
            && successor.expiresAt == Min(p.at + life.idle, successor.absoluteExpiresAt)
            && Consumable(t.db.tokens, |s.db.tokens|))
      && (!Consumable(s.db.tokens, p.id) ==> t.db == s.db && t.signed == s.signed)
  {
    hide GoodRows;
  }

  /** Of two requests that present the same token, one gets a successor and the other is handled as reuse. */
  lemma {:induction false} OnlyOnePresenterWins(s: System, life: Lifetimes, first: nat, between: seq<Step>, second: nat)
    requires Good(s) && Holds(s, first) && s.requests[first].Cleared? && Consumable(s.db.tokens, s.requests[first].id)
    requires var t := Run(Next(s, life, Commit(first)), life, between);
      Holds(t, second) && t.requests[second].Cleared? && t.requests[second].id == s.requests[first].id
    ensures var t := Run(Next(s, life, Commit(first)), life, between);
      Next(t, life, Commit(second)).requests[second].HandlingReuse?
  {
    hide Run, Good, GoodRows;
    CommitDecides(s, life, first);
    var after := Next(s, life, Commit(first));
    StepKeepsGood(s, life, Commit(first));
    EveryRunIsGood(after, life, between);
    CommitDecides(Run(after, life, between), life, second);
  }

  /** The source's comment names tokens consumed by rotation; a logout that wins the race is enough to be handled as reuse. */
  lemma {:induction false} LogoutRaceIsHandledAsReuse()
    ensures exists s: System, life: Lifetimes, steps: seq<Step> ::
      && Good(s)
      && var t := Run(s, life, steps);
      && |t.db.tokens| == 1 && t.db.tokens[0].rotatedAt.None?
      && |t.requests| == 1 && t.requests[0].HandlingReuse?
  {
    var life := Lifetimes(10, 100);
    var user := User(0, true, false);
    var s := System(LoggedIn(Db([], map["u" := user]), "u", 0, life), [], []);
    var s1 := Next(s, life, Present(0, 1));
    var s2 := Next(s1, life, ReadUser(0));
    var s3 := Next(s2, life, LogOut("u", 0));
    var s4 := Next(s3, life, Commit(0));
    RunOfFour(s, life, Present(0, 1), ReadUser(0), LogOut("u", 0), Commit(0));
    assert s4.db.tokens[0].rotatedAt.None? && s4.requests[0].HandlingReuse?;
    assert Good(s);
  }

  lemma {:induction false} RunOfFour(s: System, life: Lifetimes, a: Step, b: Step, c: Step, d: Step)
    ensures Run(s, life, [a, b, c, d]) == Next(Next(Next(Next(s, life, a), life, b), life, c), life, d)
  {
    hide Next;
    assert [a, b, c, d][..3] == [a, b, c] && [a, b, c][..2] == [a, b] && [a, b][..1] == [a] && [a][..0] == [];
    assert Run(s, life, [a]) == Next(s, life, a);
    assert Run(s, life, [a, b]) == Next(Next(s, life, a), life, b);
    assert Run(s, life, [a, b, c]) == Next(Next(Next(s, life, a), life, b), life, c);
  }

  /** Uninterrupted, the protocol's steps are the refresh method. */
  lemma {:induction false} StepsAreRefresh(s: System, life: Lifetimes, id: nat, now: int)
    requires Presented(s.db, id, now).Candidate? && MayRefresh(s.db, s.db.tokens[id].user)
    ensures var n := |s.requests|;
      var t := Next(Next(Next(s, life, Present(id, now)), life, ReadUser(n)), life, Commit(n));
      && t.db == Refreshed(s.db, id, now, life).0
      && Refreshed(s.db, id, now, life).1.Ok?
      && t.signed == s.signed + [Refreshed(s.db, id, now, life).1.value]
      && t.requests == s.requests + [Finished]
  {
    var n := |s.requests|;
    var s1 := Next(s, life, Present(id, now));
    var s2 := Next(s1, life, ReadUser(n));
    assert s2.requests[n].Cleared?;
  }
}
