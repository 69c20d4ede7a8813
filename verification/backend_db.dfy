/**
 * backend/app/database.py: the service's three tables as values. Users are
 * kept in id order; a rate-limit row is keyed by its user id, which is how
 * the unique constraint on `rate_limits.user_id` is respected by
 * construction; usage logs are an append-only sequence.
 */
module BackendDb {
  import opened Wrappers
  import opened Json
  import opened Calendar

  /** `UserModel`. The email column is whatever JSON value the payment event carried. */
  datatype User = User(id: nat, token: string, email: Json, planTier: string,
                       createdAt: Instant, expiresAt: Option<Instant>, active: bool)

  /** `UsageLogModel`; `metadata_json` is always its default and is left out. */
  datatype UsageLog = UsageLog(userId: nat, feature: string, timestamp: Instant,
                               inputTokens: int, outputTokens: int, costCents: int)

  /** `RateLimitModel` without its key. */
  datatype RateLimit = RateLimit(requestCount: int, resetAt: Instant)

  datatype Db = Db(users: seq<User>, logs: seq<UsageLog>, limits: map<nat, RateLimit>)

  /** Positive ids in increasing order, and no token shared by two users (`unique=True`). */
  predicate ValidUsers(users: seq<User>) {
    && (forall i :: 0 <= i < |users| ==> users[i].id > 0)
    && (forall i, j :: 0 <= i < j < |users| ==> users[i].id < users[j].id)
    && (forall i, j :: 0 <= i < j < |users| ==> users[i].token != users[j].token)
  }

  predicate ValidDb(db: Db) {
    ValidUsers(db.users)
  }

  const EmptyDb: Db := Db([], [], map[])

  /** `db.query(UserModel).filter(UserModel.token == token).first()`. */
  function FindByToken(users: seq<User>, token: string): (r: Option<User>)
    ensures r.None? <==> forall i :: 0 <= i < |users| ==> users[i].token != token
    ensures r.Some? ==> r.value in users && r.value.token == token
    decreases |users|
  {
    if |users| == 0 then None
    else if users[0].token == token then Some(users[0])
    else FindByToken(users[1..], token)
  }

  /** The largest user id, 0 for no users. */
  function MaxUserId(users: seq<User>): (r: nat)
    ensures forall i :: 0 <= i < |users| ==> users[i].id <= r
    ensures |users| == 0 ==> r == 0
    ensures |users| > 0 ==> exists i :: 0 <= i < |users| && users[i].id == r
    decreases |users|
  {
    if |users| == 0 then 0
    else
      var rest := MaxUserId(users[1..]);
      if users[0].id > rest then users[0].id else rest
  }

  /** A new `UserModel(token=…, email=…, plan_tier=…, active=True)` with its column defaults. */
  function NewUser(id: nat, token: string, email: Json, tier: string, now: Instant): (u: User)
    ensures u.active && u.expiresAt.None? && u.createdAt == now
    ensures u.id == id && u.token == token && u.email == email && u.planTier == tier
  {
    User(id, token, email, tier, now, None, true)
  }

  /** Why `db.commit()` raised. */
  datatype DbError =
    | UnsupportedType // sqlite3 cannot bind a list or a dict
    | IntegrityError  // NOT NULL or UNIQUE violated

  /** Values the SQLite driver can bind as a column value. */
  predicate Bindable(j: Json) {
    !j.JArray? && !j.JObject?
  }

  predicate TokenTaken(users: seq<User>, token: string) {
    exists i :: 0 <= i < |users| && users[i].token == token
  }

  /** `db.add(UserModel(...)); db.commit()`: the row gets the next rowid, or the commit fails and nothing is stored. */
  function InsertUser(db: Db, token: string, email: Json, tier: string, now: Instant): (r: Result<Db, DbError>)
    ensures r == Err(UnsupportedType) <==> !Bindable(email)
    ensures r == Err(IntegrityError) <==> Bindable(email) && (email.JNull? || TokenTaken(db.users, token))
    ensures r.Ok? ==> && r.value.logs == db.logs && r.value.limits == db.limits
                      && |r.value.users| == |db.users| + 1 && r.value.users[..|db.users|] == db.users
                      && r.value.users[|db.users|] == NewUser(MaxUserId(db.users) + 1, token, email, tier, now)
  {
    if !Bindable(email) then Err(UnsupportedType)
    else if email.JNull? || TokenTaken(db.users, token) then Err(IntegrityError)
    else
      var users := db.users + [NewUser(MaxUserId(db.users) + 1, token, email, tier, now)];
      assert users[..|db.users|] == db.users;
      Ok(db.(users := users))
  }

  /** A successful insert keeps the table valid, and the token then finds the new user. */
  lemma InsertThenFind(db: Db, token: string, email: Json, tier: string, now: Instant)
    requires ValidDb(db)
    requires InsertUser(db, token, email, tier, now).Ok?
    ensures ValidDb(InsertUser(db, token, email, tier, now).value)
    ensures FindByToken(InsertUser(db, token, email, tier, now).value.users, token)
            == Some(NewUser(MaxUserId(db.users) + 1, token, email, tier, now))
  {
    var u := NewUser(MaxUserId(db.users) + 1, token, email, tier, now);
    var users := InsertUser(db, token, email, tier, now).value.users;
    assert users == db.users + [u];
    assert !TokenTaken(db.users, token);
    AppendValid(db.users, u);
    FindLast(db.users, u);
  }

  /** Appending a user with a fresh token and an id above every other keeps the table valid. */
  lemma AppendValid(users: seq<User>, u: User)
    requires ValidUsers(users)
    requires u.id > 0 && forall i :: 0 <= i < |users| ==> users[i].id < u.id
    requires forall i :: 0 <= i < |users| ==> users[i].token != u.token
    ensures ValidUsers(users + [u])
  {
    var us := users + [u];
    assert forall i :: 0 <= i < |users| ==> us[i] == users[i];
  }

  /** Looking up the token of a user appended after users with other tokens finds that user. */
  lemma {:induction false} FindLast(users: seq<User>, u: User)
    requires forall i :: 0 <= i < |users| ==> users[i].token != u.token
    ensures FindByToken(users + [u], u.token) == Some(u)
    decreases |users|
  {
    if |users| > 0 {
      assert (users + [u])[1..] == users[1..] + [u];
      FindLast(users[1..], u);
    }
  }

  /** `UsageLogModel(...)`: token counts not given default to 0, the timestamp to the insertion time. */
  function NewLog(userId: nat, feature: string, now: Instant, inputTokens: Option<int>,
                  outputTokens: Option<int>, costCents: int): (l: UsageLog)
    ensures l.timestamp == now && l.userId == userId && l.feature == feature && l.costCents == costCents
    ensures l.inputTokens == (if inputTokens.Some? then inputTokens.value else 0)
    ensures l.outputTokens == (if outputTokens.Some? then outputTokens.value else 0)
  {
    UsageLog(userId, feature, now, inputTokens.GetOr(0), outputTokens.GetOr(0), costCents)
  }
}
