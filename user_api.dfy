/**
 * The user API (routes/api/user.js): reading and updating the signed-in user's
 * profile, and granting, listing and revoking that user's consents to partners.
 * Every handler acts on the user of the session; the route's `:userId` is not
 * consulted.
 */
module UserApi {
  import opened Wrappers
  import opened Accounts

  /** The principal the login check puts on the request; `partnerId` is set when a partner application calls. */
  datatype Caller = Caller(id: UserId, partnerId: Option<PartnerId>)

  datatype ApiError = NotFound | ValidationError | UniqueViolation | StoreError(step: Step)

  /** The database after a handler, and what the handler responds with. */
  datatype ApiOutcome<T> = ApiOutcome(db: Db, result: Result<T, ApiError>)

  /** A JSON request body, as far as the handlers read it: keys to a string or null. */
  type Body = map<string, Option<string>>

  // ----- Profile -----

  const ProfileFields: set<string> := {"name", "company", "email", "language", "imageUrl"}

  /** The columns an update may write: the password only for the application itself, never for a partner. */
  function WritableFields(caller: Caller): (fields: set<string>)
    ensures "password" in fields <==> !Truthy(caller.partnerId)
    ensures fields - {"password"} == ProfileFields
  {
    if Truthy(caller.partnerId) then ProfileFields else ProfileFields + {"password"}
  }

  /** The string columns of a user row, by column name. */
  function Columns(u: User): map<string, Option<string>> {
    map[
      "name" := u.name, "company" := u.company, "email" := Some(u.email),
      "language" := u.language, "imageUrl" := u.imageUrl, "password" := u.password,
      "sourceId" := u.sourceId, "emailVerificationCode" := u.emailVerificationCode]
  }

  /** The value an update leaves in a nullable column. */
  function Column(body: Body, fields: set<string>, f: string, current: Option<string>): Option<string> {
    if f in fields && f in body then body[f] else current
  }

  /**
   * User.update restricted to `fields`: every listed column the body carries is
   * overwritten with the body's value, all other columns keep theirs. A null
   * e-mail is refused.
   */
  function ApplyUpdate(u: User, body: Body, fields: set<string>): (r: Result<User, ApiError>)
    requires fields <= ProfileFields + {"password"}
    ensures r.Failure? <==> "email" in fields && "email" in body && body["email"].None?
    ensures r.Failure? ==> r.error == ValidationError
    ensures r.Success? ==>
      && Columns(r.value).Keys == Columns(u).Keys
      && (forall f :: f in Columns(u) ==>
            Columns(r.value)[f] == if f in fields && f in body then body[f] else Columns(u)[f])
      && r.value.id == u.id && r.value.emailIsVerified == u.emailIsVerified && r.value.source == u.source
  {
    if "email" in fields && "email" in body && body["email"].None? then
      Failure(ValidationError)
    else
      var email := if "email" in fields && "email" in body then body["email"].value else u.email;
      var r := u.(
        name := Column(body, fields, "name", u.name),
        company := Column(body, fields, "company", u.company),
        email := email,
        language := Column(body, fields, "language", u.language),
        imageUrl := Column(body, fields, "imageUrl", u.imageUrl),
        password := Column(body, fields, "password", u.password));
      Success(r)
  }

  /** Whether a user other than `self` holds `email`: the unique index on the e-mail column. */
  predicate EmailHeldByOther(users: map<UserId, User>, self: UserId, email: string) {
    exists id :: id in users && id != self && users[id].email == email
  }

  /**
   * PUT /api/users/:userId: updates the caller's own row through the field
   * whitelist. A missing row, a null e-mail and an e-mail that another user
   * holds are errors that leave the store as it was.
   */
  function Update(db: Db, caller: Caller, routeUserId: UserId, body: Body, failAt: Option<Step>): (out: ApiOutcome<User>)
    requires db.Valid()
    ensures out.db.Valid()
    ensures out.result.Failure? ==> out.db == db
    ensures caller.id !in db.users && failAt != Some(UpdateUser) ==> out.result == Failure(NotFound)
    ensures out.result.Success? ==>
      && caller.id in db.users
      && out.result.value.id == caller.id
      && out.db == db.(users := db.users[caller.id := out.result.value])
    ensures out.result.Success? ==>
      ApplyUpdate(db.users[caller.id], body, WritableFields(caller)) == Success(out.result.value)
    ensures out.result.Success? <==>
      && failAt != Some(UpdateUser) && caller.id in db.users
      && var applied := ApplyUpdate(db.users[caller.id], body, WritableFields(caller));
      && applied.Success?
      && !EmailHeldByOther(db.users, caller.id, applied.value.email)
    ensures out.result == Failure(UniqueViolation) <==>
      && failAt != Some(UpdateUser) && caller.id in db.users
      && var applied := ApplyUpdate(db.users[caller.id], body, WritableFields(caller));
      && applied.Success?
      && EmailHeldByOther(db.users, caller.id, applied.value.email)
    ensures failAt == Some(UpdateUser) ==> out.result == Failure(StoreError(UpdateUser))
    ensures failAt != Some(UpdateUser) && caller.id in db.users
            && ApplyUpdate(db.users[caller.id], body, WritableFields(caller)).Failure? ==>
      out.result == Failure(ValidationError)
    ensures out.result.Success? && Truthy(caller.partnerId) ==>
      out.result.value.password == db.users[caller.id].password
    ensures out.result.Success? && (forall k :: k in body ==> k !in WritableFields(caller)) ==>
      out.result.value == db.users[caller.id]
  {
    if failAt == Some(UpdateUser) then
      ApiOutcome(db, Failure(StoreError(UpdateUser)))
    else if caller.id !in db.users then
      ApiOutcome(db, Failure(NotFound))
    else
      var current := db.users[caller.id];
      match ApplyUpdate(current, body, WritableFields(caller))
      case Failure(e) => ApiOutcome(db, Failure(e))
      case Success(u) =>
        if EmailHeldByOther(db.users, caller.id, u.email) then
          ApiOutcome(db, Failure(UniqueViolation))
        else
          ApiOutcome(db.(users := db.users[caller.id := u]), Success(u))
  }

  /** GET /api/users/:userId: the caller's own row, or not found. */
  function GetUser(db: Db, caller: Caller, routeUserId: UserId): (r: Result<User, ApiError>)
    requires db.Valid()
    ensures r.Success? <==> caller.id in db.users
    ensures r.Success? ==> r.value in db.users.Values && r.value.id == caller.id
    ensures r.Failure? ==> r.error == NotFound
  {
    if caller.id in db.users then Success(db.users[caller.id]) else Failure(NotFound)
  }

  /** Reading after a successful update returns the updated row, whatever the route says. */
  lemma GetAfterUpdate(db: Db, caller: Caller, routeUserId: UserId, body: Body, failAt: Option<Step>, readRoute: UserId)
    requires db.Valid()
    requires Update(db, caller, routeUserId, body, failAt).result.Success?
    ensures var out := Update(db, caller, routeUserId, body, failAt);
      GetUser(out.db, caller, readRoute) == Success(out.result.value)
  {
  }

  // ----- Consents -----

  /**
   * POST /api/users/:userId/consents: UserConsent.upsert inserts a fresh row or
   * touches the existing one, and only an insert writes a creation activity. The
   * two writes share one transaction.
   */
  function Grant(db: Db, caller: Caller, partnerId: PartnerId, now: int, context: string, failAt: Option<Step>): (out: ApiOutcome<bool>)
    ensures out.result.Failure? ==> out.db == db
    ensures var key := ConsentKey(caller.id, partnerId);
      out.result.Success? ==>
        && key in out.db.consents
        && out.result.value == (key !in db.consents)
        && out.db.consents.Keys == db.consents.Keys + {key}
        && (forall k :: k in db.consents && k != key ==> out.db.consents[k] == db.consents[k])
        && out.db.activities
           == db.activities + (if key in db.consents then [] else [Activity(Created, key, caller.id, context)])
    ensures var key := ConsentKey(caller.id, partnerId);
      out.result.Success? ==>
        out.db.consents[key] == if key in db.consents then db.consents[key].(updatedAt := now) else Consent(now, now, None)
    ensures out.result.Success? <==>
      failAt != Some(UpsertConsent) && (ConsentKey(caller.id, partnerId) in db.consents || failAt != Some(CreateActivity))
    ensures out.result.Failure? ==> failAt.Some? && out.result.error == StoreError(failAt.value)
    ensures out.db.users == db.users && out.db.connections == db.connections
    ensures out.db.sentVerifications == db.sentVerifications && out.db.nextUserId == db.nextUserId
  {
    var key := ConsentKey(caller.id, partnerId);
    if failAt == Some(UpsertConsent) then
      ApiOutcome(db, Failure(StoreError(UpsertConsent)))
    else if key in db.consents then
      ApiOutcome(db.(consents := db.consents[key := db.consents[key].(updatedAt := now)]), Success(false))
    else if failAt == Some(CreateActivity) then
      ApiOutcome(db, Failure(StoreError(CreateActivity)))
    else
      ApiOutcome(
        db.(consents := db.consents[key := Consent(now, now, None)],
            activities := db.activities + [Activity(Created, key, caller.id, context)]),
        Success(true))
  }

  /** Granting twice writes one creation activity in all, and the second grant inserts nothing. */
  lemma GrantTwiceLogsOnce(
    db: Db, caller: Caller, partnerId: PartnerId, now: int, now': int, context: string, context': string)
    requires ConsentKey(caller.id, partnerId) !in db.consents
    ensures var first := Grant(db, caller, partnerId, now, context, None);
      var second := Grant(first.db, caller, partnerId, now', context', None);
      && first.result == Success(true)
      && second.result == Success(false)
      && second.db.consents.Keys == first.db.consents.Keys
      && second.db.activities == db.activities + [Activity(Created, ConsentKey(caller.id, partnerId), caller.id, context)]
  {
  }

  datatype PartnerInfo = PartnerInfo(website: Option<string>, createdAt: int, updatedAt: int)

  /** The listing response: the partner row joined to each consent (null when no such partner), and their number. */
  datatype ConsentList = ConsentList(count: nat, rows: map<PartnerId, Option<PartnerInfo>>)

  /** The consents of `userId` that are not soft-deleted. */
  ghost function LiveConsents(consents: map<ConsentKey, Consent>, userId: UserId): set<ConsentKey> {
    set k | k in consents && k.userId == userId && consents[k].deletedAt.None?
  }

  /** GET /api/users/:userId/consents: the caller's consents that are not soft-deleted, left-joined with the partners. */
  function ListConsents(db: Db, partners: map<PartnerId, PartnerInfo>, caller: Caller): (r: ConsentList)
    ensures forall p :: p in r.rows <==>
      ConsentKey(caller.id, p) in db.consents && db.consents[ConsentKey(caller.id, p)].deletedAt.None?
    ensures forall p :: p in r.rows ==> r.rows[p] == (if p in partners then Some(partners[p]) else None)
    ensures r.count == |LiveConsents(db.consents, caller.id)|
  {
    var live := set k | k in db.consents && k.userId == caller.id && db.consents[k].deletedAt.None?;
    var ids := set k | k in live :: k.partnerId;
    var rows := map p | p in ids :: if p in partners then Some(partners[p]) else None;
    assert forall p :: p in ids <==> ConsentKey(caller.id, p) in live;
    PartnerIdsCount(live, caller.id);
    assert rows.Keys == ids;
    ConsentList(|rows|, rows)
  }

  /** The consents of one user are told apart by their partner ids. */
  lemma {:induction false} PartnerIdsCount(keys: set<ConsentKey>, userId: UserId)
    requires forall k :: k in keys ==> k.userId == userId
    ensures |set k | k in keys :: k.partnerId| == |keys|
    decreases keys
  {
    if keys != {} {
      var k :| k in keys;
      var rest := keys - {k};
      PartnerIdsCount(rest, userId);
      assert (set x | x in keys :: x.partnerId) == (set x | x in rest :: x.partnerId) + {k.partnerId};
      assert k.partnerId !in (set x | x in rest :: x.partnerId);
    }
  }

  /**
   * DELETE /api/users/:userId/consents/:partnerId: removes the row physically
   * (at most one), then always writes a deletion activity, whether or not a row
   * existed. `destroyJoinsTransaction` says whether the delete is rolled back
   * when the activity fails; the handler passes the transaction to the delete in
   * a way whose effect depends on the ORM, so the model leaves it open.
   */
  function Revoke(db: Db, caller: Caller, partnerId: PartnerId, context: string,
                  destroyJoinsTransaction: bool, failAt: Option<Step>): (out: ApiOutcome<()>)
    ensures var key := ConsentKey(caller.id, partnerId);
      && out.db.consents.Keys <= db.consents.Keys
      && db.consents.Keys - out.db.consents.Keys <= {key}
      && (forall k :: k in out.db.consents ==> out.db.consents[k] == db.consents[k])
      && (out.result.Success? ==> key !in out.db.consents)
    ensures out.result.Success? ==>
      out.db.activities == db.activities + [Activity(Deleted, ConsentKey(caller.id, partnerId), caller.id, context)]
    ensures out.result.Failure? ==> out.db.activities == db.activities
    ensures out.result.Failure? && (failAt == Some(DestroyConsent) || destroyJoinsTransaction) ==> out.db == db
    ensures out.result.Success? <==> failAt != Some(DestroyConsent) && failAt != Some(DeleteActivity)
    ensures out.result.Failure? ==> failAt.Some? && out.result.error == StoreError(failAt.value)
    ensures out.db.users == db.users && out.db.connections == db.connections
    ensures out.db.sentVerifications == db.sentVerifications && out.db.nextUserId == db.nextUserId
  {
    var key := ConsentKey(caller.id, partnerId);
    if failAt == Some(DestroyConsent) then
      ApiOutcome(db, Failure(StoreError(DestroyConsent)))
    else
      var destroyed := db.(consents := db.consents - {key});
      if failAt == Some(DeleteActivity) then
        ApiOutcome(if destroyJoinsTransaction then db else destroyed, Failure(StoreError(DeleteActivity)))
      else
        ApiOutcome(destroyed.(activities := db.activities + [Activity(Deleted, key, caller.id, context)]), Success(()))
  }

  /** A granted consent is listed, unless its row was already soft-deleted; a revoked one is not. */
  lemma GrantThenRevokeListing(
    db: Db, partners: map<PartnerId, PartnerInfo>, caller: Caller, partnerId: PartnerId, now: int,
    context: string, context': string, destroyJoinsTransaction: bool)
    requires var key := ConsentKey(caller.id, partnerId); key in db.consents ==> db.consents[key].deletedAt.None?
    ensures var granted := Grant(db, caller, partnerId, now, context, None);
      var revoked := Revoke(granted.db, caller, partnerId, context', destroyJoinsTransaction, None);
      && partnerId in ListConsents(granted.db, partners, caller).rows
      && partnerId !in ListConsents(revoked.db, partners, caller).rows
  {
    var key := ConsentKey(caller.id, partnerId);
    var granted := Grant(db, caller, partnerId, now, context, None);
    assert key in granted.db.consents && granted.db.consents[key].deletedAt.None?;
    var revoked := Revoke(granted.db, caller, partnerId, context', destroyJoinsTransaction, None);
    assert key !in revoked.db.consents;
  }

  // ----- The handlers as steps over the store -----

  method PutUser(store: Store, caller: Caller, routeUserId: UserId, body: Body, failAt: Option<Step>)
    returns (result: Result<User, ApiError>)
    requires store.Valid()
    modifies store
    ensures store.Valid()
    ensures var out := Update(old(store.View()), caller, routeUserId, body, failAt);
      store.View() == out.db && result == out.result
  {
    if failAt == Some(UpdateUser) {
      return Failure(StoreError(UpdateUser));
    }
    if caller.id !in store.users {
      return Failure(NotFound);
    }
    var updated := ApplyUpdate(store.users[caller.id], body, WritableFields(caller));
    if updated.Failure? {
      return Failure(updated.error);
    }
    var u := updated.value;
    if exists id :: id in store.users && id != caller.id && store.users[id].email == u.email {
      return Failure(UniqueViolation);
    }
    store.users := store.users[caller.id := u];
    return Success(u);
  }

  method PostConsent(store: Store, caller: Caller, partnerId: PartnerId, now: int, context: string, failAt: Option<Step>)
    returns (result: Result<bool, ApiError>)
    requires store.Valid()
    modifies store
    ensures store.Valid()
    ensures var out := Grant(old(store.View()), caller, partnerId, now, context, failAt);
      store.View() == out.db && result == out.result
  {
    var key := ConsentKey(caller.id, partnerId);
    if failAt == Some(UpsertConsent) {
      return Failure(StoreError(UpsertConsent));
    }
    // db.transaction: the upsert is staged until the activity is written.
    var created := key !in store.consents;
    var consents := if created then store.consents[key := Consent(now, now, None)]
                    else store.consents[key := store.consents[key].(updatedAt := now)];
    if created {
      if failAt == Some(CreateActivity) {
        return Failure(StoreError(CreateActivity));
      }
      store.activities := store.activities + [Activity(Created, key, caller.id, context)];
    }
    store.consents := consents;
    return Success(created);
  }

  method DeleteConsent(store: Store, caller: Caller, partnerId: PartnerId, context: string,
                       destroyJoinsTransaction: bool, failAt: Option<Step>)
    returns (result: Result<(), ApiError>)
    requires store.Valid()
    modifies store
    ensures store.Valid()
    ensures var out := Revoke(old(store.View()), caller, partnerId, context, destroyJoinsTransaction, failAt);
      store.View() == out.db && result == out.result
  {
    var key := ConsentKey(caller.id, partnerId);
    if failAt == Some(DestroyConsent) {
      return Failure(StoreError(DestroyConsent));
    }
    var before := store.consents;
    store.consents := store.consents - {key};
    if failAt == Some(DeleteActivity) {
      if destroyJoinsTransaction {
        store.consents := before;
      }
      return Failure(StoreError(DeleteActivity));
    }
    store.activities := store.activities + [Activity(Deleted, key, caller.id, context)];
    return Success(());
  }
}
