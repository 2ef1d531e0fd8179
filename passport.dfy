/**
 * Sign-in (libs/passport/index.js): the Google and Facebook verify callbacks,
 * which normalise the provider's profile and then resolve it to a local user
 * with one shared algorithm, the local e-mail/password check, and the session
 * serialisation of a signed-in user.
 */
module Passport {
  import opened Wrappers
  import opened Accounts

  /** A provider profile reduced to what resolution needs. */
  datatype Identity = Identity(sourceId: string, email: string, name: string, imageUrl: Option<string>)

  datatype AuthError = ProviderDataError | StoreError(step: Step)

  /** The resolved user and whether resolution created its row. */
  datatype Resolved = Resolved(user: User, created: bool)

  /** The database after a callback, and what the callback hands to `done`. */
  datatype Outcome<T> = Outcome(db: Db, result: Result<T, AuthError>)

  // ----- Profile normalisation -----

  /** `s.split(c)[0]`: the part of `s` before its first `c`, or all of `s` when there is none. */
  function PrefixBefore(s: string, c: char): (r: string)
    ensures r <= s
    ensures c !in r
    ensures |r| < |s| ==> s[|r|] == c
  {
    if s == [] || s[0] == c then [] else [s[0]] + PrefixBefore(s[1..], c)
  }

  /** `profile.displayName || util.emailToDisplayName(email)`. */
  function DisplayName(displayName: Option<string>, email: string, emailToDisplayName: string -> string): string {
    if Truthy(displayName) then displayName.value else emailToDisplayName(email)
  }

  /** The Google profile: the photo URL loses its query string. */
  function NormalizeGoogle(p: GoogleProfile, emailToDisplayName: string -> string): (ident: Identity)
    ensures ident.sourceId == p.id && ident.email == p.email
    ensures Truthy(p.displayName) ==> ident.name == p.displayName.value
    ensures !Truthy(p.displayName) ==> ident.name == emailToDisplayName(p.email)
    ensures ident.imageUrl.None? <==> p.photos == []
    ensures ident.imageUrl.Some? ==>
      var url := ident.imageUrl.value;
      && url <= p.photos[0].value
      && '?' !in url
      && (|url| < |p.photos[0].value| ==> p.photos[0].value[|url|] == '?')
  {
    Identity(
      p.id, p.email, DisplayName(p.displayName, p.email, emailToDisplayName),
      if p.photos == [] then None else Some(PrefixBefore(p.photos[0].value, '?')))
  }

  const FacebookPicturePrefix := "https://graph.facebook.com/"
  const FacebookPictureSuffix := "/picture?type=large"

  /**
   * The picture URL template `https://graph.facebook.com/:id/picture?type=large`
   * with its one `:id` placeholder replaced by the profile id.
   */
  function FacebookImageUrl(sourceId: string): string {
    FacebookPicturePrefix + sourceId + FacebookPictureSuffix
  }

  /** The Facebook profile: refused when it carries no e-mail address. */
  function NormalizeFacebook(p: FacebookProfile, emailToDisplayName: string -> string): (r: Result<Identity, AuthError>)
    ensures r.Failure? <==> p.emails.None? || p.emails.value == []
    ensures r.Failure? ==> r.error == ProviderDataError
    ensures r.Success? ==>
      var email := p.emails.value[0].value;
      && r.value.sourceId == p.id
      && r.value.email == email
      && (Truthy(p.displayName) ==> r.value.name == p.displayName.value)
      && (!Truthy(p.displayName) ==> r.value.name == emailToDisplayName(email))
      && r.value.imageUrl == Some(FacebookImageUrl(p.id))
  {
    if p.emails.None? || p.emails.value == [] then
      Failure(ProviderDataError)
    else
      var email := p.emails.value[0].value;
      Success(Identity(p.id, email, DisplayName(p.displayName, email, emailToDisplayName), Some(FacebookImageUrl(p.id))))
  }

  // ----- Identity resolution -----

  /** The `defaults` of User.findOrCreate: a verified account without a password. */
  function NewSocialUser(id: UserId, provider: Provider, ident: Identity): User {
    User(id, Some(ident.name), None, ident.email, None, None, true, ident.imageUrl,
         ProviderSource(provider), Some(ident.sourceId), None)
  }

  /** A user without an image takes the provider's; a user with one keeps it. */
  function BackfillImage(u: User, imageUrl: Option<string>): User {
    if Truthy(u.imageUrl) then u else u.(imageUrl := imageUrl)
  }

  /** The user the slow path links: the one holding the profile's e-mail, else a new one. */
  function LinkedUser(db: Db, provider: Provider, ident: Identity): User
    requires db.Valid()
  {
    match FindUserByEmail(db.users, ident.email)
    case Some(id) => db.users[id]
    case None => NewSocialUser(db.nextUserId, provider, ident)
  }

  /**
   * The algorithm both social callbacks run. A known (provider, sourceId) returns
   * its user without writing. Otherwise one transaction finds or creates the user
   * by e-mail and creates the connection; a failing step there rolls both back.
   * The image backfill (`user.save()`) is handed neither the transaction nor
   * awaited before the commit, so whether its failure rolls back the rest depends
   * on the ORM: `saveJoinsTransaction` says it does. When it does not, the user and
   * the connection stay committed without the image and the callback still fails.
   */
  function Resolve(db: Db, provider: Provider, ident: Identity, profile: ProviderProfile,
                   saveJoinsTransaction: bool, failAt: Option<Step>): (out: Outcome<Resolved>)
    requires db.Valid()
    ensures out.db.Valid()
    ensures out.result.Success? <==>
      && failAt != Some(LookupConnection)
      && (ConnectionKey(provider, ident.sourceId) !in db.connections ==>
            && failAt != Some(FindOrCreateUser) && failAt != Some(CreateConnection)
            && (failAt == Some(SaveUser) ==> Truthy(LinkedUser(db, provider, ident).imageUrl)))
    ensures out.result.Failure? ==> failAt.Some? && out.result.error == StoreError(failAt.value)
    ensures out.result.Failure? && (failAt != Some(SaveUser) || saveJoinsTransaction) ==> out.db == db
    ensures out.result.Failure? && out.db != db ==>
      var key := ConnectionKey(provider, ident.sourceId);
      && out.result.error == StoreError(SaveUser)
      && key !in db.connections && key in out.db.connections
      && var u := out.db.users[out.db.connections[key].userId];
      && u.email == ident.email && !Truthy(u.imageUrl)
    ensures out.result.Success? ==>
      var u := out.result.value.user;
      var key := ConnectionKey(provider, ident.sourceId);
      && u.id in out.db.users && out.db.users[u.id] == u
      && key in out.db.connections && out.db.connections[key].userId == u.id
    ensures out.db.consents == db.consents && out.db.activities == db.activities
    ensures out.db.sentVerifications == db.sentVerifications
  {
    var key := ConnectionKey(provider, ident.sourceId);
    if failAt == Some(LookupConnection) then
      Outcome(db, Failure(StoreError(LookupConnection)))
    else if key in db.connections then
      Outcome(db, Success(Resolved(db.users[db.connections[key].userId], false)))
    else if failAt == Some(FindOrCreateUser) then
      Outcome(db, Failure(StoreError(FindOrCreateUser)))
    else
      var found := FindUserByEmail(db.users, ident.email);
      var user := LinkedUser(db, provider, ident);
      var committed := db.(users := db.users[user.id := user],
                           connections := db.connections[key := Connection(user.id, profile)],
                           nextUserId := if found.Some? then db.nextUserId else db.nextUserId + 1);
      if failAt == Some(CreateConnection) then
        Outcome(db, Failure(StoreError(CreateConnection)))
      else if !Truthy(user.imageUrl) && failAt == Some(SaveUser) then
        Outcome(if saveJoinsTransaction then db else committed, Failure(StoreError(SaveUser)))
      else
        var saved := BackfillImage(user, ident.imageUrl);
        Outcome(committed.(users := db.users[user.id := saved]), Success(Resolved(saved, found.None?)))
  }

  /** The Google verify callback. */
  function GoogleLogin(db: Db, p: GoogleProfile, emailToDisplayName: string -> string,
                       saveJoinsTransaction: bool, failAt: Option<Step>): (out: Outcome<Resolved>)
    requires db.Valid()
    ensures out.result.Success? ==> ConnectionKey(Google, p.id) in out.db.connections
    ensures out.result.Success? && out.result.value.created ==>
      var u := out.result.value.user;
      && u.email == p.email && u.source == ProviderSource(Google)
      && (u.imageUrl.Some? ==> '?' !in u.imageUrl.value)
  {
    Resolve(db, Google, NormalizeGoogle(p, emailToDisplayName), GoogleData(p), saveJoinsTransaction, failAt)
  }

  /** The Facebook verify callback: without an e-mail it fails before touching the store. */
  function FacebookLogin(db: Db, p: FacebookProfile, emailToDisplayName: string -> string,
                         saveJoinsTransaction: bool, failAt: Option<Step>): (out: Outcome<Resolved>)
    requires db.Valid()
    ensures p.emails.None? || p.emails.value == [] ==> out == Outcome(db, Failure(ProviderDataError))
    ensures out.result.Success? ==> ConnectionKey(Facebook, p.id) in out.db.connections
    ensures out.result.Success? && out.result.value.created ==>
      var u := out.result.value.user;
      && u.email == p.emails.value[0].value && u.source == ProviderSource(Facebook)
      && u.imageUrl == Some(FacebookImageUrl(p.id))
  {
    match NormalizeFacebook(p, emailToDisplayName)
    case Failure(e) => Outcome(db, Failure(e))
    case Success(ident) => Resolve(db, Facebook, ident, FacebookData(p), saveJoinsTransaction, failAt)
  }

  /** Fast path: a known provider identity yields its user, not created, and nothing is written. */
  lemma ResolveFastPath(db: Db, provider: Provider, ident: Identity, profile: ProviderProfile,
                        saveJoinsTransaction: bool, failAt: Option<Step>)
    requires db.Valid()
    requires failAt != Some(LookupConnection)
    requires ConnectionKey(provider, ident.sourceId) in db.connections
    ensures var uid := db.connections[ConnectionKey(provider, ident.sourceId)].userId;
      Resolve(db, provider, ident, profile, saveJoinsTransaction, failAt) == Outcome(db, Success(Resolved(db.users[uid], false)))
  {
  }

  /**
   * Linking by e-mail: a new provider identity whose e-mail belongs to an existing
   * user is linked to that user, no user is created, and the user changes at most
   * by taking the provider image when it had none.
   */
  lemma ResolveLinksExistingEmail(db: Db, provider: Provider, ident: Identity, profile: ProviderProfile,
                                   saveJoinsTransaction: bool, id: UserId)
    requires db.Valid()
    requires ConnectionKey(provider, ident.sourceId) !in db.connections
    requires id in db.users && db.users[id].email == ident.email
    ensures var out := Resolve(db, provider, ident, profile, saveJoinsTransaction, None);
      var old_u := db.users[id];
      && out.result.Success?
      && out.result.value.user.id == id
      && !out.result.value.created
      && out.db.users.Keys == db.users.Keys
      && out.db.connections[ConnectionKey(provider, ident.sourceId)] == Connection(id, profile)
      && (Truthy(old_u.imageUrl) ==> out.db.users == db.users)
      && (!Truthy(old_u.imageUrl) ==> out.db.users == db.users[id := old_u.(imageUrl := ident.imageUrl)])
  {
  }

  /**
   * Creation: a new provider identity whose e-mail is unknown creates exactly one
   * user, a verified account without a password that records the provider.
   */
  lemma ResolveCreatesUser(db: Db, provider: Provider, ident: Identity, profile: ProviderProfile,
                           saveJoinsTransaction: bool)
    requires db.Valid()
    requires ConnectionKey(provider, ident.sourceId) !in db.connections
    requires forall id :: id in db.users ==> db.users[id].email != ident.email
    ensures var out := Resolve(db, provider, ident, profile, saveJoinsTransaction, None);
      && out.result.Success?
      && out.result.value.created
      && var u := out.result.value.user;
      && u.id !in db.users
      && out.db.users == db.users[u.id := u]
      && u.password.None? && u.emailIsVerified
      && u.email == ident.email && u.name == Some(ident.name) && u.imageUrl == ident.imageUrl
      && u.source == ProviderSource(provider) && u.sourceId == Some(ident.sourceId)
  {
  }

  /** The slow path adds exactly one connection, holding the provider's profile. */
  lemma ResolveAddsOneConnection(db: Db, provider: Provider, ident: Identity, profile: ProviderProfile,
                                 saveJoinsTransaction: bool, failAt: Option<Step>)
    requires db.Valid()
    requires ConnectionKey(provider, ident.sourceId) !in db.connections
    requires Resolve(db, provider, ident, profile, saveJoinsTransaction, failAt).result.Success?
    ensures var out := Resolve(db, provider, ident, profile, saveJoinsTransaction, failAt);
      out.db.connections
        == db.connections[ConnectionKey(provider, ident.sourceId) := Connection(out.result.value.user.id, profile)]
  {
  }

  /**
   * Resolving the same provider identity again takes the fast path: same user,
   * not created, and the store is left as the first resolution left it.
   */
  lemma ResolveAgainIsFastPath(
    db: Db, provider: Provider, ident: Identity, profile: ProviderProfile, saveJoinsTransaction: bool, failAt: Option<Step>,
    ident': Identity, profile': ProviderProfile, failAt': Option<Step>)
    requires db.Valid()
    requires Resolve(db, provider, ident, profile, saveJoinsTransaction, failAt).result.Success?
    requires ident'.sourceId == ident.sourceId
    requires failAt' != Some(LookupConnection)
    ensures var first := Resolve(db, provider, ident, profile, saveJoinsTransaction, failAt);
      var second := Resolve(first.db, provider, ident', profile', saveJoinsTransaction, failAt');
      second == Outcome(first.db, Success(Resolved(first.result.value.user, false)))
  {
  }

  /**
   * An image save that fails outside the transaction leaves the identity linked:
   * the next sign-in takes the fast path to a user with the profile's e-mail, and
   * since the fast path saves nothing, that user stays without an image.
   */
  lemma ResolveAfterUnsavedImage(
    db: Db, provider: Provider, ident: Identity, profile: ProviderProfile, failAt: Option<Step>,
    ident': Identity, profile': ProviderProfile, saveJoinsTransaction': bool, failAt': Option<Step>)
    requires db.Valid()
    requires Resolve(db, provider, ident, profile, false, failAt).result.Failure?
    requires Resolve(db, provider, ident, profile, false, failAt).db != db
    requires ident'.sourceId == ident.sourceId
    requires failAt' != Some(LookupConnection)
    ensures var first := Resolve(db, provider, ident, profile, false, failAt);
      var second := Resolve(first.db, provider, ident', profile', saveJoinsTransaction', failAt');
      && second.db == first.db
      && second.result.Success? && !second.result.value.created
      && second.result.value.user.email == ident.email
      && !Truthy(second.result.value.user.imageUrl)
  {
  }

  // ----- Local e-mail and password check -----

  datatype LoginError = InvalidEmail | AccountNotFound | AccountNotVerified | InvalidPassword

  /** The `code` reported with each refusal; an invalid e-mail carries only a message. */
  function ErrorCode(e: LoginError): (code: Option<int>)
    ensures code.None? <==> e == InvalidEmail
    ensures code.Some? ==> 1 <= code.value <= 3
  {
    match e
    case InvalidEmail => None
    case AccountNotFound => Some(1)
    case AccountNotVerified => Some(2)
    case InvalidPassword => Some(3)
  }

  /** The codes tell the refusals apart: a client can recover the reason from the code alone. */
  lemma ErrorCodeIdentifiesRefusal(e: LoginError, e': LoginError)
    requires ErrorCode(e) == ErrorCode(e')
    ensures e == e'
  {
  }

  /** What the local callback decides, and the verification e-mails it sends on the way. */
  datatype LocalVerdict = LocalVerdict(result: Result<User, LoginError>, sends: seq<Verification>)

  /**
   * The local callback's cascade: e-mail syntax, then an account with a password,
   * then verification (which re-sends the verification e-mail), then the password
   * hash. The stored password is compared with the hash of the one supplied.
   */
  function LocalVerify(users: map<UserId, User>, email: string, password: string,
                       isEmail: string -> bool, getHash: string -> string): (v: LocalVerdict)
    requires EmailsUnique(users)
    ensures !isEmail(email) ==> v == LocalVerdict(Failure(InvalidEmail), [])
    ensures v.result == Failure(AccountNotFound) <==>
      isEmail(email) && forall u :: u in users.Values && u.email == email ==> !Truthy(u.password)
    ensures v.result == Failure(AccountNotVerified) <==>
      isEmail(email) && exists u :: u in users.Values && u.email == email && Truthy(u.password) && !u.emailIsVerified
    ensures v.result == Failure(InvalidPassword) <==>
      isEmail(email) && exists u :: u in users.Values && u.email == email && Truthy(u.password) && u.emailIsVerified
                                    && u.password != Some(getHash(password))
    ensures v.result.Success? <==>
      isEmail(email) && exists u :: u in users.Values && u.email == email && Truthy(u.password) && u.emailIsVerified
                                    && u.password == Some(getHash(password))
    ensures v.result.Success? ==> v.result.value in users.Values && v.result.value.email == email
                                  && v.result.value.password == Some(getHash(password))
    ensures v.result.Failure? ==> (ErrorCode(v.result.error).None? <==> !isEmail(email))
    ensures |v.sends| <= 1 && (v.sends != [] <==> v.result == Failure(AccountNotVerified))
    ensures v.sends != [] ==>
      exists u :: u in users.Values && u.email == email && v.sends[0] == Verification(u.email, u.emailVerificationCode)
  {
    if !isEmail(email) then
      LocalVerdict(Failure(InvalidEmail), [])
    else
      match FindUserByEmail(users, email)
      case None => LocalVerdict(Failure(AccountNotFound), [])
      case Some(id) =>
        var u := users[id];
        if !Truthy(u.password) then
          LocalVerdict(Failure(AccountNotFound), [])
        else if !u.emailIsVerified then
          LocalVerdict(Failure(AccountNotVerified), [Verification(u.email, u.emailVerificationCode)])
        else if u.password == Some(getHash(password)) then
          LocalVerdict(Success(u), [])
        else
          LocalVerdict(Failure(InvalidPassword), [])
  }

  /**
   * An account created by social sign-in has no password, so the local check
   * refuses it as not found (code 1) whatever password is given.
   */
  lemma SocialAccountHasNoLocalLogin(
    db: Db, provider: Provider, ident: Identity, profile: ProviderProfile, saveJoinsTransaction: bool, failAt: Option<Step>,
    password: string, isEmail: string -> bool, getHash: string -> string)
    requires db.Valid()
    requires Resolve(db, provider, ident, profile, saveJoinsTransaction, failAt).result.Success?
    requires Resolve(db, provider, ident, profile, saveJoinsTransaction, failAt).result.value.created
    requires isEmail(ident.email)
    ensures LocalVerify(Resolve(db, provider, ident, profile, saveJoinsTransaction, failAt).db.users, ident.email, password, isEmail, getHash).result
            == Failure(AccountNotFound)
  {
  }

  // ----- Session -----

  /** `passport.serializeUser`: the session keeps the user's id. */
  function SerializeUser(u: User): (principal: UserId)
    ensures principal == u.id
    ensures forall db: Db {:trigger db.Valid()} :: db.Valid() && u in db.users.Values ==>
      principal in db.users && db.users[principal] == u
  {
    u.id
  }

  // ----- The callbacks as steps over the store -----

  /** The shared resolution, step by step, staging its writes until the transaction commits. */
  method ResolveSocial(store: Store, provider: Provider, ident: Identity, profile: ProviderProfile,
                       saveJoinsTransaction: bool, failAt: Option<Step>)
    returns (result: Result<Resolved, AuthError>)
    requires store.Valid()
    modifies store
    ensures store.Valid()
    ensures var out := Resolve(old(store.View()), provider, ident, profile, saveJoinsTransaction, failAt);
      store.View() == out.db && result == out.result
  {
    ghost var out := Resolve(store.View(), provider, ident, profile, saveJoinsTransaction, failAt);
    if failAt == Some(LookupConnection) {
      return Failure(StoreError(LookupConnection));
    }
    var key := ConnectionKey(provider, ident.sourceId);
    if key in store.connections {
      return Success(Resolved(store.users[store.connections[key].userId], false));
    }
    // db.transaction: nothing below is written to the store before the commit, and
    // the image save is the last step, whose failure commits or not by saveJoinsTransaction.
    if failAt == Some(FindOrCreateUser) {
      return Failure(StoreError(FindOrCreateUser));
    }
    var users, nextUserId := store.users, store.nextUserId;
    var user: User;
    var created: bool;
    var found := FindUserByEmail(users, ident.email);
    if found.Some? {
      user, created := users[found.value], false;
    } else {
      user, created := NewSocialUser(nextUserId, provider, ident), true;
      users, nextUserId := users[user.id := user], nextUserId + 1;
    }
    if failAt == Some(CreateConnection) {
      return Failure(StoreError(CreateConnection));
    }
    var connections := store.connections[key := Connection(user.id, profile)];
    if !Truthy(user.imageUrl) {
      if failAt == Some(SaveUser) {
        assert out.result == Failure(StoreError(SaveUser));
        if !saveJoinsTransaction {
          assert out.db == old(store.View()).(users := users[user.id := user], connections := connections, nextUserId := nextUserId);
          store.users, store.connections, store.nextUserId := users[user.id := user], connections, nextUserId;
        }
        return Failure(StoreError(SaveUser));
      }
      user := user.(imageUrl := ident.imageUrl);
      users := users[user.id := user];
    }
    assert out.db == old(store.View()).(users := users, connections := connections, nextUserId := nextUserId);
    store.users, store.connections, store.nextUserId := users, connections, nextUserId;
    return Success(Resolved(user, created));
  }

  method GoogleVerify(store: Store, p: GoogleProfile, emailToDisplayName: string -> string,
                      saveJoinsTransaction: bool, failAt: Option<Step>)
    returns (result: Result<Resolved, AuthError>)
    requires store.Valid()
    modifies store
    ensures store.Valid()
    ensures var out := GoogleLogin(old(store.View()), p, emailToDisplayName, saveJoinsTransaction, failAt);
      store.View() == out.db && result == out.result
  {
    var ident := NormalizeGoogle(p, emailToDisplayName);
    result := ResolveSocial(store, Google, ident, GoogleData(p), saveJoinsTransaction, failAt);
  }

  method FacebookVerify(store: Store, p: FacebookProfile, emailToDisplayName: string -> string,
                      saveJoinsTransaction: bool, failAt: Option<Step>)
    returns (result: Result<Resolved, AuthError>)
    requires store.Valid()
    modifies store
    ensures store.Valid()
    ensures var out := FacebookLogin(old(store.View()), p, emailToDisplayName, saveJoinsTransaction, failAt);
      store.View() == out.db && result == out.result
  {
    var normalized := NormalizeFacebook(p, emailToDisplayName);
    if normalized.Failure? {
      return Failure(normalized.error);
    }
    result := ResolveSocial(store, Facebook, normalized.value, FacebookData(p), saveJoinsTransaction, failAt);
  }

  /** The local callback: its only effect on the store is the verification e-mail it sends. */
  method LocalLogin(store: Store, email: string, password: string, isEmail: string -> bool, getHash: string -> string)
    returns (result: Result<User, LoginError>)
    requires store.Valid()
    modifies store`sentVerifications
    ensures var v := LocalVerify(old(store.users), email, password, isEmail, getHash);
      result == v.result && store.sentVerifications == old(store.sentVerifications) + v.sends
  {
    if !isEmail(email) {
      return Failure(InvalidEmail);
    }
    var found := FindUserByEmail(store.users, email);
    if found.None? {
      return Failure(AccountNotFound);
    }
    var u := store.users[found.value];
    if !Truthy(u.password) {
      return Failure(AccountNotFound);
    }
    if !u.emailIsVerified {
      store.sentVerifications := store.sentVerifications + [Verification(u.email, u.emailVerificationCode)];
      return Failure(AccountNotVerified);
    }
    if u.password == Some(getHash(password)) {
      return Success(u);
    }
    return Failure(InvalidPassword);
  }
}
