/**
 * The tables the authentication layer reads and writes: users, the provider
 * connections that link a Google or Facebook identity to a user, the user
 * consents given to partners, the activity log, and the verification e-mails
 * sent so far. The ORM is replaced by finite maps keyed as the database keys
 * them.
 */
module Accounts {
  import opened Wrappers

  type UserId = nat
  type PartnerId = string

  /** JavaScript truthiness of a nullable string: null, undefined and "" are falsy. */
  predicate Truthy(s: Option<string>) {
    s.Some? && s.value != ""
  }

  /** The social sign-in providers (UserConnection.CONNECTION_IDS). */
  datatype Provider = Google | Facebook

  /** Where a user account came from (User.SOURCES). */
  datatype Source = LocalSource | ProviderSource(provider: Provider)

  datatype User = User(
    id: UserId,
    name: Option<string>,
    company: Option<string>,
    email: string,
    language: Option<string>,
    password: Option<string>,
    emailIsVerified: bool,
    imageUrl: Option<string>,
    source: Source,
    sourceId: Option<string>,
    emailVerificationCode: Option<string>)

  /** The provider payloads, kept verbatim as a connection's connectionData. */
  datatype Photo = Photo(value: string)
  datatype GoogleProfile = GoogleProfile(
    id: string, email: string, displayName: Option<string>, photos: seq<Photo>)
  datatype ProfileEmail = ProfileEmail(value: string)
  datatype FacebookProfile = FacebookProfile(
    id: string, displayName: Option<string>, emails: Option<seq<ProfileEmail>>)
  datatype ProviderProfile = GoogleData(google: GoogleProfile) | FacebookData(facebook: FacebookProfile)

  /** A UserConnection is identified by (connectionId, connectionUserId). */
  datatype ConnectionKey = ConnectionKey(provider: Provider, sourceId: string)
  datatype Connection = Connection(userId: UserId, connectionData: ProviderProfile)

  /** A UserConsent is identified by (userId, partnerId) and is soft-deletable. */
  datatype ConsentKey = ConsentKey(userId: UserId, partnerId: PartnerId)
  datatype Consent = Consent(createdAt: int, updatedAt: int, deletedAt: Option<int>)

  /** An audit record written by the activity service about a consent. */
  datatype ActivityKind = Created | Deleted
  datatype Activity = Activity(kind: ActivityKind, consent: ConsentKey, actor: UserId, context: string)

  /** A verification e-mail handed to the e-mail service. */
  datatype Verification = Verification(email: string, code: Option<string>)

  /** The store calls a handler makes; any of them may fail with a database error. */
  datatype Step =
    | LookupConnection | FindOrCreateUser | CreateConnection | SaveUser
    | UpdateUser | UpsertConsent | CreateActivity | DestroyConsent | DeleteActivity

  ghost predicate EmailsUnique(users: map<UserId, User>) {
    forall a, b :: a in users && b in users && users[a].email == users[b].email ==> a == b
  }

  /** The user row whose email column equals `email`, if there is one (User.findOne by email). */
  function FindUserByEmail(users: map<UserId, User>, email: string): (r: Option<UserId>)
    requires EmailsUnique(users)
    ensures r.Some? ==> r.value in users && users[r.value].email == email
    ensures r.None? ==> forall id :: id in users ==> users[id].email != email
  {
    if exists id :: id in users && users[id].email == email then
      var id :| id in users && users[id].email == email;
      Some(id)
    else
      None
  }

  /** A snapshot of everything the handlers can change. */
  datatype Db = Db(
    users: map<UserId, User>,
    connections: map<ConnectionKey, Connection>,
    consents: map<ConsentKey, Consent>,
    activities: seq<Activity>,
    sentVerifications: seq<Verification>,
    nextUserId: nat)
  {
    /**
     * The database constraints the handlers rely on: a user row is stored under
     * its own id, ids come from a counter, e-mail addresses are unique, and every
     * connection refers to an existing user.
     */
    ghost predicate Valid() {
      && (forall id :: id in users ==> users[id].id == id && id < nextUserId)
      && EmailsUnique(users)
      && (forall k :: k in connections ==> connections[k].userId in users)
    }
  }

  /** The database, as mutable state. */
  class Store {
    var users: map<UserId, User>
    var connections: map<ConnectionKey, Connection>
    var consents: map<ConsentKey, Consent>
    var activities: seq<Activity>
    var sentVerifications: seq<Verification>
    var nextUserId: nat

    ghost function View(): Db
      reads this
    {
      Db(users, connections, consents, activities, sentVerifications, nextUserId)
    }

    ghost predicate Valid()
      reads this
    {
      View().Valid()
    }

    constructor ()
      ensures Valid()
      ensures View() == Db(map[], map[], map[], [], [], 0)
    {
      users, connections, consents := map[], map[], map[];
      activities, sentVerifications := [], [];
      nextUserId := 0;
    }
  }
}
