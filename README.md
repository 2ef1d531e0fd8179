# Accounts and sign-in, verified

A Dafny model of the authentication and user-account core of a web
application: social sign-in with Google and Facebook (profile normalisation,
then resolution of the provider identity to a local user, linking by e-mail
and creating the user when needed), the local e-mail/password check, the
session serialisation of a signed-in user, and the user API that updates the
signed-in user's profile and grants, lists and revokes that user's consents
to partners.

The ORM tables become finite maps in a `Db` snapshot (`accounts.dfy`):
users by id, connections by `(provider, sourceId)`, consents by
`(userId, partnerId)`, plus the activity log and the verification e-mails
sent. The class `Accounts.Store` holds the same tables as mutable fields.
Each state-changing handler is written twice:
- as a pure transition function on `Db`, which the lemmas are about;
- as a method over a `Store`, whose postcondition ties the new state and its
  response to that function.

The read-only handlers (reading the profile, listing consents) are functions
only.

A database error is modelled by the `failAt` parameter, which names the store
call that fails. A failing step inside a transaction returns the original
`Db`. Two writes are not clearly inside their transaction:
- the image backfill of social sign-in (`user.save()`), which gets no transaction;
- the consent delete, which gets it as a separate argument.

For each, a parameter (`saveJoinsTransaction`, `destroyJoinsTransaction`) says
whether its failure rolls back the other writes.

The library calls the code makes are parameters:
- `validator.isEmail` is `isEmail: string -> bool`;
- `cryptoLib.getHash(·, 'sha256')` is `getHash: string -> string`;
- `util.emailToDisplayName` is `emailToDisplayName: string -> string`;
- `emailLib.sendVerification` appends to `sentVerifications`.

Files:
- `wrappers.dfy`: `Option` and `Result`.
- `accounts.dfy`: the entities, the `Db` snapshot with its constraints (`Db.Valid`), and the `Store` class.
- `passport.dfy`: module `Passport`, for `libs/passport/index.js`.
- `user_api.dfy`: module `UserApi`, for `routes/api/user.js`.

## Model

| member | source | states |
|---|---|---|
| `Accounts.FindUserByEmail` | libs/passport/index.js:222-227 | with unique e-mails, finds the user whose e-mail equals the one given, or reports that no user has it |
| `Passport.PrefixBefore` | libs/passport/index.js:51 | `split('?')[0]`: the result is a prefix of the URL with no `?`, and it stops either at the end or exactly at the first `?` |
| `Passport.NormalizeGoogle` | libs/passport/index.js:46-52 | name is the display name when truthy, else derived from the e-mail; image is null without photos, else the first photo's URL cut before its first `?` |
| `Passport.NormalizeFacebook` | libs/passport/index.js:134-143 | a missing or empty `emails` array is refused with a provider error; otherwise e-mail is `emails[0].value`, name as for Google, image `https://graph.facebook.com/<id>/picture?type=large` |
| `Passport.Resolve` | libs/passport/index.js:54-113 | keeps the database constraints; it fails exactly when a store step it runs fails: the lookup, or on a new identity the find-or-create, the connection create, or the image save when the linked user has no truthy image; a failure reports that step; a failure leaves the database unchanged, except a failed image save outside the transaction, which leaves the identity linked to a user with the profile's e-mail and no image; on success the returned user is the stored row and the `(provider, sourceId)` connection points to it; consents, activities and sends are untouched |
| `Passport.GoogleLogin` | libs/passport/index.js:43-119 | on success the Google connection exists; a user it creates has the profile's e-mail, source google and an image without `?` |
| `Passport.FacebookLogin` | libs/passport/index.js:131-207 | a profile without e-mail fails with a provider error and the database unchanged, whatever store fault is given; a user it creates has `emails[0]`, source facebook and the graph picture URL |
| `Passport.ResolveFastPath` | libs/passport/index.js:109-113 | a known `(provider, sourceId)` returns that connection's user, not created, with no write |
| `Passport.ResolveLinksExistingEmail` | libs/passport/index.js:66-105 | a new identity whose e-mail belongs to a user links to that user; no user is created; the user changes only by taking the provider image when it had no truthy image |
| `Passport.ResolveCreatesUser` | libs/passport/index.js:71-79 | an unknown e-mail creates exactly one user: fresh id, no password, verified, source and sourceId of the provider, the normalised name and image |
| `Passport.ResolveAddsOneConnection` | libs/passport/index.js:87-96 | the slow path adds exactly the one connection `(provider, sourceId)` holding the profile |
| `Passport.ResolveAgainIsFastPath` | libs/passport/index.js:54-63 | after a successful resolve, resolving the same identity again returns the same user, not created, and writes nothing |
| `Passport.ResolveAfterUnsavedImage` | libs/passport/index.js:54-105 | after an image save fails outside the transaction, the next sign-in with that identity takes the fast path: no write, not created, a user with the profile's e-mail, still without an image |
| `Passport.ErrorCode` | libs/passport/index.js:218-242 | an invalid e-mail carries no code; the three other refusals carry codes 1 to 3 |
| `Passport.ErrorCodeIdentifiesRefusal` | libs/passport/index.js:229-242 | no two refusals share a code |
| `Passport.LocalVerify` | libs/passport/index.js:218-243 | the cascade in order: bad e-mail syntax before any lookup; no account or no password (code 1); unverified (code 2) with exactly one verification send to the account with its stored code; stored password equal to the hash succeeds; otherwise code 3; a refusal has no code exactly when the e-mail syntax is bad |
| `Passport.SocialAccountHasNoLocalLogin` | libs/passport/index.js:229-231 | a user created by social sign-in is refused by the local check as not found, whatever the password |
| `Passport.SerializeUser` | libs/passport/index.js:31-33 | the session keeps the user's id, which finds that same user row again in any database that holds it and meets the constraints |
| `Passport.ResolveSocial` | libs/passport/index.js:54-118 | the step-by-step resolve, staging writes until commit (or committing without the image when the save fails outside the transaction), leaves the store and result that `Resolve` gives, and keeps the constraints |
| `Passport.GoogleVerify` | libs/passport/index.js:43-119 | the Google callback over the store follows `GoogleLogin` |
| `Passport.FacebookVerify` | libs/passport/index.js:131-207 | the Facebook callback over the store follows `FacebookLogin` |
| `Passport.LocalLogin` | libs/passport/index.js:216-245 | the local callback returns the `LocalVerify` verdict; its only write appends that verdict's sends |
| `UserApi.WritableFields` | routes/api/user.js:16-19 | the whitelist is name, company, email, language and imageUrl, plus password exactly when the caller has no partner id |
| `UserApi.ApplyUpdate` | routes/api/user.js:21-32 | the row's string columns become the old columns overlaid with the body's values for the listed fields only; id, verification flag and source are kept; a null e-mail is refused |
| `UserApi.Update` | routes/api/user.js:14-38 | acts only on the caller's row, whatever the route says; the new row is the whitelisted overlay `ApplyUpdate` gives; it succeeds exactly when there is no store fault, the row exists, the e-mail is not null and no other user holds the new e-mail, and that last case is the unique violation; a missing row is not found; a store fault reports the failed update and a null e-mail on an existing row a validation error; failure changes nothing; a partner cannot change the password; a body with no writable key leaves the row as it was |
| `UserApi.GetUser` | routes/api/user.js:45-60 | the caller's own row when it exists, otherwise not found |
| `UserApi.GetAfterUpdate` | routes/api/user.js:21-57 | reading after a successful update returns the updated row |
| `UserApi.Grant` | routes/api/user.js:65-99 | succeeds unless the upsert fails, or the activity write fails for a new consent, and a failure reports that step; after a grant the consent exists, new with both timestamps `now` or the old row with `updatedAt` refreshed; `created` is whether it was new; an activity is appended only when created; other consents are unchanged; a failure changes neither the ledger nor the log |
| `UserApi.GrantTwiceLogsOnce` | routes/api/user.js:69-93 | granting a new consent twice appends exactly one activity and the second grant creates nothing |
| `UserApi.ListConsents` | routes/api/user.js:104-136 | lists exactly the caller's consents whose `deletedAt` is null, each with its partner or null, and `count` equals their number |
| `UserApi.Revoke` | routes/api/user.js:141-184 | succeeds unless the delete or the activity write fails, and a failure reports that step; removes at most the one `(userId, partnerId)` row, physically; other consents are unchanged; success always appends one deletion activity, even when no row existed; a failure appends nothing |
| `UserApi.GrantThenRevokeListing` | routes/api/user.js:69-178 | a granted consent is listed and, once revoked, is not |
| `UserApi.PutUser` | routes/api/user.js:21-37 | the PUT handler over the store follows `Update` and keeps the constraints |
| `UserApi.PostConsent` | routes/api/user.js:69-98 | the POST handler over the store follows `Grant`, staging the upsert until the activity is written |
| `UserApi.DeleteConsent` | routes/api/user.js:145-183 | the DELETE handler over the store follows `Revoke` |

## Left out

- Strategy construction and configuration (client ids, callback URLs, profile fields) are framework wiring with no behaviour of their own.
- Logging, `toJSON`, the HTTP responses, `loginCheck` and routing are not modelled. Each handler returns a `Result` instead.
- `validator.isEmail`, `cryptoLib.getHash`, `util.emailToDisplayName` and the e-mail sender are foreign library code. They are parameters or an appended event.
- Two concurrent first sign-ins with the same provider identity are not modelled. Neither is the unique index on connections that backs them up: this is about concurrency, and the model is sequential.
- User ids are drawn from a counter (`nextUserId`). The database generates UUIDs.
- The column defaults of `models/User.js` are not part of this model. A user created by social sign-in gets null company, language and verification code.
- `models/User.js` may hash a password when it is written; that file is not part of this model. The update stores the body's value as given.
- The value checks of `models/User.js` are not modelled either. Only a null e-mail (a required column) is refused, and an e-mail another user holds (a unique column).
- E-mails are compared exactly. Whether the database compares them case-insensitively is not visible in this code.
- A Google profile without an e-mail is not modelled. The code does not check for it, and what the ORM then does with an undefined `where` value is not visible here.
- The Facebook picture URL is written as the template's two fixed parts around the profile id. That is what `replace(':id', id)` gives for an id without `$`, since `:id` occurs in the template once. An id holding `$&`, `` $` ``, `$'` or `$$` would be expanded by `replace`; that is not modelled.
- UserApi.Update: two outcomes depend on the ORM version, which this code does not show, and the model promises the plain reading. First, when nothing but the automatic `updatedAt` is left to write (an empty body, a body of non-whitelisted keys, a partner sending only `password`), an ORM that skips the query returns no rows, so reading `results[1][0]` throws and the request fails; the model answers success with the row unchanged. Second, an ORM that validates before querying reports a null e-mail as a validation error even when the row is missing; the model answers not found.
- When the updated row is missing, the update handler fails while reading `results[1][0]`. The model reports it as `NotFound` and changes nothing.
- A store failure in the read-only handlers (GET user, GET consents) is not modelled; they change nothing either way. The same holds for the local callback's lookup, whose failure the code does not catch.
- The consent listing's SQL join is a `partners` map parameter, so partner data is opaque per partner id. Rows are keyed by partner id, and the response's row order is not modelled.
- On an existing row, the consent upsert only refreshes `updatedAt` and keeps `deletedAt`. So re-granting a consent that was soft-deleted elsewhere leaves it unlisted. This follows the upsert's update of only the given columns.
- Passport.Resolve: does not say whether a failed image save rolls back the new user and connection. `user.save()` gets no transaction and is not awaited before the commit, so the answer depends on the ORM. The `saveJoinsTransaction` parameter leaves it open.
- UserApi.Revoke: does not say whether a failed activity rolls back the delete. The delete gets the transaction as a separate argument, so the answer depends on the ORM. The `destroyJoinsTransaction` parameter leaves it open.
- `models/Moderator.js` is a schema with no behaviour.
