# MERN backend: auth gate, registration checks and profile routes

A Dafny model of three pieces of an Express/Mongoose social-profile backend:

- the **auth middleware** (`middleware/auth.js`): it reads the `x-auth-token`
  header and either answers 401 or sets `req.user` from the decoded token
  and calls `next`;
- the **registration checks** of `POST api/users` (`routes/api/users.js`):
  name, e-mail and password rules, then a 400 with the errors or the fixed
  text `Users route`;
- the **profile routes** (`routes/api/profile.js`) over an in-memory profile
  store. These cover create-or-update of the caller's profile with `$set`
  semantics, the comma-split-and-trim of `skills`, adding experience and
  education entries to the front of their lists, deleting entries by `_id`,
  reading a profile, and deleting the account.

Files and modules:

| file | module | holds |
|---|---|---|
| `wrappers.dfy` | `Wrappers` | `Option`, map lookup |
| `strings.dfy` | `Strings` | `split(',')` and `trim()` with their characterisations |
| `profile_schema.dfy` | `ProfileSchema` | profile, experience, education and social records; `$set`; removal by `_id` |
| `http.dfy` | `Http` | request body, truthiness, the required-field check, replies |
| `auth_middleware.dfy` | `AuthMiddleware` | request, response, `next`, token verifier, the gate |
| `users_route.dfy` | `UsersRoute` | the registration checks and the reply |
| `profile_route.dfy` | `ProfileRoute` | building `profileFields`, the `ProfileStore` class and its handlers |

Modelling choices:

- A request body is a `map<string, string>`. A key missing from the map is
  `undefined`. A field is *truthy* when it is present and not empty. A failed
  `not().isEmpty()` check is the same condition, because the validator sees
  a missing field as `''`.
- `jwt.verify(token, JWT_SECRET)` is an oracle. A `TokenVerifier` object
  holds a fixed `decode` function (`None` when the library throws) and a
  counter of calls. The counter lets the model state that the verifier is
  not consulted when there is no token.
- `isEmail` is a predicate the caller passes in.
- `next` is an object that counts its calls. The response is an object
  holding the one reply sent, if any.
- The store is the `ProfileStore` class. Its fields are the profiles keyed
  by owner id, the set of user ids, and a counter that hands out fresh
  subdocument `_id`s. Its invariant `Valid()` says three things about every
  profile: it is keyed by its owner, its experience ids are unique and
  already handed out, and so are its education ids.
- A PUT or DELETE on experience or education when the caller has no profile
  reads a field of `null`. That throws inside the handler's `try`, so the
  reply is 500 `Server error` and the store is unchanged. The model gives
  exactly this outcome.
- Each handler is a method that returns the reply and updates the store. Its
  `ensures` gives the new store as a function of the old store and the
  input. The properties are lemmas about those functions.

Three behaviours of the code that are easy to misread:

- The gate treats an empty header value like a missing one, because the code
  tests `!token`.
- All verifier failures become the same `Invalid token` reply. Signature,
  expiry and parse errors are not told apart.
- A decoded payload without a `user` member still lets the request through,
  with `req.user` left undefined (`TokenPayload.user` is `None`).

## Model

| member | source | states |
|---|---|---|
| `Strings.Trim` | routes/api/profile.js:80 | the trimmed skill neither starts nor ends with ECMAScript whitespace and is no longer than the input |
| `Strings.TrimDecomposes` | routes/api/profile.js:80 | every string is whitespace, then its trim, then whitespace |
| `Strings.TrimmedAway` | routes/api/profile.js:80 | the whitespace trim strips from each end, as two all-whitespace strings around `Trim(s)` that concatenate back to the input |
| `Strings.TrimOfTrimmed` | routes/api/profile.js:80 | a string with no whitespace at either end trims to itself |
| `Strings.TrimUnique` | routes/api/profile.js:80 | whitespace around a trimmed middle part always trims to exactly that part, so trim is unique |
| `Strings.TrimIdempotent` | routes/api/profile.js:80 | trimming twice equals trimming once |
| `Strings.Split` | routes/api/profile.js:80 | `split(',')` yields (number of commas + 1) pieces, none containing a comma |
| `Strings.JoinSplit` | routes/api/profile.js:80 | joining the pieces with commas gives back the input, so the pieces are in input order and lose nothing |
| `Strings.SplitJoin` | routes/api/profile.js:80 | splitting a comma-join of comma-free pieces gives back the pieces |
| `ProfileRoute.ParseSkills` | routes/api/profile.js:79-81 | the skills list has (commas + 1) entries; entry i is piece i of the split, trimmed; no entry has leading or trailing whitespace |
| `ProfileRoute.SkillsRoundTrip` | routes/api/profile.js:79-81 | a list of trimmed, comma-free skills joined with commas parses back to the same list |
| `ProfileRoute.FieldsCopyTruthyInputs` | routes/api/profile.js:71-90 | `user` is the authenticated id; each optional field and each social link is present iff its input is truthy and then equals the input; `skills` is present iff its input is truthy and then is the parsed list |
| `ProfileRoute.BuildProfileFields` | routes/api/profile.js:71-90 | building the fields one conditional assignment at a time yields exactly the fields described above |
| `ProfileRoute.BuildScalars` | routes/api/profile.js:73-78 | each of `company`, `website`, `location`, `status`, `bio`, `githubusername` is set iff its input is truthy, and then to the input unchanged |
| `ProfileRoute.BuildSocial` | routes/api/profile.js:85-90 | building the social object link by link, starting from `{}`, yields one link per truthy input |
| `ProfileRoute.FieldsFrom` | routes/api/profile.js:71-90 | the `profileFields` object as a value; characterised by `FieldsCopyTruthyInputs` |
| `ProfileRoute.SocialFrom` | routes/api/profile.js:85-90 | the `profileFields.social` object as a value; characterised by `FieldsCopyTruthyInputs` |
| `ProfileSchema.ApplySet` | routes/api/profile.js:96-100 | `$set` of the fields on a stored profile; characterised by `SetOverwritesPresentKeys` |
| `ProfileSchema.NewProfile` | routes/api/profile.js:107-108 | `new Profile(profileFields)`; characterised by `CreateIsSetOnEmpty` |
| `ProfileSchema.Upsert` | routes/api/profile.js:93-109 | update when a profile is stored, create otherwise; characterised by `PostStoresInput` and `UpsertIdempotent` |
| `ProfileSchema.SetOverwritesPresentKeys` | routes/api/profile.js:96-100 | after `$set`, keys present in the fields overwrite, the whole social object included; other keys and both lists keep their stored values |
| `ProfileSchema.CreateIsSetOnEmpty` | routes/api/profile.js:107-108 | creating a profile from the fields equals `$set` of the fields on an empty document |
| `ProfileSchema.UpsertIdempotent` | routes/api/profile.js:93-109 | posting the same fields twice leaves the same profile as posting once |
| `ProfileRoute.PostRulesPass` | routes/api/profile.js:40-46 | the POST checks pass iff `status` and `skills` are both non-empty |
| `ProfileRoute.PostStoresInput` | routes/api/profile.js:71-109 | after a valid POST, `status` and `skills` hold the input; each top-level key takes its truthy input or else keeps the stored value (unset on creation); each social link is present iff its input is truthy, so stored links not sent again are dropped; the lists are kept, or empty on creation |
| `ProfileRoute.ProfileStore.Post` | routes/api/profile.js:35-115 | failed checks give 400 with the errors and an unchanged store; otherwise the caller's profile is created or `$set`, it is the only entry that changes, and it is returned |
| `Http.RequiredErrors` | routes/api/profile.js:37-52 | an error is reported iff its field is empty or missing and comes from a declared check; no errors iff every field is non-empty; a single check gives exactly its own error or none |
| `Http.RequiredErrorsAppend` | routes/api/profile.js:37-52 | the errors of two lists of checks are those of the first followed by those of the second, so with the single-check case there is one entry per failed check, in declaration order |
| `ProfileRoute.ExperienceRulesPass` | routes/api/profile.js:185-193 | the experience checks pass iff `title`, `company` and `from` are all non-empty |
| `ProfileRoute.ExperienceFrom` | routes/api/profile.js:202-203 | the `newExperience` object built from the body; characterised by `ExperienceCopiesRequired` |
| `ProfileRoute.ExperienceCopiesRequired` | routes/api/profile.js:202-203 | a validated experience entry holds the non-empty `title`, `company` and `from` of the input unchanged |
| `ProfileSchema.AddExperience` | routes/api/profile.js:207 | `profile.experience.unshift(newExperience)`; characterised by `AddExperienceShape` |
| `ProfileRoute.AddExperienceShape` | routes/api/profile.js:207 | `unshift` puts the new entry at index 0, the old entries follow in order, the length grows by one, and no other profile field changes |
| `ProfileRoute.ProfileStore.PutExperience` | routes/api/profile.js:180-216 | failed checks give 400 and no change; with no profile, 500 and no change; otherwise the entry with a fresh id is put first in the caller's experience and the profile is returned; no stored entry already carries that id, so deleting it gives back the earlier profile |
| `ProfileSchema.RemoveExperience` | routes/api/profile.js:225-226 | the experience list replaced by its filter on `_id`; characterised by `RemoveById` and `RemoveExperienceUndoesAdd` |
| `ProfileSchema.RemoveById` | routes/api/profile.js:225 | the filter keeps an entry iff its `_id` differs from the requested one, and adds nothing |
| `ProfileSchema.RemoveByIdConcat` | routes/api/profile.js:225 | the filter distributes over concatenation, so the kept entries stay in their original order |
| `ProfileSchema.RemoveAbsentId` | routes/api/profile.js:225-226 | deleting an id no entry carries leaves the list unchanged |
| `ProfileSchema.RemoveByIdIdempotent` | routes/api/profile.js:225-226 | deleting twice equals deleting once |
| `ProfileSchema.RemoveKeepsUnique` | routes/api/profile.js:225-226 | deleting keeps the entry ids unique |
| `ProfileSchema.RemoveExactlyOne` | routes/api/profile.js:225-226 | with unique ids, deleting the id of entry i yields the list without exactly that entry |
| `ProfileSchema.RemoveUndoesPrepend` | routes/api/profile.js:207-226 | deleting the id of an entry just put in front gives back the earlier list |
| `ProfileSchema.RemoveExperienceUndoesAdd` | routes/api/profile.js:202-226 | deleting a freshly added experience entry by its id restores the profile |
| `ProfileRoute.ProfileStore.DeleteExperience` | routes/api/profile.js:222-234 | with no profile, 500 and no change; otherwise the caller's experience is filtered by id, nothing else changes, and the profile is returned |
| `ProfileRoute.EducationRulesPass` | routes/api/profile.js:245-257 | the education checks pass iff `school`, `degree`, `field_of_study` and `from` are all non-empty |
| `ProfileRoute.EducationFrom` | routes/api/profile.js:265-266 | the `newEducation` object built from the body; characterised by `EducationCopiesRequired` |
| `ProfileRoute.EducationCopiesRequired` | routes/api/profile.js:265-266 | a validated education entry holds the non-empty `school`, `degree`, `field_of_study` and `from` of the input unchanged |
| `ProfileSchema.AddEducation` | routes/api/profile.js:270 | `profile.education.unshift(newEducation)`; characterised by `AddEducationShape` |
| `ProfileRoute.AddEducationShape` | routes/api/profile.js:270 | `unshift` puts the new entry at index 0, the old entries follow in order, the length grows by one, and no other profile field changes |
| `ProfileRoute.ProfileStore.PutEducation` | routes/api/profile.js:240-279 | failed checks give 400 and no change; with no profile, 500 and no change; otherwise the entry with a fresh id is put first in the caller's education and the profile is returned; no stored entry already carries that id, so deleting it gives back the earlier profile |
| `ProfileSchema.RemoveEducationUndoesAdd` | routes/api/profile.js:265-289 | deleting a freshly added education entry by its id restores the profile |
| `ProfileSchema.RemoveEducation` | routes/api/profile.js:288-289 | the education list replaced by its filter on `_id`; characterised by `RemoveById` and `RemoveEducationUndoesAdd` |
| `ProfileRoute.ProfileStore.DeleteEducation` | routes/api/profile.js:285-297 | with no profile, 500 and no change; otherwise the caller's education is filtered by id, nothing else changes, and the profile is returned |
| `ProfileRoute.ProfileStore.Valid` | routes/api/profile.js:180-297 | the `ProfileStore` class invariant, kept by every handler: each profile is keyed by its owner, and its experience and education ids are unique and below the next fresh id |
| `ProfileRoute.ProfileStore.GetMe` | routes/api/profile.js:14-29 | the caller's stored profile if there is one, otherwise 400 `There is no profile for this user` |
| `ProfileRoute.ProfileStore.GetByUser` | routes/api/profile.js:139-157 | the stored profile of the given user if there is one, otherwise 400 `Profile not found` |
| `ProfileRoute.ProfileStore.DeleteAccount` | routes/api/profile.js:163-174 | the profile and the user record for the caller's id are both gone, nothing else changes, and the reply is `User removed` |
| `AuthMiddleware.Gate` | middleware/auth.js:7-21 | missing or empty token gives 401 `No token, authorisation denied`; a token the verifier rejects gives 401 `Invalid token`; the gate proceeds iff the token is non-empty and the verifier accepts it, carrying `decoded.user` |
| `AuthMiddleware.NoTokenIgnoresVerifier` | middleware/auth.js:9-11 | without a token the outcome is the same whatever the verifier would say |
| `AuthMiddleware.Response.Send` | middleware/auth.js:10-20 | `res.status(…).json(…)`: the reply is recorded as the one sent, and nothing else changes |
| `AuthMiddleware.Next.Call` | middleware/auth.js:18 | `next()`: the call is counted, and nothing else changes |
| `AuthMiddleware.TokenVerifier.Verify` | middleware/auth.js:16 | the result is what the oracle makes of the token, and the call is counted |
| `AuthMiddleware.Authenticate` | middleware/auth.js:4-22 | exactly one terminal outcome: on rejection the 401 reply is sent, `next` is not called and `req.user` is untouched; on success `req.user` is `decoded.user`, `next` is called once and no reply is sent; the verifier is consulted once iff a non-empty token is present; only `req.user` of the request may change |
| `UsersRoute.RegistrationErrors` | routes/api/users.js:13-17 | `Name is required` iff the name is empty; `Please, include a valid email` iff the e-mail fails the predicate; the password error iff the password is shorter than 6; one entry per failed rule and no others |
| `UsersRoute.Register` | routes/api/users.js:19-26 | 400 with the errors iff some rule fails, otherwise 200 with the text `Users route` |

## Left out

- Password hashing and token issuance do not appear in the modelled files. `jwt.verify` (signature, expiry, parsing) is only the `decode` oracle.
- `isEmail` is a parameter; its library semantics are not modelled.
- `populate('user', ['name', 'avatar'])` on the read routes is not modelled: the replies hold the stored profile as it is.
- `GET api/profile` (all profiles) is not modelled. It returns the collection in the database's natural order, which a map does not have, and its `!profiles` branch can never be taken.
- The 500 replies of the `catch` blocks for database failures are not modelled. The 500 for a missing profile on the experience and education routes is modelled.
- The ObjectId cast error on `GET api/profile/user/:user_id` is not modelled separately. It gives the same 400 `Profile not found` reply as a missing profile.
- `ProfileRoute.ProfileStore.DeleteExperience` and `ProfileRoute.ProfileStore.DeleteEducation`: the `:exp_id` / `:edu_id` path parameter is taken to be a subdocument id already. Matching a text parameter with `ObjectId.equals` is not modelled.
- Subdocument `_id` generation is a counter in the store, not Mongo's ObjectId.
- Mongoose schema casting, defaults and field order are not modelled. The `models/` files are not part of this model. Entry fields are stored as received strings and the stored document lists only the keys the routes touch.
- Request body fields are strings. JSON numbers, booleans and arrays in the body are not modelled (a non-string `skills` would throw in `split`).
- express-validator's `check` also looks at cookies, headers, params and query. The model looks only at the body. Its error entries keep only `param` and `msg`, not `value` and `location`.
- `UsersRoute.RegistrationErrors`: the password length is the number of Dafny `char`s, that is of Unicode code points. validator's `isLength` takes the UTF-16 length, subtracts one per surrogate pair (which gives the code-point count) and also subtracts one per variation selector U+FE0E or U+FE0F, so the two differ only for passwords holding those selectors. A lone surrogate, which `JSON.parse` accepts, cannot be a Dafny `char` and is not modelled.
- A token whose payload has no `user`: the gate passes it with `req.user` undefined. The handlers then throw on `req.user.id`; that is not modelled, so each handler is given a defined identity.
- `next` is assumed not to throw (Express catches errors raised in handlers). A throwing `next` would make the middleware's `catch` send a 401 after `next` has run.
- `console` logging, async/await sequencing, `server.js`, `config/db.js`, `config/global.js` and `routes/api/auth.js` are I/O or wiring and are not modelled.
