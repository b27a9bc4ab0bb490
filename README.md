# Future Furniture backend: design access policy and user signup

A model of the part of the Future Furniture REST backend that carries its
rules: the design routes (list all, list own, create, partial update,
delete), which sit behind a designer-role check and an ownership check, and
the authentication routes (signup against the users collection; login,
logout and `/me` over the token layer).

- `common.dfy` (`Common`): ids (a MongoDB ObjectId is modelled as a `nat`), `Option`,
  the error taxonomy (`BadRequest`, `Unauthorized`, `Forbidden`, `NotFound`,
  `UnprocessableEntity`, one per HTTP status the routes raise), and the lemma that an
  unused id always exists. Generating a new ObjectId is modelled as choosing
  any id that is not yet in use.
- `user_model.dfy` (`UserModel`): the roles, the signup body, the stored user
  (which has a password hash and no password), and the public view of a user.
- `design_model.dfy` (`DesignModel`): the JSON payload. It is a recursive `Json`
  value that is stored and returned verbatim. Also the create body, the
  partial-update body and the returned design.
- `design_routes.dfy` (`DesignRoutes`): the class `DesignStore`, whose field
  `designs` is the designs collection (a map from id to owner, name and
  data). Its methods are the five routes. `Gate` holds the update/delete
  checks in their order. `Apply` holds the effect of `$set` with the
  supplied fields.
- `auth_routes.dfy` (`AuthRoutes`): the class `UserTable`, whose field `users` is the
  users collection keyed by username. `Signup` is its method. Login, logout
  and `/me` are functions. The credential check, token minting and token
  verification are passed in as parameters. `Resolve` turns the session
  cookie into the session user.
- `walkthrough.dfy` (`Walkthrough`): a client method, proved from the route
  contracts alone. A designer signs up, a duplicate signup is refused, and a
  customer's create is refused. The designer creates, lists, renames (the
  data stays unchanged), and deletes. After that, a second delete gets
  NotFound and the own-list no longer holds the design. A concrete, unsigned
  token encoding (`SampleToken`, `SampleVerify`) stands in for the token
  layer there. With it, the walkthrough logs the designer in, resolves the
  cookie on `/me` to that designer, and logs out.

## Model

| member | source | states |
|---|---|---|
| `Common.FreshIdExists` | app/routes/designs.py:54 | for any finite set of ids in use there is an unused id, so a new ObjectId can always be chosen |
| `UserModel.ParseRole` | app/models/user.py:7 | an absent role defaults to customer; only "designer" and "customer" are accepted, and they parse to the role they spell; anything else is rejected as an unprocessable body |
| `UserModel.ParseRoleName` | app/models/user.py:7 | parsing the spelling of either role gives that role back |
| `UserModel.PublicView` | app/models/user.py:16-17 | modelling device: the client view of a stored user keeps id, username, name and role; the hash is not part of it |
| `DesignRoutes.DesignStore.Find` | app/routes/designs.py:38-40 | a query returns every stored design that matches, each exactly once, in unspecified order, and nothing that is not stored field for field |
| `DesignRoutes.DesignStore.ListAll` | app/routes/designs.py:13-20 | every stored design is listed, once each, for a caller of any role; the store is read only |
| `DesignRoutes.DesignStore.ListOwn` | app/routes/designs.py:28-40 | a non-designer gets Forbidden; a designer gets exactly the stored designs whose owner is the caller, once each |
| `DesignRoutes.DesignStore.Create` | app/routes/designs.py:44-70 | a non-designer gets Forbidden and the store is unchanged; a designer's design goes in under an id not previously stored, owned by the caller, with the requested name and data; the returned design is what is stored, and every other entry is unchanged |
| `DesignRoutes.Gate` | app/routes/designs.py:82-100 | update and delete may proceed exactly when the caller is a designer and owns an existing design; a non-designer gets Forbidden, a designer naming a missing id gets NotFound, and a non-owner of an existing design gets Forbidden |
| `DesignRoutes.GateRoleFirst` | app/routes/designs.py:129-133 | the role check comes before any lookup: a non-designer gets Forbidden whatever the store holds and whatever id is named |
| `DesignRoutes.GateMissingIgnoresOwner` | app/routes/designs.py:135-147 | existence is checked before ownership: a missing id gives NotFound to every designer, owner or not |
| `DesignRoutes.Supplied` | app/routes/designs.py:103 | the `$set` document holds exactly the fields that are not None; it is empty only for an all-None update |
| `DesignRoutes.Apply` | app/routes/designs.py:103-108 | each supplied field is overwritten, each omitted field is kept, and the owner never changes |
| `DesignRoutes.ApplyNothingSupplied` | app/routes/designs.py:104-111 | when nothing is supplied the write is skipped, and the document read back is the stored one unchanged |
| `DesignRoutes.ApplyIdempotent` | app/routes/designs.py:105-108 | sending the same update twice has the effect of sending it once |
| `DesignRoutes.Merge` | app/routes/designs.py:105-108 | modelling device with no counterpart in the code, used to state `ApplyMerge`: the combined body supplies the union of the two bodies' supplied fields, and the later value wins |
| `DesignRoutes.ApplyMerge` | app/routes/designs.py:105-108 | two updates in a row act as one in which, field by field, the later supplied value wins |
| `DesignRoutes.DesignStore.Update` | app/routes/designs.py:74-118 | fails exactly when `Gate` refuses, with Gate's error and the store untouched; otherwise only the target id is rewritten, with the supplied fields applied; nothing is written when nothing is supplied; the result is the full updated design, with its id and owner unchanged |
| `DesignRoutes.DesignStore.Delete` | app/routes/designs.py:122-150 | fails exactly when `Gate` refuses, with Gate's error and the store untouched; otherwise exactly the target id, which existed, is removed, and every other design is unchanged |
| `AuthRoutes.UserTable.Signup` | app/routes/auth.py:19-47 | a username that some stored user already has gets BadRequest and the table is unchanged (the query on the username field is shown equivalent to the key lookup under the table invariant); otherwise exactly one user is added under the username, with a fresh id, the submitted name and role, and the hash of the password in place of the password; the response is that user's public view, carrying the stored id; the table invariant (key is username, ids unique) is kept |
| `AuthRoutes.UserTable.Ids` | app/routes/auth.py:29-35 | modelling device: the ids of the stored users; a new ObjectId is taken to be outside this set |
| `AuthRoutes.ClaimsOf` | app/routes/auth.py:61-64 | modelling device: a token's claims are the user's username as subject and the user's role |
| `AuthRoutes.Login` | app/routes/auth.py:50-77 | fails with Unauthorized exactly when authentication yields no user; otherwise a bearer token minted from the user's username and role, and the same token set as the `access_token` cookie |
| `AuthRoutes.LoginFailureUniform` | app/routes/auth.py:52-58 | any two failed logins give identical responses, so an unknown user cannot be told from a wrong password |
| `AuthRoutes.Logout` | app/routes/auth.py:80-83 | fails with Unauthorized exactly when no session user is resolved; otherwise the `access_token` cookie is deleted |
| `AuthRoutes.Me` | app/routes/auth.py:86-88 | fails with Unauthorized exactly when no session user is resolved; otherwise returns exactly the resolved user |
| `AuthRoutes.Resolve` | app/routes/auth.py:86-88 | the session user that `/me` (and every protected route) receives: none when the cookie is absent, its token does not verify, or its subject is no longer registered; otherwise the public view of the user stored under the token's subject, read afresh from the users collection |
| `AuthRoutes.LoginThenMe` | app/routes/auth.py:50-88 | when verifying a minted token gives back its claims, and the authenticated user is the one stored under its username, a successful login followed by `/me` with the login's cookie returns exactly the user who logged in, and logout with that cookie succeeds |

## Left out

- The MongoDB client, the collections and index creation (`app/database/connection.py`) are not modelled. The collections are maps. The unique index on username is the key of the users map, together with the check in `Signup`. The `ownerId` index affects only speed.
- Query and update operator syntax (`find`, `$set`) is modelled by its effect (`Find`, `Apply`), not by its syntax.
- The FastAPI application, the CORS configuration and the `GET /` liveness route (`main.py`) are not modelled. They are wiring with no rules.
- `app/utils/auth.py` is not part of this model: password hashing, credential checking, JWT signing and verification, and token expiry. Each of these enters as a function parameter instead. `Resolve` states what the protected routes receive from session resolution: it checks the cookie, verifies the token and looks up the subject. The body of `get_current_user_from_cookie` itself is not modelled.
- Because hashes are salted, `Signup` takes the hasher as a parameter and states only that the stored hash is its output.
- The design routes take the caller as an already-resolved user. The Unauthorized failure for a missing or invalid session happens before any route body runs. It is modelled only where the body depends on it (`Logout`, `Me`).
- The flags on the session cookie are not modelled: httponly, max-age, expires, samesite and secure. Neither is the token lifetime constant. These are HTTP side effects.
- Error detail messages and the `WWW-Authenticate` header are not modelled. Each failure is represented only by its error kind (its status).
- ObjectId generation is not modelled concretely: a new id is any id not in use. Ids are natural numbers, and their string forms (`id` next to `_id`) are not modelled separately.
- An ill-formed design id in the path is not modelled. Parsing it with `ObjectId(...)` raises, and the route fails with a server error.
- Concurrency is not modelled. Each request is atomic, so the race between `find_one` and `update_one` in update and delete is left out. So is the server error that update would raise if the design vanished between its write and its read-back.
- Pydantic validation and serialisation are not modelled, except for the `role` literal and its default (`ParseRole`). The validated bodies are datatypes.
- JSON numbers are modelled as reals, and the JSON round trip of `model_dump(mode="json")` is taken to be the identity.
- The key order of JSON objects is not modelled. `data` is a map, but Python dicts and BSON documents keep insertion order, and that order reaches the response.
- The link between a design route's `caller` and an entry in `UserTable` is not modelled. The caller is any resolved user. `Create` refuses non-designers (app/routes/designs.py:48-52) and sets the owner to the caller's id (app/routes/designs.py:58). Nothing in the model ties that id to a stored user.
