# Authorization guard and two-factor login, in Dafny

A model of the security core of the `ms-seguridad` service (a LoopBack 4
application):

- `AuthStrategy.authenticate`, the guard run before a protected route. It
  needs a bearer token. It resolves the caller's role from that token. It
  looks up the `RolMenu` permission row for `(rolId, menuId)`, where `menuId`
  comes from the route's metadata. Then it switches over the route's action
  name (`guardar`, `editar`, `listar`, `eliminar`) and reads that action's
  flag. The result is one of three HTTP 401 errors, `undefined` (denied) or
  the profile `{permitido: "Ok"}`.
- `UsuarioController`:
  - `create` stores a new user with the password `cifrarTexto(crearTextoAleatorio(10))`, the hash of the text generated for the requested length 10.
  - Phase 1, `identificarUsuario`, checks the credentials. It appends one
    `Login` record holding the text `crearTextoAleatorio` returns for the
    requested length 5, and mails that code to the user.
  - Phase 2, `VerificarCodigo2fa`, validates the code and issues a token. It
    patches every unused `Login` of the user: the code is marked used and the
    token is written.

Files:

- `wrappers.dfy`: `Option`.
- `auth_strategy.dfy`: module `AuthStrategy`. It holds the guard
  (`Authenticate`), a reference decision over a closed action enumeration
  (`Decide`), and the lemmas that relate the two.
- `login_store.dfy`: module `LoginStore`. It holds the `Login` record, the
  store as a sequence, the conditional bulk patch (`PatchLogins`) and a count
  of pending logins.
- `usuario_controller.dfy`: module `UsuarioController`. It holds `Create`,
  `IdentificarUsuario`, `VerificarCodigo2fa` and the handshake lemmas.

The security service's methods are called but their code is not part of this
model. They are function values in the `Deps` datatype: `identificarUsuario`,
`validarCodigo2fa`, `crearToken` and `cifrarTexto`. `obtenerRolDesdeToken` is
a parameter of `Authenticate`. `validarCodigo2fa` can read the Login store.
`crearTextoAleatorio` is random, so each call receives it as a `nat -> string`
source. Repository writes are immediate, sequential state updates.

Behaviour of the code a reader might not expect:

- Phase 2 sets `estadoCodigo2fa` and `token` but never `estadoToken`.
  `HandshakeEndToEnd` proves that the record stays at `estadoToken == false`.
- The guard has no "invalid token" outcome. Whatever role
  `obtenerRolDesdeToken` returns is used as the lookup key.
- The action names are the Spanish `guardar/editar/listar/eliminar`.
- The controller *returns* its `HttpErrors[401]` values rather than throwing
  them, so they are modelled as response values (`Rechazo1`, `Rechazo2`).
- `if(token)` is a JavaScript truthiness test, so an empty token string is
  treated like a missing one (`HasToken`).

## Model

| member | source | states |
|---|---|---|
| AuthStrategy.Authenticate | src/auth/strategy.ts:30-83 | no truthy token gives the missing-token 401, whatever the table and metadata are; if no row exists for (role from token, options[0]), the result is the no-permission 401 for every action; a row with an action outside the switch gives the unknown-action 401; for each known action the result is the Ok profile iff that action's flag is true, and undefined iff it is false; the only profile ever returned is {permitido: "Ok"} |
| AuthStrategy.AuthError.Message | src/auth/strategy.ts:63-81 | each of the three 401 errors carries its own non-empty message: a message is the missing-token text iff the error is the missing token, the no-permission text iff no row was found, and the unknown-action text iff the action is outside the switch |
| AuthStrategy.MessagesDistinct | src/auth/strategy.ts:63-81 | no two different errors share a message, so a caller can tell the three 401s apart |
| AuthStrategy.ParseAccion | src/auth/strategy.ts:46-63 | the switch recognises exactly the four action names: a recognised string is that action's name, and every action's name is recognised as that action |
| AuthStrategy.Granted | src/auth/strategy.ts:47-59 | a row grants an action iff that action's own flag is set |
| AuthStrategy.AuthenticateMatchesMatrix | src/auth/strategy.ts:31-81 | the string switch agrees on all inputs with a reference decision over the closed enumeration, which keeps "no row" and "unknown action" apart from "not granted" |
| AuthStrategy.FailClosed | src/auth/strategy.ts:33-78 | a profile is returned iff a token exists, a row exists for the key, the action is known and the row grants it |
| AuthStrategy.LookupKeyIsExact | src/auth/strategy.ts:34-44 | the table is read only at the key (obtenerRolDesdeToken(token), options[0]): two tables that agree there give the same outcome |
| AuthStrategy.ActionReadsOnlyItsFlag | src/auth/strategy.ts:46-59 | changing the other three flags of the row never changes the outcome for a known action |
| LoginStore.PatchLogins | src/controllers/usuario.controller.ts:295-303 | the patch keeps the store's length; each pending login of the user (`estadoCodigo2fa == false`) gets `estadoCodigo2fa := true` and the token; every other record is unchanged |
| LoginStore.PatchConsumesAll | src/controllers/usuario.controller.ts:295-303 | after the patch the user has no pending login, and every other user's pending count is unchanged |
| LoginStore.PatchIdempotent | src/controllers/usuario.controller.ts:295-303 | a second patch for the same user, with any token, changes nothing |
| UsuarioController.Create | src/controllers/usuario.controller.ts:70-81 | the stored password is cifrarTexto of the text crearTextoAleatorio returns for the requested length 10; every other supplied field is unchanged |
| UsuarioController.CreateIgnoresSuppliedClave | src/controllers/usuario.controller.ts:70-77 | the password the caller supplies has no effect on the stored user |
| UsuarioController.IdentificarUsuario | src/controllers/usuario.controller.ts:215-245 | unknown credentials give the 401 value, with no Login stored and no mail sent; otherwise exactly one Login (usuarioId, the text crearTextoAleatorio returns for the requested length 5, false, '', false) is appended after the untouched old records; the response is the user with `clave` scrubbed; the mail goes to the user's address and its body carries the code |
| UsuarioController.IdentificarResponseHidesCode | src/controllers/usuario.controller.ts:217-243 | the phase-1 response is the same whatever code is generated, so the code never appears in it |
| UsuarioController.IdentificarAddsOnePending | src/controllers/usuario.controller.ts:217-224 | phase 1 raises the identified user's pending-login count by one and leaves every other user's count unchanged |
| UsuarioController.IdentificarKeepsInvariant | src/controllers/usuario.controller.ts:218-224 | phase 1 keeps the store invariant "an active token implies a used code" |
| UsuarioController.VerificarCodigo2fa | src/controllers/usuario.controller.ts:289-318 | a rejected code gives the 401 value and leaves the store unchanged; an accepted one returns crearToken of the validated user together with that user with `clave` scrubbed, and changes only that user's pending logins, setting their code state and token |
| UsuarioController.VerificarFrame | src/controllers/usuario.controller.ts:295-303 | phase 2 never changes any record's owner, code or `estadoToken`, and never changes an already used login |
| UsuarioController.VerificarConsumesAll | src/controllers/usuario.controller.ts:295-303 | after an accepted code the user has no pending login left; other users' pending counts are unchanged |
| UsuarioController.VerificarKeepsInvariant | src/controllers/usuario.controller.ts:295-303 | phase 2 keeps the store invariant "an active token implies a used code" |
| UsuarioController.CodeCannotBeReplayed | src/controllers/usuario.controller.ts:289-303 | if the validator accepts only pending codes of the requesting user, replaying an accepted request is rejected and changes nothing |
| UsuarioController.HandshakeEndToEnd | src/controllers/usuario.controller.ts:205-319 | for a user with no earlier pending login, phase 1 then an accepted phase 2 leaves the old records unchanged; the new record ends with its code used, the issued token and `estadoToken` still false |

## Left out

- CRUD endpoints `count`, `find`, `updateAll`, `findById`, `updateById`, `replaceById` and `deleteById`: each is a one-line repository call with no logic.
- `ValidarPermisosDeUsuario`: it forwards to `AuthService.VerificarPermisoDeUsuarioPorRol`, which is not part of this model.
- src/services/seguridad-usuario.service.ts: `crearClave` (generate-password) and `cifrarTexto` (MD5) are library wrappers. The hash is the opaque function `Deps.cifrarTexto` and random text is a per-call source.
- `identificarUsuario`, `validarCodigo2fa`, `crearToken`, `crearTextoAleatorio` and `obtenerRolDesdeToken` of the security service are not part of this model. They are opaque function values. `CodeCannotBeReplayed` states what it assumes about `validarCodigo2fa` (`ValidatesPending`).
- `parseBearerToken` and LoopBack metadata injection: the token is an `Option<string>` and the metadata is a pair of strings. A missing `metadata` or `options` (an `undefined` menu or action at run time) is not modelled.
- An undefined role: `obtenerRolDesdeToken` is modelled as always returning a defined role string. If it returned `undefined`, the `where` filter of `findOne` could drop the `rolId` condition and match any role's row for the menu. That path is not modelled, so `FailClosed` and `LookupKeyIsExact` hold only for defined roles.
- The length and freshness of generated text: `crearTextoAleatorio` is an arbitrary `nat -> string`. The model does not promise that the code has 5 characters, that the password has 10, or that a new code differs from stored ones. It only records which length the controller requests.
- `findOne` with several matching rows: the table is a map, so it holds at most one row per (rolId, menuId).
- Determinism and read-only access of the guard: `Authenticate` is a pure function of an immutable table, so equal inputs give equal outcomes and the table cannot change. No separate member states this.
- Sending the mail (`EnviarCorreoElectronico`) and its URL setting: this is network I/O. Phase 1 returns the outgoing message as a value (`Paso1.correo`) instead.
- Async behaviour: the unawaited `create` and `patch` promises and the `try/catch` that only logs. Writes are treated as immediate and successful.
- Concurrency: the source has no atomic consumption of a code, and the model has no interleavings.
- The `_id` the repository assigns in `create`, and the id of each `Login`: the Login store is a sequence in insertion order.
- The redundant second `if (usuario)` in `VerificarCodigo2fa`: it is always true at that point.
