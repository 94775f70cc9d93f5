/**
 * The logic of `UsuarioController` (src/controllers/usuario.controller.ts):
 * password derivation in `create`, and the two phases of the two-factor
 * login, `identificarUsuario` and `VerificarCodigo2fa`, as pure transitions
 * of the Login store. The security service's methods are unseen and are
 * carried as function values in `Deps`; random text is a per-call source.
 */
module UsuarioController {
  import opened Wrappers
  import opened LoginStore

  /** The fields of a `Usuario` the controller touches. */
  datatype Usuario = Usuario(id: string, primerNombre: string, segundoNombre: string,
                             correo: string, clave: string)

  /** Phase 1 request body. */
  datatype Credenciales = Credenciales(correo: string, clave: string)

  /** Phase 2 request body: the user and the code they received. */
  datatype FactorDeAutenticacionPorCodigo = FactorDeAutenticacionPorCodigo(usuarioId: string, codigo2fa: string)

  /** The notification request sent to the mail service in phase 1. */
  datatype Correo = Correo(correoDestino: string, nombreDestino: string,
                           contenidoCorreo: string, asuntoCorreo: string)

  /**
   * The security service and configuration the controller calls:
   * `identificarUsuario` (reads the user store), `validarCodigo2fa` (reads the
   * Login store), `crearToken`, `cifrarTexto` (MD5), and the mail subject.
   */
  datatype Deps = Deps(
    identificarUsuario: Credenciales -> Option<Usuario>,
    validarCodigo2fa: (FactorDeAutenticacionPorCodigo, seq<Login>) -> Option<Usuario>,
    crearToken: Usuario -> string,
    cifrarTexto: string -> string,
    asunto2fa: string)

  /** Requested length of the generated password in `create`. */
  const ClaveLength: nat := 10
  /** Requested length of the one-time code in phase 1. */
  const CodigoLength: nat := 5

  /** Status of the `HttpErrors[401]` values the controller returns. */
  const HttpUnauthorized: int := 401

  const CredencialesIncorrectas: string := "Credenciales incorrectas"
  const CodigoInvalido: string := "Codigo de 2fa invalido para el usuario definido"
  const CuerpoCodigo: string := "Su código de segundo factor de autenticacion es : "

  /** What `create` hands to the repository. */
  function Create(usuario: Usuario, crearTextoAleatorio: nat -> string, deps: Deps): (stored: Usuario)
    ensures stored.clave == deps.cifrarTexto(crearTextoAleatorio(ClaveLength))
    ensures stored.(clave := usuario.clave) == usuario
  {
    var clave := crearTextoAleatorio(ClaveLength);
    var claveCifrada := deps.cifrarTexto(clave);
    usuario.(clave := claveCifrada)
  }

  /** The caller cannot choose the stored password: the supplied `clave` is ignored. */
  lemma CreateIgnoresSuppliedClave(usuario: Usuario, otra: string,
                                   crearTextoAleatorio: nat -> string, deps: Deps)
    ensures Create(usuario, crearTextoAleatorio, deps)
            == Create(usuario.(clave := otra), crearTextoAleatorio, deps)
  {
  }

  /** Phase 1 response: the scrubbed user, or the returned 401 error value. */
  datatype Respuesta1 = Identificado(usuario: Usuario) | Rechazo1(status: int, mensaje: string)

  datatype Paso1 = Paso1(logins: seq<Login>, respuesta: Respuesta1, correo: Option<Correo>)

  /** Phase 1, `identificarUsuario`. */
  function IdentificarUsuario(deps: Deps, crearTextoAleatorio: nat -> string,
                              credenciales: Credenciales, logins: seq<Login>): (r: Paso1)
    // unknown credentials: 401 value, nothing stored, nothing sent
    ensures deps.identificarUsuario(credenciales).None? ==>
      r == Paso1(logins, Rechazo1(HttpUnauthorized, CredencialesIncorrectas), None)
    // identified: exactly one new Login, appended after the untouched old ones
    ensures deps.identificarUsuario(credenciales).Some? ==>
      var u := deps.identificarUsuario(credenciales).value;
      && |r.logins| == |logins| + 1
      && r.logins[..|logins|] == logins
      && r.logins[|logins|] == Login(u.id, crearTextoAleatorio(CodigoLength), false, "", false)
    // the response is the user with the secret scrubbed
    ensures deps.identificarUsuario(credenciales).Some? ==>
      r.respuesta.Identificado? && r.respuesta.usuario.clave == ""
      && r.respuesta.usuario.(clave := deps.identificarUsuario(credenciales).value.clave)
         == deps.identificarUsuario(credenciales).value
    // the code goes only to the user's mail address
    ensures deps.identificarUsuario(credenciales).Some? ==>
      var u := deps.identificarUsuario(credenciales).value;
      && r.correo.Some?
      && r.correo.value.correoDestino == u.correo
      && r.correo.value.contenidoCorreo == CuerpoCodigo + crearTextoAleatorio(CodigoLength)
      && r.correo.value.nombreDestino == u.primerNombre + " " + u.segundoNombre
      && r.correo.value.asuntoCorreo == deps.asunto2fa
  {
    match deps.identificarUsuario(credenciales)
    case None => Paso1(logins, Rechazo1(HttpUnauthorized, CredencialesIncorrectas), None)
    case Some(usuario) =>
      var codigo2fa := crearTextoAleatorio(CodigoLength);
      var login := Login(usuario.id, codigo2fa, false, "", false);
      var respuesta := usuario.(clave := "");
      var datos := Correo(usuario.correo, usuario.primerNombre + " " + usuario.segundoNombre,
                          CuerpoCodigo + codigo2fa, deps.asunto2fa);
      Paso1(logins + [login], Identificado(respuesta), Some(datos))
  }

  /** The response does not depend on the generated code: it never leaks it. */
  lemma IdentificarResponseHidesCode(deps: Deps, g1: nat -> string, g2: nat -> string,
                                     credenciales: Credenciales, logins: seq<Login>)
    ensures IdentificarUsuario(deps, g1, credenciales, logins).respuesta
            == IdentificarUsuario(deps, g2, credenciales, logins).respuesta
  {
  }

  /** Phase 1 adds one pending login for the identified user and none for anyone else. */
  lemma {:induction false} IdentificarAddsOnePending(deps: Deps, crearTextoAleatorio: nat -> string,
                                                    credenciales: Credenciales, logins: seq<Login>, uid: string)
    requires deps.identificarUsuario(credenciales).Some?
    ensures var r := IdentificarUsuario(deps, crearTextoAleatorio, credenciales, logins);
            CountPending(r.logins, uid)
            == CountPending(logins, uid) + (if uid == deps.identificarUsuario(credenciales).value.id then 1 else 0)
  {
    var r := IdentificarUsuario(deps, crearTextoAleatorio, credenciales, logins);
    var nuevo := r.logins[|logins|];
    assert r.logins == logins + [nuevo];
    CountPendingAppend(logins, [nuevo], uid);
    assert [nuevo][1..] == [];
  }

  /** Phase 1 keeps the store invariant: the new login has no active token. */
  lemma IdentificarKeepsInvariant(deps: Deps, crearTextoAleatorio: nat -> string,
                                  credenciales: Credenciales, logins: seq<Login>)
    requires TokenImpliesConsumed(logins)
    ensures TokenImpliesConsumed(IdentificarUsuario(deps, crearTextoAleatorio, credenciales, logins).logins)
  {
  }

  /** Phase 2 response: the scrubbed user and token, or the returned 401 error value. */
  datatype Respuesta2 = Verificado(user: Usuario, token: string) | Rechazo2(status: int, mensaje: string)

  datatype Paso2 = Paso2(logins: seq<Login>, respuesta: Respuesta2)

  /** Phase 2, `VerificarCodigo2fa`. */
  function VerificarCodigo2fa(deps: Deps, credenciales: FactorDeAutenticacionPorCodigo,
                              logins: seq<Login>): (r: Paso2)
    // rejected code: 401 value and no Login change
    ensures deps.validarCodigo2fa(credenciales, logins).None? ==>
      r == Paso2(logins, Rechazo2(HttpUnauthorized, CodigoInvalido))
    // accepted: the token is made from the validated (unscrubbed) user, the secret is scrubbed
    ensures deps.validarCodigo2fa(credenciales, logins).Some? ==>
      var u := deps.validarCodigo2fa(credenciales, logins).value;
      && r.respuesta.Verificado?
      && r.respuesta.token == deps.crearToken(u)
      && r.respuesta.user.clave == ""
      && r.respuesta.user.(clave := u.clave) == u
    // accepted: only that user's pending logins change, and only their code state and token
    ensures deps.validarCodigo2fa(credenciales, logins).Some? ==>
      var u := deps.validarCodigo2fa(credenciales, logins).value;
      && |r.logins| == |logins|
      && (forall i :: 0 <= i < |logins| && IsPending(logins[i], u.id) ==>
            r.logins[i] == logins[i].(estadoCodigo2fa := true, token := deps.crearToken(u)))
      && (forall i :: 0 <= i < |logins| && !IsPending(logins[i], u.id) ==> r.logins[i] == logins[i])
  {
    match deps.validarCodigo2fa(credenciales, logins)
    case None => Paso2(logins, Rechazo2(HttpUnauthorized, CodigoInvalido))
    case Some(usuario) =>
      var token := deps.crearToken(usuario);
      var respuesta := usuario.(clave := "");
      Paso2(PatchLogins(logins, usuario.id, token), Verificado(respuesta, token))
  }

  /** Fields phase 2 never writes: owner, code and token state of every record. */
  lemma VerificarFrame(deps: Deps, credenciales: FactorDeAutenticacionPorCodigo, logins: seq<Login>)
    ensures var r := VerificarCodigo2fa(deps, credenciales, logins).logins;
            && |r| == |logins|
            && forall i :: 0 <= i < |logins| ==>
                 && r[i].usuarioId == logins[i].usuarioId
                 && r[i].codigo2fa == logins[i].codigo2fa
                 && r[i].estadoToken == logins[i].estadoToken
                 && (logins[i].estadoCodigo2fa ==> r[i] == logins[i])
  {
  }

  /** After an accepted code no login of that user is pending; other users keep theirs. */
  lemma VerificarConsumesAll(deps: Deps, credenciales: FactorDeAutenticacionPorCodigo,
                             logins: seq<Login>, other: string)
    requires deps.validarCodigo2fa(credenciales, logins).Some?
    requires other != deps.validarCodigo2fa(credenciales, logins).value.id
    ensures var u := deps.validarCodigo2fa(credenciales, logins).value;
            var r := VerificarCodigo2fa(deps, credenciales, logins).logins;
            CountPending(r, u.id) == 0 && CountPending(r, other) == CountPending(logins, other)
  {
    var u := deps.validarCodigo2fa(credenciales, logins).value;
    PatchConsumesAll(logins, u.id, deps.crearToken(u), other);
  }

  /** Phase 2 keeps the store invariant: `estadoToken` is never set. */
  lemma VerificarKeepsInvariant(deps: Deps, credenciales: FactorDeAutenticacionPorCodigo, logins: seq<Login>)
    requires TokenImpliesConsumed(logins)
    ensures TokenImpliesConsumed(VerificarCodigo2fa(deps, credenciales, logins).logins)
  {
  }

  /**
   * What `validarCodigo2fa` is assumed to check on a given store: it accepts a
   * code only for the user named in the request and only while a pending
   * login of that user carries that code.
   */
  predicate ValidatesPending(deps: Deps, credenciales: FactorDeAutenticacionPorCodigo, logins: seq<Login>)
  {
    match deps.validarCodigo2fa(credenciales, logins)
    case None => true
    case Some(u) =>
      && u.id == credenciales.usuarioId
      && exists i :: 0 <= i < |logins| && IsPending(logins[i], u.id) && logins[i].codigo2fa == credenciales.codigo2fa
  }

  /**
   * A code cannot be redeemed twice: if the validator only accepts pending
   * codes, replaying an accepted request on the patched store is rejected.
   */
  lemma CodeCannotBeReplayed(deps: Deps, credenciales: FactorDeAutenticacionPorCodigo, logins: seq<Login>)
    requires deps.validarCodigo2fa(credenciales, logins).Some?
    requires ValidatesPending(deps, credenciales, logins)
    requires ValidatesPending(deps, credenciales, VerificarCodigo2fa(deps, credenciales, logins).logins)
    ensures var after := VerificarCodigo2fa(deps, credenciales, logins).logins;
            VerificarCodigo2fa(deps, credenciales, after).respuesta == Rechazo2(HttpUnauthorized, CodigoInvalido)
            && VerificarCodigo2fa(deps, credenciales, after).logins == after
  {
    var after := VerificarCodigo2fa(deps, credenciales, logins).logins;
    var u := deps.validarCodigo2fa(credenciales, logins).value;
    assert forall i :: 0 <= i < |after| ==> !IsPending(after[i], u.id);
  }

  /**
   * The whole handshake for one user with no earlier pending login: the
   * record phase 1 creates ends with its code used and the token written,
   * while `estadoToken` stays false because phase 2 never sets it.
   */
  lemma {:induction false} HandshakeEndToEnd(deps: Deps, crearTextoAleatorio: nat -> string,
                                            credenciales: Credenciales,
                                            codigo: FactorDeAutenticacionPorCodigo, logins: seq<Login>)
    requires deps.identificarUsuario(credenciales).Some?
    requires CountPending(logins, deps.identificarUsuario(credenciales).value.id) == 0
    requires var after1 := IdentificarUsuario(deps, crearTextoAleatorio, credenciales, logins).logins;
             deps.validarCodigo2fa(codigo, after1) == deps.identificarUsuario(credenciales)
    ensures var u := deps.identificarUsuario(credenciales).value;
            var after1 := IdentificarUsuario(deps, crearTextoAleatorio, credenciales, logins).logins;
            var after2 := VerificarCodigo2fa(deps, codigo, after1).logins;
            && after2[..|logins|] == logins
            && after2[|logins|] == Login(u.id, crearTextoAleatorio(CodigoLength), true, deps.crearToken(u), false)
  {
    var u := deps.identificarUsuario(credenciales).value;
    var after1 := IdentificarUsuario(deps, crearTextoAleatorio, credenciales, logins).logins;
    var after2 := VerificarCodigo2fa(deps, codigo, after1).logins;
    assert forall i :: 0 <= i < |logins| ==> !IsPending(logins[i], u.id);
    assert forall i :: 0 <= i < |logins| ==> after2[i] == after1[i] == logins[i];
  }
}
