/**
 * The authorization guard `AuthStrategy.authenticate` (src/auth/strategy.ts).
 *
 * A request carries an optional bearer token; the route carries the metadata
 * pair (menuId, accion). The caller's role comes from the token through an
 * unseen service, and the permission table `RolMenu` is looked up by the
 * exact key (rolId, menuId). The result is one of three HTTP 401 errors,
 * `undefined` (denied) or the profile {permitido: "Ok"}.
 */
module AuthStrategy {
  import opened Wrappers

  type RoleId = string
  type MenuId = string

  /** One `RolMenu` row: the four action flags of a role on a menu. */
  datatype PermRecord = PermRecord(guardar: bool, editar: bool, listar: bool, eliminar: bool)

  /** The permission table, at most one row per (rolId, menuId). */
  type PermTable = map<(RoleId, MenuId), PermRecord>

  /** The user profile returned on success. */
  datatype Profile = Profile(permitido: string)

  const FaltaDeToken: string := "No es posible ejecutar la accion por falta de un token "
  const FaltaDePermisos: string := "No es posible ejecutar la accion por falta de permisos"
  const AccionNoExiste: string := "No es posible ejecutar la accion porque no existe"

  /** The three errors the guard throws, each as HTTP 401. */
  datatype AuthError = MissingToken | NoPermissionRecord | UnknownAction {

    /**
     * The thrown message, the only thing that tells the three 401s apart:
     * each message belongs to exactly one error.
     */
    function Message(): (m: string)
      ensures |m| > 0
      ensures m == FaltaDeToken <==> this == MissingToken
      ensures m == FaltaDePermisos <==> this == NoPermissionRecord
      ensures m == AccionNoExiste <==> this == UnknownAction
    {
      match this
      case MissingToken => FaltaDeToken
      case NoPermissionRecord => FaltaDePermisos
      case UnknownAction => AccionNoExiste
    }
  }

  /** Distinct errors never share a message. */
  lemma MessagesDistinct(e1: AuthError, e2: AuthError)
    ensures e1.Message() == e2.Message() ==> e1 == e2
  {
  }

  /** Throw an error, resolve to `undefined`, or resolve to a profile. */
  datatype Outcome = Unauthorized(error: AuthError) | Denied | Allowed(profile: Profile)

  const OkProfile: Profile := Profile("Ok")

  /** JavaScript truthiness of the parsed token: absent and "" are both falsy. */
  predicate HasToken(token: Option<string>)
  {
    token.Some? && token.value != ""
  }

  /** The closed set of action names the switch knows. */
  datatype Accion = Guardar | Editar | Listar | Eliminar {

    function Name(): string
    {
      match this
      case Guardar => "guardar"
      case Editar => "editar"
      case Listar => "listar"
      case Eliminar => "eliminar"
    }
  }

  /** The switch's case labels, as a parse of the metadata string. */
  function ParseAccion(s: string): (r: Option<Accion>)
    ensures r.Some? ==> r.value.Name() == s
    ensures forall a: Accion :: a.Name() == s ==> r == Some(a)
  {
    if s == "guardar" then Some(Guardar)
    else if s == "editar" then Some(Editar)
    else if s == "listar" then Some(Listar)
    else if s == "eliminar" then Some(Eliminar)
    else None
  }

  /** The actions a row grants, as a set over the closed enumeration. */
  function Granted(rec: PermRecord): (g: set<Accion>)
    ensures Guardar in g <==> rec.guardar
    ensures Editar in g <==> rec.editar
    ensures Listar in g <==> rec.listar
    ensures Eliminar in g <==> rec.eliminar
  {
    (if rec.guardar then {Guardar} else {})
    + (if rec.editar then {Editar} else {})
    + (if rec.listar then {Listar} else {})
    + (if rec.eliminar then {Eliminar} else {})
  }

  /** The `findOne` key: the role resolved from the token and options[0]. */
  function LookupKey(token: Option<string>, rolDesdeToken: string -> RoleId,
                     options: (MenuId, string)): (RoleId, MenuId)
    requires HasToken(token)
  {
    (rolDesdeToken(token.value), options.0)
  }

  /**
   * `authenticate`: token check, lookup by (obtenerRolDesdeToken(token),
   * options[0]), then the switch over options[1] reading one flag.
   */
  function Authenticate(token: Option<string>, rolDesdeToken: string -> RoleId,
                        options: (MenuId, string), table: PermTable): (r: Outcome)
    // no (truthy) token: the final throw, whatever the table and metadata
    ensures !HasToken(token) ==> r == Unauthorized(MissingToken)
    // no row for the key: the "falta de permisos" throw, for every action
    ensures HasToken(token) ==>
      (LookupKey(token, rolDesdeToken, options) !in table ==> r == Unauthorized(NoPermissionRecord))
    // a row but an action outside the switch: the default-case throw
    ensures HasToken(token) && LookupKey(token, rolDesdeToken, options) in table ==>
      (ParseAccion(options.1).None? ==> r == Unauthorized(UnknownAction))
    // a row and a known action: allowed iff that action's own flag, else undefined
    ensures HasToken(token) && LookupKey(token, rolDesdeToken, options) in table ==>
      var rec := table[LookupKey(token, rolDesdeToken, options)];
      && (options.1 == "guardar" ==> (r == Allowed(OkProfile) <==> rec.guardar) && (r == Denied <==> !rec.guardar))
      && (options.1 == "editar" ==> (r == Allowed(OkProfile) <==> rec.editar) && (r == Denied <==> !rec.editar))
      && (options.1 == "listar" ==> (r == Allowed(OkProfile) <==> rec.listar) && (r == Denied <==> !rec.listar))
      && (options.1 == "eliminar" ==> (r == Allowed(OkProfile) <==> rec.eliminar) && (r == Denied <==> !rec.eliminar))
    // the only profile ever returned is {permitido: "Ok"}
    ensures r.Allowed? ==> r.profile == OkProfile
  {
    if HasToken(token) then
      var idRol := rolDesdeToken(token.value);
      var idMenu := options.0;
      var accion := options.1;
      if (idRol, idMenu) in table then
        var permiso := table[(idRol, idMenu)];
        var continuar: Option<bool> :=
          if accion == "guardar" then Some(permiso.guardar)
          else if accion == "editar" then Some(permiso.editar)
          else if accion == "listar" then Some(permiso.listar)
          else if accion == "eliminar" then Some(permiso.eliminar)
          else None;
        match continuar
        case None => Unauthorized(UnknownAction)
        case Some(true) => Allowed(Profile("Ok"))
        case Some(false) => Denied
      else
        Unauthorized(NoPermissionRecord)
    else
      Unauthorized(MissingToken)
  }

  /**
   * Reference decision over the closed action enumeration: "no row" and
   * "unknown action" kept apart from "action not granted".
   */
  function Decide(token: Option<string>, rolDesdeToken: string -> RoleId,
                  options: (MenuId, string), table: PermTable): Outcome
  {
    if !HasToken(token) then Unauthorized(MissingToken)
    else
      var key := (rolDesdeToken(token.value), options.0);
      if key !in table then Unauthorized(NoPermissionRecord)
      else match ParseAccion(options.1)
        case None => Unauthorized(UnknownAction)
        case Some(a) => if a in Granted(table[key]) then Allowed(OkProfile) else Denied
  }

  /** The string switch and the set-based matrix decide identically. */
  lemma AuthenticateMatchesMatrix(token: Option<string>, rolDesdeToken: string -> RoleId,
                                  options: (MenuId, string), table: PermTable)
    ensures Authenticate(token, rolDesdeToken, options, table)
            == Decide(token, rolDesdeToken, options, table)
  {
  }

  /** Fail-closed: a profile only with a token, a row, a known action and its flag. */
  lemma FailClosed(token: Option<string>, rolDesdeToken: string -> RoleId,
                   options: (MenuId, string), table: PermTable)
    ensures Authenticate(token, rolDesdeToken, options, table).Allowed?
            <==> && HasToken(token)
                 && (rolDesdeToken(token.value), options.0) in table
                 && ParseAccion(options.1).Some?
                 && ParseAccion(options.1).value in Granted(table[(rolDesdeToken(token.value), options.0)])
  {
    AuthenticateMatchesMatrix(token, rolDesdeToken, options, table);
  }

  /**
   * The table is read at exactly one key, (rolId from the token, options[0]):
   * two tables that agree there give the same outcome.
   */
  lemma LookupKeyIsExact(token: Option<string>, rolDesdeToken: string -> RoleId,
                         options: (MenuId, string), t1: PermTable, t2: PermTable)
    requires HasToken(token)
    requires var key := (rolDesdeToken(token.value), options.0);
             (key in t1 <==> key in t2) && (key in t1 ==> t1[key] == t2[key])
    ensures Authenticate(token, rolDesdeToken, options, t1)
            == Authenticate(token, rolDesdeToken, options, t2)
  {
  }

  /**
   * Each known action reads only its own flag: changing the other three
   * flags of the row never changes the outcome.
   */
  lemma ActionReadsOnlyItsFlag(token: Option<string>, rolDesdeToken: string -> RoleId,
                               options: (MenuId, string), table: PermTable,
                               a: Accion, other: PermRecord)
    requires HasToken(token)
    requires options.1 == a.Name()
    requires var key := (rolDesdeToken(token.value), options.0);
             key in table && (a in Granted(table[key]) <==> a in Granted(other))
    ensures var key := (rolDesdeToken(token.value), options.0);
            Authenticate(token, rolDesdeToken, options, table)
            == Authenticate(token, rolDesdeToken, options, table[key := other])
  {
  }
}
