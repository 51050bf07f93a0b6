/**
 * The access gates put in front of the views: `requiere_permiso`, which
 * checks the one profile flag a permission names, and `requiere_rol`, which
 * checks the profile's role against a list. Each is a decision from the
 * request to one outcome: the login redirect, a JSON 403 for AJAX calls,
 * a redirect to the equipo list with a flash message, or the view itself.
 */
module Decorators {
  import opened Wrappers

  /** The user's profile: a role and one flag per guarded action. */
  datatype Perfil = Perfil(
    rol: string,
    puedeEliminar: bool,
    puedeEditar: bool,
    puedeCrear: bool,
    puedeExportar: bool,
    puedeImportar: bool)

  /**
   * What the gates read from a request: whether the user is logged in, the
   * profile if one exists, and the `X-Requested-With` header if sent.
   */
  datatype Solicitud = Solicitud(autenticado: bool, perfil: Option<Perfil>, requestedWith: Option<string>)

  /** The outcome of a gate. */
  datatype Resultado =
    | RedirigirLogin                  // redirect('login')
    | Json403(error: string)          // {'success': False, 'error': ...} with status 403
    | RedirigirLista(mensaje: string) // messages.error(...) then redirect('equipos_lista')
    | LlamarVista                     // view_func(request, ...)

  predicate EsAjax(s: Solicitud) {
    s.requestedWith == Some("XMLHttpRequest")
  }

  /**
   * The profile the gate works with: the user's, or the one created for a
   * user without one (whose fields are the model's defaults).
   */
  function PerfilDe(s: Solicitud, porDefecto: Perfil): Perfil {
    if s.perfil.Some? then s.perfil.value else porDefecto
  }

  /** A refusal: JSON 403 for an AJAX request, else the list with the message flashed. */
  function Negar(s: Solicitud, mensaje: string): Resultado {
    if EsAjax(s) then Json403(mensaje) else RedirigirLista(mensaje)
  }

  // ---------------------------------------------------------------------------
  // requiere_permiso
  // ---------------------------------------------------------------------------

  /**
   * The if/elif chain of `requiere_permiso(permiso)`: the login redirect
   * exactly for an anonymous user, and otherwise the view or a refusal
   * carrying the permission's message.
   */
  function RequierePermiso(permiso: string, s: Solicitud, porDefecto: Perfil): (r: Resultado)
    ensures r == RedirigirLogin <==> !s.autenticado
    ensures r == LlamarVista || r == RedirigirLogin ||
            r == Json403(MensajePermiso(permiso)) || r == RedirigirLista(MensajePermiso(permiso))
  {
    if !s.autenticado then RedirigirLogin
    else
      var p := PerfilDe(s, porDefecto);
      if permiso == "eliminar" && !p.puedeEliminar then Negar(s, "No tienes permisos para eliminar equipos")
      else if permiso == "editar" && !p.puedeEditar then Negar(s, "No tienes permisos para editar equipos")
      else if permiso == "crear" && !p.puedeCrear then Negar(s, "No tienes permisos para crear equipos")
      else if permiso == "exportar" && !p.puedeExportar then RedirigirLista("No tienes permisos para exportar datos")
      else if permiso == "importar" && !p.puedeImportar then Negar(s, "No tienes permisos para importar datos")
      else LlamarVista
  }

  /** The flag a permission names, if it names one. */
  function Bandera(permiso: string, p: Perfil): Option<bool> {
    match permiso
    case "eliminar" => Some(p.puedeEliminar)
    case "editar" => Some(p.puedeEditar)
    case "crear" => Some(p.puedeCrear)
    case "exportar" => Some(p.puedeExportar)
    case "importar" => Some(p.puedeImportar)
    case _ => None
  }

  /** The refusal message of a permission. */
  function MensajePermiso(permiso: string): string {
    match permiso
    case "eliminar" => "No tienes permisos para eliminar equipos"
    case "editar" => "No tienes permisos para editar equipos"
    case "crear" => "No tienes permisos para crear equipos"
    case "exportar" => "No tienes permisos para exportar datos"
    case _ => "No tienes permisos para importar datos"
  }

  /** An anonymous user is sent to the login page whatever the permission and the profile. */
  lemma PermisoSinSesion(permiso: string, s: Solicitud, porDefecto: Perfil)
    requires !s.autenticado
    ensures RequierePermiso(permiso, s, porDefecto) == RedirigirLogin
  {
  }

  /**
   * A logged-in user reaches the view exactly when the permission names no
   * flag or the flag it names is set.
   */
  lemma PermisoConcedido(permiso: string, s: Solicitud, porDefecto: Perfil)
    requires s.autenticado
    ensures RequierePermiso(permiso, s, porDefecto) == LlamarVista <==> Bandera(permiso, PerfilDe(s, porDefecto)) != Some(false)
  {
  }

  /**
   * A refused permission other than `exportar` is a JSON 403 for an AJAX
   * request and a redirect to the list otherwise; a refused `exportar` is
   * always the redirect. Either way the message names the action.
   */
  lemma PermisoDenegado(permiso: string, s: Solicitud, porDefecto: Perfil)
    requires s.autenticado && Bandera(permiso, PerfilDe(s, porDefecto)) == Some(false)
    ensures permiso != "exportar" ==>
              RequierePermiso(permiso, s, porDefecto) ==
                (if EsAjax(s) then Json403(MensajePermiso(permiso)) else RedirigirLista(MensajePermiso(permiso)))
    ensures permiso == "exportar" ==> RequierePermiso(permiso, s, porDefecto) == RedirigirLista(MensajePermiso(permiso))
  {
  }

  /** Only the flag the permission names is read: profiles agreeing on it get the same outcome. */
  lemma PermisoSoloSuBandera(permiso: string, s: Solicitud, t: Solicitud, porDefecto: Perfil)
    requires s.autenticado == t.autenticado && s.requestedWith == t.requestedWith
    requires Bandera(permiso, PerfilDe(s, porDefecto)) == Bandera(permiso, PerfilDe(t, porDefecto))
    ensures RequierePermiso(permiso, s, porDefecto) == RequierePermiso(permiso, t, porDefecto)
  {
    if s.autenticado {
      PermisoConcedido(permiso, s, porDefecto);
      PermisoConcedido(permiso, t, porDefecto);
      if Bandera(permiso, PerfilDe(s, porDefecto)) == Some(false) {
        PermisoDenegado(permiso, s, porDefecto);
        PermisoDenegado(permiso, t, porDefecto);
      }
    }
  }

  // ---------------------------------------------------------------------------
  // requiere_rol
  // ---------------------------------------------------------------------------

  /** The `roles` argument: one role name, or a list of them. */
  datatype Roles = Uno(rol: string) | Varios(roles: seq<string>)

  /** `if isinstance(roles, str): roles = [roles]`. */
  function Normalizar(roles: Roles): (r: seq<string>)
    ensures roles.Uno? ==> r == [roles.rol]
    ensures roles.Varios? ==> r == roles.roles
  {
    match roles
    case Uno(rol) => [rol]
    case Varios(rs) => rs
  }

  const RolInsuficiente: string := "No tienes permisos suficientes para realizar esta acci\U{F3}n"

  /**
   * `requiere_rol(roles)`: the login redirect exactly for an anonymous user;
   * a logged-in user either reaches the view or is refused with the role
   * message.
   */
  function RequiereRol(roles: Roles, s: Solicitud, porDefecto: Perfil): (r: Resultado)
    ensures r == RedirigirLogin <==> !s.autenticado
    ensures r == LlamarVista || r == RedirigirLogin || r == Negar(s, RolInsuficiente)
  {
    if !s.autenticado then RedirigirLogin
    else if PerfilDe(s, porDefecto).rol !in Normalizar(roles) then Negar(s, RolInsuficiente)
    else LlamarVista
  }

  /**
   * An anonymous user is sent to the login page; a logged-in one reaches the
   * view exactly when the profile's role is one of the roles, and is
   * otherwise refused as for a permission.
   */
  lemma RolSpec(roles: Roles, s: Solicitud, porDefecto: Perfil)
    ensures !s.autenticado ==> RequiereRol(roles, s, porDefecto) == RedirigirLogin
    ensures s.autenticado ==>
              (RequiereRol(roles, s, porDefecto) == LlamarVista <==>
               exists i :: 0 <= i < |Normalizar(roles)| && Normalizar(roles)[i] == PerfilDe(s, porDefecto).rol)
    ensures s.autenticado && RequiereRol(roles, s, porDefecto) != LlamarVista ==>
              RequiereRol(roles, s, porDefecto) ==
                (if EsAjax(s) then Json403(RolInsuficiente) else RedirigirLista(RolInsuficiente))
  {
  }

  /** A single role behaves as the one-element list holding it. */
  lemma RolUnoComoLista(rol: string, s: Solicitud, porDefecto: Perfil)
    ensures RequiereRol(Uno(rol), s, porDefecto) == RequiereRol(Varios([rol]), s, porDefecto)
    ensures s.autenticado ==> (RequiereRol(Uno(rol), s, porDefecto) == LlamarVista <==> PerfilDe(s, porDefecto).rol == rol)
  {
  }
}
