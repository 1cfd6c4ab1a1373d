/**
 * The staff management page (frontend/src/components/EmployeeManagement/EmployeeManagement.js):
 * the in-memory filter over the employee rows, by free text, department and approval
 * rights.
 */
module EmployeeManagement {
  import opened Wrappers
  import opened Text
  import opened Seqs
  import opened ListaUsuarios

  /** The page's filter inputs. */
  datatype Filtros = Filtros(q: string, departamento: string, puedeAprobar: string)

  /** `u.empleado_info || {}`. */
  function Info(u: FilaUsuario): EmpleadoInfo {
    if u.empleadoInfo.Some? then u.empleadoInfo.value else EmpleadoInfo(None, None, None, None)
  }

  /** `ei.user_info || u`: the nested user data when present, else the row's own. */
  function NombresDe(u: FilaUsuario): (n: Nombres)
    ensures u.empleadoInfo.Some? && u.empleadoInfo.value.userInfo.Some? ==> n == u.empleadoInfo.value.userInfo.value
    ensures !(u.empleadoInfo.Some? && u.empleadoInfo.value.userInfo.Some?) ==> n == u.nombres
  {
    if Info(u).userInfo.Some? then Info(u).userInfo.value else u.nombres
  }

  /** Free text on username, first or last name or employee code; a missing field never matches. */
  predicate CoincideConsulta(u: FilaUsuario, q: string) {
    var ui := NombresDe(u);
    Incluye(ui.username, q) || Incluye(ui.firstName, q) || Incluye(ui.lastName, q) || Incluye(Info(u).codigoEmpleado, q)
  }

  predicate CoincideDepartamento(u: FilaUsuario, d: string) {
    d == "" || Info(u).departamento == Some(d)
  }

  /** `ei.puede_aprobar_creditos` is truthy. */
  predicate Aprueba(u: FilaUsuario) {
    Info(u).puedeAprobarCreditos == Some(true)
  }

  /** The three-state approval filter: '' keeps all, 'true' the rows that may approve, 'false' the rest. */
  predicate CoincideAprobacion(u: FilaUsuario, a: string) {
    a == "" || (a == "true" && Aprueba(u)) || (a == "false" && !Aprueba(u))
  }

  predicate Coincide(u: FilaUsuario, f: Filtros) {
    CoincideConsulta(u, Consulta(f.q)) && CoincideDepartamento(u, f.departamento) && CoincideAprobacion(u, f.puedeAprobar)
  }

  /** `filtered`: the employee rows passing all three conditions, in their original order. */
  function Filtrar(rows: seq<FilaUsuario>, f: Filtros): (r: seq<FilaUsuario>)
    ensures IsSubsequence(r, rows)
    ensures forall u :: u in r <==>
      && u in rows
      && CoincideConsulta(u, Consulta(f.q))
      && (f.departamento == "" || Info(u).departamento == Some(f.departamento))
      && CoincideAprobacion(u, f.puedeAprobar)
    ensures forall u :: u in rows && Coincide(u, f) ==> multiset(r)[u] == multiset(rows)[u]
  {
    Filter(rows, u => Coincide(u, f))
  }

  /** A row with none of the searched fields is never shown, even for an empty query. */
  lemma SinCamposNoCoincide(u: FilaUsuario, f: Filtros)
    requires NombresDe(u) == Nombres(None, None, None) && Info(u).codigoEmpleado.None?
    ensures !Coincide(u, f)
  {
  }

  /** With an empty query a row is shown as soon as it has any of the searched fields. */
  lemma ConsultaVacia(u: FilaUsuario)
    ensures CoincideConsulta(u, "") <==>
      var ui := NombresDe(u);
      ui.username.Some? || ui.firstName.Some? || ui.lastName.Some? || Info(u).codigoEmpleado.Some?
  {
    var ui := NombresDe(u);
    IncluyeVacio(ui.username);
    IncluyeVacio(ui.firstName);
    IncluyeVacio(ui.lastName);
    IncluyeVacio(Info(u).codigoEmpleado);
  }

  /** When `empleado_info.user_info` is present, the row's own name fields play no part. */
  lemma UserInfoPrevalece(u: FilaUsuario, otros: Nombres, q: string)
    requires u.empleadoInfo.Some? && u.empleadoInfo.value.userInfo.Some?
    ensures CoincideConsulta(u, q) <==> CoincideConsulta(u.(nombres := otros), q)
  {
  }

  /** 'true' and 'false' split the rows kept by '' into those that may approve and the rest. */
  lemma {:induction false} AprobacionParticiona(rows: seq<FilaUsuario>, q: string, d: string)
    ensures forall u :: u in Filtrar(rows, Filtros(q, d, "")) <==>
      u in Filtrar(rows, Filtros(q, d, "true")) || u in Filtrar(rows, Filtros(q, d, "false"))
    ensures forall u :: !(u in Filtrar(rows, Filtros(q, d, "true")) && u in Filtrar(rows, Filtros(q, d, "false")))
  {
  }

  /** The three conditions combine by AND: filtering by one and then the others gives the same list. */
  lemma {:induction false} FiltrosEnCadena(rows: seq<FilaUsuario>, f: Filtros)
    ensures Filtrar(rows, f) ==
      Filter(Filter(rows, u => CoincideConsulta(u, Consulta(f.q))),
             u => CoincideDepartamento(u, f.departamento) && CoincideAprobacion(u, f.puedeAprobar))
  {
    FilterConjunction(rows, u => CoincideConsulta(u, Consulta(f.q)),
                      u => CoincideDepartamento(u, f.departamento) && CoincideAprobacion(u, f.puedeAprobar),
                      u => Coincide(u, f));
  }
}
