/**
 * The user rows the client and employee management pages fetch from `/users/` (the list
 * action answers with `UserDetailSerializer`, backend/api/serializers.py:256-281), and the
 * two payload shapes the pages accept: a plain array or a `{results}` page.
 */
module ListaUsuarios {
  import opened Wrappers
  import opened Text
  import opened Seqs

  /** The name fields of a user, each possibly absent. */
  datatype Nombres = Nombres(username: Option<string>, firstName: Option<string>, lastName: Option<string>)

  /**
   * `cliente_info`: the keys the client page reads (`documento`, `preferencial`) and the
   * keys `ClienteSerializer` sends (`tipo_documento`, `numero_documento`,
   * `es_cliente_preferencial`).
   */
  datatype ClienteInfo = ClienteInfo(
    documento: Option<string>,
    preferencial: Option<bool>,
    tipoDocumento: Option<string>,
    numeroDocumento: Option<string>,
    esClientePreferencial: Option<bool>)

  /** `cliente_info` exactly as `ClienteSerializer` (backend/api/serializers.py:235-245) produces it. */
  predicate DelBackend(c: ClienteInfo) {
    c.documento.None? && c.preferencial.None?
    && c.tipoDocumento.Some? && c.numeroDocumento.Some? && c.esClientePreferencial.Some?
  }

  /** `empleado_info`, as `EmpleadoSerializer` sends it. */
  datatype EmpleadoInfo = EmpleadoInfo(
    userInfo: Option<Nombres>,
    codigoEmpleado: Option<string>,
    departamento: Option<string>,
    puedeAprobarCreditos: Option<bool>)

  /** One user row; `cliente_info` and `empleado_info` are null for users without that profile. */
  datatype FilaUsuario = FilaUsuario(nombres: Nombres, clienteInfo: Option<ClienteInfo>, empleadoInfo: Option<EmpleadoInfo>)

  /** The response body: an array, or an object whose `results` may be missing (a null body included). */
  datatype Payload = Arreglo(filas: seq<FilaUsuario>) | Objeto(results: Option<seq<FilaUsuario>>)

  /** `Array.isArray(data) ? data : data?.results || []`. */
  function Filas(p: Payload): (rows: seq<FilaUsuario>)
    ensures p.Arreglo? ==> rows == p.filas
    ensures p.Objeto? ==> rows == p.results.GetOr([])
  {
    match p
    case Arreglo(filas) => filas
    case Objeto(results) => results.GetOr([])
  }

  /** `onlyClients`: the rows with a `cliente_info`, in order. */
  function SoloClientes(p: Payload): (rows: seq<FilaUsuario>)
    ensures IsSubsequence(rows, Filas(p))
    ensures forall u :: u in rows <==> u in Filas(p) && u.clienteInfo.Some?
    ensures forall u :: u in Filas(p) && u.clienteInfo.Some? ==> multiset(rows)[u] == multiset(Filas(p))[u]
  {
    Filter(Filas(p), (u: FilaUsuario) => u.clienteInfo.Some?)
  }

  /** `onlyEmployees`: the rows with an `empleado_info`, in order. */
  function SoloEmpleados(p: Payload): (rows: seq<FilaUsuario>)
    ensures IsSubsequence(rows, Filas(p))
    ensures forall u :: u in rows <==> u in Filas(p) && u.empleadoInfo.Some?
    ensures forall u :: u in Filas(p) && u.empleadoInfo.Some? ==> multiset(rows)[u] == multiset(Filas(p))[u]
  {
    Filter(Filas(p), (u: FilaUsuario) => u.empleadoInfo.Some?)
  }

  /** `filters.q.toLowerCase().trim()`, the query both management pages search with. */
  function Consulta(q: string): (qn: string)
    ensures qn == "" <==> forall i :: 0 <= i < |q| ==> IsSpace(q[i])
  {
    var l := Lower(q);
    assert forall i :: 0 <= i < |q| ==> (IsSpace(l[i]) <==> IsSpace(q[i]));
    Trim(l)
  }

  /** `campo?.toLowerCase().includes(q)`: false for a missing field. */
  predicate Incluye(campo: Option<string>, q: string) {
    campo.Some? && Contains(Lower(campo.value), q)
  }

  /** Every text contains the empty query. */
  lemma IncluyeVacio(campo: Option<string>)
    ensures Incluye(campo, "") <==> campo.Some?
  {
    if campo.Some? {
      assert StartsWith(Lower(campo.value), "");
    }
  }
}
