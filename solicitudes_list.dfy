/**
 * The in-memory filter of the credit application list
 * (frontend/src/pages/solicitudes/SolicitudesList.jsx): a state selector and a free-text
 * search over the client's name, document and the application id.
 */
module SolicitudesList {
  import opened Wrappers
  import opened Text
  import opened Seqs
  import opened Navegador

  /** One application row, with the optional fields the filter reads. */
  datatype FilaSolicitud = FilaSolicitud(
    id: Option<string>,
    estado: Option<string>,
    panelNombre: Option<string>,
    panelDocumento: Option<string>,
    firstName: Option<string>,
    lastName: Option<string>,
    numeroDocumento: Option<string>,
    clienteNombre: Option<string>,
    cliente: Option<int>)

  /** `a || b` on an optional text and a text. */
  function OTexto(a: Option<string>, b: string): (r: string)
    ensures Veraz(a) ==> r == a.value
    ensures !Veraz(a) ==> r == b
  {
    if Veraz(a) then a.value else b
  }

  /** The state selector: 'TODOS' keeps every row, any other value the rows whose upper-cased state equals it. */
  predicate CoincideEstado(r: FilaSolicitud, estado: string) {
    estado == "TODOS" || Upper(OTexto(r.estado, "")) == estado
  }

  /**
   * The name shown and searched: the panel name, else the trimmed "first last", else
   * `cliente_nombre`, else "Cliente #<cliente>"; never empty.
   */
  function Nombre(r: FilaSolicitud): (n: string)
    ensures n != ""
    ensures Veraz(r.panelNombre) ==> n == r.panelNombre.value
    ensures !Veraz(r.panelNombre) && Trim(OTexto(r.firstName, "") + " " + OTexto(r.lastName, "")) != "" ==>
      n == Trim(OTexto(r.firstName, "") + " " + OTexto(r.lastName, ""))
    ensures !Veraz(r.panelNombre) && Trim(OTexto(r.firstName, "") + " " + OTexto(r.lastName, "")) == "" ==>
      n == OTexto(r.clienteNombre, "Cliente #" + (if r.cliente.Some? then IntToString(r.cliente.value) else "undefined"))
  {
    var completo := Trim(OTexto(r.firstName, "") + " " + OTexto(r.lastName, ""));
    if Veraz(r.panelNombre) then r.panelNombre.value
    else if completo != "" then completo
    else if Veraz(r.clienteNombre) then r.clienteNombre.value
    else "Cliente #" + (if r.cliente.Some? then IntToString(r.cliente.value) else "undefined")
  }

  /** The document searched: the panel's, else the client's number, else ''. */
  function Documento(r: FilaSolicitud): (d: string)
    ensures Veraz(r.panelDocumento) ==> d == r.panelDocumento.value
    ensures !Veraz(r.panelDocumento) ==> d == OTexto(r.numeroDocumento, "")
  {
    OTexto(r.panelDocumento, OTexto(r.numeroDocumento, ""))
  }

  /** The query as compared: trimmed, then lower-cased. */
  function Consulta(q: string): (qn: string)
    ensures qn == "" <==> forall i :: 0 <= i < |q| ==> IsSpace(q[i])
  {
    Lower(Trim(q))
  }

  /** A blank query matches every row; otherwise the lower-cased name, document or id must contain it. */
  predicate CoincideConsulta(r: FilaSolicitud, qn: string) {
    qn == ""
    || Contains(Lower(Nombre(r)), qn)
    || Contains(Lower(Documento(r)), qn)
    || Contains(Lower(OTexto(r.id, "")), qn)
  }

  /** `filtered`: the rows passing both the state selector and the search, in their original order. */
  function Filtrar(rows: seq<FilaSolicitud>, estado: string, q: string): (r: seq<FilaSolicitud>)
    ensures IsSubsequence(r, rows)
    ensures forall x :: x in r <==> x in rows && CoincideEstado(x, estado) && CoincideConsulta(x, Consulta(q))
    ensures forall x :: x in rows && CoincideEstado(x, estado) && CoincideConsulta(x, Consulta(q)) ==>
      multiset(r)[x] == multiset(rows)[x]
  {
    var qn := Consulta(q);
    Filter(rows, x => CoincideEstado(x, estado) && CoincideConsulta(x, qn))
  }

  /** Both filters combine by AND: filtering by state, then by the query, gives the same list. */
  lemma {:induction false} FiltrosEnCadena(rows: seq<FilaSolicitud>, estado: string, q: string)
    ensures Filtrar(rows, estado, q) ==
      Filter(Filter(rows, x => CoincideEstado(x, estado)), x => CoincideConsulta(x, Consulta(q)))
  {
    var qn := Consulta(q);
    FilterConjunction(rows, x => CoincideEstado(x, estado), x => CoincideConsulta(x, qn),
                      x => CoincideEstado(x, estado) && CoincideConsulta(x, qn));
  }

  /** 'TODOS' with a blank query shows every row, unchanged. */
  lemma {:induction false} SinFiltrosTodo(rows: seq<FilaSolicitud>, q: string)
    requires forall i :: 0 <= i < |q| ==> IsSpace(q[i])
    ensures Filtrar(rows, "TODOS", q) == rows
  {
    var qn := Consulta(q);
    FilterAll(rows, x => CoincideEstado(x, "TODOS") && CoincideConsulta(x, qn));
  }
}
