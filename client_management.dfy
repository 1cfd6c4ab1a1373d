/**
 * The client management page (frontend/src/components/ClientManagement/ClientManagement.js):
 * the in-memory filter over the client rows, by free text, document type and preferred
 * status. The page reads `cliente_info.documento` and `cliente_info.preferencial`, keys the
 * backend never sends; `FiltrarComoEscrito` models the page as written and
 * `FiltroComoEscritoVacio` shows what that does to real rows, while `Filtrar` reads the keys
 * the backend does send and is the filter the rest of the model uses.
 */
module ClientManagement {
  import opened Wrappers
  import opened Text
  import opened Seqs
  import opened Navegador
  import opened ListaUsuarios

  /** The page's filter inputs. */
  datatype Filtros = Filtros(q: string, tipoDocumento: string, preferencial: string)

  /** `x || ''` on an optional text. */
  function OVacio(a: Option<string>): string {
    if a.Some? then a.value else ""
  }

  /** The three-state preferred filter: '' keeps all, 'true' the preferred, 'false' the rest. */
  predicate CoincidePreferencial(filtro: string, pref: bool) {
    filtro == "" || (filtro == "true" && pref) || (filtro == "false" && !pref)
  }

  // ---- The page as written: it reads `documento` and `preferencial`. ----

  predicate CoincideComoEscrito(u: FilaUsuario, f: Filtros) {
    var c := if u.clienteInfo.Some? then u.clienteInfo.value else ClienteInfo(None, None, None, None, None);
    var q := Consulta(f.q);
    var matchQ := Incluye(u.nombres.username, q) || Incluye(u.nombres.firstName, q) || Incluye(u.nombres.lastName, q)
                  || Contains(Lower(OVacio(c.documento)), q);
    var tipo := BeforeFirst(OVacio(c.documento), ' ');
    var matchTipo := f.tipoDocumento == "" || tipo == f.tipoDocumento;
    matchQ && matchTipo && CoincidePreferencial(f.preferencial, c.preferencial == Some(true))
  }

  function FiltrarComoEscrito(rows: seq<FilaUsuario>, f: Filtros): (r: seq<FilaUsuario>)
    ensures IsSubsequence(r, rows)
    ensures forall u :: u in r <==> u in rows && CoincideComoEscrito(u, f)
    ensures forall u :: u in rows && CoincideComoEscrito(u, f) ==> multiset(r)[u] == multiset(rows)[u]
  {
    Filter(rows, u => CoincideComoEscrito(u, f))
  }

  /**
   * On rows as the backend sends them, choosing a document type or 'true' for preferred
   * empties the list, whatever the rows hold.
   */
  lemma FiltroComoEscritoVacio(rows: seq<FilaUsuario>, f: Filtros)
    requires forall u :: u in rows ==> u.clienteInfo.Some? && DelBackend(u.clienteInfo.value)
    requires f.tipoDocumento != "" || f.preferencial == "true"
    ensures FiltrarComoEscrito(rows, f) == []
  {
    forall u | u in rows
      ensures !CoincideComoEscrito(u, f)
    {
      assert BeforeFirst("", ' ') == "";
    }
    FilterNone(rows, u => CoincideComoEscrito(u, f));
  }

  // ---- The filter reading the keys the backend sends. ----

  /** The document as the backend renders it elsewhere: "tipo numero", or '' without a number. */
  function Documento(c: ClienteInfo): (d: string)
    ensures Veraz(c.numeroDocumento) ==> d == OVacio(c.tipoDocumento) + " " + c.numeroDocumento.value
    ensures !Veraz(c.numeroDocumento) ==> d == ""
  {
    if Veraz(c.numeroDocumento) then OVacio(c.tipoDocumento) + " " + c.numeroDocumento.value else ""
  }

  /** Free text on username, first or last name or the document, case-insensitively. */
  predicate CoincideConsulta(u: FilaUsuario, q: string) {
    var c := if u.clienteInfo.Some? then u.clienteInfo.value else ClienteInfo(None, None, None, None, None);
    Incluye(u.nombres.username, q) || Incluye(u.nombres.firstName, q) || Incluye(u.nombres.lastName, q)
    || Contains(Lower(Documento(c)), q)
  }

  predicate CoincideTipo(u: FilaUsuario, tipo: string) {
    tipo == "" || (u.clienteInfo.Some? && u.clienteInfo.value.tipoDocumento == Some(tipo))
  }

  predicate EsPreferencial(u: FilaUsuario) {
    u.clienteInfo.Some? && u.clienteInfo.value.esClientePreferencial == Some(true)
  }

  predicate Coincide(u: FilaUsuario, f: Filtros) {
    CoincideConsulta(u, Consulta(f.q)) && CoincideTipo(u, f.tipoDocumento) && CoincidePreferencial(f.preferencial, EsPreferencial(u))
  }

  /** `filtered`: the client rows passing all three conditions, in their original order. */
  function Filtrar(rows: seq<FilaUsuario>, f: Filtros): (r: seq<FilaUsuario>)
    ensures IsSubsequence(r, rows)
    ensures forall u :: u in r <==>
      && u in rows
      && CoincideConsulta(u, Consulta(f.q))
      && (f.tipoDocumento == "" || (u.clienteInfo.Some? && u.clienteInfo.value.tipoDocumento == Some(f.tipoDocumento)))
      && CoincidePreferencial(f.preferencial, EsPreferencial(u))
    ensures forall u :: u in rows && Coincide(u, f) ==> multiset(r)[u] == multiset(rows)[u]
  {
    Filter(rows, u => Coincide(u, f))
  }

  /** An empty query matches every row, since every text contains ''. */
  lemma ConsultaVaciaCoincide(u: FilaUsuario)
    ensures CoincideConsulta(u, "")
  {
    var c := if u.clienteInfo.Some? then u.clienteInfo.value else ClienteInfo(None, None, None, None, None);
    assert StartsWith(Lower(Documento(c)), "");
  }

  /** With only a document type chosen, exactly the clients of that type remain. */
  lemma {:induction false} FiltroPorTipo(rows: seq<FilaUsuario>, tipo: string)
    requires tipo != ""
    ensures forall u :: u in Filtrar(rows, Filtros("", tipo, "")) <==>
      u in rows && u.clienteInfo.Some? && u.clienteInfo.value.tipoDocumento == Some(tipo)
  {
    forall u | u in rows {
      ConsultaVaciaCoincide(u);
    }
  }

  /** 'true' and 'false' split the rows kept by '' into the preferred and the rest. */
  lemma {:induction false} PreferencialParticiona(rows: seq<FilaUsuario>, q: string, tipo: string)
    ensures forall u :: u in Filtrar(rows, Filtros(q, tipo, "")) <==>
      u in Filtrar(rows, Filtros(q, tipo, "true")) || u in Filtrar(rows, Filtros(q, tipo, "false"))
    ensures forall u :: !(u in Filtrar(rows, Filtros(q, tipo, "true")) && u in Filtrar(rows, Filtros(q, tipo, "false")))
    ensures forall u :: u in Filtrar(rows, Filtros(q, tipo, "true")) ==> EsPreferencial(u)
  {
  }

  /** The three conditions combine by AND: filtering by one and then the others gives the same list. */
  lemma {:induction false} FiltrosEnCadena(rows: seq<FilaUsuario>, f: Filtros)
    ensures Filtrar(rows, f) ==
      Filter(Filter(rows, u => CoincideConsulta(u, Consulta(f.q))),
             u => CoincideTipo(u, f.tipoDocumento) && CoincidePreferencial(f.preferencial, EsPreferencial(u)))
  {
    FilterConjunction(rows, u => CoincideConsulta(u, Consulta(f.q)),
                      u => CoincideTipo(u, f.tipoDocumento) && CoincidePreferencial(f.preferencial, EsPreferencial(u)),
                      u => Coincide(u, f));
  }
}
