/**
 * Credit-request workflow rules of the REST layer (backend/api/views.py): the
 * official/admin permission, the client address, the life cycle of a credit request
 * (create, evaluate, decide), the document checklist, the worker-type checks, role
 * permissions and the validity stamp on uploaded documents. Database queries are
 * replaced by the rows they would return, passed in as sequences.
 */
module Views {
  import opened Wrappers
  import opened Text
  import Seqs
  import Validadores

  // ---------------------------------------------------------------------------------
  // IsOfficialOrAdmin.has_permission
  // ---------------------------------------------------------------------------------

  /** The caller: authentication, superuser flag and the name of its profile's role, if any. */
  datatype Usuario = Usuario(autenticado: bool, superusuario: bool, rolNombre: Option<string>)

  /** Roles whose holders may evaluate and decide credit requests. */
  const RolesOficiales: set<string> := {"OFICIAL", "ADMIN"}

  /** `IsOfficialOrAdmin.has_permission`. */
  function TienePermiso(u: Usuario): (ok: bool)
    ensures ok ==> u.autenticado
    ensures ok <==> u.autenticado && (u.superusuario || (u.rolNombre.Some? && Upper(u.rolNombre.value) in RolesOficiales))
  {
    var nombre := if u.rolNombre.Some? then Upper(u.rolNombre.value) else "";
    u.autenticado && (u.superusuario || nombre == "OFICIAL" || nombre == "ADMIN")
  }

  /** Without a role only a superuser passes. */
  lemma SinRolSoloSuperusuario(u: Usuario)
    requires u.rolNombre.None?
    ensures TienePermiso(u) <==> u.autenticado && u.superusuario
  {
  }

  /** The role name is compared without regard to letter case. */
  lemma RolSinMayusculas(u: Usuario, nombre: string)
    ensures TienePermiso(u.(rolNombre := Some(nombre))) == TienePermiso(u.(rolNombre := Some(Upper(nombre))))
  {
    UpperIdempotent(nombre);
  }

  // ---------------------------------------------------------------------------------
  // get_client_ip
  // ---------------------------------------------------------------------------------

  /**
   * `get_client_ip`: the first comma-separated element of a non-empty X-Forwarded-For
   * header, otherwise REMOTE_ADDR (which may be absent).
   */
  function ClientIp(forwardedFor: Option<string>, remoteAddr: Option<string>): (ip: Option<string>)
    ensures forwardedFor.None? || forwardedFor.value == "" ==> ip == remoteAddr
    ensures forwardedFor.Some? && forwardedFor.value != "" ==>
      && ip.Some?
      && StartsWith(forwardedFor.value, ip.value)
      && ',' !in ip.value
      && (|ip.value| < |forwardedFor.value| ==> forwardedFor.value[|ip.value|] == ',')
  {
    if forwardedFor.Some? && forwardedFor.value != "" then Some(BeforeFirst(forwardedFor.value, ','))
    else remoteAddr
  }

  /** A forwarded header holding one address yields that address. */
  lemma IpUnica(forwardedFor: string, remoteAddr: Option<string>)
    requires forwardedFor != "" && ',' !in forwardedFor
    ensures ClientIp(Some(forwardedFor), remoteAddr) == Some(forwardedFor)
  {
    BeforeFirstAbsent(forwardedFor, ',');
  }

  // ---------------------------------------------------------------------------------
  // SolicitudCreditoViewSet: perform_create, evaluar, decidir
  // ---------------------------------------------------------------------------------

  /** The status codes these views answer with. */
  const Ok200 := 200
  const Creado201 := 201
  const Solicitud400 := 400
  const NoEncontrado404 := 404

  /** The fields of a credit request that the workflow actions read and write. */
  class SolicitudCredito {
    var estado: string
    var scoreRiesgo: Option<int>
    var observacionEvaluacion: string
    var fechaEvaluacion: Option<int>
    var fechaAprobacion: Option<int>
    var oficial: Option<int>

    /**
     * An approval date only on an approved request. The workflow actions keep this; a
     * plain update through the detail serializer, where both fields are writable, can
     * break it, so the actions do not demand it.
     */
    predicate Valid()
      reads this
    {
      fechaAprobacion.Some? ==> estado == "APROBADA"
    }

    /** A request as the create serializer saves it, before `perform_create`. */
    constructor (estado: string)
      ensures this.estado == estado
      ensures scoreRiesgo.None? && observacionEvaluacion == "" && fechaEvaluacion.None?
      ensures fechaAprobacion.None? && oficial.None?
      ensures Valid()
    {
      this.estado := estado;
      scoreRiesgo := None;
      observacionEvaluacion := "";
      fechaEvaluacion := None;
      fechaAprobacion := None;
      oficial := None;
    }

    /** `perform_create`: a request saved without an estado starts as ENVIADA. */
    method PerformCreate()
      requires Valid()
      modifies this
      ensures Valid()
      ensures estado == (if old(estado) == "" then "ENVIADA" else old(estado))
      ensures scoreRiesgo == old(scoreRiesgo) && observacionEvaluacion == old(observacionEvaluacion)
      ensures fechaEvaluacion == old(fechaEvaluacion) && fechaAprobacion == old(fechaAprobacion)
      ensures oficial == old(oficial)
    {
      if estado == "" {
        estado := "ENVIADA";
      }
    }

    /**
     * `evaluar`: without a score nothing changes and the answer is 400. Otherwise the score,
     * the remark (default '') and the evaluation time are recorded, a request still ENVIADA
     * or DRAFT becomes EVALUADA, and the caller's employee record, when it has one, becomes
     * the officer in charge.
     */
    method Evaluar(score: Option<int>, observacion: Option<string>, ahora: int, empleado: Option<int>)
      returns (status: int)
      modifies this
      ensures old(Valid()) ==> Valid()
      ensures status == (if score.None? then Solicitud400 else Ok200)
      ensures score.None? ==>
        && estado == old(estado) && scoreRiesgo == old(scoreRiesgo)
        && observacionEvaluacion == old(observacionEvaluacion) && fechaEvaluacion == old(fechaEvaluacion)
        && fechaAprobacion == old(fechaAprobacion) && oficial == old(oficial)
      ensures score.Some? ==>
        && scoreRiesgo == score
        && observacionEvaluacion == observacion.GetOr("")
        && fechaEvaluacion == Some(ahora)
        && estado == (if old(estado) in {"ENVIADA", "DRAFT"} then "EVALUADA" else old(estado))
        && fechaAprobacion == old(fechaAprobacion)
        && oficial == (if empleado.Some? then empleado else old(oficial))
    {
      if score.None? {
        return Solicitud400;
      }
      scoreRiesgo := score;
      observacionEvaluacion := observacion.GetOr("");
      fechaEvaluacion := Some(ahora);
      if estado == "ENVIADA" || estado == "DRAFT" {
        estado := "EVALUADA";
      }
      oficial := if empleado.Some? then empleado else oficial;
      status := Ok200;
    }

    /**
     * `decidir`: the decision is upper-cased; anything but APROBAR or RECHAZAR answers 400
     * and changes nothing. APROBAR approves and stamps the approval time, RECHAZAR rejects
     * and clears it, whatever the request's estado was.
     */
    method Decidir(decision: Option<string>, ahora: int, empleado: Option<int>)
      returns (status: int)
      modifies this
      ensures old(Valid()) ==> Valid()
      ensures status == Ok200 ==> Valid()
      ensures var d := Upper(decision.GetOr(""));
        && status == (if d in {"APROBAR", "RECHAZAR"} then Ok200 else Solicitud400)
        && (d !in {"APROBAR", "RECHAZAR"} ==>
              estado == old(estado) && fechaAprobacion == old(fechaAprobacion) && oficial == old(oficial))
        && (d == "APROBAR" ==> estado == "APROBADA" && fechaAprobacion == Some(ahora))
        && (d == "RECHAZAR" ==> estado == "RECHAZADA" && fechaAprobacion.None?)
        && (d in {"APROBAR", "RECHAZAR"} ==> oficial == (if empleado.Some? then empleado else old(oficial)))
      ensures scoreRiesgo == old(scoreRiesgo) && observacionEvaluacion == old(observacionEvaluacion)
      ensures fechaEvaluacion == old(fechaEvaluacion)
    {
      var d := Upper(decision.GetOr(""));
      if d != "APROBAR" && d != "RECHAZAR" {
        return Solicitud400;
      }
      if d == "APROBAR" {
        estado := "APROBADA";
        fechaAprobacion := Some(ahora);
      } else {
        estado := "RECHAZADA";
        fechaAprobacion := None;
      }
      oficial := if empleado.Some? then empleado else oficial;
      status := Ok200;
    }
  }

  /**
   * The letter case of a decision does not matter: lower-casing or upper-casing it first
   * leaves the upper-cased form `decidir` compares unchanged.
   */
  lemma DecisionSinMayusculas(decision: string)
    ensures Upper(Upper(decision)) == Upper(decision)
    ensures Upper(Lower(decision)) == Upper(decision)
  {
    UpperIdempotent(decision);
    assert forall i :: 0 <= i < |decision| ==> UpperChar(LowerChar(decision[i])) == UpperChar(decision[i]);
  }

  // ---------------------------------------------------------------------------------
  // checklist
  // ---------------------------------------------------------------------------------

  /** A requirement row (`RequisitoProductoDocumento`) with the fields of its document type. */
  datatype Requisito = Requisito(
    producto: int,
    tipoTrabajador: string,
    documentoId: int,
    codigo: string,
    nombre: string,
    vigenciaDias: Option<int>,
    obligatorio: bool)

  /** An uploaded document (`DocumentoAdjunto`) of a request. */
  datatype Adjunto = Adjunto(
    id: int,
    documentoTipoId: int,
    valido: Option<bool>,
    observacion: string,
    archivoUrl: Option<string>,
    fechaEmision: Option<Validadores.Fecha>)

  /** One line of the checklist answer. */
  datatype ItemChecklist = ItemChecklist(
    codigo: string,
    nombre: string,
    obligatorio: bool,
    recibido: bool,
    valido: Option<bool>,
    motivo: Option<string>,
    adjuntoId: Option<int>,
    archivoUrl: Option<string>,
    fechaEmision: Option<Validadores.Fecha>,
    documentoTipoId: int)

  /**
   * The attachment `{a.documento_tipo_id: a for a in ...}` keeps for a document type: the
   * last one of that type in the request's list.
   */
  function UltimoAdjunto(adjuntos: seq<Adjunto>, tipo: int): (r: Option<Adjunto>)
    ensures r.Some? <==> exists i :: 0 <= i < |adjuntos| && adjuntos[i].documentoTipoId == tipo
    ensures r.Some? ==> r.value in adjuntos && r.value.documentoTipoId == tipo
  {
    if |adjuntos| == 0 then None
    else if adjuntos[|adjuntos| - 1].documentoTipoId == tipo then Some(adjuntos[|adjuntos| - 1])
    else
      var r := UltimoAdjunto(adjuntos[..|adjuntos| - 1], tipo);
      assert forall i :: 0 <= i < |adjuntos| - 1 ==> adjuntos[..|adjuntos| - 1][i] == adjuntos[i];
      r
  }

  /** The last attachment of a type wins over every earlier one of that type. */
  lemma {:induction false} UltimoGana(adjuntos: seq<Adjunto>, j: int)
    requires 0 <= j < |adjuntos|
    requires forall k :: j < k < |adjuntos| ==> adjuntos[k].documentoTipoId != adjuntos[j].documentoTipoId
    ensures UltimoAdjunto(adjuntos, adjuntos[j].documentoTipoId) == Some(adjuntos[j])
  {
    if j < |adjuntos| - 1 {
      var pre := adjuntos[..|adjuntos| - 1];
      assert pre[j] == adjuntos[j];
      UltimoGana(pre, j);
    }
  }

  /** The checklist line for a requirement and the attachment found for its document type. */
  function Item(r: Requisito, a: Option<Adjunto>): (it: ItemChecklist)
    ensures it.codigo == r.codigo && it.nombre == r.nombre && it.obligatorio == r.obligatorio
    ensures it.documentoTipoId == r.documentoId
    ensures it.recibido <==> a.Some?
    ensures a.None? ==>
      it.valido.None? && it.motivo.None? && it.adjuntoId.None? && it.archivoUrl.None? && it.fechaEmision.None?
    ensures a.Some? ==>
      && it.valido == a.value.valido
      && it.motivo == (if a.value.observacion == "" then None else Some(a.value.observacion))
      && it.adjuntoId == Some(a.value.id)
      && it.archivoUrl == (if a.value.archivoUrl.Some? && a.value.archivoUrl.value != "" then a.value.archivoUrl else None)
      && it.fechaEmision == a.value.fechaEmision
  {
    match a
    case None => ItemChecklist(r.codigo, r.nombre, r.obligatorio, false, None, None, None, None, None, r.documentoId)
    case Some(x) =>
      var url := if x.archivoUrl.Some? && x.archivoUrl.value != "" then x.archivoUrl else None;
      var motivo := if x.observacion == "" then None else Some(x.observacion);
      ItemChecklist(r.codigo, r.nombre, r.obligatorio, true, x.valido, motivo, Some(x.id), url, x.fechaEmision, r.documentoId)
  }

  /** The requirements of one product for one worker type, in their stored order. */
  function RequisitosDe(requisitos: seq<Requisito>, producto: int, tipo: string): (rs: seq<Requisito>)
    ensures forall r :: r in rs <==> r in requisitos && r.producto == producto && r.tipoTrabajador == tipo
    ensures Seqs.IsSubsequence(rs, requisitos)
    ensures forall r :: r in requisitos && r.producto == producto && r.tipoTrabajador == tipo ==>
      multiset(rs)[r] == multiset(requisitos)[r]
  {
    Seqs.Filter(requisitos, (r: Requisito) => r.producto == producto && r.tipoTrabajador == tipo)
  }

  /** `adjuntos = {a.documento_tipo_id: a for a in sol.documentos.all()}`. */
  method IndicePorTipo(adjuntos: seq<Adjunto>) returns (m: map<int, Adjunto>)
    ensures forall t :: t in m <==> UltimoAdjunto(adjuntos, t).Some?
    ensures forall t :: t in m ==> UltimoAdjunto(adjuntos, t) == Some(m[t])
  {
    m := map[];
    for i := 0 to |adjuntos|
      invariant forall t :: t in m <==> UltimoAdjunto(adjuntos[..i], t).Some?
      invariant forall t :: t in m ==> UltimoAdjunto(adjuntos[..i], t) == Some(m[t])
    {
      assert adjuntos[..i + 1][..i] == adjuntos[..i];
      m := m[adjuntos[i].documentoTipoId := adjuntos[i]];
    }
    assert adjuntos[..|adjuntos|] == adjuntos;
  }

  /**
   * `checklist`: 400 when the request has no product or no worker type; otherwise one line
   * per requirement of that product and worker type, in order, each joined with the last
   * attachment of its document type.
   */
  method Checklist(producto: Option<int>, tipoTrabajador: Option<string>,
                   requisitos: seq<Requisito>, adjuntos: seq<Adjunto>)
    returns (res: Result<seq<ItemChecklist>, int>)
    ensures res.Err? <==> producto.None? || tipoTrabajador.None? || tipoTrabajador.value == ""
    ensures res.Err? ==> res.error == Solicitud400
    ensures res.Ok? ==>
      var rs := RequisitosDe(requisitos, producto.value, tipoTrabajador.value);
      && |res.value| == |rs|
      && forall j :: 0 <= j < |rs| ==> res.value[j] == Item(rs[j], UltimoAdjunto(adjuntos, rs[j].documentoId))
  {
    if producto.None? || tipoTrabajador.None? || tipoTrabajador.value == "" {
      return Err(Solicitud400);
    }
    var rs := RequisitosDe(requisitos, producto.value, tipoTrabajador.value);
    var indice := IndicePorTipo(adjuntos);
    var items := Lineas(rs, adjuntos, indice);
    return Ok(items);
  }

  /** One line per requirement, in order, looking each document type up in the index. */
  method Lineas(rs: seq<Requisito>, adjuntos: seq<Adjunto>, indice: map<int, Adjunto>)
    returns (items: seq<ItemChecklist>)
    requires forall t :: t in indice <==> UltimoAdjunto(adjuntos, t).Some?
    requires forall t :: t in indice ==> UltimoAdjunto(adjuntos, t) == Some(indice[t])
    ensures |items| == |rs|
    ensures forall j :: 0 <= j < |rs| ==> items[j] == Item(rs[j], UltimoAdjunto(adjuntos, rs[j].documentoId))
  {
    items := [];
    for i := 0 to |rs|
      invariant |items| == i
      invariant forall j :: 0 <= j < i ==> items[j] == Item(rs[j], UltimoAdjunto(adjuntos, rs[j].documentoId))
    {
      var t := rs[i].documentoId;
      var a := if t in indice then Some(indice[t]) else None;
      assert a == UltimoAdjunto(adjuntos, t);
      items := items + [Item(rs[i], a)];
    }
  }

  /** A line is marked received exactly when some attachment of its document type exists. */
  lemma RecibidoSiHayAdjunto(r: Requisito, adjuntos: seq<Adjunto>)
    ensures Item(r, UltimoAdjunto(adjuntos, r.documentoId)).recibido <==>
      exists i :: 0 <= i < |adjuntos| && adjuntos[i].documentoTipoId == r.documentoId
  {
  }

  // ---------------------------------------------------------------------------------
  // requisitos action and RequisitoProductoDocumentoViewSet.get_queryset
  // ---------------------------------------------------------------------------------

  /** The worker types a requirement can be attached to. */
  const TiposTrabajador: set<string> := {"PUBLICO", "PRIVADO", "INDEPENDIENTE"}

  /** One entry of the public `requisitos` answer. */
  datatype RequisitoPublico = RequisitoPublico(codigo: string, nombre: string, vigenciaDias: Option<int>, obligatorio: bool)

  function Publico(r: Requisito): RequisitoPublico {
    RequisitoPublico(r.codigo, r.nombre, r.vigenciaDias, r.obligatorio)
  }

  /** `ProductoFinancieroViewSet.requisitos`: 400 on a missing or unknown worker type. */
  function RequisitosProducto(tipo: Option<string>, producto: int, requisitos: seq<Requisito>)
    : (res: Result<seq<RequisitoPublico>, int>)
    ensures res.Err? <==> tipo.None? || tipo.value !in TiposTrabajador
    ensures res.Err? ==> res.error == Solicitud400
    ensures res.Ok? ==>
      var rs := RequisitosDe(requisitos, producto, tipo.value);
      |res.value| == |rs| && forall j :: 0 <= j < |rs| ==> res.value[j] == Publico(rs[j])
  {
    if tipo.None? || tipo.value !in TiposTrabajador then Err(Solicitud400)
    else
      var rs := RequisitosDe(requisitos, producto, tipo.value);
      Ok(seq(|rs|, j requires 0 <= j < |rs| => Publico(rs[j])))
  }

  /**
   * `RequisitoProductoDocumentoViewSet.get_queryset`: filter by product when one is given,
   * and by worker type only when it is one of the known types.
   */
  function ListarRequisitos(requisitos: seq<Requisito>, producto: Option<int>, tipo: Option<string>)
    : (rs: seq<Requisito>)
    ensures Seqs.IsSubsequence(rs, requisitos)
    ensures forall r :: r in rs <==>
      && r in requisitos
      && (producto.Some? ==> r.producto == producto.value)
      && (tipo.Some? && tipo.value in TiposTrabajador ==> r.tipoTrabajador == tipo.value)
    ensures forall r ::
      (&& r in requisitos
       && (producto.Some? ==> r.producto == producto.value)
       && (tipo.Some? && tipo.value in TiposTrabajador ==> r.tipoTrabajador == tipo.value))
      ==> multiset(rs)[r] == multiset(requisitos)[r]
  {
    var porProducto :=
      if producto.Some? then Seqs.Filter(requisitos, (r: Requisito) => r.producto == producto.value) else requisitos;
    var porTipo :=
      if tipo.Some? && tipo.value in TiposTrabajador
      then Seqs.Filter(porProducto, (r: Requisito) => r.tipoTrabajador == tipo.value)
      else porProducto;
    Seqs.SubsequenceReflexive(requisitos);
    Seqs.SubsequenceReflexive(porProducto);
    Seqs.SubsequenceTransitive(porTipo, porProducto, requisitos);
    assert forall r :: r in requisitos && (producto.Some? ==> r.producto == producto.value) ==>
      r in porProducto && multiset(porProducto)[r] == multiset(requisitos)[r];
    porTipo
  }

  /**
   * The list endpoint ignores an unknown worker type instead of rejecting it, while the
   * `requisitos` action answers 400 for the same value.
   */
  lemma TipoInvalidoIgnorado(requisitos: seq<Requisito>, producto: Option<int>, tipo: string, p: int)
    requires tipo !in TiposTrabajador
    ensures ListarRequisitos(requisitos, producto, Some(tipo)) == ListarRequisitos(requisitos, producto, None)
    ensures RequisitosProducto(Some(tipo), p, requisitos) == Err(Solicitud400)
  {
  }

  /** For a known worker type both endpoints select the same requirements, in the same order. */
  lemma {:induction false} AmbosListadosCoinciden(requisitos: seq<Requisito>, p: int, tipo: string)
    requires tipo in TiposTrabajador
    ensures ListarRequisitos(requisitos, Some(p), Some(tipo)) == RequisitosDe(requisitos, p, tipo)
  {
    Seqs.FilterConjunction(requisitos,
      (r: Requisito) => r.producto == p,
      (r: Requisito) => r.tipoTrabajador == tipo,
      (r: Requisito) => r.producto == p && r.tipoTrabajador == tipo);
  }

  // ---------------------------------------------------------------------------------
  // RolViewSet.add_permiso
  // ---------------------------------------------------------------------------------

  /** `add_permiso` over the (rol, permiso) pairs, which are unique together. */
  function AddPermiso(asignados: set<(int, int)>, permisos: set<int>, rol: int, permisoId: int)
    : (r: (int, set<(int, int)>))
    ensures r.0 == NoEncontrado404 <==> permisoId !in permisos
    ensures r.0 == Creado201 <==> permisoId in permisos && (rol, permisoId) !in asignados
    ensures r.0 == Solicitud400 <==> permisoId in permisos && (rol, permisoId) in asignados
    ensures r.1 == asignados + (if r.0 == Creado201 then {(rol, permisoId)} else {})
    ensures r.0 != NoEncontrado404 ==> (rol, permisoId) in r.1
  {
    if permisoId !in permisos then (NoEncontrado404, asignados)
    else if (rol, permisoId) in asignados then (Solicitud400, asignados)
    else (Creado201, asignados + {(rol, permisoId)})
  }

  /** Adding the same permission twice: the second call answers 400 and changes nothing. */
  lemma AddPermisoDosVeces(asignados: set<(int, int)>, permisos: set<int>, rol: int, permisoId: int)
    requires permisoId in permisos
    ensures var primero := AddPermiso(asignados, permisos, rol, permisoId);
      AddPermiso(primero.1, permisos, rol, permisoId) == (Solicitud400, primero.1)
  {
  }

  // ---------------------------------------------------------------------------------
  // DocumentoAdjuntoViewSet.create / update
  // ---------------------------------------------------------------------------------

  /** The stored fields of an uploaded document that create and update stamp. */
  class DocumentoAdjunto {
    var documentoTipoId: int
    var fechaEmision: Option<Validadores.Fecha>
    var valido: Option<bool>
    var observacion: string

    /** The stamp: a verdict is recorded, and the remark is empty exactly when valid. */
    predicate Sellado()
      reads this
    {
      valido.Some? && (valido.value <==> observacion == "")
    }

    constructor (documentoTipoId: int, fechaEmision: Option<Validadores.Fecha>)
      ensures this.documentoTipoId == documentoTipoId && this.fechaEmision == fechaEmision
      ensures valido.None? && observacion == ""
    {
      this.documentoTipoId := documentoTipoId;
      this.fechaEmision := fechaEmision;
      valido := None;
      observacion := "";
    }

    /**
     * The stamping shared by create and update: `valido` is the verdict of
     * `validar_vigencia` on the issue date and the document type's validity period,
     * `observacion` is '' when valid and the reason otherwise.
     */
    method Sellar(vigenciaDias: Option<int>, hoy: int)
      modifies this`valido, this`observacion
      ensures var v := Validadores.ValidarVigencia(fechaEmision, vigenciaDias, hoy);
        && valido == Some(v.valido)
        && observacion == (if v.valido then "" else v.motivo.GetOr(""))
      ensures Sellado()
    {
      var v := Validadores.ValidarVigencia(fechaEmision, vigenciaDias, hoy);
      valido := Some(v.valido);
      observacion := if v.valido then "" else v.motivo.GetOr("");
      if !v.valido {
        assert StartsWith(v.motivo.value, Validadores.PrefijoVencido);
      }
    }

    /**
     * `update` / `partial_update`: 400 and nothing changes when the serializer rejects the
     * data (`serializadorValido` is its verdict, which this model does not compute).
     * Otherwise the document type and the issue date present in the data replace the stored
     * ones, absent ones are kept (`None`; `Some(None)` clears the date), and the document is
     * re-stamped with the validity period `vigenciaDias` of its type after the update.
     */
    method Actualizar(serializadorValido: bool, nuevoTipo: Option<int>,
                      nuevaFecha: Option<Option<Validadores.Fecha>>, vigenciaDias: Option<int>, hoy: int)
      returns (status: int)
      modifies this
      ensures status == (if serializadorValido then Ok200 else Solicitud400)
      ensures !serializadorValido ==>
        && documentoTipoId == old(documentoTipoId) && fechaEmision == old(fechaEmision)
        && valido == old(valido) && observacion == old(observacion)
      ensures serializadorValido ==>
        var v := Validadores.ValidarVigencia(nuevaFecha.GetOr(old(fechaEmision)), vigenciaDias, hoy);
        && documentoTipoId == nuevoTipo.GetOr(old(documentoTipoId))
        && fechaEmision == nuevaFecha.GetOr(old(fechaEmision))
        && valido == Some(v.valido) && observacion == (if v.valido then "" else v.motivo.GetOr(""))
        && Sellado()
    {
      if !serializadorValido {
        return Solicitud400;
      }
      documentoTipoId := nuevoTipo.GetOr(documentoTipoId);
      fechaEmision := nuevaFecha.GetOr(fechaEmision);
      Sellar(vigenciaDias, hoy);
      status := Ok200;
    }
  }

  /**
   * `DocumentoAdjuntoViewSet.create`: 400 when the form lacks the request or the document
   * type (both arrive as text, '' when absent), and 400 when the serializer then rejects
   * the data (a missing file, an unknown request or type, a malformed date;
   * `serializadorValido` is its verdict, which this model does not compute). Otherwise the
   * saved document is stamped.
   */
  method CrearAdjunto(solicitud: string, documentoTipo: string, serializadorValido: bool, documentoTipoId: int,
                      fechaEmision: Option<Validadores.Fecha>, vigenciaDias: Option<int>, hoy: int)
    returns (res: Result<DocumentoAdjunto, int>)
    ensures res.Err? <==> solicitud == "" || documentoTipo == "" || !serializadorValido
    ensures res.Err? ==> res.error == Solicitud400
    ensures res.Ok? ==>
      var v := Validadores.ValidarVigencia(fechaEmision, vigenciaDias, hoy);
      && fresh(res.value)
      && res.value.documentoTipoId == documentoTipoId && res.value.fechaEmision == fechaEmision
      && res.value.valido == Some(v.valido)
      && res.value.observacion == (if v.valido then "" else v.motivo.GetOr(""))
      && res.value.Sellado()
  {
    if solicitud == "" || documentoTipo == "" || !serializadorValido {
      return Err(Solicitud400);
    }
    var adj := new DocumentoAdjunto(documentoTipoId, fechaEmision);
    adj.Sellar(vigenciaDias, hoy);
    return Ok(adj);
  }
}
