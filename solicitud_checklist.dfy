/**
 * The document checklist page of a credit application
 * (frontend/src/pages/solicitudes/SolicitudChecklist.jsx): which items still need work,
 * the badge of each row, the document type a new upload is filed under, and the upload,
 * replace and delete handlers of a row with their guard clauses and busy flags.
 */
module SolicitudChecklist {
  import opened Wrappers
  import opened Seqs

  /** One checklist item as the page receives it. */
  datatype ItemVista = ItemVista(
    codigo: string,
    nombre: string,
    recibido: bool,
    valido: Option<bool>,
    documentoTipoId: Option<int>,
    adjuntoId: Option<int>,
    fechaEmision: Option<string>)

  /** `!i.recibido || i.valido === false`: the item is missing or was observed by an officer. */
  predicate Falta(i: ItemVista) {
    !i.recibido || i.valido == Some(false)
  }

  /** `faltantes`: the items that still need work, in checklist order. */
  function Faltantes(items: seq<ItemVista>): (r: seq<ItemVista>)
    ensures IsSubsequence(r, items)
    ensures forall i :: i in r <==> i in items && (!i.recibido || i.valido == Some(false))
    ensures forall i :: i in items && (!i.recibido || i.valido == Some(false)) ==> multiset(r)[i] == multiset(items)[i]
  {
    Filter(items, Falta)
  }

  /** The closing message: complete exactly when every item was received and none is marked invalid. */
  datatype Mensaje = Completo | Pendiente

  function MensajeFinal(items: seq<ItemVista>): (m: Mensaje)
    ensures m == Completo <==> forall i :: i in items ==> i.recibido && i.valido != Some(false)
  {
    var f := Faltantes(items);
    if |f| == 0 then Completo
    else
      assert f[0] in f;
      Pendiente
  }

  /** A received item whose validity is still unknown does not block completion. */
  lemma PendienteDeRevisionNoFalta(items: seq<ItemVista>)
    requires forall i :: i in items ==> i.recibido && i.valido.None?
    ensures MensajeFinal(items) == Completo
  {
  }

  /** The badge of a row. */
  datatype Badge = BadgeFalta | Observado | BadgeOk

  function BadgeDe(i: ItemVista): (b: Badge)
    ensures b == BadgeFalta <==> !i.recibido
    ensures b == Observado <==> i.recibido && i.valido == Some(false)
    ensures b == BadgeOk <==> i.recibido && i.valido != Some(false)
  {
    var recibido := i.recibido;
    var observ := recibido && i.valido == Some(false);
    if recibido then (if observ then Observado else BadgeOk) else BadgeFalta
  }

  /** The badges and the closing message agree: a row is counted as missing exactly when its badge is not OK. */
  lemma BadgeCoincideConFaltantes(items: seq<ItemVista>, i: ItemVista)
    requires i in items
    ensures i in Faltantes(items) <==> BadgeDe(i) != BadgeOk
  {
  }

  /** `DOC_MAP`: document codes to `DocumentoTipo` ids. */
  const DocMap: map<string, int> := map[
    "CI" := 1, "DOMICILIO" := 2, "BOLETAS_3M" := 3, "AFP_1M" := 4, "EXTRACTOS_6M" := 5, "CERT_TRABAJO" := 6,
    "PROFORMA_VEH" := 7, "FOLIO_REAL" := 8, "GRAVAMEN" := 9, "AVALUO" := 10, "NIT" := 11, "IVA_6M" := 12]

  /** `item.documento_tipo_id || DOC_MAP[item.codigo]`. */
  function DocTipoId(i: ItemVista): (r: Option<int>)
    ensures i.documentoTipoId.Some? && i.documentoTipoId.value != 0 ==> r == i.documentoTipoId
    ensures !(i.documentoTipoId.Some? && i.documentoTipoId.value != 0) ==>
      (r.Some? <==> i.codigo in DocMap) && (r.Some? ==> r.value == DocMap[i.codigo])
  {
    if i.documentoTipoId.Some? && i.documentoTipoId.value != 0 then i.documentoTipoId
    else if i.codigo in DocMap then Some(DocMap[i.codigo])
    else None
  }

  /** Every mapped code has a truthy id, and no two codes share one. */
  lemma DocMapInyectivo()
    ensures forall c :: c in DocMap ==> 1 <= DocMap[c] <= 12
    ensures forall c, d :: c in DocMap && d in DocMap && DocMap[c] == DocMap[d] ==> c == d
  {
  }

  /** `fecha || undefined`: the issue date is sent only when not empty. */
  function FechaEnviada(fecha: string): (r: Option<string>)
    ensures r.None? <==> fecha == ""
    ensures r.Some? ==> r.value == fecha
  {
    if fecha == "" then None else Some(fecha)
  }

  /** `item.adjunto_id` is truthy: there is an attachment to replace or delete. */
  predicate TieneAdjunto(i: ItemVista) {
    i.adjuntoId.Some? && i.adjuntoId.value != 0
  }

  /** A file chosen in the row's file input. */
  datatype Archivo = Archivo(nombre: string)

  /** The requests a row sends. */
  datatype Peticion =
    | Subida(documentoTipoId: int, archivo: Archivo, fechaEmision: Option<string>)
    | Reemplazo(adjuntoId: int, documentoTipoIdReemplazo: Option<int>, archivoNuevo: Archivo, fechaReemplazo: Option<string>)
    | Eliminacion(adjuntoEliminado: int)

  /** What a click does: nothing, an alert, or a request sent with both busy flags raised. */
  datatype Inicio = Nada | Alerta(texto: string) | Enviar(peticion: Peticion)

  /** The page's shared `busy` flag. */
  class Pagina {
    var busy: bool

    constructor ()
      ensures !busy
    {
      busy := false;
    }
  }

  /** One `RowItem`: its item, the chosen file, the date input and its own busy flag. */
  class RowItem {
    const item: ItemVista
    var file: Option<Archivo>
    var fecha: string
    var localBusy: bool
    var fileKey: nat

    constructor (item: ItemVista)
      ensures this.item == item && file.None? && fecha == item.fechaEmision.GetOr("") && !localBusy && fileKey == 0
    {
      this.item := item;
      file := None;
      fecha := item.fechaEmision.GetOr("");
      localBusy := false;
      fileKey := 0;
    }

    /** `globalBusy || localBusy`: the row's buttons are disabled. */
    predicate Deshabilitado(pagina: Pagina)
      reads this, pagina
    {
      pagina.busy || localBusy
    }

    /**
     * `subir` up to its `await`: nothing without a file, an alert naming the code without a
     * document type id, otherwise the upload with both busy flags raised.
     */
    method Subir(pagina: Pagina) returns (r: Inicio)
      modifies this`localBusy, pagina
      ensures file.None? ==> r == Nada
      ensures file.Some? && DocTipoId(item).None? ==> r == Alerta("Falta mapear " + item.codigo + " -> id en DOC_MAP")
      ensures file.Some? && DocTipoId(item).Some? ==>
        r == Enviar(Subida(DocTipoId(item).value, file.value, FechaEnviada(fecha)))
      ensures r.Enviar? ==> localBusy && pagina.busy
      ensures !r.Enviar? ==> localBusy == old(localBusy) && pagina.busy == old(pagina.busy)
    {
      if file.None? {
        return Nada;
      }
      var docTipoId := DocTipoId(item);
      if docTipoId.None? {
        return Alerta("Falta mapear " + item.codigo + " -> id en DOC_MAP");
      }
      localBusy := true;
      pagina.busy := true;
      r := Enviar(Subida(docTipoId.value, file.value, FechaEnviada(fecha)));
    }

    /** `reemplazar` up to its `await`: nothing without a file or without an attachment to replace. */
    method Reemplazar(pagina: Pagina) returns (r: Inicio)
      modifies this`localBusy, pagina
      ensures file.None? || !TieneAdjunto(item) ==> r == Nada
      ensures file.Some? && TieneAdjunto(item) ==>
        r == Enviar(Reemplazo(item.adjuntoId.value, DocTipoId(item), file.value, FechaEnviada(fecha)))
      ensures r.Enviar? ==> localBusy && pagina.busy
      ensures !r.Enviar? ==> localBusy == old(localBusy) && pagina.busy == old(pagina.busy)
    {
      if file.None? || !TieneAdjunto(item) {
        return Nada;
      }
      localBusy := true;
      pagina.busy := true;
      r := Enviar(Reemplazo(item.adjuntoId.value, DocTipoId(item), file.value, FechaEnviada(fecha)));
    }

    /** `eliminar` up to its `await`: nothing without an attachment or when the user does not confirm. */
    method Eliminar(pagina: Pagina, confirmado: bool) returns (r: Inicio)
      modifies this`localBusy, pagina
      ensures !TieneAdjunto(item) || !confirmado ==> r == Nada
      ensures TieneAdjunto(item) && confirmado ==> r == Enviar(Eliminacion(item.adjuntoId.value))
      ensures r.Enviar? ==> localBusy && pagina.busy
      ensures !r.Enviar? ==> localBusy == old(localBusy) && pagina.busy == old(pagina.busy)
    {
      if !TieneAdjunto(item) || !confirmado {
        return Nada;
      }
      localBusy := true;
      pagina.busy := true;
      r := Enviar(Eliminacion(item.adjuntoId.value));
    }

    /**
     * The rest of a handler once its request settles: an upload or replacement that
     * succeeded clears the file input; `finally` lowers both busy flags either way.
     */
    method Concluir(pagina: Pagina, p: Peticion, exito: bool)
      modifies this`file, this`fileKey, this`localBusy, pagina
      ensures !localBusy && !pagina.busy
      ensures exito && !p.Eliminacion? ==> file.None? && fileKey == old(fileKey) + 1
      ensures !(exito && !p.Eliminacion?) ==> file == old(file) && fileKey == old(fileKey)
    {
      if exito && !p.Eliminacion? {
        file := None;
        fileKey := fileKey + 1;
      }
      localBusy := false;
      pagina.busy := false;
    }
  }
}
