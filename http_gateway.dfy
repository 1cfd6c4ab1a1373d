/**
 * The second HTTP client of the frontend (frontend/src/api/http.js). It differs from the
 * one in frontend/src/config/axios.js in four ways: it reads only `access_token` and
 * `refresh_token`, it prefixes every URL not starting with `/api` (absolute ones
 * included), it sets the header before routing, and a refresh answer without `access`
 * resolves instead of rejecting, so the request is re-sent with `Bearer undefined` unless
 * the request interceptor finds a stored access token to put in its place.
 */
module HttpGateway {
  import opened Wrappers
  import opened Text
  import opened Navegador
  import opened RefrescoUnico

  /** The URL the request interceptor leaves: kept when it starts with `/api`, otherwise prefixed with exactly one slash at the join. */
  function RutaPedida(u: string): (r: string)
    ensures StartsWith(r, "/api")
    ensures StartsWith(u, "/api") ==> r == u
    ensures !StartsWith(u, "/api") ==> r == "/api/" + (if StartsWith(u, "/") then u[1..] else u)
  {
    if StartsWith(u, "/api") then u
    else
      assert StartsWith(u, "/") ==> u == "/" + u[1..];
      "/api" + (if StartsWith(u, "/") then "" else "/") + u
  }

  /** Routing a routed URL again changes nothing, so a re-sent request keeps its URL. */
  lemma RutaPedidaIdempotente(u: string)
    ensures RutaPedida(RutaPedida(u)) == RutaPedida(u)
  {
  }

  /** Absolute URLs are not exempt: they are put under `/api/` like any other path. */
  lemma AbsolutaPrefijada(u: string)
    requires StartsWith(u, "http://")
    ensures RutaPedida(u) == "/api/" + u
  {
    assert u[0] == u[..7][0] == 'h';
    assert !StartsWith(u, "/api") && !StartsWith(u, "/");
  }

  /** The prefix test is on `/api`, so a path such as `/apix` is also left as it is. */
  lemma PrefijoSinBarra()
    ensures RutaPedida("/apix") == "/apix"
  {
    assert StartsWith("/apix", "/api");
  }

  /** The headers the request interceptor leaves: the stored access token as bearer, when there is one. */
  function CabecerasPedidas(headers: map<string, string>, accessToken: Option<string>): (h: map<string, string>)
    ensures forall k :: k != Authorization ==> (k in h <==> k in headers)
    ensures forall k :: k != Authorization && k in h ==> h[k] == headers[k]
    ensures Veraz(accessToken) ==> Authorization in h && h[Authorization] == Bearer(accessToken.value)
    ensures !Veraz(accessToken) ==> h == headers
  {
    if Veraz(accessToken) then headers[Authorization := Bearer(accessToken.value)] else headers
  }

  /** The request interceptor, editing the config in place. */
  method AlPedir(config: ConfigPeticion, store: Almacen)
    modifies config
    ensures config.url == RutaPedida(old(config.url))
    ensures config.headers == CabecerasPedidas(old(config.headers), store.Get("access_token"))
    ensures config.retry == old(config.retry)
  {
    var token := store.Get("access_token");
    if Veraz(token) {
      config.headers := config.headers[Authorization := Bearer(token.value)];
    }
    var u := config.url;
    if !StartsWith(u, "/api") {
      config.url := RutaPedida(u);
    }
  }

  const RutaRefresco := "/auth/refresh/"

  /**
   * A failed request qualifies for a refresh exactly when it got a 401, is not already a
   * retry, is not the refresh call itself and `refresh_token` is stored.
   */
  predicate Elegible(status: Option<int>, retry: bool, url: string, refreshToken: Option<string>) {
    status == Some(401) && !retry && !Contains(url, RutaRefresco) && Veraz(refreshToken)
  }

  /** The refresh request, once routed, never qualifies for a refresh of its own. */
  lemma RefrescoNoSeRefresca(status: Option<int>, retry: bool, refreshToken: Option<string>)
    ensures !Elegible(status, retry, RutaPedida(RutaRefresco), refreshToken)
  {
    assert RutaRefresco[..4][2] != "/api"[2];
    assert RutaPedida(RutaRefresco) == "/api" + RutaRefresco + "";
    ContainsMiddle("/api", RutaRefresco, "");
  }

  /** How the refresh settles: rejected only when the call fails, otherwise resolved with `data.access`, possibly missing. */
  datatype Resultado = Rechazado | Resuelto(access: Option<string>)

  /** `.then` of the refresh call: it never rejects on its own. */
  function Asentamiento(r: Respuesta): (res: Resultado)
    ensures res.Rechazado? <==> r.Fallida?
    ensures res.Resuelto? ==> res.access == r.access
  {
    if r.Fallida? then Rechazado else Resuelto(r.access)
  }

  /** The header text of `Bearer ${newAccess}`: a missing token prints as `undefined`. */
  function BearerDe(access: Option<string>): (h: string)
    ensures access.Some? ==> h == Bearer(access.value)
    ensures access.None? ==> h == Bearer("undefined")
  {
    Bearer(if access.Some? then access.value else "undefined")
  }

  /** The client instance and its module-level `refreshingPromise` slot. */
  class Api {
    /** Is `refreshingPromise` non-null? */
    var refrescando: bool
    /** How many refresh requests this client has sent. */
    ghost var llamadas: nat

    ghost function Estado(): Slot
      reads this
    {
      Slot(refrescando, llamadas)
    }

    constructor ()
      ensures Estado() == Slot(false, 0)
    {
      refrescando := false;
      llamadas := 0;
    }

    /**
     * The error handler up to its `await`: rethrows what does not qualify, otherwise starts
     * the refresh when the slot is empty and joins the pending one when it is not.
     */
    method AlFallar(original: ConfigPeticion, status: Option<int>, store: Almacen) returns (d: Decision)
      modifies this
      ensures
        var e := Elegible(status, original.retry, original.url, store.Get("refresh_token"));
        && d == Decidir(old(Estado()), e)
        && Estado() == Paso(old(Estado()), Fallo(e))
    {
      if status != Some(401) || original.retry || Contains(original.url, RutaRefresco) {
        return Relanzar;
      }
      var refresh := store.Get("refresh_token");
      if !Veraz(refresh) {
        return Relanzar;
      }
      if !refrescando {
        refrescando := true;
        llamadas := llamadas + 1;
        d := Iniciar;
      } else {
        d := Unirse;
      }
    }

    /** The refresh call settles: its `.then` stores a truthy access token, its `.finally` empties the slot. */
    method Asentar(r: Respuesta, store: Almacen) returns (res: Resultado)
      modifies this, store
      ensures res == Asentamiento(r)
      ensures r.Datos? && Veraz(r.access) ==> store.items == old(store.items)["access_token" := r.access.value]
      ensures !(r.Datos? && Veraz(r.access)) ==> store.items == old(store.items)
      ensures Estado() == Paso(old(Estado()), Evento.Asentar)
    {
      res := Asentamiento(r);
      if r.Datos? && Veraz(r.access) {
        store.SetItem("access_token", r.access.value);
      }
      refrescando := false;
    }

    /**
     * The error handler after its `await`: a rejected refresh rethrows; a resolved one marks
     * the request as a retry, sets `Bearer ${newAccess}` and sends it through the request
     * interceptor again, which replaces that header whenever an access token is stored.
     */
    method Reanudar(original: ConfigPeticion, res: Resultado, store: Almacen) returns (reenviado: bool)
      modifies original
      ensures reenviado <==> res.Resuelto?
      ensures res.Rechazado? ==>
        original.url == old(original.url) && original.headers == old(original.headers) && original.retry == old(original.retry)
      ensures res.Resuelto? ==>
        && original.retry
        && original.url == RutaPedida(old(original.url))
        && original.headers == CabecerasPedidas(old(original.headers)[Authorization := BearerDe(res.access)],
                                                store.Get("access_token"))
      ensures res.Resuelto? && Veraz(store.Get("access_token")) ==>
        original.headers[Authorization] == Bearer(store.Get("access_token").value)
      ensures res.Resuelto? && !Veraz(store.Get("access_token")) ==>
        original.headers[Authorization] == BearerDe(res.access)
    {
      if res.Rechazado? {
        return false;
      }
      original.retry := true;
      original.headers := original.headers[Authorization := BearerDe(res.access)];
      AlPedir(original, store);
      reenviado := true;
    }
  }
}
