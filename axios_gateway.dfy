/**
 * The shared HTTP client of the frontend (frontend/src/config/axios.js): the token pair in
 * `localStorage`, a request interceptor that routes relative URLs under `/api/` and adds
 * the bearer token, and a response interceptor that answers a 401 by refreshing the access
 * token once (single-flight) and re-sending the request.
 */
module AxiosGateway {
  import opened Wrappers
  import opened Text
  import opened Navegador
  import opened RefrescoUnico

  /** `setTokenPair({access, refresh})`: stores each token that is truthy, leaves the other key alone. */
  method SetTokenPair(store: Almacen, access: Option<string>, refresh: Option<string>)
    modifies store
    ensures Veraz(access) && Veraz(refresh) ==>
      store.items == old(store.items)["access_token" := access.value]["refresh_token" := refresh.value]
    ensures Veraz(access) && !Veraz(refresh) ==> store.items == old(store.items)["access_token" := access.value]
    ensures !Veraz(access) && Veraz(refresh) ==> store.items == old(store.items)["refresh_token" := refresh.value]
    ensures !Veraz(access) && !Veraz(refresh) ==> store.items == old(store.items)
  {
    if Veraz(access) {
      store.SetItem("access_token", access.value);
    }
    if Veraz(refresh) {
      store.SetItem("refresh_token", refresh.value);
    }
  }

  /** `clearTokenPair()`: forgets both tokens; the legacy `access`/`refresh` keys stay. */
  method ClearTokenPair(store: Almacen)
    modifies store
    ensures store.items == old(store.items) - {"access_token", "refresh_token"}
  {
    store.RemoveItem("access_token");
    store.RemoveItem("refresh_token");
  }

  /** `/^https?:\/\//i`: the URL starts with `http://` or `https://`, in any letter case. */
  predicate EsAbsoluta(url: string) {
    StartsWith(Lower(url), "http://") || StartsWith(Lower(url), "https://")
  }

  /** A URL that starts with `/` is never absolute. */
  lemma RaizNoEsAbsoluta(url: string)
    requires |url| > 0 && url[0] == '/'
    ensures !EsAbsoluta(url)
  {
    assert Lower(url)[0] == '/';
  }

  /**
   * The route of a relative URL: kept when it already starts with `/api/`, otherwise put
   * under `/api/` with exactly one slash at the join.
   */
  function Normalizar(url: string): (r: string)
    ensures StartsWith(r, "/api/")
    ensures StartsWith(url, "/api/") ==> r == url
    ensures !StartsWith(url, "/api/") ==> r == "/api/" + (if StartsWith(url, "/") then url[1..] else url)
  {
    if StartsWith(url, "/api/") then url
    else
      var path := if StartsWith(url, "/") then url else "/" + url;
      assert StartsWith(url, "/") ==> url == "/" + url[1..];
      "/api" + path
  }

  /** The URL the request interceptor leaves in the config. */
  function RutaPedida(url: string): (r: string)
    ensures EsAbsoluta(url) ==> r == url
    ensures !EsAbsoluta(url) ==> r == Normalizar(url)
  {
    if EsAbsoluta(url) then url else Normalizar(url)
  }

  /** Routing a routed URL again changes nothing, so a re-sent request keeps its URL. */
  lemma RutaPedidaIdempotente(url: string)
    ensures RutaPedida(RutaPedida(url)) == RutaPedida(url)
  {
    if !EsAbsoluta(url) {
      RaizNoEsAbsoluta(Normalizar(url));
    }
  }

  /** The token the request interceptor sends: `access_token`, else the legacy `access`. */
  function Token(accessToken: Option<string>, access: Option<string>): (t: Option<string>)
    ensures Veraz(t) <==> Veraz(accessToken) || Veraz(access)
    ensures Veraz(accessToken) ==> t == accessToken
  {
    O(accessToken, access)
  }

  /** The headers the request interceptor leaves: absolute URLs untouched, otherwise the bearer token when there is one. */
  function CabecerasPedidas(url: string, headers: map<string, string>, token: Option<string>): (h: map<string, string>)
    ensures forall k :: k != Authorization ==> (k in h <==> k in headers)
    ensures forall k :: k != Authorization && k in h ==> h[k] == headers[k]
    ensures !EsAbsoluta(url) && Veraz(token) ==> Authorization in h && h[Authorization] == Bearer(token.value)
    ensures EsAbsoluta(url) || !Veraz(token) ==> h == headers
  {
    if EsAbsoluta(url) || !Veraz(token) then headers else headers[Authorization := Bearer(token.value)]
  }

  /** The request interceptor, editing the config in place. */
  method AlPedir(config: ConfigPeticion, store: Almacen)
    modifies config
    ensures config.url == RutaPedida(old(config.url))
    ensures config.headers ==
      CabecerasPedidas(old(config.url), old(config.headers), Token(store.Get("access_token"), store.Get("access")))
    ensures config.retry == old(config.retry)
  {
    var url := config.url;
    if EsAbsoluta(url) {
      return;
    }
    if !StartsWith(url, "/api/") {
      config.url := Normalizar(url);
    }
    var token := Token(store.Get("access_token"), store.Get("access"));
    if Veraz(token) {
      config.headers := config.headers[Authorization := Bearer(token.value)];
    }
  }

  const RutaRefresco := "/auth/refresh/"

  /** The refresh token the response interceptor sends: `refresh_token`, else the legacy `refresh`. */
  function TokenRefresco(refreshToken: Option<string>, refresh: Option<string>): (t: Option<string>)
    ensures Veraz(t) <==> Veraz(refreshToken) || Veraz(refresh)
  {
    O(refreshToken, refresh)
  }

  /**
   * A failed request qualifies for a refresh exactly when it got a 401, is not already a
   * retry, is not the refresh call itself and a refresh token is stored.
   */
  predicate Elegible(status: Option<int>, retry: bool, url: string, refresh: Option<string>) {
    status == Some(401) && !retry && !Contains(url, RutaRefresco) && Veraz(refresh)
  }

  /** The refresh request, once routed, never qualifies for a refresh of its own. */
  lemma RefrescoNoSeRefresca(status: Option<int>, retry: bool, refresh: Option<string>)
    ensures !Elegible(status, retry, RutaPedida(RutaRefresco), refresh)
  {
    RaizNoEsAbsoluta(RutaRefresco);
    assert RutaRefresco[..5][2] != "/api/"[2];
    assert RutaPedida(RutaRefresco) == "/api" + RutaRefresco + "";
    ContainsMiddle("/api", RutaRefresco, "");
  }

  /** A re-sent request never triggers a second refresh. */
  lemma ReintentoNoRefresca(status: Option<int>, url: string, refresh: Option<string>)
    ensures !Elegible(status, true, url, refresh)
  {
  }

  /** How the refresh settles: rejected, or resolved with a non-empty access token. */
  datatype Resultado = Rechazado | Resuelto(access: string)

  /** `.then` of the refresh call: a response without a truthy `access` rejects. */
  function Asentamiento(r: Respuesta): (res: Resultado)
    ensures res.Resuelto? <==> r.Datos? && Veraz(r.access)
    ensures res.Resuelto? ==> res.access == r.access.value && res.access != ""
  {
    if r.Datos? && Veraz(r.access) then Resuelto(r.access.value) else Rechazado
  }

  /** The client instance and its module-level `refreshingPromise` slot. */
  class Api {
    /** Is `refreshingPromise` non-null? */
    var refrescando: bool
    /** How many refresh requests this client has sent. */
    ghost var llamadas: nat

    ghost function Estado(): Slot
      reads this
    {
      Slot(refrescando, llamadas)
    }

    constructor ()
      ensures Estado() == Slot(false, 0)
    {
      refrescando := false;
      llamadas := 0;
    }

    /**
     * The error handler up to its `await`: rethrows what does not qualify, otherwise starts
     * the refresh when the slot is empty and joins the pending one when it is not.
     */
    method AlFallar(original: ConfigPeticion, status: Option<int>, store: Almacen) returns (d: Decision)
      modifies this
      ensures
        var e := Elegible(status, original.retry, original.url, TokenRefresco(store.Get("refresh_token"), store.Get("refresh")));
        && d == Decidir(old(Estado()), e)
        && Estado() == Paso(old(Estado()), Fallo(e))
    {
      var refresh := TokenRefresco(store.Get("refresh_token"), store.Get("refresh"));
      if status != Some(401) || original.retry || Contains(original.url, RutaRefresco) {
        return Relanzar;
      }
      if !Veraz(refresh) {
        return Relanzar;
      }
      if !refrescando {
        refrescando := true;
        llamadas := llamadas + 1;
        d := Iniciar;
      } else {
        d := Unirse;
      }
    }

    /** The refresh call settles: its `.then` stores the new access token, its `.finally` empties the slot. */
    method Asentar(r: Respuesta, store: Almacen) returns (res: Resultado)
      modifies this, store
      ensures res == Asentamiento(r)
      ensures res.Resuelto? ==> store.items == old(store.items)["access_token" := res.access]
      ensures res.Rechazado? ==> store.items == old(store.items)
      ensures Estado() == Paso(old(Estado()), Evento.Asentar)
    {
      res := Asentamiento(r);
      if res.Resuelto? {
        store.SetItem("access_token", res.access);
      }
      refrescando := false;
    }

    /**
     * The error handler after its `await`: a rejected refresh rethrows; a resolved one marks
     * the request as a retry, sets the new bearer token and sends it through the request
     * interceptor again.
     */
    method Reanudar(original: ConfigPeticion, res: Resultado, store: Almacen) returns (reenviado: bool)
      modifies original
      ensures reenviado <==> res.Resuelto?
      ensures res.Rechazado? ==>
        original.url == old(original.url) && original.headers == old(original.headers) && original.retry == old(original.retry)
      ensures res.Resuelto? ==>
        && original.retry
        && original.url == RutaPedida(old(original.url))
        && original.headers == CabecerasPedidas(old(original.url),
                                                old(original.headers)[Authorization := Bearer(res.access)],
                                                Token(store.Get("access_token"), store.Get("access")))
      ensures res.Resuelto? && res.access != "" && store.Get("access_token") == Some(res.access) ==>
        original.headers[Authorization] == Bearer(res.access)
    {
      if res.Rechazado? {
        return false;
      }
      original.retry := true;
      original.headers := original.headers[Authorization := Bearer(res.access)];
      AlPedir(original, store);
      reenviado := true;
    }
  }
}
