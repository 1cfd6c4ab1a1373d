/**
 * `toAbsoluteUrl` (frontend/src/utils/url.js): turns a media path such as `/media/x` or
 * `media/x` into a URL under the HTTP client's base URL, and leaves http(s) URLs alone.
 */
module UrlUtil {
  import opened Wrappers
  import opened Text
  import opened Navegador

  /** The URL parser accepts the text with protocol `http:` or `https:` (the scheme is case-insensitive). */
  predicate EsHttp(s: string) {
    var esquema := BeforeFirst(s, ':');
    |esquema| < |s| && (Lower(esquema) == "http" || Lower(esquema) == "https")
  }

  /** A text starting with `/` has no scheme. */
  lemma RaizSinEsquema(s: string)
    requires |s| > 0 && s[0] == '/'
    ensures !EsHttp(s)
  {
    var esquema := BeforeFirst(s, ':');
    if |esquema| > 0 {
      assert Lower(esquema)[0] == '/';
    }
  }

  /** Moving back from `j`, the end of the text once its trailing slashes are dropped. */
  function FinSinBarras(s: string, j: nat): (k: nat)
    requires j <= |s|
    ensures k <= j
    ensures forall m :: k <= m < j ==> s[m] == '/'
    ensures k > 0 ==> s[k - 1] != '/'
  {
    if j > 0 && s[j - 1] == '/' then FinSinBarras(s, j - 1) else j
  }

  /** Moving on from `i`, the start of the text once its leading slashes are dropped. */
  function InicioSinBarras(s: string, i: nat): (k: nat)
    requires i <= |s|
    ensures i <= k <= |s|
    ensures forall m :: i <= m < k ==> s[m] == '/'
    ensures k < |s| ==> s[k] != '/'
    decreases |s| - i
  {
    if i < |s| && s[i] == '/' then InicioSinBarras(s, i + 1) else i
  }

  /** `.replace(/\/+$/, '')`: the text without its trailing slashes. */
  function SinBarrasFinales(s: string): (r: string)
    ensures |r| <= |s| && r == s[..|r|]
    ensures r == "" || r[|r| - 1] != '/'
    ensures forall i :: |r| <= i < |s| ==> s[i] == '/'
  {
    s[..FinSinBarras(s, |s|)]
  }

  /** `.replace(/^\/+/, '')`: the text without its leading slashes. */
  function SinBarrasIniciales(s: string): (r: string)
    ensures |r| <= |s| && r == s[|s| - |r|..]
    ensures r == "" || r[0] != '/'
    ensures forall i :: 0 <= i < |s| - |r| ==> s[i] == '/'
  {
    s[InicioSinBarras(s, 0)..]
  }

  /**
   * `r` is the base up to its trailing slashes, one slash, and the path after its leading
   * slashes.
   */
  predicate UnionConUnaBarra(base: string, path: string, r: string) {
    exists k, j ::
      && 0 <= k <= |base| && 0 <= j <= |path|
      && r == base[..k] + "/" + path[j..]
      && (k == 0 || base[k - 1] != '/') && (forall i :: k <= i < |base| ==> base[i] == '/')
      && (j == |path| || path[j] != '/') && (forall i :: 0 <= i < j ==> path[i] == '/')
  }

  /** The base without its trailing slashes, one '/', and the path without its leading slashes. */
  function Unir(base: string, path: string): (r: string)
    ensures UnionConUnaBarra(base, path, r)
  {
    var k, j := FinSinBarras(base, |base|), InicioSinBarras(path, 0);
    assert base[..k] + ("/" + path[j..]) == base[..k] + "/" + path[j..];
    SinBarrasFinales(base) + ("/" + SinBarrasIniciales(path))
  }

  /**
   * `toAbsoluteUrl(pathOrUrl)` with the client's `baseURL`: '' for a missing or empty input,
   * an http(s) URL unchanged, anything else the base and the path joined by exactly one
   * slash, whatever slashes either side brought.
   */
  function ToAbsoluteUrl(pathOrUrl: Option<string>, baseURL: Option<string>): (r: string)
    ensures !Veraz(pathOrUrl) ==> r == ""
    ensures Veraz(pathOrUrl) && EsHttp(pathOrUrl.value) ==> r == pathOrUrl.value
    ensures Veraz(pathOrUrl) && !EsHttp(pathOrUrl.value) ==> UnionConUnaBarra(baseURL.GetOr(""), pathOrUrl.value, r)
  {
    if !Veraz(pathOrUrl) then ""
    else if EsHttp(pathOrUrl.value) then pathOrUrl.value
    else Unir(baseURL.GetOr(""), pathOrUrl.value)
  }

  /** `/media/x` and `media/x` give the same URL. */
  lemma BarraInicialIndiferente(path: string, baseURL: Option<string>)
    requires path != "" && !EsHttp(path)
    ensures ToAbsoluteUrl(Some("/" + path), baseURL) == ToAbsoluteUrl(Some(path), baseURL)
  {
    RaizSinEsquema("/" + path);
    SinBarrasInicialesBarra(path);
  }

  /** One more leading slash is stripped like the others. */
  lemma SinBarrasInicialesBarra(path: string)
    ensures SinBarrasIniciales("/" + path) == SinBarrasIniciales(path)
  {
    var s := "/" + path;
    var a, b := InicioSinBarras(s, 0), InicioSinBarras(path, 0);
    assert forall m :: 0 <= m < b + 1 ==> s[m] == '/' by {
      assert forall m :: 1 <= m < b + 1 ==> s[m] == path[m - 1];
    }
    assert b < |path| ==> s[b + 1] == path[b];
    if a < b + 1 {
      assert false;
    } else if b + 1 < a {
      assert false;
    }
    assert s[a..] == path[b..];
  }

  /** Joining anything after an http(s) base keeps its scheme. */
  lemma UnidaEsHttp(base: string, rest: string)
    requires EsHttp(base)
    ensures EsHttp(SinBarrasFinales(base) + rest)
  {
    var b := SinBarrasFinales(base);
    var k := |BeforeFirst(base, ':')|;
    assert base[k] == ':' && k < |b|;
    assert b[k] == ':';
    BeforeFirstAppend(b, rest, ':');
    assert base == b + base[|b|..];
    BeforeFirstAppend(b, base[|b|..], ':');
  }

  /** Without a base, a joined path comes back unchanged. */
  lemma UnidaSinBase(p: string, baseURL: Option<string>)
    requires baseURL.GetOr("") == ""
    requires p == "" || p[0] != '/'
    ensures ToAbsoluteUrl(Some("/" + p), baseURL) == "/" + p
  {
    RaizSinEsquema("/" + p);
    assert ("/" + p)[1..] == p;
  }

  /** Under an http(s) base, a joined URL is itself http(s), so converting it again keeps it. */
  lemma UnidaConBaseIdempotente(path: string, base: string)
    requires path != "" && !EsHttp(path)
    requires EsHttp(base)
    ensures ToAbsoluteUrl(Some(Unir(base, path)), Some(base)) == Unir(base, path)
  {
    UnidaEsHttp(base, "/" + SinBarrasIniciales(path));
  }

  /**
   * When the base is empty or itself an http(s) URL, converting a converted URL changes
   * nothing.
   */
  lemma Idempotente(pathOrUrl: Option<string>, baseURL: Option<string>)
    requires baseURL.GetOr("") == "" || EsHttp(baseURL.value)
    ensures ToAbsoluteUrl(Some(ToAbsoluteUrl(pathOrUrl, baseURL)), baseURL) == ToAbsoluteUrl(pathOrUrl, baseURL)
  {
    if Veraz(pathOrUrl) && !EsHttp(pathOrUrl.value) {
      if baseURL.GetOr("") == "" {
        UnidaSinBase(SinBarrasIniciales(pathOrUrl.value), baseURL);
      } else {
        UnidaConBaseIdempotente(pathOrUrl.value, baseURL.value);
      }
    }
  }
}
