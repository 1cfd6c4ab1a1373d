/**
 * The browser-side objects both HTTP gateways work on: `localStorage`, the request
 * configuration an interceptor receives and edits in place, and the bearer
 * Authorization header of section 2.1 of RFC 6750.
 */
module Navegador {
  import opened Wrappers

  /** `window.localStorage`: string keys to string values. */
  class Almacen {
    var items: map<string, string>

    constructor (items: map<string, string>)
      ensures this.items == items
    {
      this.items := items;
    }

    /** `getItem(k)`: the stored value, or null. */
    function Get(k: string): (v: Option<string>)
      reads this
      ensures v.Some? <==> k in items
      ensures v.Some? ==> v.value == items[k]
    {
      if k in items then Some(items[k]) else None
    }

    /** `setItem(k, v)`. */
    method SetItem(k: string, v: string)
      modifies this
      ensures items == old(items)[k := v]
    {
      items := items[k := v];
    }

    /** `removeItem(k)`. */
    method RemoveItem(k: string)
      modifies this
      ensures items == old(items) - {k}
    {
      items := items - {k};
    }
  }

  /** A stored value JavaScript treats as true: present and not the empty string. */
  predicate Veraz(v: Option<string>) {
    v.Some? && v.value != ""
  }

  /** `a || b` on two `getItem` results: the first when it is truthy, else the second. */
  function O(a: Option<string>, b: Option<string>): (r: Option<string>)
    ensures Veraz(a) ==> r == a
    ensures !Veraz(a) ==> r == b
    ensures Veraz(r) <==> Veraz(a) || Veraz(b)
  {
    if Veraz(a) then a else b
  }

  const Authorization := "Authorization"

  /** The bearer credentials of an Authorization header (section 2.1 of RFC 6750). */
  function Bearer(token: string): (h: string)
    ensures |h| == 7 + |token| && h[..7] == "Bearer " && h[7..] == token
  {
    "Bearer " + token
  }

  /** Two bearer headers are equal exactly when their tokens are. */
  lemma BearerInjective(a: string, b: string)
    ensures Bearer(a) == Bearer(b) <==> a == b
  {
    if Bearer(a) == Bearer(b) {
      assert a == Bearer(a)[7..];
    }
  }

  /** The request configuration an interceptor receives and edits in place. */
  class ConfigPeticion {
    /** `config.url`, '' when undefined. */
    var url: string
    /** `config.headers`, empty when undefined. */
    var headers: map<string, string>
    /** `config._retry`. */
    var retry: bool

    constructor (url: string, headers: map<string, string>)
      ensures this.url == url && this.headers == headers && !retry
    {
      this.url := url;
      this.headers := headers;
      retry := false;
    }
  }
}
