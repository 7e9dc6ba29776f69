/** The site-extractor registry lookup of `get_adapter` in main.py: the host
    part of an article URL is turned into a registry key by replacing every
    '.' with '_', and the key is looked up in the table of extractors. */
module Adapters {
  import opened Wrappers

  /** A site-specific extractor called as `adapter(html, plaintext=True)`: raw
      HTML in, plain article text out, or `None` when the extractor raises. */
  type Extractor = string -> Option<string>

  /** The error `SANITIZERS[key]` raises for an unregistered site. */
  datatype LookupError = Unregistered(key: string)

  /** `domain.replace('.', '_')`. */
  function AdapterKey(host: string): (key: string)
    ensures |key| == |host|
    ensures '.' !in key
    ensures forall i :: 0 <= i < |host| && host[i] != '.' ==> key[i] == host[i]
    ensures forall i :: 0 <= i < |host| && host[i] == '.' ==> key[i] == '_'
  {
    if |host| == 0 then ""
    else [if host[0] == '.' then '_' else host[0]] + AdapterKey(host[1..])
  }

  /** `get_adapter(url)` given the URL's host: the registered extractor, or
      the `KeyError` (`Unregistered`) carrying the derived key when no site is registered under it. */
  function GetAdapter(registry: map<string, Extractor>, host: string): (r: Result<Extractor, LookupError>)
    ensures r.Success? <==> AdapterKey(host) in registry
    ensures r.Success? ==> r.value == registry[AdapterKey(host)]
    ensures r.Failure? ==> r.error == Unregistered(AdapterKey(host))
  {
    var key := AdapterKey(host);
    if key in registry then Success(registry[key]) else Failure(Unregistered(key))
  }

  /** Deriving a key from a key changes nothing. */
  lemma {:induction false} AdapterKeyIdempotent(host: string)
    ensures AdapterKey(AdapterKey(host)) == AdapterKey(host)
  {
    if |host| > 0 {
      AdapterKeyIdempotent(host[1..]);
    }
  }

  /** Two hosts share a registry key exactly when they have the same length and
      differ only where both have a '.' or a '_' (so "lenta.ru" and "lenta_ru"
      reach the same extractor). */
  lemma {:induction false} SameKeyIff(a: string, b: string)
    ensures AdapterKey(a) == AdapterKey(b)
        <==> |a| == |b| && forall i :: 0 <= i < |a| ==> a[i] == b[i] || (a[i] in "._" && b[i] in "._")
  {
    var ka, kb := AdapterKey(a), AdapterKey(b);
    if |a| == |b| && forall i :: 0 <= i < |a| ==> a[i] == b[i] || (a[i] in "._" && b[i] in "._") {
      forall i | 0 <= i < |a|
        ensures ka[i] == kb[i]
      {
        assert a[i] == b[i] || (a[i] in "._" && b[i] in "._");
      }
    }
    if ka == kb && |a| == |b| {
      forall i | 0 <= i < |a|
        ensures a[i] == b[i] || (a[i] in "._" && b[i] in "._")
      {
        assert ka[i] == kb[i];
      }
    }
  }
}
