/** The compact URL form stored in audit records: a URL that starts with the
    site's base URL is kept as `*` followed by the rest of it. */
module Urls {

  const Marker: char := '*'

  /** `getShortURL($baseURL, $fullURL)` */
  function ShortURL(base: string, full: string): (r: string)
    ensures base <= full ==> r == [Marker] + full[|base|..]
    ensures !(base <= full) ==> r == full
  {
    if base <= full then [Marker] + full[|base|..] else full
  }

  /** `getFullURL($baseURL, $shortURL)` */
  function FullURL(base: string, short: string): (r: string)
    ensures |short| > 0 && short[0] == Marker ==> r == base + short[1..]
    ensures !(|short| > 0 && short[0] == Marker) ==> r == short
  {
    if |short| > 0 && short[0] == Marker then base + short[1..] else short
  }

  predicate StartsWithMarker(u: string) {
    |u| > 0 && u[0] == Marker
  }

  /** Expanding the short form gives the URL back exactly when the URL starts
      with the base URL or does not itself begin with the marker. */
  lemma FullOfShort(base: string, u: string)
    ensures FullURL(base, ShortURL(base, u)) == u <==> (base <= u || !StartsWithMarker(u))
  {
    if base <= u {
      assert base + u[|base|..] == u;
    }
  }

  /** The short form begins with the marker exactly when the URL starts with
      the base URL or already began with the marker. */
  lemma ShortIsMarked(base: string, u: string)
    ensures StartsWithMarker(ShortURL(base, u)) <==> (base <= u || StartsWithMarker(u))
  {
  }

  /** Shortening an expanded stored form gives the stored form back, except for
      an absolute URL that happens to start with the base URL. */
  lemma ShortOfFull(base: string, s: string)
    ensures ShortURL(base, FullURL(base, s)) == s <==> (StartsWithMarker(s) || !(base <= s))
  {
    if StartsWithMarker(s) {
      var f := base + s[1..];
      assert base <= f && f[|base|..] == s[1..];
      assert [Marker] + s[1..] == s;
    } else if base <= s {
      assert ShortURL(base, s)[0] == Marker;
    }
  }
}
