/**
 * Fragment handling for page URLs (src/utils/url.ts).
 *
 * `getBaseUrl` keeps what comes before the first '#'; `isUrlChange` says
 * whether two URLs name different documents, ignoring their fragments.
 */
module Url {

  /** `p` is the document part of `url`: it holds no '#', and `url` is `p`
      itself or `p` followed by '#' and a fragment. */
  ghost predicate IsDocumentPart(url: string, p: string)
  {
    '#' !in p && (url == p || (|p| < |url| && url[..|p|] == p && url[|p|] == '#'))
  }

  /** `url.split('#')[0]`: the text before the first '#', or all of `url`. */
  function GetBaseUrl(url: string): (base: string)
    ensures IsDocumentPart(url, base)
    ensures base <= url && url == base + url[|base|..]
  {
    if url == [] then []
    else if url[0] == '#' then []
    else
      var rest := GetBaseUrl(url[1..]);
      assert url == [url[0]] + url[1..];
      [url[0]] + rest
  }

  /** A URL has one document part only. */
  lemma DocumentPartUnique(url: string, p: string, q: string)
    requires IsDocumentPart(url, p) && IsDocumentPart(url, q)
    ensures p == q
  {
  }

  /** GetBaseUrl returns exactly the document part: nothing else qualifies. */
  lemma BaseUrlIsTheDocumentPart(url: string, p: string)
    ensures IsDocumentPart(url, p) <==> p == GetBaseUrl(url)
  {
    if IsDocumentPart(url, p) {
      DocumentPartUnique(url, p, GetBaseUrl(url));
    }
  }

  /** Stripping the fragment twice is stripping it once. */
  lemma BaseUrlIdempotent(url: string)
    ensures GetBaseUrl(GetBaseUrl(url)) == GetBaseUrl(url)
  {
    var b := GetBaseUrl(url);
    assert IsDocumentPart(b, b);
    DocumentPartUnique(b, b, GetBaseUrl(b));
  }

  /** The base of a fragment-free URL with or without any fragment is that URL. */
  lemma BaseUrlIgnoresFragment(p: string, fragment: string)
    requires '#' !in p
    ensures GetBaseUrl(p) == p
    ensures GetBaseUrl(p + "#" + fragment) == p
  {
    assert IsDocumentPart(p, p);
    DocumentPartUnique(p, p, GetBaseUrl(p));
    var u := p + "#" + fragment;
    assert u[..|p|] == p && u[|p|] == '#';
    assert IsDocumentPart(u, p);
    DocumentPartUnique(u, p, GetBaseUrl(u));
  }

  /** `prevBase !== nextBase`: the two URLs name different documents. */
  function IsUrlChange(prevUrl: string, nextUrl: string): (changed: bool)
    ensures changed ==> prevUrl != nextUrl
    ensures !changed ==> GetBaseUrl(prevUrl) <= nextUrl
  {
    var prevBase := GetBaseUrl(prevUrl);
    var nextBase := GetBaseUrl(nextUrl);
    prevBase != nextBase
  }

  /** Two URLs are "the same page" exactly when they share a document part. */
  lemma NoChangeIffSharedDocumentPart(prevUrl: string, nextUrl: string)
    ensures !IsUrlChange(prevUrl, nextUrl) <==>
            exists p :: IsDocumentPart(prevUrl, p) && IsDocumentPart(nextUrl, p)
  {
    if !IsUrlChange(prevUrl, nextUrl) {
      assert IsDocumentPart(prevUrl, GetBaseUrl(prevUrl)) && IsDocumentPart(nextUrl, GetBaseUrl(prevUrl));
    }
    if p :| IsDocumentPart(prevUrl, p) && IsDocumentPart(nextUrl, p) {
      BaseUrlIsTheDocumentPart(prevUrl, p);
      BaseUrlIsTheDocumentPart(nextUrl, p);
    }
  }

  /** No URL is a change from itself, and the relation is symmetric. */
  lemma UrlChangeIrreflexiveSymmetric(a: string, b: string)
    ensures !IsUrlChange(a, a)
    ensures IsUrlChange(a, b) == IsUrlChange(b, a)
  {
  }

  /** Moving between fragments of one page, or onto one from the bare page, is no change. */
  lemma FragmentNavigationIsNoChange(p: string, x: string, y: string)
    requires '#' !in p
    ensures !IsUrlChange(p + "#" + x, p + "#" + y)
    ensures !IsUrlChange(p, p + "#" + y)
  {
    BaseUrlIgnoresFragment(p, x);
    BaseUrlIgnoresFragment(p, y);
  }

  /** Different fragment-free pages are a change whatever fragments they carry. */
  lemma DifferentPagesAreAChange(p: string, q: string, x: string, y: string)
    requires '#' !in p && '#' !in q && p != q
    ensures IsUrlChange(p + "#" + x, q + "#" + y)
    ensures IsUrlChange(p, q)
  {
    BaseUrlIgnoresFragment(p, x);
    BaseUrlIgnoresFragment(q, y);
  }
}
