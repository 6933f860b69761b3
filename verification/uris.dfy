/** An abstract view of java.net.URI: a scheme, a scheme-specific part and a
    fragment, compared structurally. */
module Uris {
  import opened Wrappers

  /** `scheme:ssp#fragment`; a relative reference has no scheme. */
  datatype Uri = Uri(scheme: Option<string>, ssp: string, fragment: Option<string>)

  predicate IsAlpha(c: char) {
    'a' <= c <= 'z' || 'A' <= c <= 'Z'
  }

  predicate IsDigit(c: char) {
    '0' <= c <= '9'
  }

  /** A scheme name as section 3.1 of RFC 2396 defines it:
      a letter followed by letters, digits, '+', '-' or '.'. */
  predicate IsSchemeName(s: string) {
    && |s| > 0
    && IsAlpha(s[0])
    && forall i :: 1 <= i < |s| ==> IsAlpha(s[i]) || IsDigit(s[i]) || s[i] in "+-."
  }

  /** Whether `scheme:ssp` can be rebuilt into a URI: an absolute URI needs a
      well-formed scheme name and a non-empty scheme-specific part.
      This is a stand-in for java.net.URI's rules, not their exact condition:
      Java re-parses the decoded scheme-specific part, so its refusals come from
      that re-parse (a relative id `x%3A#k` decodes to `x:`, which is refused),
      and a URI Java has already parsed never fails the two checks made here. */
  predicate Reconstructible(u: Uri) {
    match u.scheme
    case None => true
    case Some(s) => IsSchemeName(s) && |u.ssp| > 0
  }

  /** The URI of the document a URI points into: the same URI without its fragment. */
  function StripFragment(u: Uri): (r: Uri)
    ensures r.scheme == u.scheme && r.ssp == u.ssp
    ensures r.fragment.None?
  {
    u.(fragment := None)
  }

  /** Derives the controller document URI from a verification method id, the way
      the resolver rebuilds `new URI(scheme, schemeSpecificPart, null)`; None when
      that reconstruction is refused. */
  function DocumentUri(methodId: Uri): (r: Option<Uri>)
    ensures r.None? <==> !Reconstructible(methodId)
    ensures r.Some? ==> r.value.scheme == methodId.scheme && r.value.ssp == methodId.ssp
    ensures r.Some? ==> r.value.fragment.None?
  {
    if Reconstructible(methodId) then Some(StripFragment(methodId)) else None
  }

  /** Deriving the document URI of a document URI gives it back. */
  lemma DocumentUriIdempotent(methodId: Uri)
    requires DocumentUri(methodId).Some?
    ensures DocumentUri(DocumentUri(methodId).value) == DocumentUri(methodId)
  {
  }

  /** A method id without a fragment names its own document. */
  lemma DocumentUriOfFragmentless(u: Uri)
    requires Reconstructible(u) && u.fragment.None?
    ensures DocumentUri(u) == Some(u)
  {
  }

  /** Two method ids that differ only in their fragments point into the same document. */
  lemma DocumentUriIgnoresFragment(a: Uri, b: Uri)
    requires a.scheme == b.scheme && a.ssp == b.ssp
    ensures DocumentUri(a) == DocumentUri(b)
  {
  }

  /** The fragment is the only part the derivation forgets: equal document URIs
      come from method ids with equal scheme and scheme-specific part. */
  lemma DocumentUriInjectiveUpToFragment(a: Uri, b: Uri)
    requires DocumentUri(a).Some? && DocumentUri(a) == DocumentUri(b)
    ensures a.scheme == b.scheme && a.ssp == b.ssp
  {
  }
}
