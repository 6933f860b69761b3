/** Concrete resolutions against one controller document served by one resolver. */
module Scenarios {
  import opened Wrappers
  import opened Uris
  import opened VerificationMethods
  import opened IdentifierDocuments
  import opened Relationships
  import opened ResolutionErrors
  import opened DocumentResolvers
  import opened MethodResolution

  /** `https://ctrl.example/doc` */
  const DocUri := Uri(Some("https"), "//ctrl.example/doc", None)

  /** `https://ctrl.example/doc#key-1` */
  const KeyId := Uri(Some("https"), "//ctrl.example/doc", Some("key-1"))

  const Key := Declared(KeyId, "Multikey", DocUri)

  /** The controller document with the given authentication and assertion sets. */
  function Doc(authentication: seq<VerificationMethod>, assertion: seq<VerificationMethod>): (d: IdentifierDocument)
    ensures d.id == Some(DocUri)
    ensures d.authentication == Some(authentication) && d.assertion == Some(assertion)
  {
    WithId(Some(DocUri)).(authentication := Some(authentication), assertion := Some(assertion))
  }

  /** A resolver that accepts exactly `uri` and serves `document` for it. */
  function Serving(uri: Uri, document: IdentifierDocument): (r: DocumentResolver)
    ensures r.accepts(uri) && r.fetch(uri) == Some(document)
  {
    DocumentResolver(u => u == uri, u => if u == uri then Some(document) else None)
  }

  /** A resolver that accepts nothing. */
  const Refuser := DocumentResolver(u => false, u => None)

  /** The fragment is the only part dropped from the method id. */
  lemma KeyIdNamesDocUri()
    ensures DocumentUri(KeyId) == Some(DocUri)
  {
  }

  /** A key listed for authentication and controlled by the document resolves to itself. */
  lemma AuthenticationKeyResolves()
    ensures Resolve(MethodResolver([Serving(DocUri, Doc([Key], []))]), KeyId, Iri(Authentication)) == Success(Key)
  {
  }

  /** The same key listed only for assertion does not authenticate. */
  lemma AssertionKeyDoesNotAuthenticate()
    ensures Resolve(MethodResolver([Serving(DocUri, Doc([], [Key]))]), KeyId, Iri(Authentication))
      == Failure(InvalidVerificationMethod)
  {
  }

  /** With no resolver accepting the document URI, resolution fails, and a
      refusing resolver in front of a serving one is simply skipped. */
  lemma NoResolverAccepts()
    ensures Resolve(MethodResolver([Refuser]), KeyId, Iri(Authentication)) == Failure(InvalidControllerDocument)
    ensures Resolve(MethodResolver([Refuser, Serving(DocUri, Doc([Key], []))]), KeyId, Iri(Authentication)) == Success(Key)
  {
    var serving := Serving(DocUri, Doc([Key], []));
    assert [Refuser, serving][1..] == [serving];
    assert FirstAccepting([Refuser, serving], DocUri) == Some(1);
  }

  /** A resolver that serves a document with another id is caught. */
  lemma SubstitutedDocumentCaught()
    ensures Resolve(MethodResolver([Serving(DocUri, WithId(Some(KeyId)))]), KeyId, Iri(Authentication))
      == Failure(InvalidControllerDocumentId)
  {
  }

  /** An IRI outside the table is refused whatever the document holds. */
  lemma UnknownRelationRefused()
    ensures Resolve(MethodResolver([Serving(DocUri, Doc([Key], [Key]))]), KeyId, SecurityTerm("authenticationMethod"))
      == Failure(InvalidRelationshipForVerificationMethod)
  {
  }

  /** Resolution does not check a method's type: a key without one still
      resolves, though it lacks its required properties. */
  lemma TypeIsNotChecked()
    ensures var untyped := Key.(methodType := None);
      && Resolve(MethodResolver([Serving(DocUri, Doc([untyped], []))]), KeyId, Iri(Authentication)) == Success(untyped)
      && !VerificationMethods.HasRequiredProperties(untyped)
  {
  }
}
