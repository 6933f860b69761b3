/** The verification method resolution engine: the set-level, relation-level and
    top-level resolution steps and what each guarantees. */
module MethodResolution {
  import opened Wrappers
  import opened Uris
  import opened VerificationMethods
  import opened IdentifierDocuments
  import opened Relationships
  import opened ResolutionErrors
  import opened DocumentResolvers

  // ---------------------------------------------------------------------------
  // Set-level resolution
  // ---------------------------------------------------------------------------

  /** `i` is the position of the first method in `methods` whose id is `methodId`. */
  ghost predicate IsFirstWithId(methods: seq<VerificationMethod>, methodId: Uri, i: nat) {
    && i < |methods|
    && HasId(methods[i], methodId)
    && forall j :: 0 <= j < i ==> !HasId(methods[j], methodId)
  }

  /** The position of the first method whose id is `methodId`, in the order the
      set yields its members; None when no member has that id. */
  function FirstWithId(methods: seq<VerificationMethod>, methodId: Uri): (r: Option<nat>)
    ensures r.Some? ==> IsFirstWithId(methods, methodId, r.value)
    ensures r.None? <==> forall j :: 0 <= j < |methods| ==> !HasId(methods[j], methodId)
    decreases |methods|
  {
    if |methods| == 0 then None
    else if HasId(methods[0], methodId) then Some(0)
    else match FirstWithId(methods[1..], methodId)
      case None => None
      case Some(i) => Some(i + 1)
  }

  /** Picks the method with id `methodId` out of `methods` and checks that the
      document is its controller. The document's id is read only once a method
      has matched, so only then must it be present. */
  function ResolveIn(methodId: Uri, methods: seq<VerificationMethod>, document: IdentifierDocument): (r: Result<VerificationMethod, Code>)
    requires IdentifierDocuments.HasRequiredProperties(document) || forall j :: 0 <= j < |methods| ==> !HasId(methods[j], methodId)
    ensures r.Success? ==> r.value in methods && HasId(r.value, methodId) && r.value.controller == document.id
    ensures r.Success? ==> r.value.controller.Some?
    ensures r.Failure? ==> r.error == InvalidVerificationMethod
    ensures (forall j :: 0 <= j < |methods| ==> !HasId(methods[j], methodId)) ==> r.Failure?
  {
    match FirstWithId(methods, methodId)
    case None => Failure(InvalidVerificationMethod)
    case Some(i) =>
      if document.id != methods[i].controller then Failure(InvalidVerificationMethod)
      else Success(methods[i])
  }

  /** With unique ids, set-level resolution succeeds with `m` exactly when `m` is
      a member with id `methodId` whose controller is the document. */
  lemma ResolveInIff(methodId: Uri, methods: seq<VerificationMethod>, document: IdentifierDocument, m: VerificationMethod)
    requires IdentifierDocuments.HasRequiredProperties(document)
    requires UniqueIds(methods)
    ensures ResolveIn(methodId, methods, document) == Success(m) <==>
      m in methods && HasId(m, methodId) && m.controller == document.id
  {
  }

  /** With unique ids, a member whose id matches but whose controller is not the
      document is refused, even though its id matched. */
  lemma ControllerMismatchRefused(methodId: Uri, methods: seq<VerificationMethod>, document: IdentifierDocument, m: VerificationMethod)
    requires IdentifierDocuments.HasRequiredProperties(document)
    requires UniqueIds(methods)
    requires m in methods && HasId(m, methodId) && m.controller != document.id
    ensures ResolveIn(methodId, methods, document) == Failure(InvalidVerificationMethod)
  {
  }

  /** With unique ids, set-level resolution depends only on which methods the set
      holds, not on the order it yields them in. */
  lemma OrderIndependent(methodId: Uri, ms1: seq<VerificationMethod>, ms2: seq<VerificationMethod>, document: IdentifierDocument)
    requires IdentifierDocuments.HasRequiredProperties(document)
    requires UniqueIds(ms1) && UniqueIds(ms2)
    requires forall m :: m in ms1 <==> m in ms2
    ensures ResolveIn(methodId, ms1, document) == ResolveIn(methodId, ms2, document)
  {
  }

  // ---------------------------------------------------------------------------
  // Relation-level resolution
  // ---------------------------------------------------------------------------

  /** The document lists `m` under the relationship `relation` names, with id
      `methodId` and the document as its controller. */
  ghost predicate Authorizes(document: IdentifierDocument, relation: Uri, methodId: Uri, m: VerificationMethod) {
    && Lookup(relation).Some?
    && MethodsFor(document, Lookup(relation).value).Some?
    && m in MethodsFor(document, Lookup(relation).value).value
    && HasId(m, methodId)
    && m.controller == document.id
  }

  /** Resolves `methodId` within the relationship set `relation` names. */
  function ResolveByRelation(methodId: Uri, relation: Uri, document: IdentifierDocument): (r: Result<VerificationMethod, Code>)
    requires IdentifierDocuments.HasRequiredProperties(document)
    ensures Lookup(relation).None? ==> r == Failure(InvalidRelationshipForVerificationMethod)
    ensures Lookup(relation).Some? && r.Failure? ==> r.error == InvalidVerificationMethod
    ensures Lookup(relation).Some? && MethodsFor(document, Lookup(relation).value) in {None, Some([])} ==>
      r == Failure(InvalidVerificationMethod)
    ensures r.Success? ==> Authorizes(document, relation, methodId, r.value)
  {
    match Lookup(relation)
    case None => Failure(InvalidRelationshipForVerificationMethod)
    case Some(rel) =>
      match MethodsFor(document, rel)
      case None => Failure(InvalidVerificationMethod)
      case Some(methods) =>
        if |methods| == 0 then Failure(InvalidVerificationMethod)
        else ResolveIn(methodId, methods, document)
  }

  /** With unique method ids, relation-level resolution succeeds with `m` exactly
      when the document authorizes `m` for that relation. */
  lemma ResolveByRelationIff(methodId: Uri, relation: Uri, document: IdentifierDocument, m: VerificationMethod)
    requires IdentifierDocuments.HasRequiredProperties(document)
    requires UniqueMethodIds(document)
    ensures ResolveByRelation(methodId, relation, document) == Success(m) <==>
      Authorizes(document, relation, methodId, m)
  {
  }

  /** Relation-level resolution reads the document's id and the one relationship
      set the relation names; the other sets and collections do not matter. */
  lemma ResolveByRelationReadsOneSet(methodId: Uri, relation: Uri, d1: IdentifierDocument, d2: IdentifierDocument)
    requires IdentifierDocuments.HasRequiredProperties(d1)
    requires d1.id == d2.id
    requires Lookup(relation).Some? ==> MethodsFor(d1, Lookup(relation).value) == MethodsFor(d2, Lookup(relation).value)
    ensures ResolveByRelation(methodId, relation, d1) == ResolveByRelation(methodId, relation, d2)
  {
  }

  /** A document that leaves every relationship set at its default authorizes
      nothing: every relation-level resolution against it fails. */
  lemma DefaultDocumentResolvesNothing(methodId: Uri, relation: Uri, id: Uri)
    ensures ResolveByRelation(methodId, relation, WithId(Some(id))) ==
      if Lookup(relation).None? then Failure(InvalidRelationshipForVerificationMethod)
      else Failure(InvalidVerificationMethod)
  {
  }

  // ---------------------------------------------------------------------------
  // Top-level resolution
  // ---------------------------------------------------------------------------

  /** The engine's configuration: the ordered chain of document resolvers. The
      engine keeps the caller's collection rather than a copy, so the chain it
      resolves with may have been emptied after it was configured. */
  datatype MethodResolver = MethodResolver(resolvers: seq<DocumentResolver>)

  /** A configured engine has at least one document resolver. */
  predicate Valid(engine: MethodResolver) {
    |engine.resolvers| > 0
  }

  /** Configures an engine; an empty chain is refused. */
  function NewMethodResolver(resolvers: seq<DocumentResolver>): (r: Option<MethodResolver>)
    ensures r.Some? <==> |resolvers| > 0
    ensures r.Some? ==> Valid(r.value) && r.value.resolvers == resolvers
  {
    if |resolvers| == 0 then None else Some(MethodResolver(resolvers))
  }

  /** Resolves `methodId` for `relation`, fetching its controller document: the
      method id without its fragment is the document URI; the first resolver that
      accepts it fetches the document, with no second try; the document must carry
      that URI as its id; the relation is then resolved within it. */
  function Resolve(engine: MethodResolver, methodId: Uri, relation: Uri): (r: Result<VerificationMethod, Code>)
    ensures DocumentUri(methodId).None? ==> r == Failure(InvalidMethodId)
    ensures DocumentUri(methodId).Some? && FirstAccepting(engine.resolvers, DocumentUri(methodId).value).None? ==>
      r == Failure(InvalidControllerDocument)
    ensures r.Success? ==> HasId(r.value, methodId)
    ensures r.Success? ==> r.value.controller == Some(StripFragment(methodId))
  {
    match DocumentUri(methodId)
    case None => Failure(InvalidMethodId)
    case Some(documentUri) =>
      match FirstAccepting(engine.resolvers, documentUri)
      case None => Failure(InvalidControllerDocument)
      case Some(i) =>
        match engine.resolvers[i].fetch(documentUri)
        case None => Failure(InvalidControllerDocument)
        case Some(document) =>
          if document.id != Some(documentUri) then Failure(InvalidControllerDocumentId)
          else ResolveByRelation(methodId, relation, document)
  }

  /** Every document any resolver of the chain can hand back keeps method ids unique. */
  ghost predicate ServesUniqueIds(chain: seq<DocumentResolver>) {
    forall j, u :: 0 <= j < |chain| && chain[j].fetch(u).Some? ==> UniqueMethodIds(chain[j].fetch(u).value)
  }

  /** The document that the first accepting resolver hands back for `u`, if any. */
  ghost predicate Fetches(chain: seq<DocumentResolver>, u: Uri, document: IdentifierDocument) {
    exists i: nat :: IsFirstAccepting(chain, u, i) && chain[i].fetch(u) == Some(document)
  }

  /** Top-level resolution succeeds with `m` exactly when the method id yields a
      document URI, the first resolver that accepts it fetches a document with that
      id, and that document authorizes `m` for the relation. */
  lemma ResolveIff(engine: MethodResolver, methodId: Uri, relation: Uri, m: VerificationMethod)
    requires ServesUniqueIds(engine.resolvers)
    ensures Resolve(engine, methodId, relation) == Success(m) <==>
      && DocumentUri(methodId).Some?
      && exists document ::
        && Fetches(engine.resolvers, DocumentUri(methodId).value, document)
        && document.id == Some(DocumentUri(methodId).value)
        && Authorizes(document, relation, methodId, m)
  {
  }

  /** Once a resolver in the chain accepts the document URI, resolvers appended
      after it are never consulted. */
  lemma ResolveIgnoresLaterResolvers(chain: seq<DocumentResolver>, later: seq<DocumentResolver>, methodId: Uri, relation: Uri)
    requires DocumentUri(methodId).Some?
    requires FirstAccepting(chain, DocumentUri(methodId).value).Some?
    ensures Resolve(MethodResolver(chain + later), methodId, relation) == Resolve(MethodResolver(chain), methodId, relation)
  {
    var u := DocumentUri(methodId).value;
    FirstAcceptingIgnoresLater(chain, later, u);
    var i := FirstAccepting(chain, u).value;
    assert (chain + later)[i] == chain[i];
  }

  /** When the first accepting resolver yields no document the resolution fails
      for good: no later resolver is tried, whatever it would return. */
  lemma NoSecondChance(engine: MethodResolver, methodId: Uri, relation: Uri)
    requires DocumentUri(methodId).Some?
    requires FirstAccepting(engine.resolvers, DocumentUri(methodId).value).Some?
    requires engine.resolvers[FirstAccepting(engine.resolvers, DocumentUri(methodId).value).value].fetch(DocumentUri(methodId).value).None?
    ensures Resolve(engine, methodId, relation) == Failure(InvalidControllerDocument)
  {
  }

  /** A resolver that substitutes a document with another id is caught. */
  lemma SubstitutedDocumentRefused(engine: MethodResolver, methodId: Uri, relation: Uri, document: IdentifierDocument)
    requires DocumentUri(methodId).Some?
    requires Fetches(engine.resolvers, DocumentUri(methodId).value, document)
    requires document.id != Some(DocumentUri(methodId).value)
    ensures Resolve(engine, methodId, relation) == Failure(InvalidControllerDocumentId)
  {
  }

  /** Once the fetched document carries the document URI as its id, top-level
      resolution is relation-level resolution within that document. */
  lemma ResolveDelegatesToRelation(engine: MethodResolver, methodId: Uri, relation: Uri, document: IdentifierDocument)
    requires DocumentUri(methodId).Some?
    requires Fetches(engine.resolvers, DocumentUri(methodId).value, document)
    requires document.id == Some(DocumentUri(methodId).value)
    ensures Resolve(engine, methodId, relation) == ResolveByRelation(methodId, relation, document)
  {
  }

  /** An id-only method has no controller, so no resolution ever returns one. */
  lemma IdOnlyNeverResolves(engine: MethodResolver, methodId: Uri, relation: Uri, id: Uri)
    ensures Resolve(engine, methodId, relation) != Success(IdOnly(id))
  {
  }

  /** A chain emptied after configuration fetches nothing: every reconstructible
      method id fails with INVALID_CONTROLLER_DOCUMENT. */
  lemma EmptyChainFetchesNothing(methodId: Uri, relation: Uri)
    ensures Resolve(MethodResolver([]), methodId, relation) ==
      if DocumentUri(methodId).None? then Failure(InvalidMethodId) else Failure(InvalidControllerDocument)
  {
  }
}
