/** A controlled identifier document: the identifier it describes, its
    controllers, its verification methods, the five verification relationships,
    alternative identifiers and services. */
module IdentifierDocuments {
  import opened Wrappers
  import opened Uris
  import opened VerificationMethods
  import opened Services

  /** Each relationship set is None when the document reports it as null, and
      otherwise lists its methods in the order the set yields them. */
  datatype IdentifierDocument = IdentifierDocument(
    id: Option<Uri>,
    controller: set<Uri>,
    verification: seq<VerificationMethod>,
    alsoKnownAs: set<Uri>,
    authentication: Option<seq<VerificationMethod>>,
    assertion: Option<seq<VerificationMethod>>,
    keyAgreement: Option<seq<VerificationMethod>>,
    capabilityInvocation: Option<seq<VerificationMethod>>,
    capabilityDelegation: Option<seq<VerificationMethod>>,
    service: set<Service>)

  /** The only required property of a document is its id. */
  predicate HasRequiredProperties(d: IdentifierDocument) {
    d.id.Some?
  }

  /** A document that supplies only its id and leaves every other property at its
      default: every collection empty, every relationship set empty but present. */
  function WithId(id: Option<Uri>): (d: IdentifierDocument)
    ensures d.id == id
    ensures d.controller == {} && d.verification == [] && d.alsoKnownAs == {}
    ensures d.authentication == Some([]) && d.assertion == Some([])
    ensures d.keyAgreement == Some([])
    ensures d.capabilityInvocation == Some([]) && d.capabilityDelegation == Some([])
    ensures d.service == {}
    ensures HasRequiredProperties(d) <==> id.Some?
  {
    IdentifierDocument(id, {}, [], {}, Some([]), Some([]), Some([]), Some([]), Some([]), {})
  }

  /** Method ids are unique within a document: within the declared methods and
      within each relationship set that is present. */
  predicate UniqueMethodIds(d: IdentifierDocument) {
    && UniqueIds(d.verification)
    && (d.authentication.Some? ==> UniqueIds(d.authentication.value))
    && (d.assertion.Some? ==> UniqueIds(d.assertion.value))
    && (d.keyAgreement.Some? ==> UniqueIds(d.keyAgreement.value))
    && (d.capabilityInvocation.Some? ==> UniqueIds(d.capabilityInvocation.value))
    && (d.capabilityDelegation.Some? ==> UniqueIds(d.capabilityDelegation.value))
  }
}
