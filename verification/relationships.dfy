/** The fixed table from verification relationship IRIs to the document's five
    relationship sets. */
module Relationships {
  import opened Wrappers
  import opened Uris
  import opened VerificationMethods
  import opened IdentifierDocuments

  /** The five verification relationships, one per relationship set of a document. */
  datatype Relationship =
    | Authentication
    | Assertion
    | KeyAgreement
    | CapabilityInvocation
    | CapabilityDelegation

  /** `https://w3id.org/security#<term>` */
  function SecurityTerm(term: string): Uri {
    Uri(Some("https"), "//w3id.org/security", Some(term))
  }

  /** The IRI under which the table registers a relationship. */
  function Iri(rel: Relationship): Uri {
    match rel
    case Authentication => SecurityTerm("authentication")
    case Assertion => SecurityTerm("assertionMethod")
    case KeyAgreement => SecurityTerm("keyAgreementMethod")
    case CapabilityInvocation => SecurityTerm("capabilityInvocationMethod")
    case CapabilityDelegation => SecurityTerm("capabilityDelegationMethod")
  }

  /** The relationship table, built once and never changed. */
  const Rels: map<Uri, Relationship> := map[
    Iri(Authentication) := Authentication,
    Iri(Assertion) := Assertion,
    Iri(KeyAgreement) := KeyAgreement,
    Iri(CapabilityInvocation) := CapabilityInvocation,
    Iri(CapabilityDelegation) := CapabilityDelegation]

  /** The relationship a relation IRI names, if the table knows it. */
  function Lookup(relation: Uri): (r: Option<Relationship>)
    ensures r.Some? ==> Iri(r.value) == relation
    ensures r.None? ==> forall rel: Relationship :: Iri(rel) != relation
  {
    if relation in Rels then Some(Rels[relation]) else None
  }

  /** The relationship set of a document that a relationship selects. */
  function MethodsFor(d: IdentifierDocument, rel: Relationship): Option<seq<VerificationMethod>> {
    match rel
    case Authentication => d.authentication
    case Assertion => d.assertion
    case KeyAgreement => d.keyAgreement
    case CapabilityInvocation => d.capabilityInvocation
    case CapabilityDelegation => d.capabilityDelegation
  }

  /** Every relationship's own IRI looks it up: the table has exactly one entry
      per relationship, and distinct relationships have distinct IRIs. */
  lemma LookupIri(rel: Relationship)
    ensures Lookup(Iri(rel)) == Some(rel)
  {
  }

  /** The table has exactly five entries. */
  lemma RelsSize()
    ensures |Rels| == 5
  {
  }
}
