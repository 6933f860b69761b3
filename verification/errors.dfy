/** The closed set of reasons a verification method resolution fails. */
module ResolutionErrors {

  datatype Code =
    | InvalidRelationshipForVerificationMethod  // relation IRI not in the relationship table
    | InvalidVerificationMethod                 // empty relationship set, unknown method id, or controller mismatch
    | InvalidControllerDocument                 // no resolver accepts the document URI, or it yields no document
    | InvalidControllerDocumentId               // the fetched document's id is not the document URI
    | InvalidMethodId                           // the method id cannot be rebuilt into a document URI
}
