# Verification method resolution for controlled identifier documents

This project models the verification method resolver of carbon-cid, a Java
library for W3C Controlled Identifier documents, together with that library's
document model. The model is written in Dafny.

Given a method id (a URI with a fragment) and a verification relationship IRI,
the resolver works in five steps:

1. It strips the fragment off the method id to get the controller document URI.
2. It fetches that document through the first document resolver in an ordered chain that accepts the URI.
3. It checks that the fetched document's id is that URI.
4. It looks up the relationship in a fixed five-entry table.
5. It picks the method with that id from the selected relationship set and checks that the document is the method's controller.

Each failure is one of five error codes. The document model holds the document,
verification method, service and service endpoint records, their defaults, and
their required-property checks.

Modules, one per source file or component:

- `Wrappers` (`wrappers.dfy`): `Option` (Java's `null`) and `Result` (a value or an error code).
- `Uris` (`uris.dfy`): URIs as `(scheme, scheme-specific part, fragment)` with structural equality; deriving the document URI.
- `VerificationMethods`, `ServiceEndpoints`, `Services`, `IdentifierDocuments`: the document model.
- `Relationships` (`relationships.dfy`): the relationship IRI table and the accessor each entry selects.
- `ResolutionErrors` (`errors.dfy`): the five error codes.
- `DocumentResolvers` (`document_resolver.dfy`): the document resolver capability (accept and fetch functions) and the first-accepting selection.
- `MethodResolution` (`method_resolver.dfy`): the three resolution steps and their properties.
- `Scenarios` (`scenarios.dfy`): concrete resolutions against one document.

A Java `Set<VerificationMethod>` is modelled as a `seq`, in the order the set's
stream yields its members, because `findFirst` observes that order. Where the
relationship set is `null`, the model has `None`. Method ids are documented to be
unique within a document. Under that assumption, `OrderIndependent` proves that
the result depends only on which methods the set holds.

## Model

| member | source | states |
|---|---|---|
| Uris.StripFragment | src/main/java/com/apicatalog/cid/VerificationMethodResolver.java:189-190 | the document URI keeps the method id's scheme and scheme-specific part and has no fragment |
| Uris.DocumentUri | src/main/java/com/apicatalog/cid/VerificationMethodResolver.java:187-197 | a document URI is derived exactly when scheme and scheme-specific part can be rebuilt into a URI; it is the method id without its fragment |
| Uris.DocumentUriIdempotent | src/main/java/com/apicatalog/cid/VerificationMethodResolver.java:187-197 | deriving the document URI of a document URI changes nothing |
| Uris.DocumentUriOfFragmentless | src/main/java/com/apicatalog/cid/VerificationMethodResolver.java:187-197 | a method id without a fragment names its own document |
| Uris.DocumentUriIgnoresFragment | src/main/java/com/apicatalog/cid/VerificationMethodResolver.java:187-197 | method ids that differ only in their fragment point into the same document |
| Uris.DocumentUriInjectiveUpToFragment | src/main/java/com/apicatalog/cid/VerificationMethodResolver.java:187-197 | equal document URIs come from method ids with equal scheme and scheme-specific part, so only the fragment is forgotten |
| VerificationMethods.HasRequiredProperties | src/main/java/com/apicatalog/cid/document/VerificationMethod.java:72-74 | a method has its required properties iff id, type and controller are all present |
| VerificationMethods.Declared | src/main/java/com/apicatalog/cid/document/VerificationMethod.java:51-63 | a method declaring id, type and controller keeps them, has revoked and expires absent by default, and has its required properties |
| VerificationMethods.IdOnly | src/main/java/com/apicatalog/cid/document/ImmutableVerificationMethod.java:10-37 | an id-only method has the given id; its type, controller, revoked and expires are absent |
| VerificationMethods.IdOnlyLacksRequiredProperties | src/main/java/com/apicatalog/cid/document/VerificationMethod.java:72-74 | an id-only method never has its required properties |
| VerificationMethods.EachRequiredPropertyNeeded | src/main/java/com/apicatalog/cid/document/VerificationMethod.java:72-74 | dropping any one of id, type or controller loses the required properties |
| VerificationMethods.TimestampsNotRequired | src/main/java/com/apicatalog/cid/document/VerificationMethod.java:51-74 | revoked and expires are optional: changing them never changes the required-property check |
| ServiceEndpoints.HasRequiredProperties | src/main/java/com/apicatalog/cid/document/ServiceEndpoint.java:48-50 | an endpoint has its required properties iff its id is present |
| ServiceEndpoints.WithId | src/main/java/com/apicatalog/cid/document/ServiceEndpoint.java:39-41 | an endpoint that supplies only its id has no type values |
| ServiceEndpoints.Of | src/main/java/com/apicatalog/cid/document/ServiceEndpoint.java:59-62 | the factory keeps the given id and leaves the type values empty; an absent id cannot be passed |
| ServiceEndpoints.OfHasRequiredProperties | src/main/java/com/apicatalog/cid/document/ServiceEndpoint.java:48-62 | an endpoint built by the factory always has its required properties and hands back its id |
| ServiceEndpoints.WithoutIdLacksRequiredProperties | src/main/java/com/apicatalog/cid/document/ServiceEndpoint.java:48-50 | an endpoint without an id lacks its required properties, whatever its type values |
| Services.HasRequiredProperties | src/main/java/com/apicatalog/cid/document/Service.java:57-59 | a service has its required properties iff id and type are present and the endpoint collection is present and non-empty |
| Services.Of | src/main/java/com/apicatalog/cid/document/Service.java:93-95 | the several-types, several-endpoints factory keeps exactly its arguments, as the immutable service returns them; the service has its required properties iff id, type and a non-empty endpoint collection are present |
| Services.OfEndpoints | src/main/java/com/apicatalog/cid/document/Service.java:81-83 | the several-endpoint factory wraps the type in a singleton and keeps the endpoint collection |
| Services.OfEndpoint | src/main/java/com/apicatalog/cid/document/Service.java:69-71 | the single-endpoint factory yields a singleton type and a singleton endpoint collection |
| Services.OfEndpointRequiredProperties | src/main/java/com/apicatalog/cid/document/Service.java:57-71 | a single-endpoint service has its required properties exactly when its id is present |
| Services.OfEndpointsWithoutEndpoints | src/main/java/com/apicatalog/cid/document/Service.java:57-83 | a service given an empty or absent endpoint collection never has its required properties |
| Services.OfEndpointIsSingletonOfEndpoints | src/main/java/com/apicatalog/cid/document/Service.java:69-83 | the single-endpoint factory equals the several-endpoint factory on a one-element collection |
| IdentifierDocuments.HasRequiredProperties | src/main/java/com/apicatalog/cid/document/IdentifierDocument.java:130-132 | a document has its required properties iff its id is present |
| IdentifierDocuments.WithId | src/main/java/com/apicatalog/cid/document/IdentifierDocument.java:48-132 | by default controller, verification, alsoKnownAs and service are empty and all five relationship sets are present and empty; the document has its required properties iff its id is present |
| Relationships.Lookup | src/main/java/com/apicatalog/cid/VerificationMethodResolver.java:42-54 | a relation IRI the table knows is the IRI of the relationship it maps to; an IRI that is no relationship's IRI is unknown |
| Relationships.MethodsFor | src/main/java/com/apicatalog/cid/VerificationMethodResolver.java:44-53 | each relationship selects exactly its own relationship set of the document, absent sets included |
| Relationships.LookupIri | src/main/java/com/apicatalog/cid/VerificationMethodResolver.java:44-53 | each relationship's IRI maps to that relationship, so distinct relationships have distinct IRIs and each IRI selects exactly one accessor |
| Relationships.RelsSize | src/main/java/com/apicatalog/cid/VerificationMethodResolver.java:42-54 | the table has exactly five entries |
| DocumentResolvers.FirstAccepting | src/main/java/com/apicatalog/cid/VerificationMethodResolver.java:199-201 | the selected resolver accepts the URI and every resolver before it refuses it; nothing is selected iff every resolver refuses |
| DocumentResolvers.FirstAcceptingIgnoresLater | src/main/java/com/apicatalog/cid/VerificationMethodResolver.java:199-201 | resolvers appended after an accepting one never change the selection |
| DocumentResolvers.FirstAcceptingSkipsRefusers | src/main/java/com/apicatalog/cid/VerificationMethodResolver.java:199-201 | refusing resolvers placed in front only shift the selected position |
| MethodResolution.FirstWithId | src/main/java/com/apicatalog/cid/VerificationMethodResolver.java:93-95 | the result is the first position whose method has the id; nothing is found iff no member has it |
| MethodResolution.ResolveIn | src/main/java/com/apicatalog/cid/VerificationMethodResolver.java:90-108 | a success is a member of the given set with the method id and the document as controller; every failure is INVALID_VERIFICATION_METHOD; no member with the id means failure |
| MethodResolution.ResolveInIff | src/main/java/com/apicatalog/cid/VerificationMethodResolver.java:90-108 | with unique ids, success with m holds iff m is in the set, has the id, and has the document as controller |
| MethodResolution.ControllerMismatchRefused | src/main/java/com/apicatalog/cid/VerificationMethodResolver.java:100-105 | with unique ids, a member whose id matches but whose controller differs from the document id gives INVALID_VERIFICATION_METHOD |
| MethodResolution.OrderIndependent | src/main/java/com/apicatalog/cid/VerificationMethodResolver.java:93-95 | with unique ids, the result does not depend on the order the set yields its members |
| MethodResolution.ResolveByRelation | src/main/java/com/apicatalog/cid/VerificationMethodResolver.java:127-152 | an unknown relation IRI gives INVALID_RELATIONSHIP_FOR_VERIFICATION_METHOD; an absent or empty set gives INVALID_VERIFICATION_METHOD; a success is listed under that relationship with the id and the document as controller |
| MethodResolution.ResolveByRelationIff | src/main/java/com/apicatalog/cid/VerificationMethodResolver.java:136-151 | with unique ids, success with m holds iff the document lists m under the relation with the id and is m's controller |
| MethodResolution.ResolveByRelationReadsOneSet | src/main/java/com/apicatalog/cid/VerificationMethodResolver.java:144-151 | only the document id and the one set the relation selects matter; the other sets do not, even if they hold the method |
| MethodResolution.DefaultDocumentResolvesNothing | src/main/java/com/apicatalog/cid/VerificationMethodResolver.java:136-149 | against a document with default relationship sets, a known relation gives INVALID_VERIFICATION_METHOD and an unknown one gives INVALID_RELATIONSHIP_FOR_VERIFICATION_METHOD |
| MethodResolution.NewMethodResolver | src/main/java/com/apicatalog/cid/VerificationMethodResolver.java:67-73 | an engine is configured iff the resolver chain is non-empty, and it keeps that chain |
| MethodResolution.Resolve | src/main/java/com/apicatalog/cid/VerificationMethodResolver.java:181-215 | an id that cannot be rebuilt gives INVALID_METHOD_ID; no accepting resolver gives INVALID_CONTROLLER_DOCUMENT; a success has the method id, and its controller is the method id without its fragment |
| MethodResolution.ResolveIff | src/main/java/com/apicatalog/cid/VerificationMethodResolver.java:181-215 | with unique ids, success with m holds iff the first accepting resolver fetches a document whose id is the document URI and that document lists m under the relation as its controller |
| MethodResolution.ResolveIgnoresLaterResolvers | src/main/java/com/apicatalog/cid/VerificationMethodResolver.java:199-205 | once a resolver accepts the document URI, appending resolvers after it never changes the result |
| MethodResolution.NoSecondChance | src/main/java/com/apicatalog/cid/VerificationMethodResolver.java:199-205 | a null document from the first accepting resolver gives INVALID_CONTROLLER_DOCUMENT; no later resolver is tried |
| MethodResolution.SubstitutedDocumentRefused | src/main/java/com/apicatalog/cid/VerificationMethodResolver.java:207-212 | a fetched document whose id is not the document URI gives INVALID_CONTROLLER_DOCUMENT_ID |
| MethodResolution.ResolveDelegatesToRelation | src/main/java/com/apicatalog/cid/VerificationMethodResolver.java:207-214 | when the fetched document has the document URI as id, the result is relation-level resolution within it |
| MethodResolution.IdOnlyNeverResolves | src/main/java/com/apicatalog/cid/VerificationMethodResolver.java:100-107 | an id-only method has no controller, so it is never returned |
| MethodResolution.EmptyChainFetchesNothing | src/main/java/com/apicatalog/cid/VerificationMethodResolver.java:72-205 | the engine keeps the caller's collection; if it has been emptied, every reconstructible method id fails with INVALID_CONTROLLER_DOCUMENT |
| Scenarios.KeyIdNamesDocUri | src/main/java/com/apicatalog/cid/VerificationMethodResolver.java:189-190 | `https://ctrl.example/doc#key-1` derives `https://ctrl.example/doc` |
| Scenarios.AuthenticationKeyResolves | src/main/java/com/apicatalog/cid/VerificationMethodResolver.java:181-215 | a key listed for authentication whose controller is the document resolves to that exact key |
| Scenarios.AssertionKeyDoesNotAuthenticate | src/main/java/com/apicatalog/cid/VerificationMethodResolver.java:144-149 | the same key listed only for assertion, with authentication empty, gives INVALID_VERIFICATION_METHOD |
| Scenarios.NoResolverAccepts | src/main/java/com/apicatalog/cid/VerificationMethodResolver.java:199-205 | a chain where nothing accepts gives INVALID_CONTROLLER_DOCUMENT; a refusing resolver ahead of a serving one is skipped |
| Scenarios.SubstitutedDocumentCaught | src/main/java/com/apicatalog/cid/VerificationMethodResolver.java:207-212 | a resolver serving a document with another id gives INVALID_CONTROLLER_DOCUMENT_ID |
| Scenarios.UnknownRelationRefused | src/main/java/com/apicatalog/cid/VerificationMethodResolver.java:136-142 | an IRI outside the table gives INVALID_RELATIONSHIP_FOR_VERIFICATION_METHOD even when the document lists the key everywhere |
| Scenarios.TypeIsNotChecked | src/main/java/com/apicatalog/cid/VerificationMethodResolver.java:90-108 | resolution never checks a method's type, so a method lacking its required properties can be returned |

## Left out

- Fetch failures: a document resolver's `resolve` is a function returning an optional document, with absence standing for `null`. An exception it throws is not caught by the engine and propagates unchanged.
- Uris.DocumentUri: refuses reconstruction only when the scheme is not a well-formed scheme name (section 3.1 of RFC 2396) or the scheme-specific part is empty. The other parsing, quoting, normalisation and case-insensitive equality rules of `java.net.URI` are not modelled, because URIs are kept abstract with structural equality.
- Null arguments: a `requireNonNull` check becomes a parameter type that cannot be absent. The required document id is a `requires` clause.
- MethodResolution.ResolveIn: a missing document id is allowed only when no method matches. This mirrors the source, which reads the id only after a match.
- Revocation and expiry timestamps are carried as optional integers. The resolver never reads them.
- Services.OfEndpoint: a `null` type string or a `null` endpoint inside the singleton collections is not modelled; elements are never absent.
- Exception messages, package-info files, and the legacy interfaces in `com.apicatalog.cid` and `controller.resolver` / `did` are not modelled. Those legacy interfaces duplicate the document model without adding logic.
- Multicodec and multibase key mapping, and the JWK and Multikey value holders, are not part of this model. They wrap external decoders or are plain value holders.
- Determinism and idempotence need no lemma, because every operation is a pure function of its inputs.
