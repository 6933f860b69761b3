/** A verification method declared in a controlled identifier document. */
module VerificationMethods {
  import opened Wrappers
  import opened Uris

  /** A point in time, in seconds since the epoch; the resolver never reads one. */
  type Instant = int

  /** id, type and controller are the required properties; any of them may be
      absent in a parsed document. revoked and expires are optional. */
  datatype VerificationMethod = VerificationMethod(
    id: Option<Uri>,
    methodType: Option<string>,
    controller: Option<Uri>,
    revoked: Option<Instant>,
    expires: Option<Instant>)

  /** A method that declares all of id, type and controller. */
  predicate HasRequiredProperties(m: VerificationMethod) {
    m.id.Some? && m.methodType.Some? && m.controller.Some?
  }

  /** A method declaring id, type and controller, with revoked and expires left
      at their defaults. */
  function Declared(id: Uri, methodType: string, controller: Uri): (m: VerificationMethod)
    ensures m.id == Some(id) && m.methodType == Some(methodType) && m.controller == Some(controller)
    ensures m.revoked.None? && m.expires.None?
    ensures HasRequiredProperties(m)
  {
    VerificationMethod(Some(id), Some(methodType), Some(controller), None, None)
  }

  /** The id-only method: type, controller, revoked and expires all absent. */
  function IdOnly(id: Uri): (m: VerificationMethod)
    ensures m.id == Some(id)
    ensures m.methodType.None? && m.controller.None?
    ensures m.revoked.None? && m.expires.None?
  {
    VerificationMethod(Some(id), None, None, None, None)
  }

  /** An id-only method never has the required properties. */
  lemma IdOnlyLacksRequiredProperties(id: Uri)
    ensures !HasRequiredProperties(IdOnly(id))
  {
  }

  /** Each of id, type and controller is needed: dropping any one of them from a
      method loses its required properties. */
  lemma EachRequiredPropertyNeeded(m: VerificationMethod)
    ensures !HasRequiredProperties(m.(id := None))
    ensures !HasRequiredProperties(m.(methodType := None))
    ensures !HasRequiredProperties(m.(controller := None))
  {
  }

  /** The optional timestamps play no part in the required properties. */
  lemma TimestampsNotRequired(m: VerificationMethod, revoked: Option<Instant>, expires: Option<Instant>)
    ensures HasRequiredProperties(m.(revoked := revoked, expires := expires)) == HasRequiredProperties(m)
  {
  }

  /** The method's id is present and equals `id`. */
  predicate HasId(m: VerificationMethod, id: Uri) {
    m.id == Some(id)
  }

  /** Method ids are unique within a collection: no two positions carry the same id. */
  predicate UniqueIds(methods: seq<VerificationMethod>) {
    forall i, j :: 0 <= i < j < |methods| && methods[i].id.Some? ==> methods[i].id != methods[j].id
  }
}
