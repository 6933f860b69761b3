/** A service endpoint entry referenced from a service declaration. */
module ServiceEndpoints {
  import opened Wrappers
  import opened Uris

  /** The id is the only required property; type values default to none. */
  datatype ServiceEndpoint = ServiceEndpoint(id: Option<Uri>, types: seq<string>)

  /** An endpoint that declares its id. */
  predicate HasRequiredProperties(e: ServiceEndpoint) {
    e.id.Some?
  }

  /** An endpoint that supplies only its id, every other property left at its default. */
  function WithId(id: Option<Uri>): (e: ServiceEndpoint)
    ensures e.id == id
    ensures e.types == []
  {
    ServiceEndpoint(id, [])
  }

  /** The factory: the id may not be absent, so its parameter is a Uri, not an Option. */
  function Of(id: Uri): (e: ServiceEndpoint)
    ensures e.id == Some(id)
    ensures e.types == []
  {
    WithId(Some(id))
  }

  /** An endpoint built by the factory always has its required properties, and
      hands back the id it was built from. */
  lemma OfHasRequiredProperties(id: Uri)
    ensures HasRequiredProperties(Of(id))
    ensures Of(id).id.value == id
  {
  }

  /** Without an id an endpoint lacks its required properties, whatever else it declares. */
  lemma WithoutIdLacksRequiredProperties(types: seq<string>)
    ensures !HasRequiredProperties(ServiceEndpoint(None, types))
    ensures !HasRequiredProperties(WithId(None))
  {
  }
}
