/** A service declaration in a controlled identifier document. */
module Services {
  import opened Wrappers
  import opened Uris
  import opened ServiceEndpoints

  /** id, one or more type values and one or more endpoints are required; each
      may be absent in a parsed document. */
  datatype Service = Service(
    id: Option<Uri>,
    types: Option<seq<string>>,
    endpoint: Option<seq<ServiceEndpoint>>)

  /** A service with an id, type values and at least one endpoint. */
  predicate HasRequiredProperties(s: Service) {
    s.id.Some? && s.types.Some? && s.endpoint.Some? && |s.endpoint.value| > 0
  }

  /** The general factory: the service keeps exactly the values it is given. */
  function Of(id: Option<Uri>, types: Option<seq<string>>, endpoint: Option<seq<ServiceEndpoint>>): (s: Service)
    ensures s.id == id && s.types == types && s.endpoint == endpoint
    ensures HasRequiredProperties(s) <==> id.Some? && types.Some? && endpoint.Some? && endpoint.value != []
  {
    Service(id, types, endpoint)
  }

  /** The factory for one type value and several endpoints. */
  function OfEndpoints(id: Option<Uri>, serviceType: string, endpoint: Option<seq<ServiceEndpoint>>): (s: Service)
    ensures s.id == id && s.types == Some([serviceType]) && s.endpoint == endpoint
  {
    Of(id, Some([serviceType]), endpoint)
  }

  /** The factory for one type value and one endpoint. */
  function OfEndpoint(id: Option<Uri>, serviceType: string, endpoint: ServiceEndpoint): (s: Service)
    ensures s.id == id && s.types == Some([serviceType]) && s.endpoint == Some([endpoint])
  {
    Of(id, Some([serviceType]), Some([endpoint]))
  }

  /** A single-endpoint service has its required properties exactly when it has an id. */
  lemma OfEndpointRequiredProperties(id: Option<Uri>, serviceType: string, endpoint: ServiceEndpoint)
    ensures HasRequiredProperties(OfEndpoint(id, serviceType, endpoint)) <==> id.Some?
  {
  }

  /** A service given an empty (or absent) endpoint collection never has its
      required properties, whatever its id and type. */
  lemma OfEndpointsWithoutEndpoints(id: Option<Uri>, serviceType: string)
    ensures !HasRequiredProperties(OfEndpoints(id, serviceType, Some([])))
    ensures !HasRequiredProperties(OfEndpoints(id, serviceType, None))
  {
  }

  /** The single-endpoint factory is the several-endpoint factory applied to a
      one-element collection. */
  lemma OfEndpointIsSingletonOfEndpoints(id: Option<Uri>, serviceType: string, endpoint: ServiceEndpoint)
    ensures OfEndpoint(id, serviceType, endpoint) == OfEndpoints(id, serviceType, Some([endpoint]))
  {
  }
}
