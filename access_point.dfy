/**
 * The access point's default name-service selection: among the name services
 * discovered at run time, connect to and return the first one that supports
 * the URI's scheme.
 */
module AccessPoint {
  import opened Wrappers

  /** A name-service URI; a relative URI has no scheme. */
  datatype Uri = Uri(scheme: Option<string>, path: string)

  /**
   * A name service. `connections` records, in order, every URI passed to
   * `connect`; what connecting does beyond that is foreign.
   */
  class NameService {
    const supportedSchemes: set<string>
    var connections: seq<Uri>

    constructor (supportedSchemes: set<string>)
      ensures this.supportedSchemes == supportedSchemes
      ensures connections == []
    {
      this.supportedSchemes := supportedSchemes;
      connections := [];
    }

    /** `supportedSchemes().contains(uri.getScheme())`. */
    predicate Supports(scheme: Option<string>)
    {
      scheme.Some? && scheme.value in supportedSchemes
    }

    /** `connect(uri)`. */
    method Connect(uri: Uri)
      modifies this
      ensures connections == old(connections) + [uri]
    {
      connections := connections + [uri];
    }
  }

  /** The index of the first service supporting `scheme`, if any. */
  function FirstSupporting(services: seq<NameService>, scheme: Option<string>): (r: Option<nat>)
    ensures r.Some? ==> r.value < |services| && services[r.value].Supports(scheme)
    ensures r.Some? ==> forall j :: 0 <= j < r.value ==> !services[j].Supports(scheme)
    ensures r.None? <==> forall j :: 0 <= j < |services| ==> !services[j].Supports(scheme)
  {
    if services == [] then None
    else if services[0].Supports(scheme) then Some(0)
    else match FirstSupporting(services[1..], scheme)
      case None => None
      case Some(k) => Some(k + 1)
  }

  /**
   * `getNameService(uri)` over the discovered services, in iteration order:
   * the first service that supports the scheme is connected to `uri` and
   * returned; when none does, the result is null and nothing is connected.
   */
  method GetNameService(services: seq<NameService>, uri: Uri) returns (r: NameService?)
    modifies set s | s in services
    ensures match FirstSupporting(services, uri.scheme)
      case None => r == null
      case Some(k) => r == services[k]
    ensures r != null ==> r.connections == old(r.connections) + [uri]
    ensures forall s :: s in services && s != r ==> s.connections == old(s.connections)
  {
    var i := 0;
    while i < |services|
      invariant 0 <= i <= |services|
      invariant forall j :: 0 <= j < i ==> !services[j].Supports(uri.scheme)
      invariant forall s :: s in services ==> s.connections == old(s.connections)
    {
      var service := services[i];
      if service.Supports(uri.scheme) {
        service.Connect(uri);
        FirstIndex(services, uri.scheme, i);
        return service;
      }
      i := i + 1;
    }
    return null;
  }

  /** A supporting service with only non-supporting ones before it is the first. */
  lemma FirstIndex(services: seq<NameService>, scheme: Option<string>, i: nat)
    requires i < |services| && services[i].Supports(scheme)
    requires forall j :: 0 <= j < i ==> !services[j].Supports(scheme)
    ensures FirstSupporting(services, scheme) == Some(i)
  {
  }
}
