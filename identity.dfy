/** The SDS identity of a dataplane: its mesh and the service it belongs to. */
module Identity {
  import opened Wrappers

  const ServiceTag := "service"
  const NoServicesError := "Dataplane has no services associated with it"

  datatype ResourceMeta = ResourceMeta(mesh: string, name: string)

  datatype Inbound = Inbound(interface: string, tags: map<string, string>)

  datatype Gateway = Gateway(tags: map<string, string>)

  datatype Networking = Networking(inbound: seq<Inbound>, gateway: Option<Gateway>)

  datatype DataplaneSpec = DataplaneSpec(networking: Option<Networking>)

  datatype DataplaneResource = DataplaneResource(meta: ResourceMeta, spec: DataplaneSpec)

  datatype Identity = Identity(mesh: string, service: string)

  /** Go's map lookup: a missing key reads as the empty string. */
  function Tag(tags: map<string, string>, key: string): string
  {
    if key in tags then tags[key] else ""
  }

  /** Inbound interfaces as declared; no networking section means none. */
  function Inbounds(dp: DataplaneResource): seq<Inbound>
  {
    if dp.spec.networking.Some? then dp.spec.networking.value.inbound else []
  }

  function GatewayOf(dp: DataplaneResource): Option<Gateway>
  {
    if dp.spec.networking.Some? then dp.spec.networking.value.gateway else None
  }

  /**
   * The service comes from the first inbound when there is one, else from the gateway;
   * a dataplane with neither has no identity.
   */
  function GetDataplaneIdentity(dp: DataplaneResource): (r: Result<Identity, string>)
    ensures r.Failure? <==> Inbounds(dp) == [] && GatewayOf(dp).None?
    ensures r.Failure? ==> r.error == NoServicesError
    ensures r.Success? ==> r.value.mesh == dp.meta.mesh
    ensures Inbounds(dp) != [] ==> r.Success? && r.value.service == Tag(Inbounds(dp)[0].tags, ServiceTag)
    ensures Inbounds(dp) == [] && GatewayOf(dp).Some? ==> r.Success? && r.value.service == Tag(GatewayOf(dp).value.tags, ServiceTag)
  {
    var inbounds := Inbounds(dp);
    if |inbounds| > 0 then
      Success(Identity(dp.meta.mesh, Tag(inbounds[0].tags, ServiceTag)))
    else if GatewayOf(dp).Some? then
      Success(Identity(dp.meta.mesh, Tag(GatewayOf(dp).value.tags, ServiceTag)))
    else
      Failure(NoServicesError)
  }

  /** With an inbound declared, the gateway has no say in the identity. */
  lemma FirstInboundWins(dp: DataplaneResource, gateway: Option<Gateway>)
    requires dp.spec.networking.Some? && dp.spec.networking.value.inbound != []
    ensures var other := dp.(spec := DataplaneSpec(Some(dp.spec.networking.value.(gateway := gateway))));
      GetDataplaneIdentity(other) == GetDataplaneIdentity(dp)
  {
  }

  lemma IdentityExamples()
    ensures GetDataplaneIdentity(DataplaneResource(ResourceMeta("demo", "dp-1"),
              DataplaneSpec(Some(Networking([Inbound("127.0.0.1:8080:80", map["service" := "backend"])], None)))))
            == Success(Identity("demo", "backend"))
    ensures GetDataplaneIdentity(DataplaneResource(ResourceMeta("demo", "dp-1"),
              DataplaneSpec(Some(Networking([], Some(Gateway(map["service" := "edge"])))))))
            == Success(Identity("demo", "edge"))
    ensures GetDataplaneIdentity(DataplaneResource(ResourceMeta("demo", "dp-1"), DataplaneSpec(None)))
            == Failure("Dataplane has no services associated with it")
  {
  }
}
