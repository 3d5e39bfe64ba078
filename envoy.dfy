/**
 * Builders of Envoy v2 xDS objects for one dataplane: load assignments with load-balancing
 * metadata, static / EDS / pass-through clusters with health-check policy, SDS-backed TLS
 * contexts, and the outbound, inbound, Prometheus and catch-all listeners.
 */
module Envoy {
  import opened Wrappers
  import opened EnvoyApi

  // ---- well-known constants

  const DefaultConnectTimeout := Duration(5, 0)
  /** Filter-metadata namespace read by Envoy's load balancer for subset matching. */
  const LbMetadataNamespace := "envoy.lb"
  const TcpProxyFilterName := "envoy.tcp_proxy"
  const HttpConnectionManagerFilterName := "envoy.http_connection_manager"
  const RouterFilterName := "envoy.router"
  const FileBasedMetadataCredentials := "envoy.grpc_credentials.file_based_metadata"
  /** Envoy's admin endpoint that serves metrics in Prometheus format. */
  const PrometheusStatsPath := "/stats/prometheus"
  const AdminVirtualHostName := "envoy_admin"
  /** SDS secret holding the mesh CA (the validation context). */
  const MeshCaResource := "mesh_ca"
  /** SDS secret holding the dataplane's identity certificate. */
  const IdentityCertResource := "identity_cert"

  // ---- inputs

  /** One upstream target of an outbound listener, with its traffic-split weight. */
  datatype ClusterInfo = ClusterInfo(name: string, weight: uint32, tags: map<string, string>)

  /** An upstream instance: host, port and the tags used for subset load balancing. */
  datatype Endpoint = Endpoint(target: string, port: uint32, tags: map<string, string>)

  datatype DataplaneMetadata = DataplaneMetadata(dataplaneTokenPath: string)

  datatype ActiveChecks = ActiveChecks(
    interval: Option<Duration>,
    timeout: Option<Duration>,
    unhealthyThreshold: uint32,
    healthyThreshold: uint32)

  datatype PassiveChecks = PassiveChecks(penaltyInterval: Option<Duration>, unhealthyThreshold: uint32)

  datatype HealthCheckResource = HealthCheckResource(activeChecks: Option<ActiveChecks>, passiveChecks: Option<PassiveChecks>)
  {
    predicate HasActiveChecks() { activeChecks.Some? }
    predicate HasPassiveChecks() { passiveChecks.Some? }
  }

  /** Traffic-permission policies; only the RBAC builder interprets them. */
  datatype TrafficPermission = TrafficPermission(mesh: string, name: string, rules: seq<string>)

  datatype TrafficPermissionResourceList = TrafficPermissionResourceList(items: seq<TrafficPermission>)

  /** A logging backend of the mesh; only the access-log converter interprets it. */
  datatype LoggingBackend = LoggingBackend(name: string, format: string, config: string)

  /** The proxy the configuration is built for; only the access-log converter reads it. */
  datatype Proxy = Proxy(id: string)

  datatype MeshMtls = MeshMtls(enabled: bool)

  datatype MeshContext = MeshContext(name: string, mtls: Option<MeshMtls>)

  datatype ControlPlaneContext = ControlPlaneContext(sdsLocation: string, sdsTlsCert: seq<byte>)

  /** The per-pass synthesis context. */
  datatype Context = Context(controlPlane: ControlPlaneContext, mesh: MeshContext)

  /** Mesh-wide mTLS switch; an absent mTLS section reads as disabled. */
  predicate MtlsEnabled(ctx: Context)
  {
    ctx.mesh.mtls.Some? && ctx.mesh.mtls.value.enabled
  }

  /** Token path of the dataplane; absent metadata reads as the empty path. */
  function DataplaneTokenPath(metadata: Option<DataplaneMetadata>): string
  {
    if metadata.Some? then metadata.value.dataplaneTokenPath else ""
  }

  function TcpSocketAddress(address: string, port: uint32): Address
  {
    SocketAddress(Tcp, address, port)
  }

  // ---- endpoints and load assignments

  /** The tags that Envoy's subset load balancer reads back from an endpoint's metadata. */
  function TagsOf(metadata: Option<Metadata>): map<string, string>
  {
    if metadata.Some? && LbMetadataNamespace in metadata.value.filterMetadata then
      var fields := metadata.value.filterMetadata[LbMetadataNamespace].fields;
      map k | k in fields :: fields[k].stringValue
    else
      map[]
  }

  /** Load-balancing metadata for a tag map: no block at all for no tags. */
  function LbMetadataOf(tags: map<string, string>): (r: Option<Metadata>)
    ensures r.None? <==> |tags| == 0
    ensures r.Some? ==> r.value.filterMetadata.Keys == {LbMetadataNamespace}
    ensures TagsOf(r) == tags
  {
    if |tags| == 0 then None
    else Some(Metadata(map[LbMetadataNamespace := Struct(map k | k in tags :: StringValue(tags[k]))]))
  }

  method CreateLbMetadata(tags: map<string, string>) returns (r: Option<Metadata>)
    ensures r == LbMetadataOf(tags)
  {
    if |tags| == 0 {
      return None;
    }
    var fields: map<string, Value> := map[];
    var pending := tags.Keys;
    while pending != {}
      invariant pending <= tags.Keys
      invariant fields.Keys == tags.Keys - pending
      invariant forall k :: k in fields ==> fields[k] == StringValue(tags[k])
      decreases pending
    {
      var key :| key in pending;
      fields := fields[key := StringValue(tags[key])];
      pending := pending - {key};
    }
    assert fields == map k | k in tags :: StringValue(tags[k]);
    r := Some(Metadata(map[LbMetadataNamespace := Struct(fields)]));
  }

  function LbEndpointOf(ep: Endpoint): LbEndpoint
  {
    LbEndpoint(LbMetadataOf(ep.tags), TcpSocketAddress(ep.target, ep.port))
  }

  /** The load assignment for a list of endpoints: one locality holding one entry per endpoint. */
  function LoadAssignmentOf(clusterName: string, endpoints: seq<Endpoint>): ClusterLoadAssignment
  {
    ClusterLoadAssignment(clusterName, [LocalityLbEndpoints(seq(|endpoints|, i requires 0 <= i < |endpoints| => LbEndpointOf(endpoints[i])))])
  }

  /** The endpoints a load assignment announces, read back from the wire form. */
  function EndpointsOf(localities: seq<LocalityLbEndpoints>): seq<Endpoint>
  {
    if localities == [] then []
    else
      var lbs := localities[0].lbEndpoints;
      seq(|lbs|, i requires 0 <= i < |lbs| => Endpoint(lbs[i].endpoint.address, lbs[i].endpoint.portValue, TagsOf(lbs[i].metadata)))
      + EndpointsOf(localities[1..])
  }

  method CreateClusterLoadAssignment(clusterName: string, endpoints: seq<Endpoint>) returns (r: ClusterLoadAssignment)
    ensures r == LoadAssignmentOf(clusterName, endpoints)
  {
    var lbEndpoints: seq<LbEndpoint> := [];
    for i := 0 to |endpoints|
      invariant |lbEndpoints| == i
      invariant forall j :: 0 <= j < i ==> lbEndpoints[j] == LbEndpointOf(endpoints[j])
    {
      var metadata := CreateLbMetadata(endpoints[i].tags);
      lbEndpoints := lbEndpoints + [LbEndpoint(metadata, TcpSocketAddress(endpoints[i].target, endpoints[i].port))];
    }
    assert lbEndpoints == LoadAssignmentOf(clusterName, endpoints).endpoints[0].lbEndpoints;
    r := ClusterLoadAssignment(clusterName, [LocalityLbEndpoints(lbEndpoints)]);
  }

  /** A load assignment has one locality, uses TCP, and announces exactly the given endpoints in order. */
  lemma LoadAssignmentRoundTrip(clusterName: string, endpoints: seq<Endpoint>)
    ensures var r := LoadAssignmentOf(clusterName, endpoints);
      && r.clusterName == clusterName
      && |r.endpoints| == 1
      && (forall lb :: lb in r.endpoints[0].lbEndpoints ==> lb.endpoint.protocol == Tcp)
      && EndpointsOf(r.endpoints) == endpoints
  {
    var r := LoadAssignmentOf(clusterName, endpoints);
    var lbs := r.endpoints[0].lbEndpoints;
    assert EndpointsOf(r.endpoints[1..]) == [];
    forall i | 0 <= i < |endpoints|
      ensures Endpoint(lbs[i].endpoint.address, lbs[i].endpoint.portValue, TagsOf(lbs[i].metadata)) == endpoints[i]
    {
      assert lbs[i] == LbEndpointOf(endpoints[i]);
    }
  }

  /** The single-endpoint assignment of a static cluster. */
  function CreateStaticEndpoint(clusterName: string, address: string, port: uint32): (r: ClusterLoadAssignment)
    ensures r == LoadAssignmentOf(clusterName, [Endpoint(address, port, map[])])
  {
    var untagged := Endpoint(address, port, map[]);
    assert LbEndpointOf(untagged) == LbEndpoint(None, TcpSocketAddress(address, port));
    assert LoadAssignmentOf(clusterName, [untagged]).endpoints[0].lbEndpoints == [LbEndpointOf(untagged)];
    ClusterLoadAssignment(clusterName, [LocalityLbEndpoints([LbEndpoint(None, TcpSocketAddress(address, port))])])
  }

  // ---- SDS references and TLS contexts

  /** Adds the file-based token call credential to an SDS channel when the dataplane has a token path. */
  function WithCallCredentials(grpc: GoogleGrpc, metadata: Option<DataplaneMetadata>): (r: GoogleGrpc)
    ensures DataplaneTokenPath(metadata) == "" ==> r == grpc
    ensures DataplaneTokenPath(metadata) != "" ==>
      && r.callCredentials == grpc.callCredentials + [FromPlugin(FileBasedMetadataCredentials, FileBasedMetadataConfig(Filename(DataplaneTokenPath(metadata))))]
      && r.credentialsFactoryName == FileBasedMetadataCredentials
      && r.(callCredentials := grpc.callCredentials, credentialsFactoryName := grpc.credentialsFactoryName) == grpc
  {
    var tokenPath := DataplaneTokenPath(metadata);
    if tokenPath == "" then grpc
    else
      var credential := FromPlugin(FileBasedMetadataCredentials, FileBasedMetadataConfig(Filename(tokenPath)));
      grpc.(callCredentials := grpc.callCredentials + [credential], credentialsFactoryName := FileBasedMetadataCredentials)
  }

  /** The one Google gRPC channel an SDS reference is fetched over, when it has exactly that shape. */
  function SdsChannel(s: SdsSecretConfig): Option<GoogleGrpc>
  {
    if s.sdsConfig.ApiConfigSource? && s.sdsConfig.apiType == Grpc && |s.sdsConfig.grpcServices| == 1
    then Some(s.sdsConfig.grpcServices[0].googleGrpc)
    else None
  }

  /**
   * `s` names secret `name`, fetched from the control plane's SDS location over TLS that trusts
   * the control plane's certificate given inline, and carries the token call credential exactly
   * when `tokenPath` is non-empty.
   */
  predicate ReferencesControlPlaneSecret(s: SdsSecretConfig, ctx: Context, name: string, tokenPath: string)
  {
    && s.name == name
    && SdsChannel(s).Some?
    && var g := SdsChannel(s).value;
    && g.targetUri == ctx.controlPlane.sdsLocation
    && g.statPrefix == "sds_" + name
    && g.channelCredentials == SslCredentials(InlineBytes(ctx.controlPlane.sdsTlsCert))
    && (tokenPath == "" ==> g.callCredentials == [] && g.credentialsFactoryName == "")
    && (tokenPath != "" ==>
          && g.callCredentials == [FromPlugin(FileBasedMetadataCredentials, FileBasedMetadataConfig(Filename(tokenPath)))]
          && g.credentialsFactoryName == FileBasedMetadataCredentials)
  }

  function SdsSecretConfigFor(ctx: Context, name: string, metadata: Option<DataplaneMetadata>): (r: SdsSecretConfig)
    ensures ReferencesControlPlaneSecret(r, ctx, name, DataplaneTokenPath(metadata))
  {
    var channel := GoogleGrpc(
      ctx.controlPlane.sdsLocation,
      "sds_" + name,
      SslCredentials(InlineBytes(ctx.controlPlane.sdsTlsCert)),
      [],
      "");
    SdsSecretConfig(name, ApiConfigSource(Grpc, [GoogleGrpcService(WithCallCredentials(channel, metadata))]))
  }

  /** Two SDS references built for the same dataplane differ only in the secret name and the stat prefix. */
  lemma SdsSecretConfigsDifferOnlyInName(ctx: Context, a: string, b: string, metadata: Option<DataplaneMetadata>)
    ensures var sa, sb := SdsSecretConfigFor(ctx, a, metadata), SdsSecretConfigFor(ctx, b, metadata);
      && SdsChannel(sa).Some? && SdsChannel(sb).Some?
      && SdsChannel(sa).value.(statPrefix := "") == SdsChannel(sb).value.(statPrefix := "")
      && sa.name == a && sb.name == b
      && sa.sdsConfig == ApiConfigSource(Grpc, [GoogleGrpcService(SdsChannel(sb).value.(statPrefix := "sds_" + a))])
  {
  }

  function CreateCommonTlsContext(ctx: Context, metadata: Option<DataplaneMetadata>): (r: CommonTlsContext)
    ensures ReferencesControlPlaneSecret(r.validationContextSdsSecretConfig, ctx, MeshCaResource, DataplaneTokenPath(metadata))
    ensures |r.tlsCertificateSdsSecretConfigs| == 1
    ensures ReferencesControlPlaneSecret(r.tlsCertificateSdsSecretConfigs[0], ctx, IdentityCertResource, DataplaneTokenPath(metadata))
  {
    CommonTlsContext(
      SdsSecretConfigFor(ctx, MeshCaResource, metadata),
      [SdsSecretConfigFor(ctx, IdentityCertResource, metadata)])
  }

  function CreateDownstreamTlsContext(ctx: Context, metadata: Option<DataplaneMetadata>): (r: Option<DownstreamTlsContext>)
    ensures r.Some? <==> MtlsEnabled(ctx)
    ensures r.Some? ==> r.value.commonTlsContext == CreateCommonTlsContext(ctx, metadata)
    ensures r.Some? ==> r.value.requireClientCertificate == Some(true)
  {
    if !MtlsEnabled(ctx) then None
    else Some(DownstreamTlsContext(CreateCommonTlsContext(ctx, metadata), Some(true)))
  }

  function CreateUpstreamTlsContext(ctx: Context, metadata: Option<DataplaneMetadata>): (r: Option<UpstreamTlsContext>)
    ensures r.Some? <==> MtlsEnabled(ctx)
    ensures r.Some? ==> r.value.commonTlsContext == CreateCommonTlsContext(ctx, metadata)
  {
    if !MtlsEnabled(ctx) then None
    else Some(UpstreamTlsContext(CreateCommonTlsContext(ctx, metadata)))
  }

  // ---- clusters

  function CreateLocalCluster(clusterName: string, address: string, port: uint32): (r: Cluster)
    ensures r.name == clusterName && r.connectTimeout == Some(DefaultConnectTimeout)
    ensures r.discoveryType == Static && r.lbPolicy == RoundRobin
    ensures r.loadAssignment == Some(CreateStaticEndpoint(clusterName, address, port))
    ensures r.edsClusterConfig.None? && r.tlsContext.None?
    ensures r.healthChecks == [] && r.outlierDetection.None?
  {
    Cluster(clusterName, Some(DefaultConnectTimeout), Static, RoundRobin,
      Some(CreateStaticEndpoint(clusterName, address, port)), None, None, [], None)
  }

  /** A local cluster is STATIC with the default timeout and announces exactly (address, port), untagged. */
  lemma LocalClusterEndpoint(clusterName: string, address: string, port: uint32)
    ensures var c := CreateLocalCluster(clusterName, address, port);
      && c.discoveryType == Static
      && c.connectTimeout == Some(Duration(5, 0))
      && c.loadAssignment.Some?
      && c.loadAssignment.value.clusterName == clusterName
      && |c.loadAssignment.value.endpoints| == 1
      && |c.loadAssignment.value.endpoints[0].lbEndpoints| == 1
      && c.loadAssignment.value.endpoints[0].lbEndpoints[0].metadata.None?
      && EndpointsOf(c.loadAssignment.value.endpoints) == [Endpoint(address, port, map[])]
  {
    LoadAssignmentRoundTrip(clusterName, [Endpoint(address, port, map[])]);
  }

  function CreateEdsCluster(ctx: Context, clusterName: string, metadata: Option<DataplaneMetadata>): (r: Cluster)
    ensures r.name == clusterName && r.connectTimeout == Some(DefaultConnectTimeout)
    ensures r.discoveryType == Eds && r.lbPolicy == RoundRobin
    ensures r.edsClusterConfig == Some(EdsClusterConfig(Ads))
    ensures r.loadAssignment.None?
    ensures r.tlsContext == CreateUpstreamTlsContext(ctx, metadata)
    ensures r.tlsContext.Some? <==> MtlsEnabled(ctx)
    ensures r.healthChecks == [] && r.outlierDetection.None?
  {
    Cluster(clusterName, Some(DefaultConnectTimeout), Eds, RoundRobin,
      None, Some(EdsClusterConfig(Ads)), CreateUpstreamTlsContext(ctx, metadata), [], None)
  }

  function CreatePassThroughCluster(clusterName: string): (r: Cluster)
    ensures r.name == clusterName && r.connectTimeout == Some(DefaultConnectTimeout)
    ensures r.discoveryType == OriginalDst && r.lbPolicy == OriginalDstLb
    ensures r.loadAssignment.None? && r.edsClusterConfig.None? && r.tlsContext.None?
    ensures r.healthChecks == [] && r.outlierDetection.None?
  {
    Cluster(clusterName, Some(DefaultConnectTimeout), OriginalDst, OriginalDstLb, None, None, None, [], None)
  }

  /**
   * Attaches a health-check policy: active checks append one TCP health check, passive checks
   * set outlier detection, independently of each other; no policy leaves the cluster as it is.
   */
  method ClusterWithHealthChecks(cluster: Cluster, healthCheck: Option<HealthCheckResource>) returns (r: Cluster)
    ensures healthCheck.None? ==> r == cluster
    ensures healthCheck.Some? && healthCheck.value.HasActiveChecks() ==>
      var active := healthCheck.value.activeChecks.value;
      var n := |cluster.healthChecks|;
      && |r.healthChecks| == n + 1
      && r.healthChecks[..n] == cluster.healthChecks
      && r.healthChecks[n].healthChecker == TcpHealthCheck
      && r.healthChecks[n].interval == active.interval
      && r.healthChecks[n].timeout == active.timeout
      && r.healthChecks[n].unhealthyThreshold == Some(active.unhealthyThreshold)
      && r.healthChecks[n].healthyThreshold == Some(active.healthyThreshold)
    ensures !(healthCheck.Some? && healthCheck.value.HasActiveChecks()) ==> r.healthChecks == cluster.healthChecks
    ensures healthCheck.Some? && healthCheck.value.HasPassiveChecks() ==>
      var passive := healthCheck.value.passiveChecks.value;
      r.outlierDetection == Some(OutlierDetection(passive.penaltyInterval, Some(passive.unhealthyThreshold)))
    ensures !(healthCheck.Some? && healthCheck.value.HasPassiveChecks()) ==> r.outlierDetection == cluster.outlierDetection
    ensures r.(healthChecks := cluster.healthChecks, outlierDetection := cluster.outlierDetection) == cluster
  {
    r := cluster;
    if healthCheck.None? {
      return;
    }
    var policy := healthCheck.value;
    if policy.HasActiveChecks() {
      var active := policy.activeChecks.value;
      var check := HealthCheck(TcpHealthCheck, active.interval, active.timeout,
        Some(active.unhealthyThreshold), Some(active.healthyThreshold));
      r := r.(healthChecks := r.healthChecks + [check]);
    }
    if policy.HasPassiveChecks() {
      var passive := policy.passiveChecks.value;
      r := r.(outlierDetection := Some(OutlierDetection(passive.penaltyInterval, Some(passive.unhealthyThreshold))));
    }
  }

  // ---- listeners

  /** The `deprecated_v1` block that stops a virtual listener from binding to its port. */
  const NoBindToPort := DeprecatedV1(Some(false))

  function TcpProxyFilter(config: TcpProxy): Filter
  {
    Filter(TcpProxyFilterName, TcpProxyConfig(config))
  }

  /**
   * The outbound listener: one TCP proxy to one cluster, or weighted across any other number of
   * clusters; at most one access log, and failure to build it is the only error.
   */
  method CreateOutboundListener(
    ctx: Context, listenerName: string, address: string, port: uint32, statsName: string,
    clusters: seq<ClusterInfo>, virtual: bool, sourceService: string, destinationService: string,
    backend: Option<LoggingBackend>, proxy: Proxy,
    convertLoggingBackend: (string, string, LoggingBackend, Proxy) -> Result<AccessLog, string>)
    returns (r: Result<Listener, string>)
    ensures r.Failure? <==> backend.Some? && convertLoggingBackend(sourceService, destinationService, backend.value, proxy).Failure?
    ensures r.Failure? ==> r.error == convertLoggingBackend(sourceService, destinationService, backend.value, proxy).error
    ensures r.Success? ==>
      var l := r.value;
      && l.name == listenerName
      && l.address == TcpSocketAddress(address, port)
      && |l.filterChains| == 1
      && l.filterChains[0].tlsContext.None?
      && |l.filterChains[0].filters| == 1
      && l.filterChains[0].filters[0].name == TcpProxyFilterName
      && l.filterChains[0].filters[0].typedConfig.TcpProxyConfig?
      && BindsToPort(l) == !virtual
      && l.useOriginalDst.None?
    ensures r.Success? ==>
      var tcp := r.value.filterChains[0].filters[0].typedConfig.tcpProxy;
      && tcp.statPrefix == statsName
      && (backend.None? ==> tcp.accessLog == [])
      && (backend.Some? ==> tcp.accessLog == [convertLoggingBackend(sourceService, destinationService, backend.value, proxy).value])
      && (tcp.clusterSpecifier.SingleCluster? <==> |clusters| == 1)
      && (|clusters| == 1 ==> tcp.clusterSpecifier.cluster == clusters[0].name)
      && (|clusters| != 1 ==>
            && |tcp.clusterSpecifier.clusters| == |clusters|
            && forall i :: 0 <= i < |clusters| ==>
                 tcp.clusterSpecifier.clusters[i] == ClusterWeight(clusters[i].name, clusters[i].weight))
  {
    var accessLogs: seq<AccessLog> := [];
    if backend.Some? {
      var accessLog := convertLoggingBackend(sourceService, destinationService, backend.value, proxy);
      if accessLog.Failure? {
        return Failure(accessLog.error);
      }
      accessLogs := accessLogs + [accessLog.value];
    }

    var specifier;
    if |clusters| == 1 {
      specifier := SingleCluster(clusters[0].name);
    } else {
      var weighted: seq<ClusterWeight> := [];
      for i := 0 to |clusters|
        invariant |weighted| == i
        invariant forall j :: 0 <= j < i ==> weighted[j] == ClusterWeight(clusters[j].name, clusters[j].weight)
      {
        weighted := weighted + [ClusterWeight(clusters[i].name, clusters[i].weight)];
      }
      specifier := WeightedClusters(weighted);
    }
    var config := TcpProxy(statsName, specifier, accessLogs);

    var listener := Listener(listenerName, TcpSocketAddress(address, port),
      [FilterChain(None, [TcpProxyFilter(config)])], None, None);
    if virtual {
      listener := listener.(deprecatedV1 := Some(NoBindToPort));
    }
    return Success(listener);
  }

  /**
   * The inbound listener: a TCP proxy to the local cluster behind the downstream TLS context;
   * with mesh mTLS on, the RBAC filter built from the traffic permissions is put in front of it.
   */
  method CreateInboundListener(
    ctx: Context, listenerName: string, address: string, port: uint32, clusterName: string,
    virtual: bool, permissions: TrafficPermissionResourceList, metadata: Option<DataplaneMetadata>,
    createRbacFilter: (string, TrafficPermissionResourceList) -> Filter)
    returns (l: Listener)
    ensures l.name == listenerName && l.address == TcpSocketAddress(address, port)
    ensures |l.filterChains| == 1
    ensures l.filterChains[0].tlsContext == CreateDownstreamTlsContext(ctx, metadata)
    ensures l.filterChains[0].tlsContext.Some? <==> MtlsEnabled(ctx)
    ensures MtlsEnabled(ctx) ==> l.filterChains[0].tlsContext.value.requireClientCertificate == Some(true)
    ensures var filters := l.filterChains[0].filters;
      && |filters| == (if MtlsEnabled(ctx) then 2 else 1)
      && filters[|filters| - 1] == TcpProxyFilter(TcpProxy(clusterName, SingleCluster(clusterName), []))
      && (MtlsEnabled(ctx) ==> filters[0] == createRbacFilter(listenerName, permissions))
    ensures BindsToPort(l) == !virtual
    ensures l.useOriginalDst.None?
  {
    var config := TcpProxy(clusterName, SingleCluster(clusterName), []);
    l := Listener(listenerName, TcpSocketAddress(address, port),
      [FilterChain(CreateDownstreamTlsContext(ctx, metadata), [TcpProxyFilter(config)])], None, None);

    if MtlsEnabled(ctx) {
      var rbac := createRbacFilter(listenerName, permissions);
      // RBAC must see the connection before the TCP proxy forwards it
      var chain := l.filterChains[0];
      l := l.(filterChains := [chain.(filters := [rbac] + chain.filters)]);
    }

    if virtual {
      l := l.(deprecatedV1 := Some(NoBindToPort));
    }
  }

  /**
   * The metrics listener: an HTTP connection manager whose one catch-all virtual host forwards
   * requests under `path` to `clusterName`, rewritten to Envoy's Prometheus stats endpoint.
   */
  function CreatePrometheusListener(
    ctx: Context, listenerName: string, address: string, port: uint32, path: string,
    clusterName: string, virtual: bool, metadata: Option<DataplaneMetadata>): (r: Listener)
    ensures r.name == listenerName && r.address == TcpSocketAddress(address, port)
    ensures |r.filterChains| == 1 && r.filterChains[0].tlsContext.None?
    ensures |r.filterChains[0].filters| == 1
    ensures r.filterChains[0].filters[0].name == HttpConnectionManagerFilterName
    ensures r.filterChains[0].filters[0].typedConfig.HttpConnectionManagerConfig?
    ensures var hcm := r.filterChains[0].filters[0].typedConfig.hcm;
      && hcm.statPrefix == listenerName
      && hcm.codecType == Auto
      && hcm.httpFilters == [HttpFilter(RouterFilterName)]
      && hcm.virtualHosts == [VirtualHost(AdminVirtualHostName, ["*"], [Route(path, RouteAction(clusterName, PrometheusStatsPath))])]
    ensures BindsToPort(r) == !virtual
    ensures r.useOriginalDst.None?
  {
    var route := Route(path, RouteAction(clusterName, PrometheusStatsPath));
    var config := HttpConnectionManager(listenerName, Auto, [HttpFilter(RouterFilterName)],
      [VirtualHost(AdminVirtualHostName, ["*"], [route])]);
    var listener := Listener(listenerName, TcpSocketAddress(address, port),
      [FilterChain(None, [Filter(HttpConnectionManagerFilterName, HttpConnectionManagerConfig(config))])], None, None);
    if virtual then listener.(deprecatedV1 := Some(NoBindToPort)) else listener
  }

  /** The catch-all listener: binds, uses original destination, and proxies everything to `clusterName`. */
  function CreateCatchAllListener(ctx: Context, listenerName: string, address: string, port: uint32, clusterName: string): (r: Listener)
    ensures r.name == listenerName && r.address == TcpSocketAddress(address, port)
    ensures r.filterChains == [FilterChain(None, [TcpProxyFilter(TcpProxy(clusterName, SingleCluster(clusterName), []))])]
    ensures r.useOriginalDst == Some(true)
    ensures BindsToPort(r)
  {
    var config := TcpProxy(clusterName, SingleCluster(clusterName), []);
    Listener(listenerName, TcpSocketAddress(address, port), [FilterChain(None, [TcpProxyFilter(config)])], None, Some(true))
  }
}
