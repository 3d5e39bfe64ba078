/**
 * The Envoy v2 xDS wire objects that the configuration builders produce, reduced to the
 * fields those builders set or read. Protobuf wrapper types (`BoolValue`, `UInt32Value`)
 * become plain values or `Option`s, `Any`-typed configs become the structured value itself.
 */
module EnvoyApi {
  import opened Wrappers

  type uint32 = x: int | 0 <= x < 0x1_0000_0000
  type byte = x: int | 0 <= x < 0x100

  /** A protobuf `Duration`. */
  datatype Duration = Duration(seconds: int, nanos: int)

  // ---- addresses, metadata, endpoints

  datatype Protocol = Tcp | Udp

  datatype Address = SocketAddress(protocol: Protocol, address: string, portValue: uint32)

  /** A `google.protobuf.Value`; the builders only ever produce string values. */
  datatype Value = StringValue(stringValue: string)

  datatype Struct = Struct(fields: map<string, Value>)

  datatype Metadata = Metadata(filterMetadata: map<string, Struct>)

  datatype LbEndpoint = LbEndpoint(metadata: Option<Metadata>, endpoint: Address)

  datatype LocalityLbEndpoints = LocalityLbEndpoints(lbEndpoints: seq<LbEndpoint>)

  datatype ClusterLoadAssignment = ClusterLoadAssignment(clusterName: string, endpoints: seq<LocalityLbEndpoints>)

  // ---- secret discovery (SDS) references

  datatype DataSource = Filename(filename: string) | InlineBytes(inlineBytes: seq<byte>)

  datatype FileBasedMetadataConfig = FileBasedMetadataConfig(secretData: DataSource)

  /** `GoogleGrpc.CallCredentials` with a `MetadataCredentialsFromPlugin` specifier. */
  datatype CallCredentials = FromPlugin(name: string, typedConfig: FileBasedMetadataConfig)

  datatype ChannelCredentials = SslCredentials(rootCerts: DataSource)

  datatype GoogleGrpc = GoogleGrpc(
    targetUri: string,
    statPrefix: string,
    channelCredentials: ChannelCredentials,
    callCredentials: seq<CallCredentials>,
    credentialsFactoryName: string)

  datatype GrpcService = GoogleGrpcService(googleGrpc: GoogleGrpc)

  datatype ApiType = Rest | Grpc

  datatype ConfigSource =
    | Ads
    | ApiConfigSource(apiType: ApiType, grpcServices: seq<GrpcService>)

  datatype SdsSecretConfig = SdsSecretConfig(name: string, sdsConfig: ConfigSource)

  datatype CommonTlsContext = CommonTlsContext(
    validationContextSdsSecretConfig: SdsSecretConfig,
    tlsCertificateSdsSecretConfigs: seq<SdsSecretConfig>)

  datatype DownstreamTlsContext = DownstreamTlsContext(
    commonTlsContext: CommonTlsContext,
    requireClientCertificate: Option<bool>)

  datatype UpstreamTlsContext = UpstreamTlsContext(commonTlsContext: CommonTlsContext)

  // ---- clusters

  datatype DiscoveryType = Static | StrictDns | LogicalDns | Eds | OriginalDst

  /** The proto default (`ROUND_ROBIN`) is what a builder that sets no policy leaves. */
  datatype LbPolicy = RoundRobin | LeastRequest | OriginalDstLb

  datatype EdsClusterConfig = EdsClusterConfig(edsConfig: ConfigSource)

  datatype HealthChecker = TcpHealthCheck | HttpHealthCheck(path: string)

  datatype HealthCheck = HealthCheck(
    healthChecker: HealthChecker,
    interval: Option<Duration>,
    timeout: Option<Duration>,
    unhealthyThreshold: Option<uint32>,
    healthyThreshold: Option<uint32>)

  datatype OutlierDetection = OutlierDetection(interval: Option<Duration>, consecutive5xx: Option<uint32>)

  datatype Cluster = Cluster(
    name: string,
    connectTimeout: Option<Duration>,
    discoveryType: DiscoveryType,
    lbPolicy: LbPolicy,
    loadAssignment: Option<ClusterLoadAssignment>,
    edsClusterConfig: Option<EdsClusterConfig>,
    tlsContext: Option<UpstreamTlsContext>,
    healthChecks: seq<HealthCheck>,
    outlierDetection: Option<OutlierDetection>)

  // ---- filters and listeners

  /** An access-log entry, as built by the logging-backend converter (not part of this model). */
  datatype AccessLog = AccessLog(name: string, config: string)

  datatype ClusterWeight = ClusterWeight(name: string, weight: uint32)

  datatype ClusterSpecifier =
    | SingleCluster(cluster: string)
    | WeightedClusters(clusters: seq<ClusterWeight>)

  datatype TcpProxy = TcpProxy(statPrefix: string, clusterSpecifier: ClusterSpecifier, accessLog: seq<AccessLog>)

  datatype CodecType = Auto | Http1 | Http2

  datatype HttpFilter = HttpFilter(name: string)

  datatype RouteAction = RouteAction(cluster: string, prefixRewrite: string)

  datatype Route = Route(prefix: string, action: RouteAction)

  datatype VirtualHost = VirtualHost(name: string, domains: seq<string>, routes: seq<Route>)

  datatype HttpConnectionManager = HttpConnectionManager(
    statPrefix: string,
    codecType: CodecType,
    httpFilters: seq<HttpFilter>,
    virtualHosts: seq<VirtualHost>)

  /** An RBAC network filter's policy, as built by the RBAC builder (not part of this model). */
  datatype RbacPolicy = RbacPolicy(statPrefix: string, rules: seq<string>)

  datatype FilterConfig =
    | TcpProxyConfig(tcpProxy: TcpProxy)
    | HttpConnectionManagerConfig(hcm: HttpConnectionManager)
    | RbacConfig(rbac: RbacPolicy)

  datatype Filter = Filter(name: string, typedConfig: FilterConfig)

  datatype FilterChain = FilterChain(tlsContext: Option<DownstreamTlsContext>, filters: seq<Filter>)

  datatype DeprecatedV1 = DeprecatedV1(bindToPort: Option<bool>)

  datatype Listener = Listener(
    name: string,
    address: Address,
    filterChains: seq<FilterChain>,
    deprecatedV1: Option<DeprecatedV1>,
    useOriginalDst: Option<bool>)

  /** Envoy binds a listener to its port unless `deprecated_v1.bind_to_port` is explicitly false. */
  predicate BindsToPort(l: Listener)
  {
    !(l.deprecatedV1.Some? && l.deprecatedV1.value.bindToPort == Some(false))
  }
}
