# Kuma control plane: Envoy configuration builders, validation paths, dataplane identity

This project models, in Dafny, the part of the Kuma service-mesh control plane that turns
mesh state into Envoy v2 xDS objects, together with two small helpers it relies on:

- **Envoy builders** (`pkg/xds/envoy/envoy.go`, module `Envoy`, wire types in `EnvoyApi`):
  load assignments whose endpoints carry load-balancing metadata under the `envoy.lb`
  namespace; static, EDS and pass-through clusters with a 5 s connect timeout; health-check
  policy turned into a TCP health check and outlier detection; SDS secret references to the
  mesh CA (`mesh_ca`) and the identity certificate (`identity_cert`) fetched from the control
  plane, with a file-based token call credential when the dataplane has a token path;
  downstream / upstream TLS contexts gated by the mesh mTLS flag; outbound (single or
  weighted clusters, optional access log), inbound (RBAC first under mTLS), Prometheus and
  catch-all listeners, where a `virtual` listener does not bind to its port.
- **Validation errors** (`pkg/core/validators`, module `Validators`): a `PathBuilder` value
  rendering field paths such as `spec.sources[0].match["service"]`, and a `ValidationError`
  class whose methods append to its ordered `violations` list.
- **Dataplane identity** (`pkg/sds/auth/common`, module `Identity`): the service of the first
  inbound, else of the gateway, else the error "Dataplane has no services associated with it".

Builders that are single nested literals are functions. Builders that loop or rewrite what
they just built are methods proved against specification functions (`LbMetadataOf`,
`LoadAssignmentOf`) or against outright postconditions. `ValidationError` is a class because
the source mutates its receiver; `PathBuilder` is a datatype because the source chains values.

The validators package and the identity resolver are modelled from the behaviour their tests
assert, because their implementation files are not part of this model. Where a test leaves a
case open, the model takes these choices:
- `AddError(root, e)` prefixes each field with `root.` only when `root` is non-empty, so that
  `Add(e)` is `AddError("", e)` and appends the fields unchanged.
- `Field` on the empty path adds no leading dot.
- `Index` renders its integer as Go's `%d` does, with a minus sign for negative values.
- A missing `service` tag reads as the empty string, as a Go map lookup does.

With zero clusters the outbound listener also takes the weighted branch, with an empty list
(`pkg/xds/envoy/envoy.go:191-208`). A failed serialization panics (`util_error.MustNot`); the
model treats serialization as total (see "Left out").

## Model

| member | source | states |
|---|---|---|
| `Envoy.LbMetadataOf` | pkg/xds/envoy/envoy.go:67-85 | no metadata block at all iff the tag map is empty; otherwise exactly the one namespace `envoy.lb`, and reading the tags back from it gives exactly the input tags |
| `Envoy.CreateLbMetadata` | pkg/xds/envoy/envoy.go:67-85 | the loop that fills the fields map yields exactly `LbMetadataOf(tags)` |
| `Envoy.CreateClusterLoadAssignment` | pkg/xds/envoy/envoy.go:88-115 | the append loop yields exactly `LoadAssignmentOf(name, endpoints)`: one locality, one entry per endpoint in order, each with its TCP address and `LbMetadataOf` of its tags |
| `Envoy.LoadAssignmentRoundTrip` | pkg/xds/envoy/envoy.go:88-115 | a load assignment keeps the cluster name, has exactly one locality, uses TCP for every endpoint, and reading it back gives exactly the input endpoints in order |
| `Envoy.CreateStaticEndpoint` | pkg/xds/envoy/envoy.go:42-65 | the static assignment is the load assignment of the single untagged endpoint (address, port) |
| `Envoy.CreateLocalCluster` | pkg/xds/envoy/envoy.go:117-124 | named cluster, STATIC discovery, round-robin, 5 s timeout, the static assignment of (address, port), no EDS, TLS, health checks or outlier detection |
| `Envoy.LocalClusterEndpoint` | pkg/xds/envoy/envoy.go:117-124 | a local cluster's assignment has one locality with one endpoint, no metadata, and announces exactly (address, port) |
| `Envoy.CreateEdsCluster` | pkg/xds/envoy/envoy.go:126-140 | EDS discovery over ADS, no static assignment, 5 s timeout, and an upstream TLS context present iff mesh mTLS is on |
| `Envoy.CreatePassThroughCluster` | pkg/xds/envoy/envoy.go:168-175 | ORIGINAL_DST discovery with the ORIGINAL_DST_LB policy, 5 s timeout, no membership and no TLS |
| `Envoy.ClusterWithHealthChecks` | pkg/xds/envoy/envoy.go:142-166 | no policy: cluster unchanged; active checks: one TCP check with the policy's interval, timeout and both thresholds appended after the existing ones; passive checks: outlier detection with the penalty interval and 5xx threshold; each independent of the other; no other field changes |
| `Envoy.WithCallCredentials` | pkg/xds/envoy/envoy.go:386-414 | empty token path: channel unchanged; otherwise one file-based call credential reading the token file is appended and the factory name is set, nothing else changes |
| `Envoy.SdsSecretConfigFor` | pkg/xds/envoy/envoy.go:385-446 | the reference names the secret, goes over one gRPC channel to the control plane's SDS location with stat prefix `sds_<name>` and the inline root certificate, and has exactly one call credential iff the token path is non-empty |
| `Envoy.SdsSecretConfigsDifferOnlyInName` | pkg/xds/envoy/envoy.go:415-446 | two references built for the same dataplane differ only in the secret name and the stat prefix |
| `Envoy.CreateCommonTlsContext` | pkg/xds/envoy/envoy.go:374-383 | the validation context references the mesh CA secret and the single certificate config references the identity certificate, both from the control plane |
| `Envoy.CreateDownstreamTlsContext` | pkg/xds/envoy/envoy.go:355-363 | present iff mesh mTLS is on; then it wraps the common context and requires a client certificate |
| `Envoy.CreateUpstreamTlsContext` | pkg/xds/envoy/envoy.go:365-372 | present iff mesh mTLS is on; then it wraps the common context |
| `Envoy.CreateOutboundListener` | pkg/xds/envoy/envoy.go:177-240 | error (the converter's) and no listener iff a backend is given and its conversion fails; otherwise zero or one access log; a single cluster specifier naming `clusters[0]` iff there is exactly one cluster, else weighted clusters equal to the input's (name, weight) list in order; binds to its port iff not virtual |
| `Envoy.CreateInboundListener` | pkg/xds/envoy/envoy.go:242-288 | one filter chain whose TLS context is present iff mTLS is on (then requiring client certificates); one TCP proxy filter to the local cluster without mTLS, and with mTLS the RBAC filter at index 0 and the TCP proxy last; binds iff not virtual |
| `Envoy.CreatePrometheusListener` | pkg/xds/envoy/envoy.go:290-353 | one HTTP connection manager with the router filter and one `envoy_admin` virtual host for `*` that sends the path prefix to the cluster rewritten to `/stats/prometheus`; no TLS; binds iff not virtual |
| `Envoy.CreateCatchAllListener` | pkg/xds/envoy/envoy.go:448-485 | one TCP proxy to the named cluster, original destination on, bound to its port |
| `Validators.NatToDecimal` | pkg/core/validators/types_test.go:114-116 | an index renders as a non-empty string of digits with no leading zero |
| `Validators.DecimalRoundTrip` | pkg/core/validators/types_test.go:114-116 | reading the rendered digits back gives the index |
| `Validators.PathBuilder.String` | pkg/core/validators/types_test.go:102-120 | the concatenation of the path's elements in order; the empty (nil) path renders as "" |
| `Validators.ValidationError.Error` | pkg/core/validators/types_test.go:26 | each violation as `field: message`, joined by `; ` in insertion order (see `ErrorMessageAppend`, `ErrorMessagePair`); empty iff there are no violations |
| `Validators.RootedAt` | pkg/core/validators/types_test.go:106-108 | a rooted path renders as its root name |
| `Validators.PathBuilder.Field` | pkg/core/validators/types_test.go:110-112 | adding a field appends `.` and the field name to the rendered path |
| `Validators.PathBuilder.Index` | pkg/core/validators/types_test.go:114-116 | adding an index appends `[i]` in decimal to the rendered path |
| `Validators.PathBuilder.Key` | pkg/core/validators/types_test.go:118-120 | adding a key appends the key in double quotes inside brackets |
| `Validators.PathExamples` | pkg/core/validators/types_test.go:101-116 | the empty path renders as "", and `spec`, `spec.sources`, `spec.sources[0]` render as asserted |
| `Validators.NestedPathExample` | pkg/core/validators/types_test.go:118-120 | the chained path renders as `spec.sources[0].match["service"]` |
| `Validators.NestedUnderEmptyRoot` | pkg/core/validators/types_test.go:39-68 | nesting under the empty root leaves violations unchanged |
| `Validators.ErrorMessageAppend` | pkg/core/validators/types_test.go:11-27 | the message of two non-empty violation lists put together is their messages joined by "; " |
| `Validators.ErrorMessagePair` | pkg/core/validators/types_test.go:26 | two violations render as "field: message; field: message" in insertion order |
| `Validators.ExampleMessage` | pkg/core/validators/types_test.go:26 | the two asserted violations render as the asserted message |
| `Validators.ValidationError.constructor` | pkg/core/validators/types_test.go:13 | a new error has no violations |
| `Validators.ValidationError.AddViolation` | pkg/core/validators/types_test.go:16-20 | appends exactly one violation with that field and message |
| `Validators.ValidationError.AddViolationAt` | pkg/core/validators/types_test.go:71-97 | appends the violation at the rendered path; the empty (nil) path gives the field "" |
| `Validators.ValidationError.AddError` | pkg/core/validators/types_test.go:19-21 | appends the other error's violations in order with their fields nested under the root field |
| `Validators.ValidationError.Add` | pkg/core/validators/types_test.go:39-68 | appends the other error's violations unchanged at the end, keeping the existing ones and their order |
| `Validators.ValidationError.HasViolations` | pkg/core/validators/types_test.go:24 | true iff the violation list is non-empty |
| `Validators.ValidationError.OrNil` | pkg/core/validators/types_test.go:29-37 | no error iff there are no violations, otherwise the error itself |
| `Validators.ConstructErrorsExample` | pkg/core/validators/types_test.go:11-27 | after a violation at `name` and a nested error under `address`, there are violations and the message is "name: invalid name; address.street: invalid format" |
| `Validators.AddExample` | pkg/core/validators/types_test.go:39-68 | adding two errors in turn gives the first's violation, then both in order |
| `Validators.AddViolationAtExample` | pkg/core/validators/types_test.go:71-97 | the nil path records field ""; the nested path records `sources[0].match["service"]` |
| `Identity.GetDataplaneIdentity` | pkg/sds/auth/common/identity_test.go:15-95 | fails with "Dataplane has no services associated with it" iff there is neither an inbound nor a gateway; otherwise the mesh is the resource's mesh and the service is the first inbound's `service` tag, or the gateway's when there is no inbound |
| `Identity.FirstInboundWins` | pkg/sds/auth/common/identity_test.go:15-46 | with an inbound declared, changing the gateway does not change the identity |
| `Identity.IdentityExamples` | pkg/sds/auth/common/identity_test.go:15-95 | the three asserted dataplanes resolve to demo/backend, demo/edge and the no-services error |

## Left out

- `createRbacFilter` and `convertLoggingBackend` are defined in files that are not part of this model. They are function parameters of the inbound and outbound listener builders. The RBAC policy and access-log contents are therefore not derived.
- Protobuf `Any` serialization (`ptypes.MarshalAny`) and the panic in `util_error.MustNot` are not modelled. A typed config is the structured value itself, so serialization cannot fail and there is no fatal-error path.
- `ptypes.DurationProto` and the protobuf wrapper types are left out. Durations are `Duration(seconds, nanos)`, the default connect timeout is `Duration(5, 0)`, and wrapped values are plain values or `Option`s.
- Go map iteration order in `CreateLbMetadata` is not modelled: tags are a Dafny `map`.
- Envoy.ClusterWithHealthChecks: works on values. The Go function updates the caller's `*v2.Cluster` in place and returns the same pointer; that aliasing is not captured.
- Envoy.CreateInboundListener: works on values. The Go code rewrites the filter slice of the listener it just built; only the resulting filter order is modelled.
- The well-known names come from packages that are not part of this model: `wellknown.TCPProxy`, `wellknown.HTTPConnectionManager`, `wellknown.Router` and the SDS secret names `server.MeshCaResource` and `server.IdentityCertResource`. The model uses `envoy.tcp_proxy`, `envoy.http_connection_manager`, `envoy.router`, `mesh_ca` and `identity_cert`.
- `HasActiveChecks` and `HasPassiveChecks` are defined in a file that is not part of this model. Here they test whether the policy has that section.
- Validators.PathBuilder.Key: renders the key in plain double quotes. The escaping that Go's `%q` applies to quotes, backslashes and control characters is not modelled, because the tests assert only plain keys.
- `IsValidationError` (pkg/core/validators/types_test.go:25) is not modelled: it only checks that the type is `ValidationError`.
- Go's distinction between a nil slice and an empty one is not modelled. Both are the empty sequence, for example the weighted-cluster list built from zero clusters.
- `pkg/config/app/kuma-cp/default_config_test.go` is left out. It only loads a YAML file and manipulates environment variables.
- Streaming the built objects to proxies and concurrent invocation are left out. The modelled code neither streams nor runs concurrently.
