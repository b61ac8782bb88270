/**
 * The Kubernetes objects the reconciler reads and writes, seen as values: the
 * CloudflareTunnel resource, the credential and connector Secrets, the
 * connector ConfigMap and Deployment, and the target Service.
 */
module Kube {
  import opened Wrappers
  import Base64

  /** A Go `int32`, the width of service ports and replica counts. */
  type Int32 = x: int | -0x8000_0000 <= x < 0x8000_0000

  /** The value of one key of a Secret's `Data`. */
  type Bytes = seq<Base64.Byte>

  datatype Kind = CloudflareTunnelKind | SecretKind | ConfigMapKind | DeploymentKind | ServiceKind

  /** The identity of an object in the cluster: kind, name and namespace. */
  datatype Key = Key(kind: Kind, name: string, namespace: string)

  /** The request a reconcile pass is called with. */
  datatype NamespacedName = NamespacedName(name: string, namespace: string)

  /** `spec.service`: the in-cluster service the tunnel fronts. */
  datatype ServiceRef = ServiceRef(name: string, namespace: string, port: Int32, protocol: string)

  /** The CloudflareTunnel spec the pass works from. */
  datatype TunnelSpec = TunnelSpec(
    zone: string,
    domain: string,
    service: ServiceRef,
    replicas: Int32,
    tokenSecretName: string)

  datatype TunnelStatus = TunnelStatus(tunnelID: string)

  datatype ServiceType = ClusterIP | NodePort | LoadBalancer | ExternalName

  datatype ServicePort = ServicePort(name: string, port: Int32)

  /** One entry of a Service's `status.loadBalancer.ingress`. */
  datatype LoadBalancerIngress = LoadBalancerIngress(ip: string, hostname: string)

  /** A controller owner reference, naming the owning object. */
  datatype OwnerRef = ControllerRef(kind: Kind, name: string)

  /**
   * What an object holds besides its metadata. `TunnelCredentials`,
   * `TunnelConfig` and `ConnectorWorkload` are the results of the `models`
   * builders, kept as the inputs each builder is given.
   */
  datatype Body =
    | TunnelBody(spec: TunnelSpec, status: TunnelStatus)
    | SecretData(data: map<string, Bytes>)
    | TunnelCredentials(tunnelID: string, tunnelSecret: string)
    | TunnelConfig(service: string, tunnelID: string, domain: string)
    | ConnectorWorkload(replicas: Int32, tunnelID: string, secret: Obj, configMap: Obj)
    | ServiceBody(serviceType: ServiceType, ports: seq<ServicePort>, ingress: seq<LoadBalancerIngress>)

  datatype Obj = Obj(name: string, namespace: string, owner: Option<OwnerRef>, body: Body)

  /** Whether a body is an object of the given kind. */
  predicate Fits(kind: Kind, body: Body)
  {
    match kind
    case CloudflareTunnelKind => body.TunnelBody?
    case SecretKind => body.SecretData? || body.TunnelCredentials?
    case ConfigMapKind => body.TunnelConfig?
    case DeploymentKind => body.ConnectorWorkload?
    case ServiceKind => body.ServiceBody?
  }

  /** The API server stores under each key an object of that key's kind. */
  predicate WellKinded(objects: map<Key, Obj>)
  {
    forall k :: k in objects ==> Fits(k.kind, objects[k].body)
  }

  /** A Secret's `Data`; the Secrets this controller builds are modelled with none (see `SecretModel`). */
  function SecretDataOf(body: Body): map<string, Bytes>
  {
    if body.SecretData? then body.data else map[]
  }

  /** Go's `string(b)`: each byte becomes one character. */
  function AsString(b: Bytes): (s: string)
    ensures |s| == |b| && forall i :: 0 <= i < |b| ==> s[i] as int == b[i]
  {
    seq(|b|, i requires 0 <= i < |b| => b[i] as char)
  }

  /** `models.Secret(...).GetSecret()`: the Secret the connector reads its credentials from. */
  function SecretModel(name: string, namespace: string, tunnelSecret: string, tunnelID: string): Obj
  {
    Obj(name, namespace, None, TunnelCredentials(tunnelID, tunnelSecret))
  }

  /** `models.ConfigMap(...).GetConfigMap()` when it succeeds: the connector's ingress configuration. */
  function ConfigMapModel(name: string, namespace: string, service: string, tunnelID: string, domain: string): Obj
  {
    Obj(name, namespace, None, TunnelConfig(service, tunnelID, domain))
  }

  /** `models.Deployment(...).GetDeployment()`: the connector workload mounting the two objects above. */
  function DeploymentModel(name: string, namespace: string, replicas: Int32, tunnelID: string, secret: Obj, configMap: Obj): Obj
  {
    Obj(name, namespace, None, ConnectorWorkload(replicas, tunnelID, secret, configMap))
  }

  /** What `ctrl.SetControllerReference(owner, o, scheme)` leaves in `o` when it succeeds. */
  function WithController(o: Obj, owner: Obj): (r: Obj)
    ensures r.owner == Some(ControllerRef(CloudflareTunnelKind, owner.name))
    ensures r.(owner := o.owner) == o
  {
    o.(owner := Some(ControllerRef(CloudflareTunnelKind, owner.name)))
  }
}
