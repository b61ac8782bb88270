/**
 * One reconcile pass of `CloudflareTunnelReconciler`, step by step, as
 * functions from the state before a step to the state after it and the
 * step's result. The state is the world together with the reconciler's own
 * fields (`TunnelExpanded` and the SDK handle), which the Go steps assign.
 */
module Pipeline {
  import opened Wrappers
  import opened Kube
  import opened Cloudflare
  import opened Environment
  import Base64
  import Target

  /** The SDK handle `cloudflare.NewWithAPIToken` returns, with its account id set. */
  datatype Session = Session(token: string, accountID: string)

  /** The fields of the reconciler a pass reads and assigns. */
  datatype Receiver = Receiver(
    spec: TunnelSpec,
    api: Option<Session>,
    accountToken: string,
    accountTag: string,
    name: string,
    namespace: string,
    tunnelID: string,
    tunnelSecret: string)

  datatype State = State(world: World, r: Receiver)

  /** The state after a step, and what the step returned. */
  datatype Step<+T> = Step(state: State, result: Result<T, Error>)

  /** The step a pass stopped at. */
  datatype Stage =
    | FetchResource
    | Credentials
    | RemoteTunnel
    | SecretSync
    | TargetResolution
    | ConfigMapSync
    | DeploymentSync
    | DnsSync

  /** The position of each step in a pass, counted from the first. */
  function Rank(stage: Stage): nat
  {
    match stage
    case FetchResource => 0
    case Credentials => 1
    case RemoteTunnel => 2
    case SecretSync => 3
    case TargetResolution => 4
    case ConfigMapSync => 5
    case DeploymentSync => 6
    case DnsSync => 7
  }

  datatype Outcome = Done | Failed(stage: Stage, error: Error)

  datatype Pass = Pass(state: State, outcome: Outcome)

  /** Assigns the two account fields. */
  function WithAccount(s: State, tag: string, token: string): State
  {
    s.(r := s.r.(accountTag := tag, accountToken := token))
  }

  /**
   * `fetchDecodeSecret`: the `token` and `accountID` keys of the Secret named
   * by `tokenSecretName` in the resource's namespace.
   */
  function FetchDecodeSecret(s: State): (out: Step<()>)
    ensures out.state.world == s.world
    ensures out.state == WithAccount(s, out.state.r.accountTag, out.state.r.accountToken)
    ensures out.result.Err? ==> out.state == s
  {
    if |s.r.spec.tokenSecretName| == 0 then Step(s, Err(SecretNameMissing))
    else
      match GetObject(s.world, Key(SecretKind, s.r.spec.tokenSecretName, s.r.namespace))
      case Err(e) => Step(s, Err(e))
      case Ok(secret) =>
        var data := SecretDataOf(secret.body);
        if "token" !in data then Step(s, Err(InvalidKey("token")))
        else if "accountID" !in data then Step(s, Err(InvalidKey("accountID")))
        else Step(WithAccount(s, AsString(data["accountID"]), AsString(data["token"])), Ok(()))
  }

  /**
   * The end of `createTunnelRemote`: records the tunnel's id, then fetches its
   * connector token and keeps the base64 decoding of it as the tunnel secret.
   */
  function FetchConnectorSecret(s: State, t: Tunnel): (out: Step<()>)
    ensures out.state.world == s.world
    ensures out.state.r.tunnelID == t.id
    ensures out.state.r == s.r.(tunnelID := t.id, tunnelSecret := out.state.r.tunnelSecret)
    ensures out.result.Ok? <==>
              TunnelToken(s.world, t.id).Ok? && Base64.Decode(TunnelToken(s.world, t.id).value).Some?
    ensures out.result.Ok? ==>
              out.state.r.tunnelSecret == AsString(Base64.Decode(s.world.tokens[t.id]).value)
    ensures out.result.Err? ==> out.state.r.tunnelSecret == s.r.tunnelSecret
  {
    var s1 := s.(r := s.r.(tunnelID := t.id));
    match TunnelToken(s1.world, t.id)
    case Err(e) => Step(s1, Err(e))
    case Ok(token) =>
      match Base64.Decode(token)
      case None => Step(s1, Err(TokenDecodeFailed))
      case Some(decoded) => Step(s1.(r := s1.r.(tunnelSecret := AsString(decoded))), Ok(()))
  }

  /** The tunnels `createTunnelRemote` lists for this state. */
  function Candidates(s: State): seq<Tunnel>
  {
    MatchingTunnels(s.world.tunnels, ListParams(s.r.name, s.r.tunnelID))
  }

  /** The SDK handle made from the account token and tag. */
  function Connected(s: State): State
  {
    s.(r := s.r.(api := Some(Session(s.r.accountToken, s.r.accountTag))))
  }

  /**
   * `createTunnelRemote`: connects, lists the live tunnels of this name
   * (narrowed to the recorded id if any), refuses two or more, reuses one,
   * creates one named after the resource when there is none, then fetches the
   * connector secret of the chosen tunnel.
   */
  function CreateTunnelRemote(s: State): (out: Step<()>)
    ensures out.state.world.objects == s.world.objects
    ensures out.state.world.records == s.world.records
    ensures out.state.r.spec == s.r.spec && out.state.r.name == s.r.name && out.state.r.namespace == s.r.namespace
    ensures out.state.r.accountTag == s.r.accountTag && out.state.r.accountToken == s.r.accountToken
    ensures out.result.Ok? ==> out.state.r.api.Some?
    ensures out.state.world == s.world || out.state.world == CreatedTunnel(s).0
  {
    if CloudflareFault(NewClientCall) in s.world.faults then
      Step(s.(r := s.r.(api := None)), Err(CloudflareFailure(NewClientCall)))
    else
      var s1 := Connected(s);
      match ListTunnels(s1.world, ListParams(s1.r.name, s1.r.tunnelID))
      case Err(e) => Step(s1, Err(e))
      case Ok(tunnels) =>
        if |tunnels| >= 2 then Step(s1, Err(MultipleTunnels))
        else if |tunnels| == 1 then FetchConnectorSecret(s1, tunnels[0])
        else
          match GenerateTunnelSecret(s1.world.entropy, RandomReadFault in s1.world.faults)
          case None => Step(s1, Err(RandomReadFailed))
          case Some(secret) =>
            match CreateTunnel(s1.world, s1.r.name, secret)
            case Err(e) => Step(s1, Err(e))
            case Ok((w, t)) => FetchConnectorSecret(s1.(world := w), t)
  }

  /** The account after `createTunnelRemote` creates a tunnel, and that tunnel. */
  function CreatedTunnel(s: State): (out: (World, Tunnel))
    ensures !out.1.deleted && out.1.name == s.r.name && out.1.id == MintID(|s.world.tunnels|)
    ensures Base64.Decode(out.1.secret) == Some(s.world.entropy)
    ensures out.0.tunnels == s.world.tunnels + [out.1]
    ensures out.0 == s.world.(tunnels := out.0.tunnels)
  {
    var secret := GenerateTunnelSecret(s.world.entropy, false);
    var t := Tunnel(MintID(|s.world.tunnels|), s.r.name, false, secret.value);
    (s.world.(tunnels := s.world.tunnels + [t]), t)
  }

  /**
   * The common body of `createSecret`, `createConfigMap` and
   * `createDeployment`: stamp the controller reference, get the object, then
   * update it if present or create it if not found. After a create the
   * not-found error of the get is still what is returned.
   */
  function CreateOrUpdate(s: State, kind: Kind, desired: Obj, cr: Obj): (out: Step<Obj>)
    ensures out.state.r == s.r
    ensures var key := Key(kind, desired.name, desired.namespace);
            out.state.world == s.world ||
            out.state.world == s.world.(objects := s.world.objects[key := WithController(desired, cr)])
    ensures out.result.Ok? ==> out.result.value == WithController(desired, cr)
  {
    if OwnerReferenceFault in s.world.faults then Step(s, Err(OwnerReferenceFailed))
    else
      var o := WithController(desired, cr);
      match GetObject(s.world, Key(kind, o.name, s.r.namespace))
      case Ok(_) =>
        (match UpdateObject(s.world, kind, o)
         case Err(e) => Step(s, Err(e))
         case Ok(w) => Step(s.(world := w), Ok(o)))
      case Err(e) =>
        if e.NotFound? then
          match CreateObject(s.world, kind, o)
          case Err(createError) => Step(s, Err(createError))
          case Ok(w) => Step(s.(world := w), Err(e))
        else Step(s, Err(e))
  }

  /** The Secret `createSecret` builds from the reconciler's fields. */
  function DesiredSecret(r: Receiver): Obj
  {
    SecretModel(r.name, r.namespace, r.tunnelSecret, r.tunnelID)
  }

  /** The ConfigMap `createConfigMap` builds, forwarding the domain to `url`. */
  function DesiredConfigMap(r: Receiver, url: string): Obj
  {
    ConfigMapModel(r.name, r.namespace, url, r.tunnelID, r.spec.domain)
  }

  /** The Deployment `createDeployment` builds from the two objects synced before it. */
  function DesiredDeployment(r: Receiver, secret: Obj, configMap: Obj): Obj
  {
    DeploymentModel(r.name, r.namespace, r.spec.replicas, r.tunnelID, secret, configMap)
  }

  /** `createSecret`: the Secret it writes is a Secret, so the store stays well-kinded. */
  function CreateSecret(s: State, cr: Obj): (out: Step<Obj>)
    ensures WellKinded(s.world.objects) ==> WellKinded(out.state.world.objects)
    ensures out.result.Ok? ==>
              && out.result.value.owner == Some(ControllerRef(CloudflareTunnelKind, cr.name))
              && out.result.value.body == TunnelCredentials(s.r.tunnelID, s.r.tunnelSecret)
  {
    CreateOrUpdate(s, SecretKind, DesiredSecret(s.r), cr)
  }

  /** `createConfigMap`; rendering the ConfigMap may fail before anything else happens. */
  function CreateConfigMap(s: State, cr: Obj, url: string): (out: Step<Obj>)
    ensures out.state.r == s.r
    ensures WellKinded(s.world.objects) ==> WellKinded(out.state.world.objects)
    ensures out.result.Ok? ==>
              && out.result.value.owner == Some(ControllerRef(CloudflareTunnelKind, cr.name))
              && out.result.value.body == TunnelConfig(url, s.r.tunnelID, s.r.spec.domain)
  {
    if ConfigMapRenderFault in s.world.faults then Step(s, Err(ConfigMapRenderFailed))
    else CreateOrUpdate(s, ConfigMapKind, DesiredConfigMap(s.r, url), cr)
  }

  /** `createDeployment`: the Deployment mounts the Secret and ConfigMap the two steps before it returned. */
  function CreateDeployment(s: State, cr: Obj, secret: Obj, configMap: Obj): (out: Step<Obj>)
    ensures out.state.r == s.r
    ensures WellKinded(s.world.objects) ==> WellKinded(out.state.world.objects)
    ensures out.result.Ok? ==>
              && out.result.value.owner == Some(ControllerRef(CloudflareTunnelKind, cr.name))
              && out.result.value.body == ConnectorWorkload(s.r.spec.replicas, s.r.tunnelID, secret, configMap)
  {
    CreateOrUpdate(s, DeploymentKind, DesiredDeployment(s.r, secret, configMap), cr)
  }

  /** The Service `spec.service` names. */
  function ServiceKey(r: Receiver): Key
  {
    Key(ServiceKind, r.spec.service.name, r.spec.service.namespace)
  }

  /**
   * `getTargetURL`: the URL of the target Service. A Service without the
   * spec's port is not an error: the test meant to catch it (`&port == nil`)
   * is never true, so the port scan has no effect on the result.
   */
  function GetTargetURL(s: State): (r: Result<string, Error>)
    requires WellKinded(s.world.objects)
    ensures var got := GetObject(s.world, ServiceKey(s.r));
            r.Err? <==> got.Err? || (got.value.body.serviceType == LoadBalancer && |got.value.body.ingress| == 0)
    ensures GetObject(s.world, ServiceKey(s.r)).Err? ==> r == Err(GetObject(s.world, ServiceKey(s.r)).error)
  {
    match GetObject(s.world, ServiceKey(s.r))
    case Err(e) => Err(e)
    case Ok(svc) =>
      if !svc.body.ServiceBody? then assert false; Err(NotFound(ServiceKey(s.r)))
      else Target.TargetURL(s.r.spec.service, svc.body.serviceType, svc.body.ingress)
  }

  /** The record `createDNSCNAME` creates when the domain has none. */
  function DesiredRecord(r: Receiver): DnsRecord
  {
    DnsRecord(CNAME, r.spec.domain, r.tunnelID + CNAME_SUFFIX, 0)
  }

  /**
   * `createDNSCNAME`: looks up the zone, lists the CNAME records named after
   * the domain, and creates one pointing at the tunnel only when there is none.
   */
  function CreateDNSCNAME(s: State): (out: Step<()>)
    requires s.r.api.Some?
    ensures out.state.r == s.r
    ensures out.state.world.(records := s.world.records) == s.world
  {
    match ZoneIDByName(s.world, s.r.spec.zone)
    case Err(e) => Step(s, Err(e))
    case Ok(zoneID) =>
      match DNSRecords(s.world, zoneID, CNAME, s.r.spec.domain)
      case Err(e) => Step(s, Err(e))
      case Ok(existing) =>
        if |existing| != 0 then Step(s, Ok(()))
        else
          match CreateDNSRecord(s.world, zoneID, DesiredRecord(s.r))
          case Err(e) => Step(s, Err(e))
          case Ok(w) => Step(s.(world := w), Ok(()))
  }

  /** The fields `Reconcile` starts from: the resource's spec, name, namespace and recorded id. */
  function Expand(cr: Obj): (r: Receiver)
    requires cr.body.TunnelBody?
    ensures r.spec == cr.body.spec && r.tunnelID == cr.body.status.tunnelID
    ensures r.name == cr.name && r.namespace == cr.namespace
    ensures r.api.None? && r.accountToken == "" && r.accountTag == "" && r.tunnelSecret == ""
  {
    Receiver(cr.body.spec, None, "", "", cr.name, cr.namespace, cr.body.status.tunnelID, "")
  }

  function ResourceKey(req: NamespacedName): Key
  {
    Key(CloudflareTunnelKind, req.name, req.namespace)
  }

  /**
   * `Reconcile`: fetch the resource, then credentials, tunnel, Secret, target
   * URL, ConfigMap, Deployment and DNS record, stopping at the first error.
   */
  function Reconcile(s: State, req: NamespacedName): (p: Pass)
    requires WellKinded(s.world.objects)
    ensures GetObject(s.world, ResourceKey(req)).Err? <==> p.outcome.Failed? && p.outcome.stage == FetchResource
    ensures GetObject(s.world, ResourceKey(req)).Err? ==> p.state == s
  {
    match GetObject(s.world, ResourceKey(req))
    case Err(e) => Pass(s, Failed(FetchResource, e))
    case Ok(cr) =>
      if !cr.body.TunnelBody? then assert false; Pass(s, Failed(FetchResource, NotFound(ResourceKey(req))))
      else ReconcileFrom(State(s.world, Expand(cr)), cr)
  }

  /** The part of `Reconcile` after the resource is fetched and the fields are set. */
  function ReconcileFrom(s: State, cr: Obj): (p: Pass)
    requires WellKinded(s.world.objects)
    ensures p.outcome.Failed? ==> Rank(p.outcome.stage) >= Rank(Credentials)
  {
    var c := FetchDecodeSecret(s);
    if c.result.Err? then Pass(c.state, Failed(Credentials, c.result.error))
    else FromTunnel(c.state, cr)
  }

  /** The pass from `createTunnelRemote` on. */
  function FromTunnel(s: State, cr: Obj): (p: Pass)
    requires WellKinded(s.world.objects)
    ensures p.outcome.Failed? ==> p.outcome.stage != FetchResource && p.outcome.stage != Credentials
  {
    var t := CreateTunnelRemote(s);
    if t.result.Err? then Pass(t.state, Failed(RemoteTunnel, t.result.error))
    else FromSecret(t.state, cr)
  }

  /** The pass from `createSecret` on. */
  function FromSecret(s: State, cr: Obj): (p: Pass)
    requires WellKinded(s.world.objects) && s.r.api.Some?
    ensures p.outcome.Failed? ==> Rank(p.outcome.stage) >= Rank(SecretSync)
  {
    var sec := CreateSecret(s, cr);
    if sec.result.Err? then Pass(sec.state, Failed(SecretSync, sec.result.error))
    else FromTarget(sec.state, cr, sec.result.value)
  }

  /** The pass from `getTargetURL` on, with the Secret `createSecret` returned. */
  function FromTarget(s: State, cr: Obj, secret: Obj): (p: Pass)
    requires WellKinded(s.world.objects) && s.r.api.Some?
    ensures p.outcome.Failed? ==> Rank(p.outcome.stage) >= Rank(TargetResolution)
  {
    var url := GetTargetURL(s);
    if url.Err? then Pass(s, Failed(TargetResolution, url.error))
    else FromConfigMap(s, cr, secret, url.value)
  }

  /** The pass from `createConfigMap` on. */
  function FromConfigMap(s: State, cr: Obj, secret: Obj, url: string): (p: Pass)
    requires s.r.api.Some?
    ensures p.outcome.Failed? ==> Rank(p.outcome.stage) >= Rank(ConfigMapSync)
  {
    var cm := CreateConfigMap(s, cr, url);
    if cm.result.Err? then Pass(cm.state, Failed(ConfigMapSync, cm.result.error))
    else FromDeployment(cm.state, cr, secret, cm.result.value)
  }

  /** The pass from `createDeployment` on, with the Secret and ConfigMap it mounts. */
  function FromDeployment(s: State, cr: Obj, secret: Obj, configMap: Obj): (p: Pass)
    requires s.r.api.Some?
    ensures p.outcome.Failed? ==> Rank(p.outcome.stage) >= Rank(DeploymentSync)
  {
    var dep := CreateDeployment(s, cr, secret, configMap);
    if dep.result.Err? then Pass(dep.state, Failed(DeploymentSync, dep.result.error))
    else FromDns(dep.state)
  }

  /** The last step, `createDNSCNAME`. */
  function FromDns(s: State): (p: Pass)
    requires s.r.api.Some?
    ensures p.outcome.Failed? ==> Rank(p.outcome.stage) >= Rank(DnsSync)
  {
    var dns := CreateDNSCNAME(s);
    if dns.result.Err? then Pass(dns.state, Failed(DnsSync, dns.result.error))
    else Pass(dns.state, Done)
  }
}
