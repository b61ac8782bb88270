/**
 * `CloudflareTunnelReconciler` as an object: the fields of `TunnelExpanded`
 * that the steps assign one after another, and the world its clients reach.
 * Each method does what its Go method does, statement by statement, and is
 * proved to leave the object in the state, and return the result, that the
 * step function of the same name in `Pipeline` gives.
 */
module Controller {
  import opened Wrappers
  import opened Kube
  import opened Cloudflare
  import opened Environment
  import opened Pipeline
  import Base64
  import Target

  class CloudflareTunnelReconciler {
    /** The cluster and the Cloudflare account, as the two clients see them. */
    var world: World

    /** `TunnelExpanded`, with the SDK handle `API`. */
    var spec: TunnelSpec
    var api: Option<Session>
    var accountToken: string
    var accountTag: string
    var name: string
    var namespace: string
    var tunnelID: string
    var tunnelSecret: string

    function Fields(): Receiver
      reads this
    {
      Receiver(spec, api, accountToken, accountTag, name, namespace, tunnelID, tunnelSecret)
    }

    /** The object's state as the step functions see it. */
    function Snapshot(): State
      reads this
    {
      State(world, Fields())
    }

    constructor (w: World, r: Receiver)
      ensures Snapshot() == State(w, r)
    {
      world := w;
      spec, api, accountToken, accountTag := r.spec, r.api, r.accountToken, r.accountTag;
      name, namespace, tunnelID, tunnelSecret := r.name, r.namespace, r.tunnelID, r.tunnelSecret;
    }

    /** `fetchDecodeSecret`. */
    method FetchDecodeSecret() returns (result: Result<(), Error>)
      modifies this
      ensures Snapshot() == Pipeline.FetchDecodeSecret(old(Snapshot())).state
      ensures result == Pipeline.FetchDecodeSecret(old(Snapshot())).result
      ensures world == old(world)
    {
      if |spec.tokenSecretName| == 0 {
        return Err(SecretNameMissing);
      }
      var fetched := GetObject(world, Key(SecretKind, spec.tokenSecretName, namespace));
      if fetched.Err? {
        return Err(fetched.error);
      }
      var data := SecretDataOf(fetched.value.body);
      if "token" !in data {
        return Err(InvalidKey("token"));
      }
      if "accountID" !in data {
        return Err(InvalidKey("accountID"));
      }
      accountTag := AsString(data["accountID"]);
      accountToken := AsString(data["token"]);
      return Ok(());
    }

    /** `createTunnelRemote`. */
    method CreateTunnelRemote() returns (result: Result<(), Error>)
      modifies this
      ensures Snapshot() == Pipeline.CreateTunnelRemote(old(Snapshot())).state
      ensures result == Pipeline.CreateTunnelRemote(old(Snapshot())).result
      ensures world.objects == old(world.objects)
    {
      if CloudflareFault(NewClientCall) in world.faults {
        api := None;
        return Err(CloudflareFailure(NewClientCall));
      }
      api := Some(Session(accountToken, accountTag));
      var listed := ListTunnels(world, ListParams(name, tunnelID));
      if listed.Err? {
        return Err(listed.error);
      }
      var tunnels := listed.value;
      var tunnel: Tunnel;
      if |tunnels| >= 2 {
        return Err(MultipleTunnels);
      } else if |tunnels| == 1 {
        tunnel := tunnels[0];
      } else {
        var secret := GenerateTunnelSecret(world.entropy, RandomReadFault in world.faults);
        if secret.None? {
          return Err(RandomReadFailed);
        }
        var created := CreateTunnel(world, name, secret.value);
        if created.Err? {
          return Err(created.error);
        }
        world := created.value.0;
        tunnel := created.value.1;
      }
      result := FetchConnectorSecret(tunnel);
    }

    /** The end of `createTunnelRemote`: record the tunnel's id, then fetch and decode its token. */
    method FetchConnectorSecret(t: Tunnel) returns (result: Result<(), Error>)
      modifies this
      ensures Snapshot() == Pipeline.FetchConnectorSecret(old(Snapshot()), t).state
      ensures result == Pipeline.FetchConnectorSecret(old(Snapshot()), t).result
    {
      tunnelID := t.id;
      var token := TunnelToken(world, t.id);
      if token.Err? {
        return Err(token.error);
      }
      var decoded := Base64.Decode(token.value);
      if decoded.None? {
        return Err(TokenDecodeFailed);
      }
      tunnelSecret := AsString(decoded.value);
      return Ok(());
    }

    /** The get, then update or create, that the three sync methods share. */
    method CreateOrUpdate(kind: Kind, desired: Obj, cr: Obj) returns (result: Result<Obj, Error>)
      modifies this
      ensures Snapshot() == Pipeline.CreateOrUpdate(old(Snapshot()), kind, desired, cr).state
      ensures result == Pipeline.CreateOrUpdate(old(Snapshot()), kind, desired, cr).result
    {
      if OwnerReferenceFault in world.faults {
        return Err(OwnerReferenceFailed);
      }
      var o := WithController(desired, cr);
      var fetched := GetObject(world, Key(kind, o.name, namespace));
      if fetched.Ok? {
        var updated := UpdateObject(world, kind, o);
        if updated.Err? {
          return Err(updated.error);
        }
        world := updated.value;
        return Ok(o);
      }
      if fetched.error.NotFound? {
        var created := CreateObject(world, kind, o);
        if created.Err? {
          return Err(created.error);
        }
        world := created.value;
      }
      return Err(fetched.error);
    }

    /** `createSecret`. */
    method CreateSecret(cr: Obj) returns (result: Result<Obj, Error>)
      modifies this
      ensures Snapshot() == Pipeline.CreateSecret(old(Snapshot()), cr).state
      ensures result == Pipeline.CreateSecret(old(Snapshot()), cr).result
      ensures WellKinded(old(world.objects)) ==> WellKinded(world.objects)
    {
      result := CreateOrUpdate(SecretKind, DesiredSecret(Fields()), cr);
    }

    /** `createConfigMap`. */
    method CreateConfigMap(cr: Obj, url: string) returns (result: Result<Obj, Error>)
      modifies this
      ensures Snapshot() == Pipeline.CreateConfigMap(old(Snapshot()), cr, url).state
      ensures result == Pipeline.CreateConfigMap(old(Snapshot()), cr, url).result
      ensures WellKinded(old(world.objects)) ==> WellKinded(world.objects)
    {
      if ConfigMapRenderFault in world.faults {
        return Err(ConfigMapRenderFailed);
      }
      result := CreateOrUpdate(ConfigMapKind, DesiredConfigMap(Fields(), url), cr);
    }

    /** `createDeployment`. */
    method CreateDeployment(cr: Obj, secret: Obj, configMap: Obj) returns (result: Result<Obj, Error>)
      modifies this
      ensures Snapshot() == Pipeline.CreateDeployment(old(Snapshot()), cr, secret, configMap).state
      ensures result == Pipeline.CreateDeployment(old(Snapshot()), cr, secret, configMap).result
      ensures WellKinded(old(world.objects)) ==> WellKinded(world.objects)
    {
      result := CreateOrUpdate(DeploymentKind, DesiredDeployment(Fields(), secret, configMap), cr);
    }

    /**
     * `getTargetURL`. The port scan runs, but whatever it finds is dropped:
     * the address of a local variable is never nil, so a Service without the
     * spec's port is not reported.
     */
    method GetTargetURL() returns (result: Result<string, Error>)
      requires WellKinded(world.objects)
      ensures result == Pipeline.GetTargetURL(Snapshot())
      ensures result.Err? <==> GetObject(world, ServiceKey(Fields())).Err? ||
                               (var svc := GetObject(world, ServiceKey(Fields())).value.body;
                                svc.serviceType == LoadBalancer && |svc.ingress| == 0)
      ensures result.Ok? ==> Target.PortOf(result.value) == Some(spec.service.port as int)
    {
      var fetched := GetObject(world, ServiceKey(Fields()));
      if fetched.Err? {
        return Err(fetched.error);
      }
      var ServiceBody(serviceType, ports, ingress) := fetched.value.body;
      var port := Target.FindServicePort(ports, spec.service.port);
      result := Target.TargetURL(spec.service, serviceType, ingress);
      if result.Ok? {
        Target.TargetURLPort(spec.service, serviceType, ingress);
      }
    }

    /** `createDNSCNAME`. */
    method CreateDNSCNAME() returns (result: Result<(), Error>)
      requires api.Some?
      modifies this
      ensures Snapshot() == Pipeline.CreateDNSCNAME(old(Snapshot())).state
      ensures result == Pipeline.CreateDNSCNAME(old(Snapshot())).result
    {
      var zoneID := ZoneIDByName(world, spec.zone);
      if zoneID.Err? {
        return Err(zoneID.error);
      }
      var existing := DNSRecords(world, zoneID.value, CNAME, spec.domain);
      if existing.Err? {
        return Err(existing.error);
      }
      if |existing.value| == 0 {
        var created := CreateDNSRecord(world, zoneID.value, DesiredRecord(Fields()));
        if created.Err? {
          return Err(created.error);
        }
        world := created.value;
      }
      return Ok(());
    }

    /**
     * `Reconcile`: fetch the resource, reset `TunnelExpanded` from it, then run
     * the steps in order and stop at the first that fails.
     */
    method Reconcile(req: NamespacedName) returns (outcome: Outcome)
      requires WellKinded(world.objects)
      modifies this
      ensures Snapshot() == Pipeline.Reconcile(old(Snapshot()), req).state
      ensures outcome == Pipeline.Reconcile(old(Snapshot()), req).outcome
    {
      ghost var pass := Pipeline.Reconcile(Snapshot(), req);
      var fetched := GetObject(world, ResourceKey(req));
      if fetched.Err? {
        return Failed(FetchResource, fetched.error);
      }
      var cr := fetched.value;
      Load(cr);
      assert pass == ReconcileFrom(Snapshot(), cr);
      outcome := Connect(cr);
    }

    /** Sets the fields from the fetched resource: its spec, name, namespace and recorded id; no session or credentials yet. */
    method Load(cr: Obj)
      requires cr.body.TunnelBody?
      modifies this
      ensures Fields() == Expand(cr)
      ensures world == old(world)
    {
      var TunnelBody(crSpec, status) := cr.body;
      spec, api, accountToken, accountTag := crSpec, None, "", "";
      name, namespace, tunnelID, tunnelSecret := cr.name, cr.namespace, status.tunnelID, "";
    }

    /** The rest of `Reconcile` once the fields are set from the resource: the credentials, then the tunnel. */
    method Connect(cr: Obj) returns (outcome: Outcome)
      requires WellKinded(world.objects)
      modifies this
      ensures Snapshot() == ReconcileFrom(old(Snapshot()), cr).state
      ensures outcome == ReconcileFrom(old(Snapshot()), cr).outcome
    {
      ghost var pass := ReconcileFrom(Snapshot(), cr);
      var step := FetchDecodeSecret();
      if step.Err? {
        return Failed(Credentials, step.error);
      }
      assert WellKinded(world.objects);
      assert pass == FromTunnel(Snapshot(), cr);
      outcome := SyncTunnel(cr);
    }

    /** The rest of `Reconcile` once the credentials are read: the remote tunnel, then the connector. */
    method SyncTunnel(cr: Obj) returns (outcome: Outcome)
      requires WellKinded(world.objects)
      modifies this
      ensures Snapshot() == FromTunnel(old(Snapshot()), cr).state
      ensures outcome == FromTunnel(old(Snapshot()), cr).outcome
    {
      ghost var pass := FromTunnel(Snapshot(), cr);
      var step := CreateTunnelRemote();
      if step.Err? {
        return Failed(RemoteTunnel, step.error);
      }
      assert WellKinded(world.objects);
      assert pass == FromSecret(Snapshot(), cr);
      outcome := SyncConnector(cr);
    }

    /**
     * The rest of `Reconcile` once the tunnel is settled: the Secret, the
     * target URL, the ConfigMap, the Deployment and the DNS record, stopping
     * at the first step that fails.
     */
    method SyncConnector(cr: Obj) returns (outcome: Outcome)
      requires WellKinded(world.objects) && api.Some?
      modifies this
      ensures Snapshot() == FromSecret(old(Snapshot()), cr).state
      ensures outcome == FromSecret(old(Snapshot()), cr).outcome
    {
      ghost var pass := FromSecret(Snapshot(), cr);
      var secret := CreateSecret(cr);
      if secret.Err? {
        return Failed(SecretSync, secret.error);
      }
      assert WellKinded(world.objects);
      assert pass == FromTarget(Snapshot(), cr, secret.value);

      var url := GetTargetURL();
      if url.Err? {
        return Failed(TargetResolution, url.error);
      }
      assert pass == FromConfigMap(Snapshot(), cr, secret.value, url.value);

      var configMap := CreateConfigMap(cr, url.value);
      if configMap.Err? {
        return Failed(ConfigMapSync, configMap.error);
      }
      assert pass == FromDeployment(Snapshot(), cr, secret.value, configMap.value);

      var deployment := CreateDeployment(cr, secret.value, configMap.value);
      if deployment.Err? {
        return Failed(DeploymentSync, deployment.error);
      }
      assert pass == FromDns(Snapshot());

      var step := CreateDNSCNAME();
      if step.Err? {
        return Failed(DnsSync, step.error);
      }
      return Done;
    }
  }
}
