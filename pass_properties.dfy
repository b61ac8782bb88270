/**
 * What a whole reconcile pass promises: what it may change, who owns what it
 * writes, where it stops, and what a second pass over its result does.
 */
module PassProperties {
  import opened Wrappers
  import opened Kube
  import opened Cloudflare
  import opened Environment
  import opened Pipeline
  import StepProperties

  /** The API server keeps every object under its own name and namespace. */
  predicate Stored(objects: map<Key, Obj>)
  {
    forall k :: k in objects ==> objects[k].name == k.name && objects[k].namespace == k.namespace
  }

  /** The Secret, ConfigMap and Deployment a pass writes: all named after the resource. */
  function OwnedKeys(name: string, namespace: string): set<Key>
  {
    {Key(SecretKind, name, namespace), Key(ConfigMapKind, name, namespace), Key(DeploymentKind, name, namespace)}
  }

  /** Every object outside `keys` is as it was, and no object outside `keys` appeared or vanished. */
  predicate WritesOnly(before: map<Key, Obj>, after: map<Key, Obj>, keys: set<Key>)
  {
    && (forall k :: k in before && k !in keys ==> k in after && after[k] == before[k])
    && (forall k :: k in after && k !in keys ==> k in before)
  }

  /** Every object that is new or changed in `after` carries the controller reference to `owner`. */
  predicate ChangesOwnedBy(before: map<Key, Obj>, after: map<Key, Obj>, owner: string)
  {
    forall k :: k in after && (k !in before || after[k] != before[k]) ==>
      after[k].owner == Some(ControllerRef(CloudflareTunnelKind, owner))
  }

  /** A world that differs from `w` at most in its objects, tunnels and records. */
  predicate SameAccount(w: World, w': World)
  {
    w'.(objects := w.objects, tunnels := w.tunnels, records := w.records) == w
  }

  /**
   * What the rest of a pass, from `before` to the pass `p`, may have done to
   * the world: written only `keys`, each stamped with `owner`; created an
   * object only as the step that then failed with not-found for it; changed
   * the DNS records only in a pass that completed.
   */
  predicate Effect(before: State, p: Pass, keys: set<Key>, owner: string)
  {
    var objects, objects' := before.world.objects, p.state.world.objects;
    && SameAccount(before.world, p.state.world)
    && WritesOnly(objects, objects', keys)
    && ChangesOwnedBy(objects, objects', owner)
    && (forall k :: k in objects' && k !in objects ==> p.outcome.Failed? && p.outcome.error == NotFound(k))
    && (p.outcome != Done ==> p.state.world.records == before.world.records)
  }

  // ----- One sync step, as a pass sees it -----

  /**
   * The create-or-update step either leaves the world as it was or writes the
   * stamped object at its key; an object it newly creates always comes with
   * the not-found error, and success means the object was there before.
   */
  lemma {:induction false} SyncOutcome(s: State, kind: Kind, desired: Obj, cr: Obj)
    requires desired.namespace == s.r.namespace
    ensures var out := CreateOrUpdate(s, kind, desired, cr);
            var key := Key(kind, desired.name, desired.namespace);
            && out.state.r == s.r
            && (out.state.world == s.world ||
                out.state.world == s.world.(objects := s.world.objects[key := WithController(desired, cr)]))
            && (out.result.Ok? ==>
                  key in s.world.objects && out.result.value == WithController(desired, cr) &&
                  out.state.world.objects == s.world.objects[key := WithController(desired, cr)])
            && (key !in s.world.objects && key in out.state.world.objects ==> out.result == Err(NotFound(key)))
  {
    var key := Key(kind, desired.name, desired.namespace);
    if OwnerReferenceFault !in s.world.faults && ClusterFault(GetOp, key) !in s.world.faults {
      if key in s.world.objects {
        if ClusterFault(UpdateOp, key) !in s.world.faults {
          StepProperties.PresentObjectReplaced(s, kind, desired, cr);
        }
      } else if ClusterFault(CreateOp, key) !in s.world.faults {
        StepProperties.AbsentObjectCreatedButReported(s, kind, desired, cr);
      }
    }
  }

  /** One successful sync step followed by the rest of the pass has the effect the rest has. */
  lemma {:induction false} EffectAfterSync(s: State, s1: State, p: Pass, keys: set<Key>, owner: string, key: Key, o: Obj)
    requires key in keys && key in s.world.objects && o.owner == Some(ControllerRef(CloudflareTunnelKind, owner))
    requires s1.world == s.world.(objects := s.world.objects[key := o])
    requires Effect(s1, p, keys, owner)
    ensures Effect(s, p, keys, owner)
  {
    var objects, objects1, objects' := s.world.objects, s1.world.objects, p.state.world.objects;
    forall k | k in objects' && (k !in objects || objects'[k] != objects[k])
      ensures objects'[k].owner == Some(ControllerRef(CloudflareTunnelKind, owner))
    {
      if k == key {
        if k in objects1 && objects'[k] == objects1[k] {
        }
      }
    }
  }

  /** A step that changes nothing followed by the rest of the pass has the effect the rest has. */
  lemma {:induction false} EffectAfterNoChange(s: State, s1: State, p: Pass, keys: set<Key>, owner: string)
    requires s1.world == s.world
    requires Effect(s1, p, keys, owner)
    ensures Effect(s, p, keys, owner)
  {
  }

  lemma {:induction false} FromDnsEffect(s: State)
    requires s.r.api.Some?
    ensures var p := FromDns(s);
            Effect(s, p, {}, s.r.name) && p.state.world.tunnels == s.world.tunnels && p.state.world.objects == s.world.objects
  {
  }

  lemma {:induction false} FromDeploymentEffect(s: State, cr: Obj, secret: Obj, configMap: Obj)
    requires s.r.api.Some? && cr.name == s.r.name
    ensures var p := FromDeployment(s, cr, secret, configMap);
            Effect(s, p, OwnedKeys(s.r.name, s.r.namespace), cr.name) && p.state.world.tunnels == s.world.tunnels
  {
    var desired := DesiredDeployment(s.r, secret, configMap);
    SyncOutcome(s, DeploymentKind, desired, cr);
    var dep := CreateDeployment(s, cr, secret, configMap);
    if dep.result.Ok? {
      FromDnsEffect(dep.state);
      if dep.state.world == s.world {
        EffectAfterNoChange(s, dep.state, FromDns(dep.state), OwnedKeys(s.r.name, s.r.namespace), cr.name);
      } else {
        EffectAfterSync(s, dep.state, FromDns(dep.state), OwnedKeys(s.r.name, s.r.namespace), cr.name,
                        Key(DeploymentKind, s.r.name, s.r.namespace), WithController(desired, cr));
      }
    }
  }

  lemma {:induction false} FromConfigMapEffect(s: State, cr: Obj, secret: Obj, url: string)
    requires s.r.api.Some? && cr.name == s.r.name
    ensures var p := FromConfigMap(s, cr, secret, url);
            Effect(s, p, OwnedKeys(s.r.name, s.r.namespace), cr.name) && p.state.world.tunnels == s.world.tunnels
  {
    if ConfigMapRenderFault !in s.world.faults {
      var desired := DesiredConfigMap(s.r, url);
      SyncOutcome(s, ConfigMapKind, desired, cr);
      var cm := CreateConfigMap(s, cr, url);
      if cm.result.Ok? {
        var p := FromDeployment(cm.state, cr, secret, cm.result.value);
        FromDeploymentEffect(cm.state, cr, secret, cm.result.value);
        if cm.state.world == s.world {
          EffectAfterNoChange(s, cm.state, p, OwnedKeys(s.r.name, s.r.namespace), cr.name);
        } else {
          EffectAfterSync(s, cm.state, p, OwnedKeys(s.r.name, s.r.namespace), cr.name,
                          Key(ConfigMapKind, s.r.name, s.r.namespace), WithController(desired, cr));
        }
      }
    }
  }

  lemma {:induction false} FromTargetEffect(s: State, cr: Obj, secret: Obj)
    requires WellKinded(s.world.objects) && s.r.api.Some? && cr.name == s.r.name
    ensures var p := FromTarget(s, cr, secret);
            Effect(s, p, OwnedKeys(s.r.name, s.r.namespace), cr.name) && p.state.world.tunnels == s.world.tunnels
  {
    var url := GetTargetURL(s);
    if url.Ok? {
      FromConfigMapEffect(s, cr, secret, url.value);
    }
  }

  lemma {:induction false} FromSecretEffect(s: State, cr: Obj)
    requires WellKinded(s.world.objects) && s.r.api.Some? && cr.name == s.r.name
    ensures var p := FromSecret(s, cr);
            Effect(s, p, OwnedKeys(s.r.name, s.r.namespace), cr.name) && p.state.world.tunnels == s.world.tunnels
  {
    var desired := DesiredSecret(s.r);
    SyncOutcome(s, SecretKind, desired, cr);
    var sec := CreateSecret(s, cr);
    if sec.result.Ok? {
      var p := FromTarget(sec.state, cr, sec.result.value);
      FromTargetEffect(sec.state, cr, sec.result.value);
      if sec.state.world == s.world {
        EffectAfterNoChange(s, sec.state, p, OwnedKeys(s.r.name, s.r.namespace), cr.name);
      } else {
        EffectAfterSync(s, sec.state, p, OwnedKeys(s.r.name, s.r.namespace), cr.name,
                        Key(SecretKind, s.r.name, s.r.namespace), WithController(desired, cr));
      }
    }
  }

  lemma {:induction false} FromTunnelEffect(s: State, cr: Obj)
    requires WellKinded(s.world.objects) && cr.name == s.r.name
    ensures var p := FromTunnel(s, cr);
            && Effect(s, p, OwnedKeys(s.r.name, s.r.namespace), cr.name)
            && (p.state.world.tunnels == s.world.tunnels || p.state.world.tunnels == CreatedTunnel(s).0.tunnels)
  {
    var t := CreateTunnelRemote(s);
    if t.result.Ok? {
      FromSecretEffect(t.state, cr);
    }
  }

  // ----- A whole pass -----

  /** The resource a pass reconciles, when it can be read. */
  function Resource(s: State, req: NamespacedName): Obj
    requires ResourceKey(req) in s.world.objects
  {
    s.world.objects[ResourceKey(req)]
  }

  /** When the resource cannot be read the pass fails at once and changes nothing. */
  lemma FetchFailureChangesNothing(s: State, req: NamespacedName)
    requires WellKinded(s.world.objects)
    requires GetObject(s.world, ResourceKey(req)).Err?
    ensures Reconcile(s, req) == Pass(s, Failed(FetchResource, GetObject(s.world, ResourceKey(req)).error))
  {
  }

  /**
   * What any pass may do: it writes only the Secret, ConfigMap and Deployment
   * named after the resource, each with the controller reference to it; it
   * creates an object only in the step that then fails with not-found for
   * that object; it adds at most one tunnel; it changes DNS records only when
   * it completes; tokens, zones and the rest of the account are untouched.
   */
  lemma {:induction false} PassEffect(s: State, req: NamespacedName)
    requires WellKinded(s.world.objects) && Stored(s.world.objects)
    ensures var p := Reconcile(s, req);
            && Effect(s, p, OwnedKeys(req.name, req.namespace), req.name)
            && s.world.tunnels <= p.state.world.tunnels
            && |p.state.world.tunnels| <= |s.world.tunnels| + 1
  {
    if GetObject(s.world, ResourceKey(req)).Ok? {
      var cr := Resource(s, req);
      var c := FetchDecodeSecret(State(s.world, Expand(cr)));
      if c.result.Ok? {
        FromTunnelEffect(c.state, cr);
      }
    }
  }

  /**
   * A pass creates at most one object, and a pass that creates one stops
   * right there, reporting that very object as not found: a pass over a
   * fresh resource never gets past the Secret.
   */
  lemma FirstCreationEndsPass(s: State, req: NamespacedName, k: Key)
    requires WellKinded(s.world.objects) && Stored(s.world.objects)
    requires k in Reconcile(s, req).state.world.objects && k !in s.world.objects
    ensures var p := Reconcile(s, req);
            && p.outcome.Failed? && p.outcome.error == NotFound(k)
            && k in OwnedKeys(req.name, req.namespace)
            && forall k' :: k' in p.state.world.objects && k' !in s.world.objects ==> k' == k
  {
    PassEffect(s, req);
    CreatedObjectReported(s, Reconcile(s, req), OwnedKeys(req.name, req.namespace), req.name, k);
  }

  lemma CreatedObjectReported(before: State, p: Pass, keys: set<Key>, owner: string, k: Key)
    requires Effect(before, p, keys, owner)
    requires k in p.state.world.objects && k !in before.world.objects
    ensures p.outcome.Failed? && p.outcome.error == NotFound(k)
    ensures k in keys
    ensures forall k' :: k' in p.state.world.objects && k' !in before.world.objects ==> k' == k
  {
  }

  /** The resource object itself, and so the tunnel id in its status, is never written by a pass. */
  lemma RecordedIDNeverWrittenBack(s: State, req: NamespacedName)
    requires WellKinded(s.world.objects) && Stored(s.world.objects)
    requires ResourceKey(req) in s.world.objects
    ensures var p := Reconcile(s, req);
            && ResourceKey(req) in p.state.world.objects
            && p.state.world.objects[ResourceKey(req)] == s.world.objects[ResourceKey(req)]
  {
    PassEffect(s, req);
    ResourceUntouched(s.world.objects, Reconcile(s, req).state.world.objects, req);
  }

  lemma ResourceUntouched(before: map<Key, Obj>, after: map<Key, Obj>, req: NamespacedName)
    requires WritesOnly(before, after, OwnedKeys(req.name, req.namespace))
    requires ResourceKey(req) in before
    ensures ResourceKey(req) in after && after[ResourceKey(req)] == before[ResourceKey(req)]
  {
    assert ResourceKey(req) !in OwnedKeys(req.name, req.namespace);
  }

  /** A pass that fails before the Secret step writes no object and no DNS record; one that fails fetching credentials changes nothing. */
  lemma EarlyFailureWritesNoObject(s: State, req: NamespacedName)
    requires WellKinded(s.world.objects)
    requires Reconcile(s, req).outcome.Failed? && Rank(Reconcile(s, req).outcome.stage) < Rank(SecretSync)
    ensures var p := Reconcile(s, req);
            && p.state.world.objects == s.world.objects
            && p.state.world.records == s.world.records
            && (p.outcome.stage != RemoteTunnel ==> p.state.world == s.world)
  {
    if GetObject(s.world, ResourceKey(req)).Ok? {
      var cr := Resource(s, req);
      var c := FetchDecodeSecret(State(s.world, Expand(cr)));
      if c.result.Ok? {
        var t := CreateTunnelRemote(c.state);
      }
    }
  }

  /**
   * The Secret is written before the target URL is resolved: a pass that
   * fails resolving the URL leaves the Secret built from the tunnel it chose,
   * which was already there before the pass (otherwise the pass would have
   * stopped at the Secret).
   */
  lemma SecretWrittenBeforeTargetURL(s: State, req: NamespacedName)
    requires WellKinded(s.world.objects) && Stored(s.world.objects)
    requires Reconcile(s, req).outcome.Failed? && Reconcile(s, req).outcome.stage == TargetResolution
    ensures var p := Reconcile(s, req);
            var key := Key(SecretKind, req.name, req.namespace);
            && key in s.world.objects
            && key in p.state.world.objects
            && p.state.world.objects[key] == WithController(DesiredSecret(p.state.r), Resource(s, req))
            && p.state.world.objects[key].body == TunnelCredentials(p.state.r.tunnelID, p.state.r.tunnelSecret)
  {
    var p := Reconcile(s, req);
    var cr := Resource(s, req);
    var c := FetchDecodeSecret(State(s.world, Expand(cr)));
    var t := CreateTunnelRemote(c.state);
    assert p == FromSecret(t.state, cr);
    assert t.state.r.name == req.name && t.state.r.namespace == req.namespace;
    SecretKeptAtTarget(t.state, cr);
  }

  /** From the Secret step on, failing at the URL means the Secret step found the Secret and overwrote it. */
  lemma {:induction false} SecretKeptAtTarget(s: State, cr: Obj)
    requires WellKinded(s.world.objects) && s.r.api.Some?
    requires FromSecret(s, cr).outcome.Failed? && FromSecret(s, cr).outcome.stage == TargetResolution
    ensures var p := FromSecret(s, cr);
            var key := Key(SecretKind, s.r.name, s.r.namespace);
            && p.state.r == s.r
            && key in s.world.objects
            && key in p.state.world.objects
            && p.state.world.objects[key] == WithController(DesiredSecret(s.r), cr)
  {
    var sec := CreateSecret(s, cr);
    assert sec.result.Ok?;
    assert FromSecret(s, cr).state == sec.state;
    StepProperties.CreateOrUpdateOk(s, SecretKind, DesiredSecret(s.r), cr);
  }

  /**
   * A pass stops at its first error: one that fails syncing the Secret has
   * written at most the Secret, and one that fails resolving the target URL
   * or syncing the ConfigMap has written at most the Secret and the
   * ConfigMap. The objects later steps would write are as they were.
   */
  lemma {:induction false} LaterStepsSkipped(s: State, req: NamespacedName)
    requires WellKinded(s.world.objects) && Stored(s.world.objects)
    ensures var p := Reconcile(s, req);
            var secret := Key(SecretKind, req.name, req.namespace);
            var configMap := Key(ConfigMapKind, req.name, req.namespace);
            && (p.outcome.Failed? && p.outcome.stage == SecretSync ==>
                  WritesOnly(s.world.objects, p.state.world.objects, {secret}))
            && (p.outcome.Failed? && (p.outcome.stage == TargetResolution || p.outcome.stage == ConfigMapSync) ==>
                  WritesOnly(s.world.objects, p.state.world.objects, {secret, configMap}))
  {
    var p := Reconcile(s, req);
    if GetObject(s.world, ResourceKey(req)).Ok? {
      var cr := Resource(s, req);
      var c := FetchDecodeSecret(State(s.world, Expand(cr)));
      if c.result.Ok? {
        var t := CreateTunnelRemote(c.state);
        if t.result.Ok? {
          assert p == FromSecret(t.state, cr);
          assert t.state.r.name == req.name && t.state.r.namespace == req.namespace;
          FromSecretStops(t.state, cr);
        } else {
          assert p.outcome == Failed(RemoteTunnel, t.result.error);
        }
      } else {
        assert p.outcome == Failed(Credentials, c.result.error);
      }
    }
  }

  lemma {:induction false} FromSecretStops(s: State, cr: Obj)
    requires WellKinded(s.world.objects) && s.r.api.Some?
    ensures var p := FromSecret(s, cr);
            var secret := Key(SecretKind, s.r.name, s.r.namespace);
            var configMap := Key(ConfigMapKind, s.r.name, s.r.namespace);
            && (p.outcome.Failed? && p.outcome.stage == SecretSync ==>
                  WritesOnly(s.world.objects, p.state.world.objects, {secret}))
            && (p.outcome.Failed? && (p.outcome.stage == TargetResolution || p.outcome.stage == ConfigMapSync) ==>
                  WritesOnly(s.world.objects, p.state.world.objects, {secret, configMap}))
  {
    var secret := Key(SecretKind, s.r.name, s.r.namespace);
    var configMap := Key(ConfigMapKind, s.r.name, s.r.namespace);
    var sec := CreateSecret(s, cr);
    AtMostOneWrite(s.world.objects, sec.state.world.objects, secret, WithController(DesiredSecret(s.r), cr));
    if sec.result.Ok? {
      var p := FromTarget(sec.state, cr, sec.result.value);
      assert FromSecret(s, cr) == p;
      var url := GetTargetURL(sec.state);
      if url.Ok? {
        var cm := CreateConfigMap(sec.state, cr, url.value);
        AtMostOneWrite(sec.state.world.objects, cm.state.world.objects, configMap,
                       WithController(DesiredConfigMap(s.r, url.value), cr));
        WritesOnlyThen(s.world.objects, sec.state.world.objects, cm.state.world.objects, {secret}, {configMap});
        if cm.result.Err? {
          assert p.state == cm.state;
        }
      } else {
        assert p.state == sec.state;
      }
    }
  }

  /** Leaving a store as it was, or writing one object at `key`, writes only `key`. */
  lemma AtMostOneWrite(a: map<Key, Obj>, b: map<Key, Obj>, key: Key, o: Obj)
    requires b == a || b == a[key := o]
    ensures WritesOnly(a, b, {key})
  {
  }

  /** Writing only `keys` and then only `keys'` writes only the two together. */
  lemma WritesOnlyThen(a: map<Key, Obj>, b: map<Key, Obj>, c: map<Key, Obj>, keys: set<Key>, keys': set<Key>)
    requires WritesOnly(a, b, keys) && WritesOnly(b, c, keys')
    ensures WritesOnly(a, c, keys + keys')
  {
  }

  // ----- A second pass -----

  /** After a completed DNS step, the step again changes nothing. */
  lemma {:induction false} FromDnsSettled(s: State)
    requires s.r.api.Some? && FromDns(s).outcome == Done
    ensures var q := FromDns(s).state;
            && q.r == s.r && q.world == s.world.(records := q.world.records)
            && FromDns(q) == Pass(q, Done)
  {
    StepProperties.DnsStepIdempotent(s);
  }

  /** After a completed run from the Deployment step, running it again over its result changes nothing. */
  lemma {:induction false} FromDeploymentSettled(s: State, cr: Obj, secret: Obj, configMap: Obj)
    requires s.r.api.Some? && FromDeployment(s, cr, secret, configMap).outcome == Done
    ensures var q := FromDeployment(s, cr, secret, configMap).state;
            && q.r == s.r && q.world == s.world.(objects := q.world.objects, records := q.world.records)
            && WritesOnly(s.world.objects, q.world.objects, {Key(DeploymentKind, s.r.name, s.r.namespace)})
            && (WellKinded(s.world.objects) ==> WellKinded(q.world.objects))
            && FromDeployment(q, cr, secret, configMap) == Pass(q, Done)
  {
    var desired := DesiredDeployment(s.r, secret, configMap);
    var v := WithController(desired, cr);
    SyncOutcome(s, DeploymentKind, desired, cr);
    var dep := CreateDeployment(s, cr, secret, configMap);
    FromDnsSettled(dep.state);
    var q := FromDns(dep.state).state;
    var key := Key(DeploymentKind, s.r.name, s.r.namespace);
    assert q.world.objects == s.world.objects[key := v];
    StepProperties.CreateOrUpdateOk(s, DeploymentKind, desired, cr);
    StepProperties.PresentObjectReplaced(q, DeploymentKind, desired, cr);
    assert q.world.objects[key := v] == q.world.objects;
  }

  /** The same from the ConfigMap step. */
  lemma {:induction false} FromConfigMapSettled(s: State, cr: Obj, secret: Obj, url: string)
    requires s.r.api.Some? && FromConfigMap(s, cr, secret, url).outcome == Done
    ensures var q := FromConfigMap(s, cr, secret, url).state;
            && q.r == s.r && q.world == s.world.(objects := q.world.objects, records := q.world.records)
            && WritesOnly(s.world.objects, q.world.objects,
                          {Key(ConfigMapKind, s.r.name, s.r.namespace), Key(DeploymentKind, s.r.name, s.r.namespace)})
            && (WellKinded(s.world.objects) ==> WellKinded(q.world.objects))
            && FromConfigMap(q, cr, secret, url) == Pass(q, Done)
  {
    var v := WithController(DesiredConfigMap(s.r, url), cr);
    var key := Key(ConfigMapKind, s.r.name, s.r.namespace);
    var later := {Key(DeploymentKind, s.r.name, s.r.namespace)};
    ConfigMapStepDone(s, cr, secret, url);
    var cm := CreateConfigMap(s, cr, url);
    FromDeploymentSettled(cm.state, cr, secret, v);
    var q := FromDeployment(cm.state, cr, secret, v).state;
    WritesOnlyAfterWrite(s.world.objects, key, v, q.world.objects, later);
    assert later + {key} == {key, Key(DeploymentKind, s.r.name, s.r.namespace)};
    assert key in cm.state.world.objects && key !in later;
    RewriteIsNoop(q, ConfigMapKind, DesiredConfigMap(s.r, url), cr);
    assert CreateConfigMap(q, cr, url) == Step(q, Ok(v));
  }

  /** In a completed run the ConfigMap step succeeded: it found the ConfigMap and overwrote it with the stamped one. */
  lemma {:induction false} ConfigMapStepDone(s: State, cr: Obj, secret: Obj, url: string)
    requires s.r.api.Some? && FromConfigMap(s, cr, secret, url).outcome == Done
    ensures var v := WithController(DesiredConfigMap(s.r, url), cr);
            var key := Key(ConfigMapKind, s.r.name, s.r.namespace);
            var cm := CreateConfigMap(s, cr, url);
            && ConfigMapRenderFault !in s.world.faults && OwnerReferenceFault !in s.world.faults
            && ClusterFault(GetOp, key) !in s.world.faults && ClusterFault(UpdateOp, key) !in s.world.faults
            && key in s.world.objects
            && cm == Step(s.(world := s.world.(objects := s.world.objects[key := v])), Ok(v))
            && FromConfigMap(s, cr, secret, url) == FromDeployment(cm.state, cr, secret, v)
  {
    var desired := DesiredConfigMap(s.r, url);
    SyncOutcome(s, ConfigMapKind, desired, cr);
    StepProperties.CreateOrUpdateOk(s, ConfigMapKind, desired, cr);
  }

  /** Writing again an object that already holds the stamped value succeeds and changes nothing. */
  lemma RewriteIsNoop(s: State, kind: Kind, desired: Obj, cr: Obj)
    requires desired.namespace == s.r.namespace
    requires OwnerReferenceFault !in s.world.faults
    requires ClusterFault(GetOp, StepProperties.ObjectKey(kind, desired)) !in s.world.faults
    requires ClusterFault(UpdateOp, StepProperties.ObjectKey(kind, desired)) !in s.world.faults
    requires StepProperties.ObjectKey(kind, desired) in s.world.objects
    requires s.world.objects[StepProperties.ObjectKey(kind, desired)] == WithController(desired, cr)
    ensures CreateOrUpdate(s, kind, desired, cr) == Step(s, Ok(WithController(desired, cr)))
  {
    var key := StepProperties.ObjectKey(kind, desired);
    StepProperties.PresentObjectReplaced(s, kind, desired, cr);
    assert s.world.objects[key := WithController(desired, cr)] == s.world.objects;
  }

  /** The same from the target URL step: the Service is not written, so the URL comes out the same. */
  lemma {:induction false} FromTargetSettled(s: State, cr: Obj, secret: Obj)
    requires WellKinded(s.world.objects) && s.r.api.Some? && FromTarget(s, cr, secret).outcome == Done
    ensures var q := FromTarget(s, cr, secret).state;
            && q.r == s.r && q.world == s.world.(objects := q.world.objects, records := q.world.records)
            && WritesOnly(s.world.objects, q.world.objects,
                          {Key(ConfigMapKind, s.r.name, s.r.namespace), Key(DeploymentKind, s.r.name, s.r.namespace)})
            && WellKinded(q.world.objects)
            && FromTarget(q, cr, secret) == Pass(q, Done)
  {
    var url := GetTargetURL(s);
    FromConfigMapSettled(s, cr, secret, url.value);
    var q := FromConfigMap(s, cr, secret, url.value).state;
    assert GetObject(q.world, ServiceKey(q.r)) == GetObject(s.world, ServiceKey(s.r));
  }

  /** The same from the Secret step. */
  lemma {:induction false} FromSecretSettled(s: State, cr: Obj)
    requires WellKinded(s.world.objects) && s.r.api.Some? && FromSecret(s, cr).outcome == Done
    ensures var q := FromSecret(s, cr).state;
            && q.r == s.r && q.world == s.world.(objects := q.world.objects, records := q.world.records)
            && WritesOnly(s.world.objects, q.world.objects, OwnedKeys(s.r.name, s.r.namespace))
            && WellKinded(q.world.objects)
            && FromSecret(q, cr) == Pass(q, Done)
  {
    var v := WithController(DesiredSecret(s.r), cr);
    FirstSecretRun(s, cr);
    var q := FromSecret(s, cr).state;
    SecondSecretWriteIsNoop(q, cr, v);
    assert FromSecret(q, cr) == FromTarget(q, cr, v);
  }

  /** What a completed run from the Secret step leaves: the Secret stamped, and only the three objects written. */
  lemma {:induction false} FirstSecretRun(s: State, cr: Obj)
    requires WellKinded(s.world.objects) && s.r.api.Some? && FromSecret(s, cr).outcome == Done
    ensures var q := FromSecret(s, cr).state;
            var v := WithController(DesiredSecret(s.r), cr);
            var key := Key(SecretKind, s.r.name, s.r.namespace);
            && q.r == s.r && q.world == s.world.(objects := q.world.objects, records := q.world.records)
            && WritesOnly(s.world.objects, q.world.objects, OwnedKeys(s.r.name, s.r.namespace))
            && WellKinded(q.world.objects)
            && OwnerReferenceFault !in s.world.faults
            && ClusterFault(GetOp, key) !in s.world.faults && ClusterFault(UpdateOp, key) !in s.world.faults
            && key in q.world.objects && q.world.objects[key] == v
            && FromTarget(q, cr, v) == Pass(q, Done)
  {
    var v := WithController(DesiredSecret(s.r), cr);
    SecretStepDone(s, cr);
    var sec := CreateSecret(s, cr);
    assert FromSecret(s, cr) == FromTarget(sec.state, cr, v);
    FromTargetSettled(sec.state, cr, v);
    var q := FromTarget(sec.state, cr, v).state;
    SecretThenLater(s.world.objects, v, q.world.objects, s.r.name, s.r.namespace);
  }

  /** The Secret overwritten with `v`, then only the ConfigMap and Deployment written: only the three objects are written, and the Secret is `v`. */
  lemma SecretThenLater(a: map<Key, Obj>, v: Obj, b: map<Key, Obj>, name: string, namespace: string)
    requires Key(SecretKind, name, namespace) in a
    requires WritesOnly(a[Key(SecretKind, name, namespace) := v], b,
                        {Key(ConfigMapKind, name, namespace), Key(DeploymentKind, name, namespace)})
    ensures WritesOnly(a, b, OwnedKeys(name, namespace))
    ensures Key(SecretKind, name, namespace) in b && b[Key(SecretKind, name, namespace)] == v
  {
    var key := Key(SecretKind, name, namespace);
    var later := {Key(ConfigMapKind, name, namespace), Key(DeploymentKind, name, namespace)};
    WritesOnlyAfterWrite(a, key, v, b, later);
    assert OwnedKeys(name, namespace) == later + {key};
    assert key in a[key := v] && key !in later;
  }

  /** In a completed run the Secret step succeeded: it found the Secret and overwrote it with the stamped one. */
  lemma {:induction false} SecretStepDone(s: State, cr: Obj)
    requires WellKinded(s.world.objects) && s.r.api.Some? && FromSecret(s, cr).outcome == Done
    ensures var v := WithController(DesiredSecret(s.r), cr);
            var key := Key(SecretKind, s.r.name, s.r.namespace);
            var sec := CreateSecret(s, cr);
            && OwnerReferenceFault !in s.world.faults
            && ClusterFault(GetOp, key) !in s.world.faults && ClusterFault(UpdateOp, key) !in s.world.faults
            && key in s.world.objects
            && sec.result == Ok(v)
            && sec.state == s.(world := s.world.(objects := s.world.objects[key := v]))
  {
    var desired := DesiredSecret(s.r);
    SyncOutcome(s, SecretKind, desired, cr);
    StepProperties.CreateOrUpdateOk(s, SecretKind, desired, cr);
  }

  /** Writing a value over one key and then writing only `keys` writes only `keys` and that key. */
  lemma WritesOnlyAfterWrite(a: map<Key, Obj>, key: Key, v: Obj, b: map<Key, Obj>, keys: set<Key>)
    requires WritesOnly(a[key := v], b, keys)
    requires key in a
    ensures WritesOnly(a, b, keys + {key})
  {
    forall k | k in a && k !in keys + {key}
      ensures k in b && b[k] == a[k]
    {
      assert k in a[key := v] && a[key := v][k] == a[k];
    }
  }

  /** Writing the Secret a second time, when it already holds what would be written, changes nothing. */
  lemma SecondSecretWriteIsNoop(q: State, cr: Obj, v: Obj)
    requires v == WithController(DesiredSecret(q.r), cr)
    requires OwnerReferenceFault !in q.world.faults
    requires ClusterFault(GetOp, Key(SecretKind, q.r.name, q.r.namespace)) !in q.world.faults
    requires ClusterFault(UpdateOp, Key(SecretKind, q.r.name, q.r.namespace)) !in q.world.faults
    requires Key(SecretKind, q.r.name, q.r.namespace) in q.world.objects
    requires q.world.objects[Key(SecretKind, q.r.name, q.r.namespace)] == v
    ensures CreateSecret(q, cr) == Step(q, Ok(v))
  {
    var key := Key(SecretKind, q.r.name, q.r.namespace);
    StepProperties.PresentObjectReplaced(q, SecretKind, DesiredSecret(q.r), cr);
    assert q.world.objects[key := v] == q.world.objects;
  }

  /** The connector-secret fetch reads only the account's tokens and faults. */
  lemma ConnectorSecretIgnoresWorld(s: State, w': World, t: Tunnel)
    requires w'.tokens == s.world.tokens && w'.faults == s.world.faults
    ensures var out := FetchConnectorSecret(s, t);
            FetchConnectorSecret(s.(world := w'), t) == Step(out.state.(world := w'), out.result)
  {
  }

  /** Reading the credentials again gives the same fields when the credentials Secret reads the same. */
  lemma CredentialsReplay(s: State, w': World)
    requires GetObject(w', StepProperties.CredentialKey(s)) == GetObject(s.world, StepProperties.CredentialKey(s))
    ensures var out := FetchDecodeSecret(s);
            FetchDecodeSecret(s.(world := w')) == Step(out.state.(world := w'), out.result)
  {
  }

  /**
   * Selecting the tunnel again over the account a successful selection left
   * (whatever became of objects and records since) chooses the same tunnel,
   * with the same fields and nothing created, provided either no id was
   * recorded or no tunnel was created the first time.
   */
  lemma {:induction false} TunnelStepReplays(s: State, w': World)
    requires CreateTunnelRemote(s).result.Ok?
    requires s.r.tunnelID == "" || CreateTunnelRemote(s).state.world.tunnels == s.world.tunnels
    requires w' == CreateTunnelRemote(s).state.world.(objects := w'.objects, records := w'.records)
    ensures CreateTunnelRemote(s.(world := w')) == Step(CreateTunnelRemote(s).state.(world := w'), Ok(()))
  {
    var t := CreateTunnelRemote(s);
    var s' := s.(world := w');
    assert StepProperties.Listable(s);
    if |Candidates(s)| >= 2 {
      StepProperties.AmbiguousTunnelsRefused(s);
    } else if |Candidates(s)| == 1 {
      StepProperties.ReusePath(s);
      assert Candidates(s') == Candidates(s);
      StepProperties.ReusePath(s');
      assert Connected(s') == Connected(s).(world := w');
      ConnectorSecretIgnoresWorld(Connected(s), w', Candidates(s)[0]);
    } else {
      StepProperties.CreatePath(s);
      var created := CreatedTunnel(s).1;
      assert |t.state.world.tunnels| == |s.world.tunnels| + 1;
      var p1 := ListParams(s.r.name, "");
      MatchingAppend(s.world.tunnels, created, p1);
      assert Candidates(s') == [created];
      StepProperties.ReusePath(s');
      assert Connected(s') == Connected(s).(world := CreatedTunnel(s).0).(world := w');
      ConnectorSecretIgnoresWorld(Connected(s).(world := CreatedTunnel(s).0), w', created);
    }
  }

  /**
   * A completed pass is a fixed point: a second pass over the cluster and
   * account it left completes too and changes nothing, provided the
   * credentials Secret is not the Secret the pass writes (it is named after
   * the resource) and either no tunnel id was recorded in the status or no
   * tunnel was created.
   */
  lemma {:induction false} PassIdempotent(s: State, req: NamespacedName)
    requires WellKinded(s.world.objects)
    requires Reconcile(s, req).outcome == Done
    requires ResourceKey(req) in s.world.objects
    requires Resource(s, req).body.spec.tokenSecretName != Resource(s, req).name
    requires Resource(s, req).body.status.tunnelID == "" || Reconcile(s, req).state.world.tunnels == s.world.tunnels
    ensures WellKinded(Reconcile(s, req).state.world.objects)
    ensures Reconcile(Reconcile(s, req).state, req) == Reconcile(s, req)
  {
    var p := Reconcile(s, req);
    var cr := Resource(s, req);
    var s0 := State(s.world, Expand(cr));
    assert p == ReconcileFrom(s0, cr);
    RestOfPassIdempotent(s0, cr);
    var q := p.state;
    ResourceStillReadable(s.world, q.world, req, s0.r.name, s0.r.namespace);
    assert Reconcile(q, req) == ReconcileFrom(s0.(world := q.world), cr);
  }

  /** Objects of other kinds than those written, such as the resource itself, read the same afterwards. */
  lemma ResourceStillReadable(w: World, w': World, req: NamespacedName, name: string, namespace: string)
    requires SameAccount(w, w') && WritesOnly(w.objects, w'.objects, OwnedKeys(name, namespace))
    ensures GetObject(w', ResourceKey(req)) == GetObject(w, ResourceKey(req))
  {
  }

  /** The same, for the pass once the resource is read. */
  lemma {:induction false} RestOfPassIdempotent(s: State, cr: Obj)
    requires WellKinded(s.world.objects) && ReconcileFrom(s, cr).outcome == Done
    requires s.r.name == cr.name && s.r.spec.tokenSecretName != s.r.name
    requires s.r.tunnelID == "" || ReconcileFrom(s, cr).state.world.tunnels == s.world.tunnels
    ensures var q := ReconcileFrom(s, cr).state;
            && WellKinded(q.world.objects)
            && SameAccount(s.world, q.world)
            && WritesOnly(s.world.objects, q.world.objects, OwnedKeys(s.r.name, s.r.namespace))
            && ReconcileFrom(s.(world := q.world), cr) == ReconcileFrom(s, cr)
  {
    var c := FetchDecodeSecret(s);
    FromTunnelSettled(c.state, cr);
    var q := FromTunnel(c.state, cr).state;
    CredentialsNotOwned(s, q.world);
    CredentialsReplay(s, q.world);
  }

  /** The credentials Secret is not among the objects a pass writes, unless it is named after the resource. */
  lemma CredentialsNotOwned(s: State, w': World)
    requires s.r.spec.tokenSecretName != s.r.name
    requires SameAccount(s.world, w') && WritesOnly(s.world.objects, w'.objects, OwnedKeys(s.r.name, s.r.namespace))
    ensures GetObject(w', StepProperties.CredentialKey(s)) == GetObject(s.world, StepProperties.CredentialKey(s))
  {
    assert StepProperties.CredentialKey(s) !in OwnedKeys(s.r.name, s.r.namespace);
  }

  /** The same, from the tunnel step on. */
  lemma {:induction false} FromTunnelSettled(s: State, cr: Obj)
    requires WellKinded(s.world.objects) && FromTunnel(s, cr).outcome == Done && s.r.name == cr.name
    requires s.r.tunnelID == "" || FromTunnel(s, cr).state.world.tunnels == s.world.tunnels
    ensures var q := FromTunnel(s, cr).state;
            && WellKinded(q.world.objects)
            && SameAccount(s.world, q.world)
            && WritesOnly(s.world.objects, q.world.objects, OwnedKeys(s.r.name, s.r.namespace))
            && FromTunnel(s.(world := q.world), cr) == FromTunnel(s, cr)
  {
    var t := CreateTunnelRemote(s);
    FromSecretSettled(t.state, cr);
    var q := FromSecret(t.state, cr).state;
    TunnelStepReplays(s, q.world);
  }
}
