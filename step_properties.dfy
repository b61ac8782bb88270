/**
 * What each step of a reconcile pass promises, stated over the step
 * functions of `Pipeline`.
 */
module StepProperties {
  import opened Wrappers
  import opened Kube
  import opened Cloudflare
  import opened Environment
  import opened Pipeline
  import Base64
  import Target
  import Decimal

  /** The Secret `fetchDecodeSecret` reads. */
  function CredentialKey(s: State): Key
  {
    Key(SecretKind, s.r.spec.tokenSecretName, s.r.namespace)
  }

  // ----- Credential extraction -----

  /** Without a secret name the step fails before looking anything up, whatever the cluster holds. */
  lemma CredentialsNeedSecretName(s: State)
    requires s.r.spec.tokenSecretName == ""
    ensures FetchDecodeSecret(s) == Step(s, Err(SecretNameMissing))
  {
  }

  /**
   * The step succeeds exactly when the named Secret can be read and holds both
   * keys, and then the account tag and token are the raw bytes under
   * `accountID` and `token`.
   */
  lemma CredentialsAreRawKeys(s: State)
    ensures var out := FetchDecodeSecret(s);
            var got := GetObject(s.world, CredentialKey(s));
            && (out.result.Ok? <==>
                  s.r.spec.tokenSecretName != "" && got.Ok?
                  && "token" in SecretDataOf(got.value.body) && "accountID" in SecretDataOf(got.value.body))
            && (out.result.Ok? ==>
                  && out.state.r.accountTag == AsString(SecretDataOf(got.value.body)["accountID"])
                  && out.state.r.accountToken == AsString(SecretDataOf(got.value.body)["token"]))
  {
  }

  /** A Secret missing `token` is reported as such, whether or not `accountID` is there. */
  lemma MissingTokenReportedFirst(s: State)
    requires s.r.spec.tokenSecretName != ""
    requires GetObject(s.world, CredentialKey(s)).Ok?
    requires "token" !in SecretDataOf(GetObject(s.world, CredentialKey(s)).value.body)
    ensures FetchDecodeSecret(s) == Step(s, Err(InvalidKey("token")))
  {
  }

  /**
   * The credentials read sees only faults on the credentials Secret itself:
   * a failing lookup of any other object, such as the connector Secret the
   * later step writes, leaves its outcome as it was.
   */
  lemma CredentialsIgnoreOtherLookups(s: State, k: Key)
    requires k != CredentialKey(s)
    ensures var s' := s.(world := s.world.(faults := s.world.faults + {ClusterFault(GetOp, k)}));
            && FetchDecodeSecret(s').result == FetchDecodeSecret(s).result
            && FetchDecodeSecret(s').state.r == FetchDecodeSecret(s).state.r
  {
    var s' := s.(world := s.world.(faults := s.world.faults + {ClusterFault(GetOp, k)}));
    assert GetObject(s'.world, CredentialKey(s)) == GetObject(s.world, CredentialKey(s));
  }

  // ----- Tunnel selection -----

  /** The account answers the list query; nothing before it failed. */
  predicate Listable(s: State)
  {
    CloudflareFault(NewClientCall) !in s.world.faults && CloudflareFault(ListTunnelsCall) !in s.world.faults
  }

  /** Two or more live tunnels matching the query: an error, and the account is left as it was. */
  lemma AmbiguousTunnelsRefused(s: State)
    requires Listable(s)
    requires |Candidates(s)| >= 2
    ensures CreateTunnelRemote(s).result == Err(MultipleTunnels)
    ensures CreateTunnelRemote(s).state.world == s.world
  {
  }

  /** The same state with another random source, which may also fail. */
  function WithRandom(s: State, random: Entropy, readFails: bool): State
  {
    s.(world := s.world.(entropy := random,
                         faults := if readFails then s.world.faults + {RandomReadFault}
                                   else s.world.faults - {RandomReadFault}))
  }

  /**
   * Exactly one matching tunnel is reused: no tunnel is created, its id is
   * recorded, and no secret is generated (the random source has no effect).
   */
  lemma SingleTunnelReused(s: State, random: Entropy, readFails: bool)
    requires Listable(s)
    requires |Candidates(s)| == 1
    ensures CreateTunnelRemote(s).state.world == s.world
    ensures CreateTunnelRemote(s).state.r.tunnelID == Candidates(s)[0].id
    ensures var other := CreateTunnelRemote(WithRandom(s, random, readFails));
            other.result == CreateTunnelRemote(s).result && other.state.r == CreateTunnelRemote(s).state.r
  {
    var s' := WithRandom(s, random, readFails);
    assert Candidates(s') == Candidates(s);
    assert Listable(s');
  }

  /**
   * No matching tunnel: exactly one tunnel is created, live, named after the
   * resource, with the base64 text of the 32 random bytes as its secret, and
   * its id is recorded, whether or not fetching its token then succeeds.
   */
  lemma AbsentTunnelCreatedOnce(s: State)
    requires Listable(s)
    requires RandomReadFault !in s.world.faults && CloudflareFault(CreateTunnelCall) !in s.world.faults
    requires Candidates(s) == []
    ensures var out := CreateTunnelRemote(s);
            var t := out.state.world.tunnels[|s.world.tunnels|];
            && out.state.world.tunnels == s.world.tunnels + [t]
            && t.name == s.r.name && !t.deleted && out.state.r.tunnelID == t.id
            && Base64.Decode(t.secret) == Some(s.world.entropy)
  {
    var out := CreateTunnelRemote(s);
    var (w, t) := CreatedTunnel(s);
    assert out.state.world == w;
  }

  /**
   * After a successful selection the recorded id is that of a live tunnel of
   * this name in the account, and the tunnel secret is the base64 decoding of
   * that tunnel's connector token.
   */
  lemma SelectedTunnelSecret(s: State)
    requires CreateTunnelRemote(s).result.Ok?
    ensures var out := CreateTunnelRemote(s);
            && (exists t :: t in out.state.world.tunnels && t.id == out.state.r.tunnelID && t.name == s.r.name && !t.deleted)
            && out.state.r.tunnelID in s.world.tokens
            && Base64.Decode(s.world.tokens[out.state.r.tunnelID]).Some?
            && out.state.r.tunnelSecret == AsString(Base64.Decode(s.world.tokens[out.state.r.tunnelID]).value)
  {
    var out := CreateTunnelRemote(s);
    var s1 := Connected(s);
    var ts := MatchingTunnels(s1.world.tunnels, ListParams(s1.r.name, s1.r.tunnelID));
    if |ts| == 1 {
      assert ts[0] in ts;
      assert ts[0] in out.state.world.tunnels;
    } else {
      var (w, t) := CreatedTunnel(s);
      assert t in w.tunnels;
    }
  }

  /** With one matching tunnel, selection is the connector-secret fetch for that tunnel. */
  lemma ReusePath(s: State)
    requires Listable(s)
    requires |Candidates(s)| == 1
    ensures CreateTunnelRemote(s) == FetchConnectorSecret(Connected(s), Candidates(s)[0])
  {
  }

  /**
   * With no matching tunnel, a successful selection generated a secret,
   * created the tunnel and fetched that tunnel's connector secret.
   */
  lemma CreatePath(s: State)
    requires Candidates(s) == []
    requires CreateTunnelRemote(s).result.Ok?
    ensures Listable(s)
    ensures RandomReadFault !in s.world.faults && CloudflareFault(CreateTunnelCall) !in s.world.faults
    ensures CreateTunnelRemote(s) == FetchConnectorSecret(Connected(s).(world := CreatedTunnel(s).0), CreatedTunnel(s).1)
  {
  }

  /**
   * Two selections in a row on an account with no tunnel of this name (and
   * no id recorded) create one tunnel in all: the second reuses the first's.
   */
  lemma TunnelCreationIdempotent(s: State)
    requires s.r.tunnelID == ""
    requires Candidates(s) == []
    requires CreateTunnelRemote(s).result.Ok?
    ensures var first := CreateTunnelRemote(s);
            var second := CreateTunnelRemote(first.state);
            && |first.state.world.tunnels| == |s.world.tunnels| + 1
            && second.state.world == first.state.world
            && second.result.Ok?
            && second.state.r.tunnelID == first.state.r.tunnelID
  {
    var first := CreateTunnelRemote(s);
    CreatePath(s);
    var w := CreatedTunnel(s).0;
    var t := CreatedTunnel(s).1;
    var s2 := first.state;
    assert s2.world == w && s2.r.tunnelID == t.id;
    CreatedTunnelFoundNext(s, s2);
    ReusePath(s2);
  }

  /** After a tunnel is created with no id recorded, the next query, narrowed to its id, finds just it. */
  lemma CreatedTunnelFoundNext(s: State, next: State)
    requires s.r.tunnelID == ""
    requires Candidates(s) == []
    requires next.world.tunnels == CreatedTunnel(s).0.tunnels
    requires next.r.name == s.r.name && next.r.tunnelID == CreatedTunnel(s).1.id
    ensures Candidates(next) == [CreatedTunnel(s).1]
  {
    var t := CreatedTunnel(s).1;
    var p1 := ListParams(s.r.name, "");
    var p2 := ListParams(s.r.name, t.id);
    MatchingAppend(s.world.tunnels, t, p2);
    assert t.id != "" by { assert t.id[0] == 't'; }
    assert Matches(t, p2);
    NoMatchingTunnels(s.world.tunnels, p1);
    NoMatchingTunnels(s.world.tunnels, p2);
    assert next.r.tunnelID != "";
    assert Candidates(next) == MatchingTunnels(s.world.tunnels + [t], p2);
  }

  /**
   * The recorded id is reset from the resource's status on every pass and
   * never written back; when it names no live tunnel of this name, a pass
   * creates a tunnel and the next pass, starting from the same fields, finds
   * none again and creates another.
   */
  lemma StaleRecordedIDCreatesAgain(s: State)
    requires Listable(s)
    requires RandomReadFault !in s.world.faults && CloudflareFault(CreateTunnelCall) !in s.world.faults
    requires s.r.tunnelID != "" && s.r.tunnelID != MintID(|s.world.tunnels|)
    requires Candidates(s) == []
    ensures var next := State(CreateTunnelRemote(s).state.world, s.r);
            && |next.world.tunnels| == |s.world.tunnels| + 1
            && Candidates(next) == []
  {
    var (w, t) := CreatedTunnel(s);
    assert CreateTunnelRemote(s).state.world == w;
    MatchingAppend(s.world.tunnels, t, ListParams(s.r.name, s.r.tunnelID));
  }

  // ----- Create-or-update -----

  /** The key the step reads and writes, for an object built in the resource's namespace. */
  function ObjectKey(kind: Kind, desired: Obj): Key
  {
    Key(kind, desired.name, desired.namespace)
  }

  /** When the controller reference cannot be set, nothing is read or written. */
  lemma OwnerReferenceFailureWritesNothing(s: State, kind: Kind, desired: Obj, cr: Obj)
    requires OwnerReferenceFault in s.world.faults
    ensures CreateOrUpdate(s, kind, desired, cr) == Step(s, Err(OwnerReferenceFailed))
  {
  }

  /** A present object is replaced whole by the desired one, owner reference set, and that is returned. */
  lemma PresentObjectReplaced(s: State, kind: Kind, desired: Obj, cr: Obj)
    requires desired.namespace == s.r.namespace
    requires OwnerReferenceFault !in s.world.faults
    requires ClusterFault(GetOp, ObjectKey(kind, desired)) !in s.world.faults && ClusterFault(UpdateOp, ObjectKey(kind, desired)) !in s.world.faults
    requires ObjectKey(kind, desired) in s.world.objects
    ensures var out := CreateOrUpdate(s, kind, desired, cr);
            && out.result == Ok(WithController(desired, cr))
            && out.state.world.objects == s.world.objects[ObjectKey(kind, desired) := WithController(desired, cr)]
  {
  }

  /**
   * An absent object is created, owner reference set, and the not-found
   * error of the lookup is still returned, with no object.
   */
  lemma AbsentObjectCreatedButReported(s: State, kind: Kind, desired: Obj, cr: Obj)
    requires desired.namespace == s.r.namespace
    requires OwnerReferenceFault !in s.world.faults
    requires ClusterFault(GetOp, ObjectKey(kind, desired)) !in s.world.faults && ClusterFault(CreateOp, ObjectKey(kind, desired)) !in s.world.faults
    requires ObjectKey(kind, desired) !in s.world.objects
    ensures var out := CreateOrUpdate(s, kind, desired, cr);
            && out.result == Err(NotFound(ObjectKey(kind, desired)))
            && out.state.world.objects == s.world.objects[ObjectKey(kind, desired) := WithController(desired, cr)]
  {
  }

  /** A lookup that fails other than with not-found ends the step with nothing written. */
  lemma LookupFailureWritesNothing(s: State, kind: Kind, desired: Obj, cr: Obj)
    requires OwnerReferenceFault !in s.world.faults
    requires ClusterFault(GetOp, Key(kind, desired.name, s.r.namespace)) in s.world.faults
    ensures CreateOrUpdate(s, kind, desired, cr).state == s
    ensures CreateOrUpdate(s, kind, desired, cr).result.Err?
  {
  }

  /** A successful step found the object, could stamp and update it, and left it equal to the desired one. */
  lemma CreateOrUpdateOk(s: State, kind: Kind, desired: Obj, cr: Obj)
    requires desired.namespace == s.r.namespace
    requires CreateOrUpdate(s, kind, desired, cr).result.Ok?
    ensures OwnerReferenceFault !in s.world.faults
    ensures ClusterFault(GetOp, ObjectKey(kind, desired)) !in s.world.faults && ClusterFault(UpdateOp, ObjectKey(kind, desired)) !in s.world.faults
    ensures ObjectKey(kind, desired) in s.world.objects
    ensures CreateOrUpdate(s, kind, desired, cr).state.world.objects[ObjectKey(kind, desired)] == WithController(desired, cr)
  {
  }

  // ----- Target URL -----

  /** A missing target Service is an error. */
  lemma MissingServiceFails(s: State)
    requires WellKinded(s.world.objects)
    requires ServiceKey(s.r) !in s.world.objects
    ensures GetTargetURL(s).Err?
  {
  }

  /**
   * The Service's ports play no part: a Service that does not expose the
   * spec's port gives the same URL as one that does, and never an error.
   */
  lemma ServicePortsIgnored(s: State, ports: seq<ServicePort>)
    requires WellKinded(s.world.objects)
    requires ClusterFault(GetOp, ServiceKey(s.r)) !in s.world.faults
    requires ServiceKey(s.r) in s.world.objects
    ensures var key := ServiceKey(s.r);
            var svc := s.world.objects[key];
            var s' := s.(world := s.world.(objects := s.world.objects[key := svc.(body := svc.body.(ports := ports))]));
            WellKinded(s'.world.objects) && GetTargetURL(s') == GetTargetURL(s)
    ensures s.world.objects[ServiceKey(s.r)].body.serviceType != LoadBalancer ==> GetTargetURL(s).Ok?
  {
  }

  /** Whenever a URL is produced, its port is the spec's port. */
  lemma TargetURLPortFromSpec(s: State)
    requires WellKinded(s.world.objects)
    requires GetTargetURL(s).Ok?
    ensures Target.PortOf(GetTargetURL(s).value) == Some(s.r.spec.service.port as int)
  {
    var svc := s.world.objects[ServiceKey(s.r)].body;
    Target.TargetURLPort(s.r.spec.service, svc.serviceType, svc.ingress);
  }

  /** Service `web` in `default`, port 80, http, ClusterIP. */
  lemma ClusterIPExample()
    ensures Target.TargetURL(ServiceRef("web", "default", 80, "http"), ClusterIP, [])
            == Ok("http://web.default:80")
  {
    assert Decimal.Digits(80) == Decimal.Digits(8) + ['0'];
    assert Decimal.Itoa(80) == "80";
    assert "http" + "://" + "web" + "." + "default" + ":" + "80" == "http://web.default:80";
  }

  /** A LoadBalancer Service with ingress IP 10.0.0.5, port 8080, https. */
  lemma LoadBalancerExample()
    ensures Target.TargetURL(ServiceRef("web", "default", 8080, "https"), LoadBalancer,
                             [LoadBalancerIngress("10.0.0.5", "")])
            == Ok("https://10.0.0.5:8080")
  {
    assert Decimal.Digits(8080) == Decimal.Digits(808) + ['0'];
    assert Decimal.Digits(808) == Decimal.Digits(80) + ['8'];
    assert Decimal.Digits(80) == Decimal.Digits(8) + ['0'];
    assert Decimal.Itoa(8080) == "8080";
    assert "https" + "://" + "10.0.0.5" + ":" + "8080" == "https://10.0.0.5:8080";
  }

  // ----- DNS record -----

  /** Whether the zone's records hold a CNAME named after the domain. */
  predicate HasCname(w: World, zoneID: string, domain: string)
  {
    exists d :: d in ZoneRecords(w, zoneID) && d.recordType == CNAME && d.name == domain
  }

  /** A failed zone lookup or record listing is an error with nothing written. */
  lemma DnsLookupFailureWritesNothing(s: State)
    requires s.r.api.Some?
    requires ZoneIDByName(s.world, s.r.spec.zone).Err? || CloudflareFault(DNSRecordsCall) in s.world.faults
    ensures CreateDNSCNAME(s).state == s && CreateDNSCNAME(s).result.Err?
  {
  }

  /** An existing CNAME for the domain, whatever it points at, satisfies the step: nothing is written. */
  lemma ExistingCnameLeftAlone(s: State)
    requires s.r.api.Some?
    requires ZoneIDByName(s.world, s.r.spec.zone).Ok? && CloudflareFault(DNSRecordsCall) !in s.world.faults
    requires HasCname(s.world, s.world.zones[s.r.spec.zone], s.r.spec.domain)
    ensures CreateDNSCNAME(s) == Step(s, Ok(()))
  {
    var zoneID := s.world.zones[s.r.spec.zone];
    var d :| d in ZoneRecords(s.world, zoneID) && d.recordType == CNAME && d.name == s.r.spec.domain;
    assert d in MatchingRecords(ZoneRecords(s.world, zoneID), CNAME, s.r.spec.domain);
  }

  /** Without one, exactly one CNAME is created: the domain, pointing at `<tunnel id>.cfargotunnel.com`, TTL 0. */
  lemma AbsentCnameCreated(s: State)
    requires s.r.api.Some?
    requires ZoneIDByName(s.world, s.r.spec.zone).Ok?
    requires CloudflareFault(DNSRecordsCall) !in s.world.faults && CloudflareFault(CreateDNSRecordCall) !in s.world.faults
    requires !HasCname(s.world, s.world.zones[s.r.spec.zone], s.r.spec.domain)
    ensures var zoneID := s.world.zones[s.r.spec.zone];
            CreateDNSCNAME(s) == Step(s.(world := s.world.(records := s.world.records[zoneID :=
              ZoneRecords(s.world, zoneID) + [DnsRecord(CNAME, s.r.spec.domain, s.r.tunnelID + CNAME_SUFFIX, 0)]])), Ok(()))
  {
    NoMatchingRecords(ZoneRecords(s.world, s.world.zones[s.r.spec.zone]), CNAME, s.r.spec.domain);
  }

  /** After a successful DNS step, running it again writes nothing. */
  lemma DnsStepIdempotent(s: State)
    requires s.r.api.Some?
    requires CreateDNSCNAME(s).result.Ok?
    ensures var first := CreateDNSCNAME(s);
            CreateDNSCNAME(first.state) == Step(first.state, Ok(()))
  {
    var first := CreateDNSCNAME(s);
    var zoneID := s.world.zones[s.r.spec.zone];
    if !HasCname(s.world, zoneID, s.r.spec.domain) {
      NoMatchingRecords(ZoneRecords(s.world, zoneID), CNAME, s.r.spec.domain);
      assert CloudflareFault(CreateDNSRecordCall) !in s.world.faults;
      AbsentCnameCreated(s);
      var d := DnsRecord(CNAME, s.r.spec.domain, s.r.tunnelID + CNAME_SUFFIX, 0);
      assert d in ZoneRecords(first.state.world, zoneID);
    } else {
      ExistingCnameLeftAlone(s);
    }
    ExistingCnameLeftAlone(first.state);
  }
}
