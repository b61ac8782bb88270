/**
 * `getTargetURL` without its client call: the scan of the Service's ports
 * for the spec's port, and the URL of the Service the tunnel forwards to.
 */
module Target {
  import opened Wrappers
  import opened Kube
  import Decimal
  import opened Environment

  /** A zero `corev1.ServicePort`, the value the scan leaves when nothing matches. */
  const ZERO_PORT: ServicePort := ServicePort("", 0)

  /** The position of the first port numbered `want`, or `|ports|` when there is none. */
  function FirstPortIndex(ports: seq<ServicePort>, want: Int32): (i: nat)
    ensures i <= |ports|
    ensures forall j :: 0 <= j < i ==> ports[j].port != want
    ensures i < |ports| ==> ports[i].port == want
    decreases |ports|
  {
    if |ports| == 0 then 0
    else if ports[0].port == want then 0
    else 1 + FirstPortIndex(ports[1..], want)
  }

  /** The loop over `targetService.Spec.Ports`: the first port numbered `want`, else a zero port. */
  method FindServicePort(ports: seq<ServicePort>, want: Int32) returns (port: ServicePort)
    ensures FirstPortIndex(ports, want) < |ports| ==> port == ports[FirstPortIndex(ports, want)]
    ensures FirstPortIndex(ports, want) == |ports| ==> port == ZERO_PORT
  {
    port := ZERO_PORT;
    var i := 0;
    while i < |ports|
      invariant i <= |ports|
      invariant forall j :: 0 <= j < i ==> ports[j].port != want
      invariant port == ZERO_PORT
    {
      if ports[i].port == want {
        port := ports[i];
        break;
      }
      i := i + 1;
    }
  }

  /**
   * The URL built at the end of `getTargetURL`: the first load-balancer
   * ingress IP for a LoadBalancer Service, `name.namespace` otherwise; the
   * port always that of the spec. An empty ingress list is where the Go code
   * indexes out of range.
   */
  function TargetURL(ref: ServiceRef, serviceType: ServiceType, ingress: seq<LoadBalancerIngress>): (r: Result<string, Error>)
    ensures r.Err? <==> serviceType == LoadBalancer && |ingress| == 0
    ensures r.Err? ==> r.error == IngressIndexOutOfRange
  {
    var port := Decimal.Itoa(ref.port);
    var url :=
      if serviceType == LoadBalancer then
        if |ingress| == 0 then None
        else Some(ref.protocol + "://" + ingress[0].ip)
      else Some(ref.protocol + "://" + ref.name + "." + ref.namespace);
    match url
    case None => Err(IngressIndexOutOfRange)
    case Some(hostPart) => Ok(hostPart + ":" + port)
  }

  /** The URL ends in the spec's port, whichever host it names. */
  lemma TargetURLPort(ref: ServiceRef, serviceType: ServiceType, ingress: seq<LoadBalancerIngress>)
    requires TargetURL(ref, serviceType, ingress).Ok?
    ensures PortOf(TargetURL(ref, serviceType, ingress).value) == Some(ref.port as int)
  {
    var port := Decimal.Itoa(ref.port);
    var hostPart :=
      if serviceType == LoadBalancer then ref.protocol + "://" + ingress[0].ip
      else ref.protocol + "://" + ref.name + "." + ref.namespace;
    assert TargetURL(ref, serviceType, ingress).value == hostPart + ":" + port;
    AfterLastColonOf(hostPart, port);
    Decimal.ItoaRoundTrip(ref.port);
  }

  /**
   * The text before the port, whichever host it names: the protocol, then the
   * first ingress IP of a LoadBalancer or `name.namespace` of any other Service.
   */
  lemma TargetURLHost(ref: ServiceRef, serviceType: ServiceType, ingress: seq<LoadBalancerIngress>)
    requires TargetURL(ref, serviceType, ingress).Ok?
    ensures serviceType == LoadBalancer ==>
              BeforeLastColon(TargetURL(ref, serviceType, ingress).value) == ref.protocol + "://" + ingress[0].ip
    ensures serviceType != LoadBalancer ==>
              BeforeLastColon(TargetURL(ref, serviceType, ingress).value) == ref.protocol + "://" + ref.name + "." + ref.namespace
  {
    var port := Decimal.Itoa(ref.port);
    var hostPart :=
      if serviceType == LoadBalancer then ref.protocol + "://" + ingress[0].ip
      else ref.protocol + "://" + ref.name + "." + ref.namespace;
    assert TargetURL(ref, serviceType, ingress).value == hostPart + ":" + port;
    BeforeLastColonOf(hostPart, port);
  }

  /** The text after the last ':' of a string, or all of it when there is none. */
  function AfterLastColon(s: string): (r: string)
    decreases |s|
  {
    if s == [] then []
    else if s[|s| - 1] == ':' then []
    else AfterLastColon(s[..|s| - 1]) + [s[|s| - 1]]
  }

  /** The port a URL ends with. */
  function PortOf(url: string): Option<int>
  {
    Decimal.ParseInt(AfterLastColon(url))
  }

  lemma {:induction false} AfterLastColonOf(prefix: string, suffix: string)
    requires forall i :: 0 <= i < |suffix| ==> suffix[i] != ':'
    ensures AfterLastColon(prefix + ":" + suffix) == suffix
    decreases |suffix|
  {
    var s := prefix + ":" + suffix;
    if suffix != [] {
      var init := suffix[..|suffix| - 1];
      assert s[..|s| - 1] == prefix + ":" + init;
      AfterLastColonOf(prefix, init);
      assert suffix == init + [suffix[|suffix| - 1]];
    }
  }

  /** The text before the last ':' of a string, or nothing when there is none. */
  function BeforeLastColon(s: string): (r: string)
    decreases |s|
  {
    if s == [] then []
    else if s[|s| - 1] == ':' then s[..|s| - 1]
    else BeforeLastColon(s[..|s| - 1])
  }

  lemma {:induction false} BeforeLastColonOf(prefix: string, suffix: string)
    requires forall i :: 0 <= i < |suffix| ==> suffix[i] != ':'
    ensures BeforeLastColon(prefix + ":" + suffix) == prefix
    decreases |suffix|
  {
    var s := prefix + ":" + suffix;
    if suffix == [] {
      assert s[..|s| - 1] == prefix;
    } else {
      var init := suffix[..|suffix| - 1];
      assert s[..|s| - 1] == prefix + ":" + init;
      BeforeLastColonOf(prefix, init);
    }
  }
}
