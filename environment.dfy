/**
 * Everything outside the reconciler: the objects stored in the cluster, the
 * Cloudflare account, and which external calls fail. Each client call of the
 * controller is a function here; a call fails when the world says so, which
 * stands for network, permission and rate-limit errors alike.
 */
module Environment {
  import opened Wrappers
  import opened Kube
  import opened Cloudflare

  datatype ClusterOp = GetOp | CreateOp | UpdateOp

  datatype CloudflareCall =
    | NewClientCall
    | ListTunnelsCall
    | CreateTunnelCall
    | TunnelTokenCall
    | ZoneIDByNameCall
    | DNSRecordsCall
    | CreateDNSRecordCall

  /**
   * An external call that fails for reasons this model does not look into. A
   * cluster call fails for one operation on one object, so a failing read of
   * one Secret leaves reads of other Secrets unaffected.
   */
  datatype Fault =
    | ClusterFault(op: ClusterOp, key: Key)
    | CloudflareFault(call: CloudflareCall)
    | RandomReadFault
    | OwnerReferenceFault
    | ConfigMapRenderFault

  datatype Error =
    | NotFound(key: Key)
    | AlreadyExists(key: Key)
    | ClusterFailure(op: ClusterOp, key: Key)
    | CloudflareFailure(call: CloudflareCall)
    | SecretNameMissing
    | InvalidKey(missing: string)
    | MultipleTunnels
    | RandomReadFailed
    | TokenDecodeFailed
    | OwnerReferenceFailed
    | ConfigMapRenderFailed
    | IngressIndexOutOfRange

  /**
   * The cluster's objects; the account's tunnels, the connector token of each
   * tunnel id, the id of each zone and the DNS records of each zone id; the
   * calls that fail; and the bytes the random source yields.
   */
  datatype World = World(
    objects: map<Key, Obj>,
    tunnels: seq<Tunnel>,
    tokens: map<string, string>,
    zones: map<string, string>,
    records: map<string, seq<DnsRecord>>,
    faults: set<Fault>,
    entropy: Entropy)

  /** `client.Get`: the object under the key, or NotFound. */
  function GetObject(w: World, key: Key): (r: Result<Obj, Error>)
    ensures r.Ok? <==> ClusterFault(GetOp, key) !in w.faults && key in w.objects
    ensures r.Ok? ==> r.value == w.objects[key]
    ensures r.Err? && r.error.NotFound? <==> ClusterFault(GetOp, key) !in w.faults && key !in w.objects
  {
    if ClusterFault(GetOp, key) in w.faults then Err(ClusterFailure(GetOp, key))
    else if key !in w.objects then Err(NotFound(key))
    else Ok(w.objects[key])
  }

  /** `client.Create`: stores the object under its own name and namespace, unless one is there. */
  function CreateObject(w: World, kind: Kind, o: Obj): (r: Result<World, Error>)
    ensures r.Ok? ==> r.value == w.(objects := w.objects[Key(kind, o.name, o.namespace) := o])
  {
    var key := Key(kind, o.name, o.namespace);
    if ClusterFault(CreateOp, key) in w.faults then Err(ClusterFailure(CreateOp, key))
    else if key in w.objects then Err(AlreadyExists(key))
    else Ok(w.(objects := w.objects[key := o]))
  }

  /** `client.Update`: replaces the stored object whole, if there is one. */
  function UpdateObject(w: World, kind: Kind, o: Obj): (r: Result<World, Error>)
    ensures r.Ok? ==> r.value == w.(objects := w.objects[Key(kind, o.name, o.namespace) := o])
  {
    var key := Key(kind, o.name, o.namespace);
    if ClusterFault(UpdateOp, key) in w.faults then Err(ClusterFailure(UpdateOp, key))
    else if key !in w.objects then Err(NotFound(key))
    else Ok(w.(objects := w.objects[key := o]))
  }

  /** `cf.Tunnels`. */
  function ListTunnels(w: World, p: TunnelListParams): (r: Result<seq<Tunnel>, Error>)
    ensures r.Ok? <==> CloudflareFault(ListTunnelsCall) !in w.faults
  {
    if CloudflareFault(ListTunnelsCall) in w.faults then Err(CloudflareFailure(ListTunnelsCall))
    else Ok(MatchingTunnels(w.tunnels, p))
  }

  /** A successful list holds exactly the account's tunnels that match the query. */
  lemma ListedTunnels(w: World, p: TunnelListParams)
    ensures ListTunnels(w, p).Ok? ==>
              forall t :: t in ListTunnels(w, p).value <==> t in w.tunnels && Matches(t, p)
  {
  }

  /** `cf.CreateTunnel`: a new, live tunnel with the given name and secret, appended to the account. */
  function CreateTunnel(w: World, name: string, secret: string): (r: Result<(World, Tunnel), Error>)
    ensures r.Ok? <==> CloudflareFault(CreateTunnelCall) !in w.faults
    ensures r.Ok? ==> var (w', t) := r.value;
                      && t.name == name && !t.deleted && t.secret == secret && t.id == MintID(|w.tunnels|)
                      && w'.tunnels == w.tunnels + [t] && w' == w.(tunnels := w'.tunnels)
  {
    if CloudflareFault(CreateTunnelCall) in w.faults then Err(CloudflareFailure(CreateTunnelCall))
    else
      var t := Tunnel(MintID(|w.tunnels|), name, false, secret);
      Ok((w.(tunnels := w.tunnels + [t]), t))
  }

  /** `cf.TunnelToken`: the connector token of a tunnel. */
  function TunnelToken(w: World, id: string): (r: Result<string, Error>)
    ensures r.Ok? <==> CloudflareFault(TunnelTokenCall) !in w.faults && id in w.tokens
    ensures r.Ok? ==> r.value == w.tokens[id]
  {
    if CloudflareFault(TunnelTokenCall) in w.faults || id !in w.tokens then Err(CloudflareFailure(TunnelTokenCall))
    else Ok(w.tokens[id])
  }

  /** `ZoneIDByName`. */
  function ZoneIDByName(w: World, zone: string): (r: Result<string, Error>)
    ensures r.Ok? <==> CloudflareFault(ZoneIDByNameCall) !in w.faults && zone in w.zones
    ensures r.Ok? ==> r.value == w.zones[zone]
  {
    if CloudflareFault(ZoneIDByNameCall) in w.faults || zone !in w.zones then Err(CloudflareFailure(ZoneIDByNameCall))
    else Ok(w.zones[zone])
  }

  /** The records of a zone; a zone with no entry has none. */
  function ZoneRecords(w: World, zoneID: string): seq<DnsRecord>
  {
    if zoneID in w.records then w.records[zoneID] else []
  }

  /** `DNSRecords` filtered by type and name. */
  function DNSRecords(w: World, zoneID: string, recordType: string, name: string): (r: Result<seq<DnsRecord>, Error>)
    ensures r.Ok? <==> CloudflareFault(DNSRecordsCall) !in w.faults
    ensures r.Ok? ==> forall d :: d in r.value <==> d in ZoneRecords(w, zoneID) && d.recordType == recordType && d.name == name
  {
    if CloudflareFault(DNSRecordsCall) in w.faults then Err(CloudflareFailure(DNSRecordsCall))
    else Ok(MatchingRecords(ZoneRecords(w, zoneID), recordType, name))
  }

  /** `CreateDNSRecord`: the record is appended to the zone's records. */
  function CreateDNSRecord(w: World, zoneID: string, rec: DnsRecord): (r: Result<World, Error>)
    ensures r.Ok? <==> CloudflareFault(CreateDNSRecordCall) !in w.faults
    ensures r.Ok? ==> ZoneRecords(r.value, zoneID) == ZoneRecords(w, zoneID) + [rec]
    ensures r.Ok? ==> forall z :: z != zoneID ==> ZoneRecords(r.value, z) == ZoneRecords(w, z)
    ensures r.Ok? ==> r.value == w.(records := r.value.records)
  {
    if CloudflareFault(CreateDNSRecordCall) in w.faults then Err(CloudflareFailure(CreateDNSRecordCall))
    else Ok(w.(records := w.records[zoneID := ZoneRecords(w, zoneID) + [rec]]))
  }
}
