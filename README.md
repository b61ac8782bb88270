# CloudflareTunnel reconciler, modelled in Dafny

This project models one reconcile pass of the `CloudflareTunnelReconciler` of the
cloudflare-tunnel-operator. A pass reads a `CloudflareTunnel` resource. It then
does the following, stopping at the first error:

1. Reads the account credentials from a Secret.
2. Finds or creates the remote Cloudflare tunnel named after the resource, and
   fetches its connector token.
3. Writes a credentials Secret for the connector.
4. Works out the URL of the target Service.
5. Writes the connector's ConfigMap.
6. Writes the connector's Deployment.
7. Ensures that a CNAME record for the domain points at the tunnel.

The model has three layers:

- **Values** (`Kube`, `Cloudflare`, `Environment`):
  - the cluster's objects, keyed by kind, name and namespace;
  - the Cloudflare account: its tunnels, the connector token of each tunnel,
    its zones and its DNS records;
  - the set of external calls that fail;
  - the 32 bytes the random source yields.

  `Base64` is the standard padded encoding of RFC 4648, section 4, that
  `encoding/base64.StdEncoding` implements. `Decimal` models `strconv.Itoa` and
  reading its output back.
- **The pipeline** (`Pipeline`, `Target`): every step of the Go controller is a
  function from the state before it to the state after it and the step's
  result. The state is the world plus the reconciler's fields: the
  `TunnelExpanded` struct and the SDK handle. `Pipeline.Reconcile` is the whole
  pass. The scan for the Service's port is a method with a loop, as in the Go
  code.
- **The controller** (`Controller.CloudflareTunnelReconciler`): a class with the
  same fields as the Go receiver. Each of its methods assigns those fields step
  by step, in the Go order. Each method is proved to leave exactly the state,
  and return exactly the result, of the matching pipeline function.

Properties of the steps are proved in `StepProperties`, and properties of whole
passes in `PassProperties`.

The model follows the code as written, including behaviour the code's own
comments do not lead a reader to expect:

- When the Secret, ConfigMap or Deployment is absent, the create-or-update step
  creates it and still returns the not-found error of the lookup. A pass over a
  fresh resource therefore stops after creating the Secret, and the later
  objects come one pass at a time (`PassProperties.FirstCreationEndsPass`).
- `getTargetURL` never fails because of the port. Its `&port == nil` test
  compares the address of a local variable with nil, which is never true. A
  Service without the spec's port yields the same URL as one with it
  (`StepProperties.ServicePortsIgnored`).
- The Secret is written before the target URL is worked out
  (`PassProperties.SecretWrittenBeforeTargetURL`).
- The tunnel id is never written back to the resource's status
  (`PassProperties.RecordedIDNeverWrittenBack`). A stale recorded id therefore
  makes every pass create another tunnel
  (`StepProperties.StaleRecordedIDCreatesAgain`).

## Model

| member | source | states |
|---|---|---|
| Base64.Encode | controllers/cloudflaretunnel_controller.go:449 | `EncodeToString` produces 4 characters for every started group of 3 bytes |
| Base64.Decode | controllers/cloudflaretunnel_controller.go:250-254 | `DecodeString` rejects any text whose length is not a multiple of 4 |
| Base64.RoundTrip | controllers/cloudflaretunnel_controller.go:250 | decoding the encoding of any byte string gives back that byte string |
| Base64.BytesOfSextets | controllers/cloudflaretunnel_controller.go:449 | regrouping the 6-bit groups of a byte string gives back the bytes |
| Base64.ValuesOfChars | controllers/cloudflaretunnel_controller.go:250 | reading back the characters written for some 6-bit groups gives back the groups |
| Base64.DecodeEncoded | controllers/cloudflaretunnel_controller.go:250 | decoding the padded text of some groups gives back the bytes they carry |
| Base64.EncodeVectorF | controllers/cloudflaretunnel_controller.go:449 | the encoding of "f" is "Zg==", as in section 10 of RFC 4648 |
| Base64.EncodeVectorFoob | controllers/cloudflaretunnel_controller.go:449 | the encoding of "foob" is "Zm9vYg==", as in section 10 of RFC 4648 |
| Base64.DecodeVectorFoob | controllers/cloudflaretunnel_controller.go:250 | decoding "Zm9vYg==" gives back "foob" |
| Decimal.Digits | controllers/cloudflaretunnel_controller.go:439 | the decimal digits of a number: at least one digit, with a leading zero only for 0 |
| Decimal.Itoa | controllers/cloudflaretunnel_controller.go:439 | `strconv.Itoa` writes '-' exactly for a negative number, and digits after it |
| Decimal.ItoaRoundTrip | controllers/cloudflaretunnel_controller.go:439 | reading back the text `strconv.Itoa` writes gives back the number |
| Decimal.DigitsRoundTrip | controllers/cloudflaretunnel_controller.go:443 | the value of the digits of n is n |
| Cloudflare.ListParams | controllers/cloudflaretunnel_controller.go:193-201 | the list query always asks for live tunnels of the resource's name, and asks for the recorded id exactly when one is recorded |
| Cloudflare.MatchingTunnels | controllers/cloudflaretunnel_controller.go:202 | the list returns exactly the account's tunnels that match the query, and no more of them than the account has |
| Cloudflare.MatchingAppend | controllers/cloudflaretunnel_controller.go:234 | after a tunnel is created, a query sees it last when it matches and sees the same tunnels as before otherwise |
| Cloudflare.NoMatchingTunnels | controllers/cloudflaretunnel_controller.go:219 | the list is empty exactly when no tunnel of the account matches |
| Cloudflare.MatchingRecords | controllers/cloudflaretunnel_controller.go:265-268 | the record query returns exactly the records with that type and name |
| Cloudflare.NoMatchingRecords | controllers/cloudflaretunnel_controller.go:273 | the record list is empty exactly when no record has that type and name |
| Cloudflare.MintIDInjective | controllers/cloudflaretunnel_controller.go:234 | tunnels created at different positions get different ids |
| Cloudflare.SecretTextLength | controllers/cloudflaretunnel_controller.go:447-449 | the text of the 32 random bytes is 44 characters long |
| Cloudflare.GenerateTunnelSecret | controllers/cloudflaretunnel_controller.go:446-450 | the secret is produced exactly when reading the random source succeeds; it is 44 characters long and decodes back to the random bytes |
| Environment.GetObject | controllers/cloudflaretunnel_controller.go:310-320 | a get succeeds exactly when no fault is set for getting that key and the key is stored, and then returns the stored object; it reports not-found exactly when no such fault is set and the key is absent |
| Environment.CreateObject | controllers/cloudflaretunnel_controller.go:314 | a successful create stores the object under its own kind, name and namespace |
| Environment.UpdateObject | controllers/cloudflaretunnel_controller.go:322 | a successful update replaces the object under its own kind, name and namespace |
| Environment.ListTunnels | controllers/cloudflaretunnel_controller.go:202-206 | listing tunnels fails exactly when the call fails |
| Environment.ListedTunnels | controllers/cloudflaretunnel_controller.go:202 | a successful list holds exactly the account's tunnels that match the query |
| Environment.CreateTunnel | controllers/cloudflaretunnel_controller.go:228-238 | creating a tunnel fails exactly when the call fails; otherwise the new tunnel is live, has the given name and secret and the next minted id, is appended to the account's tunnels, and nothing else in the world changes |
| Environment.TunnelToken | controllers/cloudflaretunnel_controller.go:242-249 | fetching a token succeeds exactly when the call does not fail and the tunnel has a token, and returns that token |
| Environment.ZoneIDByName | controllers/cloudflaretunnel_controller.go:260-264 | looking up a zone succeeds exactly when the call does not fail and the zone exists, and returns its id |
| Environment.DNSRecords | controllers/cloudflaretunnel_controller.go:265-272 | listing DNS records fails exactly when the call fails, and otherwise returns exactly the zone's records with that type and name |
| Environment.CreateDNSRecord | controllers/cloudflaretunnel_controller.go:277-286 | creating a record fails exactly when the call fails; otherwise the record is appended to that zone's records, other zones keep theirs, and nothing else in the world changes |
| Kube.AsString | controllers/cloudflaretunnel_controller.go:170-171 | Go's `string(b)` gives one character for each byte, with the byte's value |
| Kube.WithController | controllers/cloudflaretunnel_controller.go:303 | setting the controller reference names the resource as owner and changes nothing else |
| Pipeline.FetchDecodeSecret | controllers/cloudflaretunnel_controller.go:130-173 | the step assigns only the account tag and token, writes nothing, and changes nothing when it fails |
| Pipeline.FetchConnectorSecret | controllers/cloudflaretunnel_controller.go:240-256 | the step records the tunnel's id even when it then fails; it succeeds exactly when the token can be fetched and decodes; the tunnel secret is then the decoded token and is left unchanged otherwise |
| Pipeline.CreateTunnelRemote | controllers/cloudflaretunnel_controller.go:175-257 | the tunnel step writes no object and no DNS record, keeps the spec, name, namespace and credentials, has a session when it succeeds, and at most adds the one tunnel it creates |
| Pipeline.CreatedTunnel | controllers/cloudflaretunnel_controller.go:221-238 | the created tunnel is live, named after the resource, has the next minted id, and carries a secret that decodes back to the random bytes; it is appended to the account's tunnels, and nothing else in the world changes |
| Pipeline.CreateOrUpdate | controllers/cloudflaretunnel_controller.go:303-327 | the shared create-or-update body leaves the world as it was or writes the stamped object at its key; on success it returns the stamped object |
| Pipeline.CreateSecret | controllers/cloudflaretunnel_controller.go:291-328 | writing the Secret keeps every stored object of its own kind; the Secret it returns is owned by the resource and carries the tunnel's id and secret |
| Pipeline.CreateConfigMap | controllers/cloudflaretunnel_controller.go:330-370 | writing the ConfigMap keeps the reconciler's fields and every stored object of its own kind; the ConfigMap it returns is owned by the resource and carries the target URL, the tunnel id and the domain |
| Pipeline.CreateDeployment | controllers/cloudflaretunnel_controller.go:372-410 | writing the Deployment keeps the reconciler's fields and every stored object of its own kind; the Deployment it returns is owned by the resource and runs the spec's replicas of the connector for the tunnel id, mounting the Secret and ConfigMap it was given |
| Pipeline.GetTargetURL | controllers/cloudflaretunnel_controller.go:412-444 | working out the URL fails exactly when the Service cannot be read or is a LoadBalancer with no ingress entry; a failed read is passed on as it is |
| Pipeline.CreateDNSCNAME | controllers/cloudflaretunnel_controller.go:259-289 | the DNS step changes at most the DNS records and none of the reconciler's fields |
| Pipeline.Expand | controllers/cloudflaretunnel_controller.go:78-83 | the fields copy the resource's spec, name, namespace and recorded tunnel id, and start with no session, no credentials and no tunnel secret |
| Pipeline.Reconcile | controllers/cloudflaretunnel_controller.go:65-120 | a pass fails at the resource fetch exactly when the resource cannot be read, and then changes nothing |
| Pipeline.ReconcileFrom | controllers/cloudflaretunnel_controller.go:85-119 | once the resource has been read, a pass never fails at the resource fetch |
| Pipeline.FromTunnel | controllers/cloudflaretunnel_controller.go:89-119 | from the tunnel step on, a pass fails at neither of the two steps before it |
| Pipeline.FromSecret | controllers/cloudflaretunnel_controller.go:94-119 | from the Secret step on, a pass fails only at that step or a later one |
| Pipeline.FromTarget | controllers/cloudflaretunnel_controller.go:100-119 | from the URL step on, a pass fails only at that step or a later one |
| Pipeline.FromConfigMap | controllers/cloudflaretunnel_controller.go:106-119 | from the ConfigMap step on, a pass fails only at that step or a later one |
| Pipeline.FromDeployment | controllers/cloudflaretunnel_controller.go:111-119 | from the Deployment step on, a pass fails only at that step or a later one |
| Pipeline.FromDns | controllers/cloudflaretunnel_controller.go:116-119 | the last step fails only as the DNS step |
| Target.FirstPortIndex | controllers/cloudflaretunnel_controller.go:424-430 | the index of the first port equal to the spec's port, or the number of ports when there is none |
| Target.FindServicePort | controllers/cloudflaretunnel_controller.go:423-430 | the loop finds the first matching port, and leaves the zero port when none matches |
| Target.TargetURL | controllers/cloudflaretunnel_controller.go:437-443 | building the URL fails exactly for a LoadBalancer with no ingress entry, and then with the out-of-range index |
| Target.TargetURLHost | controllers/cloudflaretunnel_controller.go:438-443 | the text before the URL's last colon is the protocol, "://" and the ingress IP for a LoadBalancer, and the Service's name and namespace otherwise |
| Target.BeforeLastColonOf | controllers/cloudflaretunnel_controller.go:439-443 | cutting a text at its last colon gives back what came before a colon followed by a colon-free suffix |
| Target.TargetURLPort | controllers/cloudflaretunnel_controller.go:439-443 | the text after the URL's last colon reads back as the spec's port |
| Target.AfterLastColonOf | controllers/cloudflaretunnel_controller.go:443 | the text after the last colon of `prefix:suffix` is the suffix, when the suffix has no colon |
| Controller.CloudflareTunnelReconciler.constructor | controllers/cloudflaretunnel_controller.go:43-59 | the reconciler's fields hold the given world and receiver |
| Controller.CloudflareTunnelReconciler.FetchDecodeSecret | controllers/cloudflaretunnel_controller.go:130-173 | the method leaves the fields and returns the result of `Pipeline.FetchDecodeSecret`, and leaves the world unchanged |
| Controller.CloudflareTunnelReconciler.CreateTunnelRemote | controllers/cloudflaretunnel_controller.go:175-257 | the method leaves the state and returns the result of `Pipeline.CreateTunnelRemote`, and writes no object |
| Controller.CloudflareTunnelReconciler.FetchConnectorSecret | controllers/cloudflaretunnel_controller.go:240-256 | the method leaves the state and returns the result of `Pipeline.FetchConnectorSecret` |
| Controller.CloudflareTunnelReconciler.CreateOrUpdate | controllers/cloudflaretunnel_controller.go:303-327 | the method leaves the state and returns the result of `Pipeline.CreateOrUpdate` |
| Controller.CloudflareTunnelReconciler.CreateSecret | controllers/cloudflaretunnel_controller.go:291-328 | the method leaves the state and returns the result of `Pipeline.CreateSecret`, and keeps the store well-kinded |
| Controller.CloudflareTunnelReconciler.CreateConfigMap | controllers/cloudflaretunnel_controller.go:330-370 | the method leaves the state and returns the result of `Pipeline.CreateConfigMap`, and keeps the store well-kinded |
| Controller.CloudflareTunnelReconciler.CreateDeployment | controllers/cloudflaretunnel_controller.go:372-410 | the method leaves the state and returns the result of `Pipeline.CreateDeployment`, and keeps the store well-kinded |
| Controller.CloudflareTunnelReconciler.GetTargetURL | controllers/cloudflaretunnel_controller.go:412-444 | the method returns `Pipeline.GetTargetURL`; it fails exactly when the Service cannot be read or is a LoadBalancer with no ingress entry; a URL it returns ends in the spec's port |
| Controller.CloudflareTunnelReconciler.CreateDNSCNAME | controllers/cloudflaretunnel_controller.go:259-289 | the method leaves the state and returns the result of `Pipeline.CreateDNSCNAME` |
| Controller.CloudflareTunnelReconciler.Reconcile | controllers/cloudflaretunnel_controller.go:65-120 | the method leaves the state and returns the outcome of `Pipeline.Reconcile` |
| Controller.CloudflareTunnelReconciler.Load | controllers/cloudflaretunnel_controller.go:78-83 | the fields are set from the resource's spec, name, namespace and recorded id, with no session and empty credentials, and the world is unchanged |
| Controller.CloudflareTunnelReconciler.Connect | controllers/cloudflaretunnel_controller.go:85-119 | the rest of the pass after the fields are set ends as `Pipeline.ReconcileFrom` |
| Controller.CloudflareTunnelReconciler.SyncTunnel | controllers/cloudflaretunnel_controller.go:89-119 | the rest of the pass from the tunnel step on ends as `Pipeline.FromTunnel` |
| Controller.CloudflareTunnelReconciler.SyncConnector | controllers/cloudflaretunnel_controller.go:94-119 | the rest of the pass from the Secret step on ends as `Pipeline.FromSecret` |
| StepProperties.CredentialsNeedSecretName | controllers/cloudflaretunnel_controller.go:133-137 | with no secret name, the credentials step fails at once and changes nothing, whatever the cluster holds |
| StepProperties.CredentialsAreRawKeys | controllers/cloudflaretunnel_controller.go:139-172 | the credentials step succeeds exactly when the named Secret can be read and holds both keys; the tag and token are then the raw bytes under `accountID` and `token` |
| StepProperties.MissingTokenReportedFirst | controllers/cloudflaretunnel_controller.go:157-167 | a Secret without `token` is reported as missing `token`, whether or not `accountID` is there |
| StepProperties.CredentialsIgnoreOtherLookups | controllers/cloudflaretunnel_controller.go:141-150 | the credentials read fails only on its own Secret: a failing lookup of any other object leaves its outcome as it was |
| StepProperties.AmbiguousTunnelsRefused | controllers/cloudflaretunnel_controller.go:211-214 | two or more matching tunnels are an error, and the account is left as it was |
| StepProperties.SingleTunnelReused | controllers/cloudflaretunnel_controller.go:215-218 | exactly one matching tunnel is reused: nothing is created, its id is recorded, and the random source plays no part |
| StepProperties.AbsentTunnelCreatedOnce | controllers/cloudflaretunnel_controller.go:219-240 | with no matching tunnel, exactly one tunnel is created: live, named after the resource, with a secret that decodes to the random bytes; its id is recorded |
| StepProperties.SelectedTunnelSecret | controllers/cloudflaretunnel_controller.go:240-255 | after a successful tunnel step, the recorded id is that of a live tunnel of this name, and the tunnel secret is the decoding of that tunnel's token |
| StepProperties.ReusePath | controllers/cloudflaretunnel_controller.go:215-256 | with one matching tunnel, the step is the token fetch for that tunnel |
| StepProperties.CreatePath | controllers/cloudflaretunnel_controller.go:219-256 | with no matching tunnel, a successful step generated a secret, created the tunnel and fetched that tunnel's token |
| StepProperties.TunnelCreationIdempotent | controllers/cloudflaretunnel_controller.go:193-240 | with no id recorded, two tunnel steps in a row create one tunnel in all, and the second succeeds with the same id |
| StepProperties.CreatedTunnelFoundNext | controllers/cloudflaretunnel_controller.go:199-202 | a query narrowed to a created tunnel's id finds exactly that tunnel |
| StepProperties.StaleRecordedIDCreatesAgain | controllers/cloudflaretunnel_controller.go:78-83 | a recorded id that names no matching tunnel makes a pass create a tunnel, and the next pass, starting from the same fields, finds none again |
| StepProperties.OwnerReferenceFailureWritesNothing | controllers/cloudflaretunnel_controller.go:303-306 | when the controller reference cannot be set, nothing is read or written |
| StepProperties.PresentObjectReplaced | controllers/cloudflaretunnel_controller.go:320-327 | a present object is replaced by the stamped desired one, which is returned |
| StepProperties.AbsentObjectCreatedButReported | controllers/cloudflaretunnel_controller.go:310-319 | an absent object is created with the reference stamped, and the lookup's not-found error is still returned |
| StepProperties.LookupFailureWritesNothing | controllers/cloudflaretunnel_controller.go:310-319 | a lookup that fails for another reason ends the step with an error and nothing written |
| StepProperties.CreateOrUpdateOk | controllers/cloudflaretunnel_controller.go:303-327 | a successful step found the object, could stamp and update it, and leaves it equal to the stamped desired object |
| StepProperties.MissingServiceFails | controllers/cloudflaretunnel_controller.go:415-420 | a missing target Service is an error |
| StepProperties.ServicePortsIgnored | controllers/cloudflaretunnel_controller.go:423-434 | the Service's ports play no part in the URL, and a Service that is not a LoadBalancer always yields a URL |
| StepProperties.TargetURLPortFromSpec | controllers/cloudflaretunnel_controller.go:439-443 | any URL produced ends in the spec's port |
| StepProperties.ClusterIPExample | controllers/cloudflaretunnel_controller.go:443 | `web` in `default` on port 80 over http gives `http://web.default:80` |
| StepProperties.LoadBalancerExample | controllers/cloudflaretunnel_controller.go:438-440 | a LoadBalancer with ingress IP 10.0.0.5 on port 8080 over https gives `https://10.0.0.5:8080` |
| StepProperties.DnsLookupFailureWritesNothing | controllers/cloudflaretunnel_controller.go:260-272 | a failed zone lookup or record listing is an error with nothing written |
| StepProperties.ExistingCnameLeftAlone | controllers/cloudflaretunnel_controller.go:273-274 | an existing CNAME for the domain, wherever it points, leaves everything as it was |
| StepProperties.AbsentCnameCreated | controllers/cloudflaretunnel_controller.go:275-287 | without one, exactly one CNAME is added: the domain, pointing at the tunnel id plus `.cfargotunnel.com`, TTL 0 |
| StepProperties.DnsStepIdempotent | controllers/cloudflaretunnel_controller.go:259-289 | after a successful DNS step, running it again writes nothing |
| PassProperties.SyncOutcome | controllers/cloudflaretunnel_controller.go:303-327 | create-or-update keeps the world or writes its one key; an object it creates always comes with not-found; success means the object was there before |
| PassProperties.EffectAfterSync | controllers/cloudflaretunnel_controller.go:94-113 | a successful sync step followed by the rest of a pass stays within what a pass may do |
| PassProperties.EffectAfterNoChange | controllers/cloudflaretunnel_controller.go:100-104 | a step that changes nothing, followed by the rest of a pass, stays within what a pass may do |
| PassProperties.FromDnsEffect | controllers/cloudflaretunnel_controller.go:116-119 | the DNS step writes no object and creates no tunnel |
| PassProperties.FromDeploymentEffect | controllers/cloudflaretunnel_controller.go:111-119 | from the Deployment step on, a pass writes only the three owned objects, each stamped, and creates no tunnel |
| PassProperties.FromConfigMapEffect | controllers/cloudflaretunnel_controller.go:106-119 | the same, from the ConfigMap step on |
| PassProperties.FromTargetEffect | controllers/cloudflaretunnel_controller.go:100-119 | the same, from the URL step on |
| PassProperties.FromSecretEffect | controllers/cloudflaretunnel_controller.go:94-119 | the same, from the Secret step on |
| PassProperties.FromTunnelEffect | controllers/cloudflaretunnel_controller.go:89-119 | the same, from the tunnel step on, and the account gains at most the one tunnel the step creates |
| PassProperties.FetchFailureChangesNothing | controllers/cloudflaretunnel_controller.go:71-75 | when the resource cannot be read, the pass fails at once and changes nothing |
| PassProperties.PassEffect | controllers/cloudflaretunnel_controller.go:65-120 | any pass writes only the Secret, ConfigMap and Deployment named after the resource, each stamped with it; it creates an object only in the step that then fails with not-found; it adds at most one tunnel; it changes DNS records only when it completes |
| PassProperties.FirstCreationEndsPass | controllers/cloudflaretunnel_controller.go:310-319 | a pass that creates an object fails with not-found for that object; that object is one of the three it owns, and it is the only one created |
| PassProperties.CreatedObjectReported | controllers/cloudflaretunnel_controller.go:310-319 | within what a pass may do, a created object is the one reported as not found, and the only one created |
| PassProperties.RecordedIDNeverWrittenBack | controllers/cloudflaretunnel_controller.go:240 | a pass never writes the resource itself, so the tunnel id in its status stays as it was |
| PassProperties.ResourceUntouched | controllers/cloudflaretunnel_controller.go:65-120 | writing only the owned keys leaves the resource object as it was |
| PassProperties.EarlyFailureWritesNoObject | controllers/cloudflaretunnel_controller.go:85-92 | a pass that fails before the Secret step writes no object and no DNS record, and one that fails before the tunnel step leaves the cluster and the account as they were |
| PassProperties.SecretWrittenBeforeTargetURL | controllers/cloudflaretunnel_controller.go:94-104 | a pass that fails working out the URL leaves the Secret built from the tunnel it chose, and that Secret already existed |
| PassProperties.LaterStepsSkipped | controllers/cloudflaretunnel_controller.go:94-110 | a pass that fails at the Secret step writes at most the Secret, and one that fails working out the URL or at the ConfigMap step writes at most the Secret and the ConfigMap: the later objects are as they were |
| PassProperties.FromDnsSettled | controllers/cloudflaretunnel_controller.go:259-289 | after a completed DNS step, the step changes nothing |
| PassProperties.FromDeploymentSettled | controllers/cloudflaretunnel_controller.go:111-119 | after a completed run from the Deployment step, running it again over the result completes and changes nothing |
| PassProperties.FromConfigMapSettled | controllers/cloudflaretunnel_controller.go:106-119 | the same, from the ConfigMap step |
| PassProperties.FromTargetSettled | controllers/cloudflaretunnel_controller.go:100-119 | the same, from the URL step: the Service is not written, so the URL comes out the same |
| PassProperties.FromSecretSettled | controllers/cloudflaretunnel_controller.go:94-119 | the same, from the Secret step |
| PassProperties.FirstSecretRun | controllers/cloudflaretunnel_controller.go:94-119 | a completed run from the Secret step leaves the Secret stamped and writes only the three owned objects |
| PassProperties.WritesOnlyAfterWrite | controllers/cloudflaretunnel_controller.go:94-113 | writing one key and then only some keys writes only those keys and that key |
| PassProperties.SecondSecretWriteIsNoop | controllers/cloudflaretunnel_controller.go:320-327 | writing the Secret again over the same content changes nothing |
| PassProperties.ConnectorSecretIgnoresWorld | controllers/cloudflaretunnel_controller.go:242-255 | the token fetch reads only the account's tokens and failures |
| PassProperties.CredentialsReplay | controllers/cloudflaretunnel_controller.go:139-172 | reading the credentials again gives the same fields when the credentials Secret reads the same |
| PassProperties.TunnelStepReplays | controllers/cloudflaretunnel_controller.go:193-256 | when no tunnel id was recorded or no tunnel was created, selecting the tunnel again over the account a successful selection left chooses the same tunnel and creates nothing |
| PassProperties.PassIdempotent | controllers/cloudflaretunnel_controller.go:65-120 | a completed pass is a fixed point: a second pass over what it left completes too and changes nothing |
| PassProperties.ResourceStillReadable | controllers/cloudflaretunnel_controller.go:71-75 | after a pass the resource reads the same |
| PassProperties.RestOfPassIdempotent | controllers/cloudflaretunnel_controller.go:85-119 | the same fixed point, for the pass once the resource has been read, when the credentials Secret is not named after the resource and either no tunnel id was recorded or the pass created no tunnel |
| PassProperties.CredentialsNotOwned | controllers/cloudflaretunnel_controller.go:141-144 | the credentials Secret is not among the objects a pass writes, unless it is named after the resource |
| PassProperties.FromTunnelSettled | controllers/cloudflaretunnel_controller.go:89-119 | the same fixed point, from the tunnel step on, when either no tunnel id was recorded or the run created no tunnel |

## Left out

- Logging, the context argument, the `Scheme` field and `SetupWithManager` are not modelled; they have no effect on the objects or the account.
- The Kubernetes client and the Cloudflare SDK are modelled only by what each call returns. A call fails when the world's fault set says so, which stands for network, permission and rate-limit errors alike. The model does not look into request contents such as the account id attached to each SDK call.
- The `models` builders and the `constants` package are not part of this model. A built Secret, ConfigMap or Deployment is represented by the inputs its builder is given. `CNAMESuffix` is taken to be `.cfargotunnel.com`.
- How Cloudflare picks tunnel ids is not modelled. A tunnel created when the account holds n tunnels gets `Cloudflare.MintID(n)`. Minted ids at different positions differ, but nothing keeps a minted id apart from the id of a tunnel the account held from the start.
- Environment.CreateTunnel: the connector token of a created tunnel is whatever the world's token map already holds for its id, and is not derived from the tunnel's secret.
- The Secret builder of `models` is taken to produce a Secret with no `Data` entries, so a Secret this controller wrote never holds the account credentials (`Kube.SecretModel`).
- The random source is an input: the 32 bytes it yields, and whether reading it fails.
- Go's base64 decoder skips CR and LF characters in its input. `Base64.Decode` does not, so it rejects a token with a line break that Go would accept.
- Indexing the first ingress entry of a LoadBalancer that has none panics in Go. The model turns that panic into the error `IngressIndexOutOfRange`.
- The `&port == nil` branch of `getTargetURL` is never taken, so the model has no "port not found" error. The port scan is still modelled, as `Target.FindServicePort`, and its result is unused, as in the Go code.
- When `cloudflare.NewWithAPIToken` fails, Go stores a nil handle; the model stores no session.
- Concurrency is not modelled: concurrent passes, watches, requeues and the manager's retry policy. A pass is one sequential run over one world.
- Each cluster or Cloudflare call fails only where the world's fault set names that call (for the cluster, that operation on that object). Faults that come and go within one pass are not modelled.
- PassProperties.PassIdempotent (and with it PassProperties.RestOfPassIdempotent, PassProperties.FromTunnelSettled and PassProperties.TunnelStepReplays): proved only when the credentials Secret is not named after the resource, since the Secret a pass writes would overwrite it. It also requires that no tunnel id was recorded or that no tunnel was created; otherwise a stale id makes the next pass create another tunnel (`StepProperties.StaleRecordedIDCreatesAgain`). The last two of these lemmas need only this second condition.
- The `Reconcile` method is split into `Load`, `Connect`, `SyncTunnel` and `SyncConnector` at the points where the pipeline functions split; the statements run in the Go order.
