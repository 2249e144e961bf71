# Sentinel DNS reconciler — a Dafny model

The sentinel runs on every manager or control-plane node of a cluster. It
keeps one DNS address record (`<record>.<domain>`) pointed at the public IP
of the current cluster leader. At startup it:

1. reads its configuration from `SENTINEL_*` environment variables;
2. configures a DNS provider (INWX or bunny.net) with its credentials and record TTL;
3. builds an orchestration adapter (Docker Swarm or Kubernetes);
4. asks the adapter for the node's public IP.

It then runs one reconciliation pass and after that one pass per
leadership-relevant event of the adapter's watch. A pass that panics kills
the process, so nothing runs after it. A pass works like this:

- If this node is not the leader, the pass does nothing.
- Otherwise it reads the zone `<domain>.` and takes the data of the first
  `A` record with the configured name as the current IP.
- If the current IP differs from the node's IP, it writes a single address
  record with the node's IP.

The model has these modules:

- `Wrappers` (`wrappers.dfy`): `Option` and `Result`, the model of Go's nil pointers and `(value, error)` returns.
- `Environment` (`environment.dfy`): the process environment as a map, and `os.Getenv`.
- `Dns` (`dns.dfy`):
  - resource records and the address record the provider library builds;
  - `CurrentIP`, the first IPv4 address record of a name;
  - the upsert-by-(name, type) semantics of a record write;
  - `DnsService`, a class for the remote DNS service. It holds the zones and a ghost trace of the calls made on it.
- `Settings` (`settings.dfy`): the `Config` record, `getEnv`, `NewConfig`, `readSecret` with Go's `strings.TrimSpace`, the INWX and bunny credential rules, and the provider switch.
- `Swarm` (`swarm.dfy`): the Docker Swarm adapter over decoded Docker API responses. This covers swarm activity, node ID, the leader scan over the node list, the event-stream filter, node labels and the public IP.
- `Kubernetes` (`kubernetes.dfy`): the Kubernetes adapter over decoded API objects. This covers the node name, the public-IP policy (label first, then the first ExternalIP), the lease-holder leadership test, the lease update predicate and the configuration errors.
- `Reconciler` (`reconciler.dfy`):
  - `Reconcile`, one pass as a function of the configuration, the zones and the pass's external answers;
  - `RunPasses`, a sequence of passes;
  - the `Sentinel` class. Its methods are `NewSentinel`, `ConfigureInwx`, `ConfigureBunny`, `UpdateDNS`, `CheckAndUpdateDNS`, `WatchEvents` and `Run`. `UpdateDNS`, `CheckAndUpdateDNS`, `WatchEvents` and `Run` act on the `DnsService` and are proved equal to `Reconcile` and `RunPasses`; the properties of a pass and of a run are proved as lemmas about those two functions. `NewSentinel`, `ConfigureInwx` and `ConfigureBunny` make no DNS call; their own contracts state the startup order, the abort stages and the record TTL.

External answers are inputs:

- leadership, and whether the DNS read and write reach the service (`PassInput`);
- the decoded Docker and Kubernetes responses;
- the result of building the Kubernetes client;
- the adapter's public-IP answer;
- the content of the secret file (`None` when it cannot be read);
- the address parser of Go's standard library (`parseAddr`).

Points where the code's behaviour may surprise:

- There is no restart loop with backoff around the watch. `Run` simply returns when the watch returns.
- An unrecognised orchestration type is not an explicit fatal error. The adapter stays nil and the process dies on the nil dereference at sentinel.go:131. This is modelled as the `NilAdapterStage` abort.
- The INWX password falls back to `INWX_PASSWORD` only when the secret file cannot be read. A readable file whose trimmed content is empty gives an empty password without error (`SecretWinsEvenWhenBlank`).
- The Docker adapter as written has no `IsLeader`, `GetNodeName` or `GetConfigurationErrors`; its leadership check is `IsSwarmLeader`. The reconciler therefore takes leadership and the configuration errors as inputs, whichever adapter is in use.

One property of the code surfaced while modelling, and the model keeps it as written:

- For an IPv6 server IP, the provider library writes an `AAAA` record, but the read side only looks at `A` records.
- So a leader with an IPv6 server IP rewrites the record on every pass that reaches the service (`IPv6NeverConverges`).
- Idempotence (`SecondPassIsNoOp`) is proved for IPv4 server IPs in canonical form.

## Model

`Reconcile` (one pass), `CurrentIP` and `TrimSpace` have no row of their own: each is specified by the lemma rows about it below (`WriteRule` and the other `Reconciler` lemmas, `CurrentIPIsFirstMatch`/`CurrentIPNoMatch`, `TrimSpaceSplits`/`TrimSpaceIdempotent`).

| member | source | states |
|---|---|---|
| `Dns.AddressType` | sentinel.go:171-173 | an address record has type "A" exactly for an IPv4 address and "AAAA" exactly for an IPv6 one |
| `Dns.AddressRecord` | sentinel.go:170-176 | the written record carries the configured name, the parsed IP's text, the TTL, and the type of the address family |
| `Dns.CurrentIPIsFirstMatch` | sentinel.go:158-165 | the current IP is the data of the first record whose name equals the record name and whose type is "A"; later duplicates and other types are ignored |
| `Dns.CurrentIPNoMatch` | sentinel.go:158-165 | with no matching "A" record the current IP is "" |
| `Dns.Untouched` | dns_client.go:5-8 | the records a write keeps are records of the zone whose (name, type) no written record has, and every such record is kept |
| `Dns.Upsert` | dns_client.go:5-8 | after a write the zone holds every written record, keeps every record whose (name, type) was not written, and holds nothing else |
| `Dns.UpsertSetsCurrentIP` | sentinel.go:178 | after writing an "A" record for a name, the current IP of that name is the written data, whatever the zone held before |
| `Dns.UpsertKeepsCurrentIP` | sentinel.go:178 | writing a record that is not an "A" record of a name (another name, or type "AAAA") leaves that name's current IP unchanged |
| `Dns.DnsService.GetRecords` | sentinel.go:152-156 | a read is logged in the trace and returns the zone's records, or an error exactly when the service is unreachable or lacks the zone |
| `Dns.DnsService.SetRecords` | sentinel.go:178-183 | a write is logged in the trace; on success the zone becomes its upsert with the records, on failure nothing changes |
| `Settings.GetEnv` | sentinel.go:209-215 | reads `SENTINEL_<key>`; the fallback is returned only when that variable is unset, and a set empty value is returned as is |
| `Settings.NewConfig` | sentinel.go:43-59 | every field comes from `GetEnv` with the defaults example.com, lb, INFO, swarm and inwx; RecordTTL and ServerIP start at their zero values |
| `Settings.TrimLeft` | sentinel.go:223 | the result is a suffix of the input, everything cut is white space, and the result does not start with white space |
| `Settings.TrimRight` | sentinel.go:223 | the result is a prefix of the input, everything cut is white space, and the result does not end with white space |
| `Settings.TrimSpaceSplits` | sentinel.go:223 | the trimmed secret is a contiguous piece of the file content, surrounded only by white space, and neither starts nor ends with white space |
| `Settings.TrimSpaceIdempotent` | sentinel.go:223 | trimming twice is trimming once |
| `Settings.ReadSecret` | sentinel.go:218-224 | a readable file gives its trimmed content; an unreadable one gives an error |
| `Settings.InwxCredentials` | sentinel.go:64-81 | success exactly when INWX_USER is non-empty and either the secret file is readable or INWX_PASSWORD is non-empty; the password is the trimmed secret when readable, else INWX_PASSWORD |
| `Settings.BunnyCredentials` | sentinel.go:87-95 | success exactly when BUNNY_API_KEY is non-empty, with that key as the access key |
| `Settings.ProviderTTL` | sentinel.go:61-86 | INWX sets 300 seconds and bunny 15; no other provider has a TTL |
| `Settings.ConfigureProvider` | sentinel.go:106-117 | "inwx" and "bunny" select their credential rules and client kind; any other provider string is an error |
| `Settings.SecretWinsEvenWhenBlank` | sentinel.go:70-76 | a readable secret file that holds only white space yields an empty password and no error |
| `Swarm.IsSwarmActive` | docker.go:51-76 | swarm mode is active exactly when the decoded swarm ID is non-empty; every request or parse failure gives false |
| `Swarm.GetCurrentNodeID` | docker.go:165-193 | the node ID is returned exactly when the info request succeeds and `Swarm.NodeID` is non-empty; otherwise an error |
| `Swarm.IsSwarmLeader` | docker.go:79-123 | true exactly when the node ID is known, the node list was fetched and decoded, and some node has that ID, a manager status and Leader set; false on any failure |
| `Swarm.WatchEvents` | docker.go:126-162 | the callback runs once per line that decodes to Type "node" and Action "update", in stream order; blank and undecodable lines are skipped, and a failed request runs it never |
| `Swarm.GetNodeLabel` | docker.go:196-225 | the label value is returned whenever the key exists, even when empty; an error exactly when the node fetch fails or the key is absent |
| `Swarm.GetNodePublicIP` | docker.go:228-242 | the node-ID error is propagated; otherwise the result succeeds exactly when the `public_ip` label lookup on that node succeeds, and then equals it |
| `Swarm.PublicIPIsLabel` | docker.go:228-242 | the public IP exists exactly when the node ID is non-empty and that node has a `public_ip` label, and it is that label's value |
| `Kubernetes.GetNodeName` | k8s.go:41-47 | an error exactly when NODE_NAME is empty or unset, otherwise its value |
| `Kubernetes.GetNodePublicIP` | k8s.go:50-75 | errors on an unknown node name or a failed node fetch; the `public_ip` label wins even over an ExternalIP address; otherwise the first ExternalIP address, and an error when there is none |
| `Kubernetes.IsLeader` | k8s.go:78-102 | true exactly when the node name is known, the lease was fetched, and its holder is non-nil and starts with node name + "_"; every failure gives false |
| `Kubernetes.BareNodeNameIsNotLeader` | k8s.go:98-101 | a holder equal to the bare node name is not leadership |
| `Kubernetes.LeaderIsUnique` | k8s.go:98-101 | for node names without "_" (as Kubernetes node names are), two nodes that both consider themselves holders of one lease have the same name |
| `Kubernetes.LeaseUpdateFires` | k8s.go:120-150 | the callback runs exactly when both objects are leases, the old one is named kube-controller-manager, and the holders differ with nil read as "" |
| `Kubernetes.NilToEmptyHolderDoesNotFire` | k8s.go:135-145 | a change between a nil holder and an empty holder does not run the callback |
| `Kubernetes.GetConfigurationErrors` | k8s.go:166-168 | the Kubernetes adapter reports no configuration errors |
| `Reconciler.SelectAdapter` | sentinel.go:121-129 | "swarm" builds the Docker adapter and "kubernetes" the Kubernetes one; any other type leaves the adapter nil |
| `Reconciler.NonLeaderPassIsSilent` | sentinel.go:141-146 | a pass makes no DNS call and changes nothing exactly when the node is not the leader |
| `Reconciler.PassCallShape` | sentinel.go:148-187 | every DNS call of a pass uses the zone domain + "."; a pass makes at most one read and one write, the read first |
| `Reconciler.ReadFailureEndsPass` | sentinel.go:152-156 | when the read fails, the pass ends after the read with no write and no change |
| `Reconciler.WriteRule` | sentinel.go:158-186 | a pass writes exactly when the node leads, the read succeeds, the current IP differs from ServerIP and ServerIP parses; the write is one call with the single record {Record, ServerIP, RecordTTL}; an unparsable ServerIP aborts; otherwise there is no write |
| `Reconciler.WriteConverges` | sentinel.go:167-183 | after a successful write of an IPv4 ServerIP in canonical form, the zone's current IP for the record is ServerIP |
| `Reconciler.ConvergedPassIsNoOp` | sentinel.go:167-186 | a pass over a zone whose current IP already equals ServerIP writes nothing and changes nothing |
| `Reconciler.SecondPassIsNoOp` | sentinel.go:148-187 | idempotence for an IPv4 ServerIP: right after a pass that wrote the record, a second pass writes nothing and reports the zone in sync when it can read it |
| `Reconciler.IPv6NeverConverges` | sentinel.go:158-178 | with an IPv6 ServerIP, a pass after a successful write writes again, because the "AAAA" record it wrote is invisible to the "A"-only read |
| `Reconciler.OutcomeIndependentOfTTL` | sentinel.go:61-95 | the provider's TTL does not change the outcome or the number of DNS calls of a pass |
| `Reconciler.RunPasses` | sentinel.go:202-206 | the first check and then one check per watch callback: a run has one outcome per pass until a pass panics (the unrecovered panic at sentinel.go:173); a panic can only be its last pass, and a run with fewer outcomes than inputs ended in a panic |
| `Reconciler.PanicEndsRun` | sentinel.go:173 | once a pass has panicked, no further event runs a pass: the run's outcomes, DNS calls and zones stay as they were |
| `Reconciler.ConvergedStaysConverged` | sentinel.go:202-206 | once the zone has converged, every later pass runs, and none of them panics, writes or changes the zone |
| `Reconciler.FindCurrentIP` | sentinel.go:158-165 | the scan with early exit returns the data of the first "A" record with the configured name, or "" |
| `Reconciler.Sentinel.ConfigureInwx` | sentinel.go:61-82 | RecordTTL becomes 300 before and whatever the outcome of the credential check; the client is the INWX credential rule's result |
| `Reconciler.Sentinel.ConfigureBunny` | sentinel.go:84-96 | RecordTTL becomes 15 before and whatever the outcome of the API-key check; the client is the bunny credential rule's result |
| `Reconciler.Sentinel.NewSentinel` | sentinel.go:99-138 | startup aborts at the first failing stage, in this order: provider or credentials, Kubernetes client, nil adapter, public IP; on success the sentinel holds the provider client and adapter, with RecordTTL set by the provider and ServerIP set once to the public IP |
| `Reconciler.Sentinel.UpdateDNS` | sentinel.go:148-187 | the pass's DNS calls, outcome and new zones are those of `Reconcile` for a leader |
| `Reconciler.Sentinel.CheckAndUpdateDNS` | sentinel.go:141-146 | the pass's DNS calls, outcome and new zones are those of `Reconcile`, gated on leadership |
| `Reconciler.Sentinel.WatchEvents` | sentinel.go:206 | each callback of the watch runs the same check, in order, and the watch stops at the first pass that panics; the outcomes, calls and zones are those of `RunPasses` |
| `Reconciler.Sentinel.Run` | sentinel.go:190-207 | configuration errors abort with no DNS call. Otherwise exactly one pass runs before the watch, then one pass per callback, until a pass panics. A panic in the first pass means the watch never starts. A panicked run ends with its only `AddressPanic`, and no DNS call follows it. A run that is not cut short has one outcome per callback plus one and no panic |

## Left out

- HTTP over the Docker unix socket, request building and JSON decoding are left out: the adapters receive decoded responses, and any transport, read or parse failure is a `Failure`.
- Building the Docker client (it cannot fail) and the Kubernetes client (`NewK8sClient`; its success is an input of `NewSentinel`) are left out.
- The Kubernetes shared informer, its goroutine and `select {}` are left out; only the update predicate `LeaseUpdateFires` is modelled.
- Both watches are modelled as finite: `Sentinel.WatchEvents` takes the inputs of the passes its callbacks run, and `Swarm.WatchEvents` the lines of a stream that ends. A scanner error (a line over the scanner's size limit) ends the stream.
- The INWX and bunny.net provider libraries and their wire protocols are left out. This includes login sessions and any re-authentication retry. `DnsService` stands for the remote service, with upsert-by-(name, type) writes and reachability given per call.
- inwx.go and inwx_test.go are not part of this model: they are a superseded JSON-RPC client and tests against the live API.
- main.go is not part of this model: signal handling, the goroutine start and `configureLogging`, which only sets log flags.
- Logging is left out, including the raw node-list dump when LOG_LEVEL is DEBUG and the node-name lookup in `Run`, whose result is only logged.
- `netip.ParseAddr` is a parameter (`parseAddr`) and is not modelled. `MustParseAddr`'s panic on an unparsable ServerIP is the `AddressPanic` outcome. It ends the run (`Panicked`) because nothing recovers the panic. Stack unwinding and the exit status are not modelled.
- `time.Duration` is not modelled: TTLs are whole seconds, and 300 and 15 cannot overflow.
- `Sentinel.WatchEvents` does not model how many events arrive or when: the adapter filters above decide that.
- `Settings.IsSpace` models Go's `unicode.IsSpace` over characters; invalid UTF-8 in the secret file is not modelled.
- A zone the DNS service does not serve is treated as a failed read.
- The DNS service's zones do not change between the read and the write of a pass: no other writer is modelled, and passes never overlap.
