/** The sentinel: startup (provider and adapter selection, the node's
    public IP), the leader-gated reconciliation pass that reads the zone,
    compares the current address record with the node's IP and writes it
    when they differ, and the run loop that performs one pass at startup
    and one per event of the orchestration watch. */
module Reconciler {
  import opened Wrappers
  import opened Environment
  import opened Dns
  import opened Settings

  /** The orchestration backends the sentinel can be built with. */
  datatype Adapter = DockerSwarmAdapter | KubernetesAdapter

  /** The adapter `NewSentinel` builds for an orchestration type; `None`
      for an unrecognised type, for which the source leaves the adapter nil. */
  function SelectAdapter(orchestrationType: string): (a: Option<Adapter>)
    ensures a == Some(DockerSwarmAdapter) <==> orchestrationType == OrchestrationTypeDockerSwarm
    ensures a == Some(KubernetesAdapter) <==> orchestrationType == OrchestrationTypeKubernetes
    ensures a.None? <==>
      orchestrationType != OrchestrationTypeDockerSwarm && orchestrationType != OrchestrationTypeKubernetes
  {
    if orchestrationType == OrchestrationTypeDockerSwarm then Some(DockerSwarmAdapter)
    else if orchestrationType == OrchestrationTypeKubernetes then Some(KubernetesAdapter)
    else None
  }

  /** What the outside world answers during one pass: whether the adapter
      reports leadership, and whether the DNS read and the DNS write reach
      the service. */
  datatype PassInput = PassInput(leader: bool, readReachable: bool, writeReachable: bool)

  /** How a pass ends. `AddressPanic` is the panic of the source when the
      configured server IP does not parse as an address; it is not
      recovered, so it ends the whole process. */
  datatype PassOutcome = NotLeader | ReadFailed | InSync | Updated | UpdateFailed | AddressPanic

  /** The outcome of a pass, the DNS calls it made in order, and the zones
      of the DNS service afterwards. */
  datatype PassResult = PassResult(outcome: PassOutcome, calls: seq<DnsCall>, zones: map<string, seq<Record>>)

  /** The zone the reconciler reads and writes: the domain, fully qualified. */
  function Zone(cfg: Config): string {
    cfg.domain + "."
  }

  /** The address record the leader publishes for a parsed server IP. */
  function DesiredRecord(cfg: Config, ip: IpAddr): Record {
    AddressRecord(cfg.record, ip, cfg.recordTTL)
  }

  /** One reconciliation pass (`CheckAndUpdateDNS` with `updateDNS`) over
      the zones of the DNS service; `parseAddr` is the standard library's
      address parser, `None` for a string that is not an IP address. */
  function Reconcile(cfg: Config, parseAddr: string -> Option<IpAddr>,
                     zones: map<string, seq<Record>>, input: PassInput): PassResult
  {
    if !input.leader then PassResult(NotLeader, [], zones)
    else
      var zone := Zone(cfg);
      var read := [GetRecordsCall(zone)];
      if !input.readReachable || zone !in zones then PassResult(ReadFailed, read, zones)
      else if CurrentIP(zones[zone], cfg.record) == cfg.serverIP then PassResult(InSync, read, zones)
      else match parseAddr(cfg.serverIP)
        case None => PassResult(AddressPanic, read, zones)
        case Some(ip) =>
          var records := [DesiredRecord(cfg, ip)];
          var calls := read + [SetRecordsCall(zone, records)];
          if input.writeReachable then PassResult(Updated, calls, zones[zone := Upsert(zones[zone], records)])
          else PassResult(UpdateFailed, calls, zones)
  }

  /** Leader gating: a pass on a node that is not the leader makes no DNS
      call and changes nothing. */
  lemma NonLeaderPassIsSilent(cfg: Config, parseAddr: string -> Option<IpAddr>,
                              zones: map<string, seq<Record>>, input: PassInput)
    ensures var r := Reconcile(cfg, parseAddr, zones, input);
      !input.leader <==> (r.outcome == NotLeader && r.calls == [])
    ensures !input.leader ==> Reconcile(cfg, parseAddr, zones, input).zones == zones
  {
  }

  /** Every call of a pass targets the zone `domain + "."`; a pass makes at
      most one read and at most one write, the read first. */
  lemma PassCallShape(cfg: Config, parseAddr: string -> Option<IpAddr>,
                      zones: map<string, seq<Record>>, input: PassInput)
    ensures var r := Reconcile(cfg, parseAddr, zones, input);
      && (forall k :: 0 <= k < |r.calls| ==> r.calls[k].zone == cfg.domain + ".")
      && |r.calls| <= 2
      && (r.calls != [] ==> r.calls[0] == GetRecordsCall(cfg.domain + "."))
      && (|r.calls| == 2 ==> r.calls[1].SetRecordsCall?)
  {
  }

  /** A failed read ends the pass with no write and no change. */
  lemma ReadFailureEndsPass(cfg: Config, parseAddr: string -> Option<IpAddr>,
                            zones: map<string, seq<Record>>, input: PassInput)
    requires input.leader
    requires !input.readReachable || Zone(cfg) !in zones
    ensures Reconcile(cfg, parseAddr, zones, input) == PassResult(ReadFailed, [GetRecordsCall(Zone(cfg))], zones)
  {
  }

  /** The write rule: a pass writes exactly when the node leads, the read
      succeeds, the zone's current address for the record differs from the
      server IP and the server IP parses; the write is then the single call
      after the read and carries the single address record
      {record, server IP, provider TTL}. A differing current address with an
      unparsable server IP aborts the pass without a write. */
  lemma WriteRule(cfg: Config, parseAddr: string -> Option<IpAddr>,
                  zones: map<string, seq<Record>>, input: PassInput)
    ensures var r := Reconcile(cfg, parseAddr, zones, input);
      var zone := cfg.domain + ".";
      var mustWrite := input.leader && input.readReachable && zone in zones
        && CurrentIP(zones[zone], cfg.record) != cfg.serverIP;
      && (mustWrite && parseAddr(cfg.serverIP).Some? <==> |r.calls| == 2)
      && (|r.calls| == 2 ==>
            var ip := parseAddr(cfg.serverIP).value;
            r.calls == [GetRecordsCall(zone),
                        SetRecordsCall(zone, [Record(cfg.record, AddressType(ip), ip.text, cfg.recordTTL)])])
      && (mustWrite && parseAddr(cfg.serverIP).None? <==> r.outcome == AddressPanic)
      && (!mustWrite ==> forall k :: 0 <= k < |r.calls| ==> r.calls[k].GetRecordsCall?)
  {
  }

  /** A pass whose write goes through leaves the zone with the server IP as
      the record's current address, when that IP is an IPv4 address whose
      canonical form is the configured string. */
  lemma {:induction false} WriteConverges(cfg: Config, parseAddr: string -> Option<IpAddr>,
                                          zones: map<string, seq<Record>>, input: PassInput)
    requires parseAddr(cfg.serverIP) == Some(IPv4(cfg.serverIP))
    requires Reconcile(cfg, parseAddr, zones, input).outcome == Updated
    ensures var after := Reconcile(cfg, parseAddr, zones, input).zones;
      Zone(cfg) in after && CurrentIP(after[Zone(cfg)], cfg.record) == cfg.serverIP
  {
    var zone := Zone(cfg);
    var rec := DesiredRecord(cfg, IPv4(cfg.serverIP));
    UpsertSetsCurrentIP(zones[zone], rec);
  }

  /** A pass over a converged zone makes no write and changes nothing. */
  lemma {:induction false} ConvergedPassIsNoOp(cfg: Config, parseAddr: string -> Option<IpAddr>,
                                               zones: map<string, seq<Record>>, input: PassInput)
    requires Zone(cfg) in zones && CurrentIP(zones[Zone(cfg)], cfg.record) == cfg.serverIP
    ensures var r := Reconcile(cfg, parseAddr, zones, input);
      && r.zones == zones
      && r.outcome in {NotLeader, ReadFailed, InSync}
      && forall k :: 0 <= k < |r.calls| ==> r.calls[k].GetRecordsCall?
  {
  }

  /** Idempotence: right after a pass that wrote the record, a second pass
      writes nothing, for an IPv4 server IP in canonical form. */
  lemma {:induction false} SecondPassIsNoOp(cfg: Config, parseAddr: string -> Option<IpAddr>,
                                            zones: map<string, seq<Record>>, first: PassInput, second: PassInput)
    requires parseAddr(cfg.serverIP) == Some(IPv4(cfg.serverIP))
    requires Reconcile(cfg, parseAddr, zones, first).outcome == Updated
    ensures var after := Reconcile(cfg, parseAddr, zones, first).zones;
      var r := Reconcile(cfg, parseAddr, after, second);
      && r.zones == after
      && (second.leader && second.readReachable ==> r.outcome == InSync)
      && forall k :: 0 <= k < |r.calls| ==> r.calls[k].GetRecordsCall?
  {
    var after := Reconcile(cfg, parseAddr, zones, first).zones;
    WriteConverges(cfg, parseAddr, zones, first);
    ConvergedPassIsNoOp(cfg, parseAddr, after, second);
  }

  /** An IPv6 server IP never converges: its record is written with type
      "AAAA", which the read side, looking only at "A" records, never sees,
      so every leader pass that reaches the service writes again. */
  lemma {:induction false} IPv6NeverConverges(cfg: Config, parseAddr: string -> Option<IpAddr>,
                                              zones: map<string, seq<Record>>, first: PassInput, second: PassInput)
    requires parseAddr(cfg.serverIP).Some? && parseAddr(cfg.serverIP).value.IPv6?
    requires Reconcile(cfg, parseAddr, zones, first).outcome == Updated
    requires second.leader && second.readReachable && second.writeReachable
    ensures Reconcile(cfg, parseAddr, Reconcile(cfg, parseAddr, zones, first).zones, second).outcome == Updated
  {
    var zone := Zone(cfg);
    var rec := DesiredRecord(cfg, parseAddr(cfg.serverIP).value);
    UpsertKeepsCurrentIP(zones[zone], rec, cfg.record);
  }

  /** The outcome of a pass does not depend on the record TTL, the only
      difference between the DNS providers. */
  lemma OutcomeIndependentOfTTL(cfg: Config, parseAddr: string -> Option<IpAddr>,
                                zones: map<string, seq<Record>>, input: PassInput, ttl: int)
    ensures Reconcile(cfg.(recordTTL := ttl), parseAddr, zones, input).outcome
         == Reconcile(cfg, parseAddr, zones, input).outcome
    ensures |Reconcile(cfg.(recordTTL := ttl), parseAddr, zones, input).calls|
         == |Reconcile(cfg, parseAddr, zones, input).calls|
  {
  }

  /** The outcomes, calls and final zones of a sequence of passes. */
  datatype RunResult = RunResult(outcomes: seq<PassOutcome>, calls: seq<DnsCall>, zones: map<string, seq<Record>>)

  /** Whether the last pass of a run panicked, which ends the process. */
  predicate EndsInPanic(r: RunResult) {
    |r.outcomes| > 0 && r.outcomes[|r.outcomes| - 1] == AddressPanic
  }

  /** The passes `inputs` run one after another, each on the zones the
      previous one left, until a pass panics: the panic is not recovered
      and ends the process, so no later pass runs. A run is cut short only
      by a panic, and a panic is always its last pass. */
  function RunPasses(cfg: Config, parseAddr: string -> Option<IpAddr>,
                     zones: map<string, seq<Record>>, inputs: seq<PassInput>): (r: RunResult)
    ensures |r.outcomes| <= |inputs|
    ensures |r.outcomes| < |inputs| ==> EndsInPanic(r)
    ensures forall k :: 0 <= k < |r.outcomes| - 1 ==> r.outcomes[k] != AddressPanic
    decreases |inputs|
  {
    if inputs == [] then RunResult([], [], zones)
    else
      var before := RunPasses(cfg, parseAddr, zones, inputs[..|inputs| - 1]);
      if EndsInPanic(before) then before
      else
        var last := Reconcile(cfg, parseAddr, before.zones, inputs[|inputs| - 1]);
        RunResult(before.outcomes + [last.outcome], before.calls + last.calls, last.zones)
  }

  /** Appending one pass to a run: it runs unless the run already panicked. */
  lemma RunPassesSnoc(cfg: Config, parseAddr: string -> Option<IpAddr>,
                      zones: map<string, seq<Record>>, inputs: seq<PassInput>, next: PassInput)
    ensures var before := RunPasses(cfg, parseAddr, zones, inputs);
      var last := Reconcile(cfg, parseAddr, before.zones, next);
      RunPasses(cfg, parseAddr, zones, inputs + [next])
        == if EndsInPanic(before) then before
           else RunResult(before.outcomes + [last.outcome], before.calls + last.calls, last.zones)
  {
  }

  /** After a pass panics, nothing more happens: whatever events would have
      followed, the run makes no further DNS call, reports no further
      outcome and leaves the zones as the panicking pass left them. */
  lemma {:induction false} PanicEndsRun(cfg: Config, parseAddr: string -> Option<IpAddr>,
                                        zones: map<string, seq<Record>>, inputs: seq<PassInput>,
                                        more: seq<PassInput>)
    requires EndsInPanic(RunPasses(cfg, parseAddr, zones, inputs))
    ensures RunPasses(cfg, parseAddr, zones, inputs + more) == RunPasses(cfg, parseAddr, zones, inputs)
    decreases |more|
  {
    if more != [] {
      var init := more[..|more| - 1];
      PanicEndsRun(cfg, parseAddr, zones, inputs, init);
      RunPassesSnoc(cfg, parseAddr, zones, inputs + init, more[|more| - 1]);
      assert inputs + more == (inputs + init) + [more[|more| - 1]];
    } else {
      assert inputs + more == inputs;
    }
  }

  /** The pass after the first `i` runs when none of them panicked. */
  lemma RunPassesStep(cfg: Config, parseAddr: string -> Option<IpAddr>,
                      zones: map<string, seq<Record>>, inputs: seq<PassInput>, i: nat)
    requires i < |inputs|
    requires !EndsInPanic(RunPasses(cfg, parseAddr, zones, inputs[..i]))
    ensures var before := RunPasses(cfg, parseAddr, zones, inputs[..i]);
      var last := Reconcile(cfg, parseAddr, before.zones, inputs[i]);
      RunPasses(cfg, parseAddr, zones, inputs[..i + 1])
        == RunResult(before.outcomes + [last.outcome], before.calls + last.calls, last.zones)
  {
    RunPassesSnoc(cfg, parseAddr, zones, inputs[..i], inputs[i]);
    assert inputs[..i + 1] == inputs[..i] + [inputs[i]];
  }

  /** A run that stopped after `i` passes, because the inputs ran out or
      the last pass panicked, is the whole run. */
  lemma RunStopsAt(cfg: Config, parseAddr: string -> Option<IpAddr>,
                   zones: map<string, seq<Record>>, inputs: seq<PassInput>, i: nat)
    requires i <= |inputs|
    requires i == |inputs| || EndsInPanic(RunPasses(cfg, parseAddr, zones, inputs[..i]))
    ensures RunPasses(cfg, parseAddr, zones, inputs) == RunPasses(cfg, parseAddr, zones, inputs[..i])
  {
    if i < |inputs| {
      PanicEndsRun(cfg, parseAddr, zones, inputs[..i], inputs[i..]);
      assert inputs[..i] + inputs[i..] == inputs;
    } else {
      assert inputs[..i] == inputs;
    }
  }

  /** Once the zone has converged, every later pass runs, and none of them
      panics, writes or changes the zone. */
  lemma {:induction false} ConvergedStaysConverged(cfg: Config, parseAddr: string -> Option<IpAddr>,
                                                   zones: map<string, seq<Record>>, inputs: seq<PassInput>)
    requires Zone(cfg) in zones && CurrentIP(zones[Zone(cfg)], cfg.record) == cfg.serverIP
    ensures var r := RunPasses(cfg, parseAddr, zones, inputs);
      && |r.outcomes| == |inputs|
      && AddressPanic !in r.outcomes
      && r.zones == zones
      && forall k :: 0 <= k < |r.calls| ==> r.calls[k].GetRecordsCall?
    decreases |inputs|
  {
    if inputs != [] {
      ConvergedStaysConverged(cfg, parseAddr, zones, inputs[..|inputs| - 1]);
      var before := RunPasses(cfg, parseAddr, zones, inputs[..|inputs| - 1]);
      ConvergedPassIsNoOp(cfg, parseAddr, before.zones, inputs[|inputs| - 1]);
    }
  }

  /** `FindCurrentIP`: the scan of `updateDNS` over the fetched records for
      the first IPv4 address record of the configured name. */
  method FindCurrentIP(records: seq<Record>, name: string) returns (currentIP: string)
    ensures currentIP == CurrentIP(records, name)
  {
    currentIP := "";
    var i := 0;
    while i < |records|
      invariant 0 <= i <= |records|
      invariant currentIP == ""
      invariant forall j :: 0 <= j < i ==> !IsAddressOf(records[j], name)
    {
      var rr := records[i];
      if rr.name == name && rr.rtype == "A" {
        currentIP := rr.data;
        CurrentIPIsFirstMatch(records, name, i);
        return;
      }
      i := i + 1;
    }
    CurrentIPNoMatch(records, name);
  }

  /** Why startup aborted. */
  datatype Stage =
    | DnsProviderStage       // unsupported provider or missing credentials
    | KubernetesClientStage  // the Kubernetes client could not be built
    | NilAdapterStage        // unrecognised orchestration type: the adapter is nil
    | PublicIPStage          // the adapter could not report the public IP

  datatype Startup = Fatal(stage: Stage, message: string) | Started(sentinel: Sentinel)

  /** How `Run` ends: aborted on a configuration error of the adapter;
      with the process killed by the panic of a pass, after the outcomes of
      the passes up to and including that one; or after the startup pass and
      the passes the watch triggered, once the watch returns. */
  datatype RunOutcome =
    | InvalidConfiguration(errors: seq<string>)
    | Panicked(outcomes: seq<PassOutcome>)
    | WatchEnded(outcomes: seq<PassOutcome>)

  class Sentinel {
    var config: Config
    var dnsClient: Option<DnsClient>
    var orchestration: Option<Adapter>
    /** The DNS service the provider client talks to. */
    const dns: DnsService
    /** The standard library's address parser. */
    const parseAddr: string -> Option<IpAddr>

    /** A sentinel ready to run: provider client and adapter are set. */
    ghost predicate Valid()
      reads this
    {
      dnsClient.Some? && orchestration.Some?
    }

    constructor (config: Config, dns: DnsService, parseAddr: string -> Option<IpAddr>)
      ensures this.config == config && this.dns == dns && this.parseAddr == parseAddr
      ensures dnsClient.None? && orchestration.None?
    {
      this.config := config;
      this.dns := dns;
      this.parseAddr := parseAddr;
      dnsClient := None;
      orchestration := None;
    }

    /** `configureInwx`: sets the record TTL to 300 seconds before checking
        the credentials. */
    method ConfigureInwx(env: Env, secret: Option<string>) returns (client: Result<DnsClient>)
      modifies this`config
      ensures config == old(config).(recordTTL := InwxRecordTTL)
      ensures client == InwxCredentials(env, secret)
    {
      config := config.(recordTTL := InwxRecordTTL);
      client := InwxCredentials(env, secret);
    }

    /** `configureBunny`: sets the record TTL to 15 seconds before checking
        the API key. */
    method ConfigureBunny(env: Env) returns (client: Result<DnsClient>)
      modifies this`config
      ensures config == old(config).(recordTTL := BunnyRecordTTL)
      ensures client == BunnyCredentials(env)
    {
      config := config.(recordTTL := BunnyRecordTTL);
      client := BunnyCredentials(env);
    }

    /** `NewSentinel`: configures the DNS provider, builds the orchestration
        adapter and stores the node's public IP as the server IP, aborting at
        the first failure. `kubeClientError` is the outcome of building the
        Kubernetes client; `publicIP` is what the built adapter answers to
        `GetNodePublicIP`. */
    static method NewSentinel(config: Config, env: Env, secret: Option<string>, dns: DnsService,
                              parseAddr: string -> Option<IpAddr>,
                              kubeClientError: Option<string>, publicIP: Result<string>)
      returns (r: Startup)
      ensures var provider := ConfigureProvider(config.dnsProvider, env, secret);
        var adapter := SelectAdapter(config.orchestrationType);
        && (r.Fatal? && r.stage == DnsProviderStage <==> provider.Failure?)
        && (r.Fatal? && r.stage == KubernetesClientStage <==>
              provider.Success? && adapter == Some(KubernetesAdapter) && kubeClientError.Some?)
        && (r.Fatal? && r.stage == NilAdapterStage <==> provider.Success? && adapter.None?)
        && (r.Fatal? && r.stage == PublicIPStage <==>
              && provider.Success? && adapter.Some?
              && (adapter == Some(KubernetesAdapter) ==> kubeClientError.None?)
              && publicIP.Failure?)
        && (r.Started? ==>
              && fresh(r.sentinel)
              && r.sentinel.Valid()
              && r.sentinel.config == config.(recordTTL := ProviderTTL(config.dnsProvider).value,
                                              serverIP := publicIP.value)
              && r.sentinel.dnsClient == Some(provider.value)
              && r.sentinel.orchestration == adapter
              && r.sentinel.dns == dns && r.sentinel.parseAddr == parseAddr)
    {
      var s := new Sentinel(config, dns, parseAddr);
      var client: Result<DnsClient>;
      if config.dnsProvider == DnsProviderInwx {
        client := s.ConfigureInwx(env, secret);
      } else if config.dnsProvider == DnsProviderBunny {
        client := s.ConfigureBunny(env);
      } else {
        client := Failure("Unsupported DNS provider: " + config.dnsProvider);
      }
      if client.Failure? {
        return Fatal(DnsProviderStage, "Error configuring DNS provider" + config.dnsProvider + ": " + client.error);
      }
      s.dnsClient := Some(client.value);

      if config.orchestrationType == OrchestrationTypeDockerSwarm {
        s.orchestration := Some(DockerSwarmAdapter);
      } else if config.orchestrationType == OrchestrationTypeKubernetes {
        if kubeClientError.Some? {
          return Fatal(KubernetesClientStage, "Error creating Kubernetes orchestration: " + kubeClientError.value);
        }
        s.orchestration := Some(KubernetesAdapter);
      }

      if s.orchestration.None? {
        return Fatal(NilAdapterStage, "nil orchestration adapter");
      }
      if publicIP.Failure? {
        return Fatal(PublicIPStage, "Error: Could not get public IP: " + publicIP.error);
      }
      s.config := s.config.(serverIP := publicIP.value);
      return Started(s);
    }

    /** `updateDNS`: reads the zone, finds the current address of the
        record and writes the server IP when it differs. */
    method UpdateDNS(readReachable: bool, writeReachable: bool) returns (outcome: PassOutcome)
      requires Valid()
      modifies dns
      ensures var p := Reconcile(config, parseAddr, old(dns.zones), PassInput(true, readReachable, writeReachable));
        outcome == p.outcome && dns.calls == old(dns.calls) + p.calls && dns.zones == p.zones
    {
      var zone := config.domain + ".";
      var records := dns.GetRecords(zone, readReachable);
      if records.Failure? {
        return ReadFailed;
      }
      var currentIP := FindCurrentIP(records.value, config.record);
      if currentIP != config.serverIP {
        var ip := parseAddr(config.serverIP);
        if ip.None? {
          return AddressPanic;
        }
        var newRecords := [AddressRecord(config.record, ip.value, config.recordTTL)];
        var err := dns.SetRecords(zone, newRecords, writeReachable);
        outcome := if err.None? then Updated else UpdateFailed;
      } else {
        outcome := InSync;
      }
    }

    /** `CheckAndUpdateDNS`: one pass, gated on leadership. */
    method CheckAndUpdateDNS(input: PassInput) returns (outcome: PassOutcome)
      requires Valid()
      modifies dns
      ensures var p := Reconcile(config, parseAddr, old(dns.zones), input);
        outcome == p.outcome && dns.calls == old(dns.calls) + p.calls && dns.zones == p.zones
    {
      if input.leader {
        outcome := UpdateDNS(input.readReachable, input.writeReachable);
      } else {
        outcome := NotLeader;
      }
    }

    /** The watch of the orchestration adapter with this sentinel's check
        as callback: one pass per qualifying event, `callbacks` giving the
        inputs of those passes in order, until a pass panics. */
    method WatchEvents(callbacks: seq<PassInput>) returns (outcomes: seq<PassOutcome>)
      requires Valid()
      modifies dns
      ensures var p := RunPasses(config, parseAddr, old(dns.zones), callbacks);
        outcomes == p.outcomes && dns.calls == old(dns.calls) + p.calls && dns.zones == p.zones
    {
      ghost var zones0 := dns.zones;
      ghost var calls0 := dns.calls;
      ghost var run := RunResult([], [], zones0);
      var cfg, pa := config, parseAddr;
      outcomes := [];
      var panicked := false;
      var i := 0;
      while i < |callbacks| && !panicked
        invariant 0 <= i <= |callbacks|
        invariant run == RunPasses(cfg, pa, zones0, callbacks[..i])
        invariant outcomes == run.outcomes && dns.calls == calls0 + run.calls && dns.zones == run.zones
        invariant panicked == EndsInPanic(run)
      {
        RunPassesStep(cfg, pa, zones0, callbacks, i);
        ghost var last := Reconcile(cfg, pa, run.zones, callbacks[i]);
        var outcome := CheckAndUpdateDNS(callbacks[i]);
        outcomes := outcomes + [outcome];
        panicked := outcome == AddressPanic;
        run := RunResult(run.outcomes + [last.outcome], run.calls + last.calls, last.zones);
        i := i + 1;
      }
      RunStopsAt(cfg, pa, zones0, callbacks, i);
    }

    /** `Run`: aborts when the adapter reports configuration errors;
        otherwise performs one pass, then enters the watch with the same
        check as callback. A pass that panics kills the process: no pass
        and no DNS call follows it. */
    method Run(configErrors: seq<string>, initial: PassInput, callbacks: seq<PassInput>) returns (r: RunOutcome)
      requires Valid()
      modifies dns
      ensures configErrors != [] ==>
        r == InvalidConfiguration(configErrors) && dns.zones == old(dns.zones) && dns.calls == old(dns.calls)
      ensures configErrors == [] ==>
        var p := Reconcile(config, parseAddr, old(dns.zones), initial);
        p.outcome == AddressPanic ==>
          r == Panicked([AddressPanic]) && dns.calls == old(dns.calls) + p.calls && dns.zones == p.zones
      ensures configErrors == [] ==>
        var p := Reconcile(config, parseAddr, old(dns.zones), initial);
        var q := RunPasses(config, parseAddr, p.zones, callbacks);
        p.outcome != AddressPanic ==>
          && !r.InvalidConfiguration?
          && r.outcomes == [p.outcome] + q.outcomes
          && (r.Panicked? <==> EndsInPanic(q))
          && (r.WatchEnded? <==> !EndsInPanic(q))
          && dns.calls == old(dns.calls) + p.calls + q.calls
          && dns.zones == q.zones
      ensures r.Panicked? ==>
        |r.outcomes| > 0 && r.outcomes[|r.outcomes| - 1] == AddressPanic
        && AddressPanic !in r.outcomes[..|r.outcomes| - 1]
      ensures r.WatchEnded? ==> |r.outcomes| == 1 + |callbacks| && AddressPanic !in r.outcomes
    {
      if configErrors != [] {
        return InvalidConfiguration(configErrors);
      }
      var first := CheckAndUpdateDNS(initial);
      if first == AddressPanic {
        return Panicked([first]);
      }
      var rest := WatchEvents(callbacks);
      var outcomes := [first] + rest;
      if |rest| > 0 && rest[|rest| - 1] == AddressPanic {
        assert outcomes[..|outcomes| - 1] == [first] + rest[..|rest| - 1];
        return Panicked(outcomes);
      }
      return WatchEnded(outcomes);
    }
  }
}
