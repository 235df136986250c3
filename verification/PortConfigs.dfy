/** Per-request port configuration of a claim: decoding, validation and precedence. */
module PortConfigs {
  import opened Kube

  datatype ClaimPortConfigs = ClaimPortConfigs(byRequest: map<string, PortConfig>, defaultCfg: Option<PortConfig>)

  const DEFAULT_PORT_CONFIG := PortConfig("", "", None, None)

  predicate Ours(e: ConfigEntry) {
    e.targetDriver == Some(DRIVER_NAME)
  }

  /** validatePortConfig */
  predicate ValidPortConfig(c: PortConfig) {
    && (c.vlan.Some? ==> 0 <= c.vlan.value <= 4095)
    && (c.policing.Some? ==> c.policing.value.maxRate.Some?)
  }

  predicate WellFormed(e: ConfigEntry) {
    && e.parameters.Some?
    && e.parameters.value.kind == KIND_OVS_PORT_CONFIG
    && e.parameters.value.apiVersion == API_VERSION
    && ValidPortConfig(e.parameters.value)
  }

  /** An entry that does not stop the parse. */
  predicate Acceptable(e: ConfigEntry) {
    Ours(e) ==> e.source.ClassSource? || (e.source.ClaimSource? && WellFormed(e))
  }

  /** A claim-sourced entry for this driver. */
  predicate Applies(e: ConfigEntry) {
    Ours(e) && e.source.ClaimSource?
  }

  function Assign(m: map<string, PortConfig>, requests: seq<string>, cfg: PortConfig): (m': map<string, PortConfig>)
    ensures forall r :: r in m' <==> r in m || r in requests
    ensures forall r :: r in m' ==> m'[r] == if r in requests then cfg else m[r]
  {
    m + map r | r in requests :: cfg
  }

  function AddEntry(p: ClaimPortConfigs, e: ConfigEntry): ClaimPortConfigs
    requires Acceptable(e)
  {
    if !Applies(e) then p
    else if e.requests == [] then p.(defaultCfg := Some(e.parameters.value))
    else p.(byRequest := Assign(p.byRequest, e.requests, e.parameters.value))
  }

  /** What the parse loop computes: None is the error return. */
  function Parse(configs: seq<ConfigEntry>): (p: Option<ClaimPortConfigs>)
  {
    if configs == [] then Some(ClaimPortConfigs(map[], None))
    else
      var n := |configs| - 1;
      var before := Parse(configs[..n]);
      if before.Some? && Acceptable(configs[n]) then Some(AddEntry(before.value, configs[n])) else None
  }

  function GetConfig(p: ClaimPortConfigs, request: string): (c: PortConfig)
  {
    if request in p.byRequest then p.byRequest[request]
    else if p.defaultCfg.Some? then p.defaultCfg.value
    else DEFAULT_PORT_CONFIG
  }

  /** The inner loop of parseClaimConfigs: one configuration for every request it lists. */
  method AssignRequests(m: map<string, PortConfig>, requests: seq<string>, cfg: PortConfig)
    returns (m': map<string, PortConfig>)
    ensures m' == Assign(m, requests, cfg)
  {
    m' := m;
    for k := 0 to |requests|
      invariant m' == Assign(m, requests[..k], cfg)
    {
      assert requests[..k + 1] == requests[..k] + [requests[k]];
      m' := m'[requests[k] := cfg];
    }
    assert requests[..|requests|] == requests;
  }

  /** parseClaimConfigs */
  method ParseClaimConfigs(configs: seq<ConfigEntry>) returns (result: Option<ClaimPortConfigs>)
    ensures result == Parse(configs)
  {
    var byRequest: map<string, PortConfig> := map[];
    var defaultCfg: Option<PortConfig> := None;
    for i := 0 to |configs|
      invariant Parse(configs[..i]) == Some(ClaimPortConfigs(byRequest, defaultCfg))
    {
      var cfg := configs[i];
      assert configs[..i + 1][..i] == configs[..i];
      if cfg.targetDriver == None || cfg.targetDriver.value != DRIVER_NAME {
        continue;
      }
      if cfg.source.ClassSource? {
        continue;
      } else if !cfg.source.ClaimSource? {
        RejectedEntry(configs, i);
        return None;
      }
      if cfg.parameters == None {
        RejectedEntry(configs, i);
        return None;
      }
      var portConfig := cfg.parameters.value;
      if portConfig.kind != KIND_OVS_PORT_CONFIG || portConfig.apiVersion != API_VERSION {
        RejectedEntry(configs, i);
        return None;
      }
      if !ValidPortConfig(portConfig) {
        RejectedEntry(configs, i);
        return None;
      }
      if |cfg.requests| == 0 {
        defaultCfg := Some(portConfig);
      } else {
        byRequest := AssignRequests(byRequest, cfg.requests, portConfig);
      }
    }
    assert configs[..|configs|] == configs;
    return Some(ClaimPortConfigs(byRequest, defaultCfg));
  }

  lemma RejectedEntry(configs: seq<ConfigEntry>, i: nat)
    requires i < |configs| && !Acceptable(configs[i])
    ensures Parse(configs) == None
  {
    ParseSucceedsExactly(configs);
  }

  /** The parse succeeds exactly when every entry of this driver comes from the class, or comes from the claim and is a
      port configuration of this API version with its VLAN in 0..4095 and a rate whenever it polices. */
  lemma {:induction false} ParseSucceedsExactly(configs: seq<ConfigEntry>)
    ensures Parse(configs).Some? <==> forall e :: e in configs ==> Acceptable(e)
    ensures Parse(configs).Some? <==>
              forall e :: e in configs && e.targetDriver == Some("ovsdpdk.k8snetworkplumbingwg.io") ==>
                || e.source == ClassSource
                || (&& e.source == ClaimSource && e.parameters.Some?
                    && e.parameters.value.kind == "OvsPortConfig"
                    && e.parameters.value.apiVersion == "ovsdpdk.k8snetworkplumbingwg.io/v1alpha1"
                    && InRange(e.parameters.value))
  {
    if configs != [] {
      var n := |configs| - 1;
      ParseSucceedsExactly(configs[..n]);
      assert configs == configs[..n] + [configs[n]];
    }
  }

  /** The limits a port configuration has to keep. */
  ghost predicate InRange(c: PortConfig) {
    && (forall v :: c.vlan == Some(v) ==> 0 <= v <= 4095)
    && (c.policing != None ==> c.policing.value.maxRate != None)
  }

  predicate NamesRequest(e: ConfigEntry, request: string) {
    e.targetDriver == Some("ovsdpdk.k8snetworkplumbingwg.io") && e.source == ClaimSource && request in e.requests
  }

  predicate Blanket(e: ConfigEntry) {
    e.targetDriver == Some("ovsdpdk.k8snetworkplumbingwg.io") && e.source == ClaimSource && e.requests == []
  }

  /** `i` is the last entry naming `request`. */
  ghost predicate LastNaming(configs: seq<ConfigEntry>, request: string, i: int) {
    && 0 <= i < |configs|
    && NamesRequest(configs[i], request)
    && forall j :: i < j < |configs| ==> !NamesRequest(configs[j], request)
  }

  ghost predicate LastBlanket(configs: seq<ConfigEntry>, i: int) {
    && 0 <= i < |configs|
    && Blanket(configs[i])
    && forall j :: i < j < |configs| ==> !Blanket(configs[j])
  }

  /** What the parsed maps hold, in terms of the last matching entries. */
  lemma {:induction false} ParsedEntries(configs: seq<ConfigEntry>, request: string)
    requires Parse(configs).Some?
    ensures var p := Parse(configs).value;
            && (request in p.byRequest <==> exists e :: e in configs && NamesRequest(e, request))
            && (request in p.byRequest ==>
                  exists i :: LastNaming(configs, request, i) && configs[i].parameters == Some(p.byRequest[request]))
            && (p.defaultCfg.Some? <==> exists e :: e in configs && Blanket(e))
            && (p.defaultCfg.Some? ==> exists i :: LastBlanket(configs, i) && configs[i].parameters == p.defaultCfg)
  {
    if configs != [] {
      var n := |configs| - 1;
      var init, last := configs[..n], configs[n];
      ParsedEntries(init, request);
      assert configs == init + [last];
      var p0, p := Parse(init).value, Parse(configs).value;
      if NamesRequest(last, request) {
        assert LastNaming(configs, request, n);
      } else if request in p0.byRequest {
        var i :| LastNaming(init, request, i) && init[i].parameters == Some(p0.byRequest[request]);
        assert LastNaming(configs, request, i);
      }
      if Blanket(last) {
        assert LastBlanket(configs, n);
      } else if p0.defaultCfg.Some? {
        var i :| LastBlanket(init, i) && init[i].parameters == p0.defaultCfg;
        assert LastBlanket(configs, i);
      }
    }
  }

  /** Precedence: the last entry naming the request, else the last entry naming none, else the default. */
  lemma ConfigPrecedence(configs: seq<ConfigEntry>, request: string)
    requires Parse(configs).Some?
    ensures var c := GetConfig(Parse(configs).value, request);
            if exists e :: e in configs && NamesRequest(e, request) then
              exists i :: LastNaming(configs, request, i) && configs[i].parameters == Some(c)
            else if exists e :: e in configs && Blanket(e) then
              exists i :: LastBlanket(configs, i) && configs[i].parameters == Some(c)
            else c == PortConfig("", "", None, None)
  {
    ParsedEntries(configs, request);
  }

  /** Every configuration handed to a port has its VLAN in 0..4095 and a rate whenever it polices. */
  lemma ConfigAlwaysValid(configs: seq<ConfigEntry>, request: string)
    requires Parse(configs).Some?
    ensures InRange(GetConfig(Parse(configs).value, request))
  {
    ParsedEntries(configs, request);
    ParseSucceedsExactly(configs);
    var p := Parse(configs).value;
    if request in p.byRequest {
      var i :| LastNaming(configs, request, i) && configs[i].parameters == Some(p.byRequest[request]);
      assert configs[i] in configs && Acceptable(configs[i]);
    } else if p.defaultCfg.Some? {
      var i :| LastBlanket(configs, i) && configs[i].parameters == p.defaultCfg;
      assert configs[i] in configs && Acceptable(configs[i]);
    }
  }
}
