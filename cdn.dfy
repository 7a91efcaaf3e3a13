/** The CDN module (`Cdn`): every operation is one transport call whose verb, path
    and payload are fixed by its arguments. The operations form a table, `CdnOp`,
    and `Route` gives the call of each. */
module CdnApi {
  import opened Values
  import opened Paths
  import opened Transport

  /** One operation per public method of the module, with that method's arguments,
      grouped by the sections of the module. */
  datatype CdnOp =
    | Domains(domainOp: DomainOp)
    | Dns(dnsOp: DnsOp)
    | Https(sslOp: SslOp)
    | Cache(cacheOp: CacheOp)
    | Acceleration(accelerationOp: AccelerationOp)
    | Ddos(ddosOp: DdosOp)
    | Firewall(firewallOp: FirewallOp)
    | Waf(wafOp: WafOp)
    | PageRules(pageRuleOp: PageRuleOp)
    | Clusters(clusterOp: ClusterOp)
    | LogForwarders(logForwarderOp: LogForwarderOp)
    | CustomPages(customPageOp: CustomPageOp)
    | Plans(planOp: PlanOp)

  /** Domains operations. */
  datatype DomainOp =
    | ListDomains
    | GetDomain(domainId: int)
    | AddDomain(data: Payload)
    | DeleteDomain(domainId: int, confirmCode: string)
    | SendDeleteConfirmCode(domainId: int)
    | GetUsage(domainId: int)
    | GetWhois(domainId: int)
    | GetReports(domainId: int, data: Payload)
    | SetRedirectMode(domainId: int, mode: string)

  /** DNS operations. */
  datatype DnsOp =
    | ListDnsRecords(domainId: int)
    | GetDnsRecord(domainId: int, recordId: int)
    | AddDnsRecord(domainId: int, data: Payload)
    | UpdateDnsRecord(domainId: int, recordId: int, data: Payload)
    | DeleteDnsRecord(domainId: int, recordId: int)
    | FetchRecords(domainId: int)
    | ExportDnsRecords(domainId: int)
    | ImportDnsRecords(domainId: int, records: string)
    | GetProxiableRecords(domainId: int)
    | SetCustomNameservers(domainId: int, nameservers: seq<Value>)
    | SetDnssec(domainId: int, enabled: bool)

  /** SSL/HTTPS operations. */
  datatype SslOp =
    | ListSsl(domainId: int)
    | GetSslInfo(domainId: int)
    | GetSslConfigs(domainId: int)
    | AddCustomSsl(domainId: int, data: Payload)
    | RequestFreeSsl(domainId: int)
    | RemoveSsl(domainId: int, sslId: int)
    | AttachSsl(domainId: int, sslId: int)
    | DetachSsl(domainId: int)
    | AttachDefaultSsl(domainId: int)
    | DetachDefaultSsl(domainId: int)
    | SetTlsVersion(domainId: int, version: string)
    | SetHsts(domainId: int, data: Payload)
    | SetHttpsRedirect(domainId: int, enabled: bool)
    | SetCspOverride(domainId: int, csp: string)
    | SetBackendProtocol(domainId: int, protocol: string)
    | SetHttp3(domainId: int, enabled: bool)

  /** Cache operations. */
  datatype CacheOp =
    | GetCacheSettings(domainId: int)
    | SetCacheMode(domainId: int, mode: string)
    | SetCacheTtl(domainId: int, ttl: int)
    | SetDeveloperMode(domainId: int, enabled: bool)
    | SetAlwaysOnline(domainId: int, enabled: bool)
    | SetCacheCookies(domainId: int, enabled: bool)
    | SetBrowserCacheMode(domainId: int, mode: string)
    | SetBrowserCacheTtl(domainId: int, ttl: int)
    | SetErrorCacheTtl(domainId: int, ttl: int)
    | PurgeCache(domainId: int, data: Payload)

  /** Acceleration operations. */
  datatype AccelerationOp =
    | SetMinify(domainId: int, settings: Payload)
    | SetImageOptimization(domainId: int, enabled: bool)
    | SetImageResize(domainId: int, enabled: bool)

  /** DDoS protection operations. */
  datatype DdosOp =
    | GetDdosSettings(domainId: int)
    | SetDdosSettings(domainId: int, settings: Payload)
    | SetCaptchaModule(domainId: int, captchaModule: string)
    | SetCaptchaTtl(domainId: int, ttl: int)
    | SetCookieChallengeTtl(domainId: int, ttl: int)
    | SetJsChallengeTtl(domainId: int, ttl: int)

  /** Firewall operations. */
  datatype FirewallOp =
    | GetFirewallConfigs(domainId: int)
    | SetFirewallConfigs(domainId: int, data: Payload)

  /** WAF operations. */
  datatype WafOp =
    | GetWafSettings(domainId: int)
    | SetWafSettings(domainId: int, settings: Payload)
    | GetWafLayers(domainId: int)
    | GetWafRules(domainId: int)
    | GetDisabledWafRules(domainId: int)
    | SwitchWafGroup(domainId: int, groupId: string, enabled: bool)
    | SwitchWafRule(domainId: int, ruleId: string, enabled: bool)

  /** Page rules operations. */
  datatype PageRuleOp =
    | GetPageRules(domainId: int)
    | GetPageRulesWaf(domainId: int)
    | GetPageRulesRatelimit(domainId: int)
    | GetPageRulesDdos(domainId: int)
    | GetPageRulesFirewall(domainId: int)
    | CreatePageRulePath(domainId: int, data: Payload)
    | SetPageRulePriority(domainId: int, pathId: int, priority: int)
    | DeletePageRulePath(domainId: int, pathId: int)
    | CreateRule(domainId: int, pathId: int, data: Payload)
    | DeleteRule(domainId: int, pathId: int, ruleType: string)
    | SetDirectRule(domainId: int, section: string, settings: Payload)

  /** Clusters (load balancing) operations. */
  datatype ClusterOp =
    | GetClusters(domainId: int)
    | GetClusterAssignments(domainId: int)
    | AddCluster(domainId: int, data: Payload)
    | UpdateCluster(domainId: int, clusterId: int, data: Payload)
    | DeleteCluster(domainId: int, clusterId: int)
    | AddServerToCluster(domainId: int, clusterId: int, data: Payload)
    | RemoveServerFromCluster(domainId: int, clusterId: int, serverId: int)

  /** Log forwarders operations. */
  datatype LogForwarderOp =
    | GetLogForwarders(domainId: int)
    | AddLogForwarder(domainId: int, data: Payload)
    | UpdateLogForwarder(domainId: int, loggerId: int, data: Payload)
    | DeleteLogForwarder(domainId: int, loggerId: int)

  /** Custom pages operations. */
  datatype CustomPageOp =
    | GetCustomPages(domainId: int)
    | SetCustomPages(domainId: int, pages: Payload)
    | DeleteCustomPages(domainId: int)

  /** Plans operations. */
  datatype PlanOp =
    | GetPlans(planDomainId: Option<int>)
    | ChangePlan(domainId: int, planId: int)

  /** The segments every CDN path starts with. */
  const NgSegments := ["api", "v1", "cdn", "ng"]
  const NgRoot := "/api/v1/cdn/ng"

  /** The root is exactly the path of the root segments. */
  lemma NgRootIsPath()
    ensures NgRoot == Path(NgSegments)
  {
    var segs := NgSegments;
    assert segs[1..][1..][1..][1..] == [];
    assert Path(segs[1..][1..][1..]) == "/ng";
    assert Path(segs[1..][1..]) == "/cdn" + Path(segs[1..][1..][1..]);
    assert Path(segs[1..]) == "/v1" + Path(segs[1..][1..]);
    assert Path(segs) == "/api" + Path(segs[1..]);
  }

  /** `/api/v1/cdn/ng/...` followed by the given segments. */
  function CdnPath(rest: seq<string>): (p: string)
    requires |rest| > 0
    ensures NgRoot + "/" <= p
  {
    var tail := Path(rest);
    assert (NgRoot + tail)[..|NgRoot| + 1] == NgRoot + "/";
    NgRoot + tail
  }

  /** The endpoint of one domain: `/api/v1/cdn/ng/domains/{domainId}`. */
  function DomainRoot(domainId: int): (p: string)
    ensures p == NgRoot + "/domains/" + Decimal(domainId)
  {
    var segments := ["domains", Decimal(domainId)];
    assert segments[1..] == [Decimal(domainId)] && segments[1..][1..] == [];
    assert Path(segments[1..]) == "/" + Decimal(domainId) + Path([]);
    assert Path(segments) == "/" + "domains" + Path(segments[1..]);
    CdnPath(["domains", Decimal(domainId)])
  }

  /** `path` is `root` itself or lies below it. */
  predicate Under(root: string, path: string) {
    path == root || root + "/" <= path
  }

  /** Under a domain: `/api/v1/cdn/ng/domains/{domainId}/...`. */
  function DomainPath(domainId: int, rest: seq<string>): (p: string)
    ensures NgRoot + "/" <= p
    ensures Under(DomainRoot(domainId), p)
  {
    var all := ["domains", Decimal(domainId)] + rest;
    assert all[1..] == [Decimal(domainId)] + rest && all[2..] == rest;
    assert Path(all) == "/domains" + ("/" + Decimal(domainId) + Path(rest));
    var root := DomainRoot(domainId);
    assert CdnPath(all) == root + Path(rest);
    assert rest != [] ==> (root + Path(rest))[..|root| + 1] == root + "/";
    CdnPath(all)
  }

  /** A path under a domain is the domain endpoint followed by the remaining segments. */
  lemma DomainPathSplits(domainId: int, rest: seq<string>)
    ensures DomainPath(domainId, rest) == DomainRoot(domainId) + Path(rest)
  {
    var all := ["domains", Decimal(domainId)] + rest;
    assert all[1..] == [Decimal(domainId)] + rest && all[2..] == rest;
    assert Path(all) == "/domains" + ("/" + Decimal(domainId) + Path(rest));
  }

  /** `purgeCache`: `purge_all` as 0/1 from the truthiness of the input (false when
      absent), and `urls`, `tags`, `prefixes` copied through, null when absent. */
  function PurgeCachePayload(data: Payload): (p: Payload)
    ensures p.Keys == {"purge_all", "urls", "tags", "prefixes"}
    ensures p["purge_all"] == Int(0) || p["purge_all"] == Int(1)
    ensures p["purge_all"] == Int(1) <==> "purge_all" in data && Truthy(data["purge_all"])
    ensures forall k :: k in {"urls", "tags", "prefixes"} ==>
              p[k] == (if k in data then data[k] else Null)
  {
    map[
      "purge_all" := Flag(Truthy(Coalesce(data, "purge_all", Bool(false)))),
      "urls" := Coalesce(data, "urls", Null),
      "tags" := Coalesce(data, "tags", Null),
      "prefixes" := Coalesce(data, "prefixes", Null)]
  }

  /** `setMinify`: each of html, css, js is 1 exactly when the setting is truthy. */
  function MinifyPayload(settings: Payload): (p: Payload)
    ensures p.Keys == {"html", "css", "js"}
    ensures forall k :: k in p ==>
              (p[k] == Int(0) || p[k] == Int(1))
              && (p[k] == Int(1) <==> k in settings && Truthy(settings[k]))
  {
    map[
      "html" := Flag(Truthy(Coalesce(settings, "html", Bool(false)))),
      "css" := Flag(Truthy(Coalesce(settings, "css", Bool(false)))),
      "js" := Flag(Truthy(Coalesce(settings, "js", Bool(false))))]
  }

  /** `getPlans`: `domain_id` only for a truthy (non-null, non-zero) id. */
  function PlansQuery(domainId: Option<int>): (p: Payload)
    ensures |p| > 0 <==> domainId.Some? && domainId.value != 0
    ensures |p| > 0 ==> p == map["domain_id" := Int(domainId.value)]
  {
    if domainId.Some? && domainId.value != 0 then map["domain_id" := Int(domainId.value)] else map[]
  }

  /** The boolean argument of a toggle operation. */
  function Toggle(op: CdnOp): Option<bool> {
    match op
    case Dns(SetDnssec(_, enabled)) => Some(enabled)
    case Https(SetHttpsRedirect(_, enabled)) => Some(enabled)
    case Https(SetHttp3(_, enabled)) => Some(enabled)
    case Cache(SetDeveloperMode(_, enabled)) => Some(enabled)
    case Cache(SetAlwaysOnline(_, enabled)) => Some(enabled)
    case Cache(SetCacheCookies(_, enabled)) => Some(enabled)
    case Acceleration(SetImageOptimization(_, enabled)) => Some(enabled)
    case Acceleration(SetImageResize(_, enabled)) => Some(enabled)
    case Waf(SwitchWafGroup(_, _, enabled)) => Some(enabled)
    case Waf(SwitchWafRule(_, _, enabled)) => Some(enabled)
    case _ => None
  }

  function DomainRoute(op: DomainOp): (c: Call)
    ensures NgRoot + "/" <= c.path
    ensures !op.ListDomains? && !op.AddDomain? ==> Under(DomainRoot(op.domainId), c.path)
    ensures c.verb == GET ==> c.payload == map[]
  {
    match op
    case ListDomains =>
      Call(GET, CdnPath(["domains"]), map[])
    case GetDomain(domainId) =>
      Call(GET, DomainPath(domainId, []), map[])
    case AddDomain(data) =>
      Call(POST, CdnPath(["domains"]), data)
    case DeleteDomain(domainId, confirmCode) =>
      Call(DELETE, DomainPath(domainId, []), map["confirm_code" := Str(confirmCode)])
    case SendDeleteConfirmCode(domainId) =>
      Call(GET, DomainPath(domainId, ["send-confirm-code"]), map[])
    case GetUsage(domainId) =>
      Call(GET, DomainPath(domainId, ["usage"]), map[])
    case GetWhois(domainId) =>
      Call(GET, DomainPath(domainId, ["whois"]), map[])
    case GetReports(domainId, data) =>
      Call(POST, DomainPath(domainId, ["reports"]), data)
    case SetRedirectMode(domainId, mode) =>
      Call(POST, DomainPath(domainId, ["redirect-mode"]), map["mode" := Str(mode)])
  }

  function DnsRoute(op: DnsOp): (c: Call)
    ensures NgRoot + "/" <= c.path
    ensures Under(DomainRoot(op.domainId), c.path)
    ensures c.verb == GET ==> c.payload == map[]
    ensures Toggle(Dns(op)).Some? ==> "enabled" in c.payload && c.payload["enabled"] == Flag(Toggle(Dns(op)).value)
  {
    match op
    case ListDnsRecords(domainId) =>
      Call(GET, DomainPath(domainId, ["dns"]), map[])
    case GetDnsRecord(domainId, recordId) =>
      Call(GET, DomainPath(domainId, ["dns", Decimal(recordId)]), map[])
    case AddDnsRecord(domainId, data) =>
      Call(POST, DomainPath(domainId, ["dns"]), data)
    case UpdateDnsRecord(domainId, recordId, data) =>
      Call(PUT, DomainPath(domainId, ["dns", Decimal(recordId)]), data)
    case DeleteDnsRecord(domainId, recordId) =>
      Call(DELETE, DomainPath(domainId, ["dns", Decimal(recordId)]), map[])
    case FetchRecords(domainId) =>
      Call(POST, DomainPath(domainId, ["dns", "fetch-records"]), map[])
    case ExportDnsRecords(domainId) =>
      Call(GET, DomainPath(domainId, ["dns", "export"]), map[])
    case ImportDnsRecords(domainId, records) =>
      Call(POST, DomainPath(domainId, ["dns", "import"]), map["file" := Str(records)])
    case GetProxiableRecords(domainId) =>
      Call(GET, DomainPath(domainId, ["dns", "proxiable"]), map[])
    case SetCustomNameservers(domainId, nameservers) =>
      Call(POST, DomainPath(domainId, ["dns", "custom-ns"]), map["nameservers" := List(nameservers)])
    case SetDnssec(domainId, enabled) =>
      Call(POST, DomainPath(domainId, ["dns", "dnssec"]), map["enabled" := Flag(enabled)])
  }

  function SslRoute(op: SslOp): (c: Call)
    ensures NgRoot + "/" <= c.path
    ensures Under(DomainRoot(op.domainId), c.path)
    ensures c.verb == GET ==> c.payload == map[]
    ensures Toggle(Https(op)).Some? ==> "enabled" in c.payload && c.payload["enabled"] == Flag(Toggle(Https(op)).value)
  {
    match op
    case ListSsl(domainId) =>
      Call(GET, DomainPath(domainId, ["https", "ssl"]), map[])
    case GetSslInfo(domainId) =>
      Call(GET, DomainPath(domainId, ["https", "ssl", "get-info"]), map[])
    case GetSslConfigs(domainId) =>
      Call(GET, DomainPath(domainId, ["https", "ssl", "get-configs"]), map[])
    case AddCustomSsl(domainId, data) =>
      Call(POST, DomainPath(domainId, ["https", "ssl", "add"]), data)
    case RequestFreeSsl(domainId) =>
      Call(POST, DomainPath(domainId, ["https", "ssl", "free"]), map[])
    case RemoveSsl(domainId, sslId) =>
      Call(DELETE, DomainPath(domainId, ["https", "ssl", Decimal(sslId)]), map[])
    case AttachSsl(domainId, sslId) =>
      Call(POST, DomainPath(domainId, ["https", "attach"]), map["ssl_id" := Int(sslId)])
    case DetachSsl(domainId) =>
      Call(POST, DomainPath(domainId, ["https", "detach"]), map[])
    case AttachDefaultSsl(domainId) =>
      Call(POST, DomainPath(domainId, ["https", "attach-default"]), map[])
    case DetachDefaultSsl(domainId) =>
      Call(POST, DomainPath(domainId, ["https", "detach-default"]), map[])
    case SetTlsVersion(domainId, version) =>
      Call(POST, DomainPath(domainId, ["https", "ssl", "tls-version"]), map["version" := Str(version)])
    case SetHsts(domainId, data) =>
      Call(POST, DomainPath(domainId, ["https", "hsts"]), data)
    case SetHttpsRedirect(domainId, enabled) =>
      Call(POST, DomainPath(domainId, ["https", "redirect"]), map["enabled" := Flag(enabled)])
    case SetCspOverride(domainId, csp) =>
      Call(POST, DomainPath(domainId, ["https", "csp-override"]), map["csp" := Str(csp)])
    case SetBackendProtocol(domainId, protocol) =>
      Call(POST, DomainPath(domainId, ["https", "backend-protocol"]), map["protocol" := Str(protocol)])
    case SetHttp3(domainId, enabled) =>
      Call(POST, DomainPath(domainId, ["https", "h3"]), map["enabled" := Flag(enabled)])
  }

  function CacheRoute(op: CacheOp): (c: Call)
    ensures NgRoot + "/" <= c.path
    ensures Under(DomainRoot(op.domainId), c.path)
    ensures c.verb == GET ==> c.payload == map[]
    ensures Toggle(Cache(op)).Some? ==> "enabled" in c.payload && c.payload["enabled"] == Flag(Toggle(Cache(op)).value)
  {
    match op
    case GetCacheSettings(domainId) =>
      Call(GET, DomainPath(domainId, ["cache"]), map[])
    case SetCacheMode(domainId, mode) =>
      Call(POST, DomainPath(domainId, ["cache", "edge", "change-mode"]), map["mode" := Str(mode)])
    case SetCacheTtl(domainId, ttl) =>
      Call(POST, DomainPath(domainId, ["cache", "edge", "change-ttl"]), map["ttl" := Int(ttl)])
    case SetDeveloperMode(domainId, enabled) =>
      Call(POST, DomainPath(domainId, ["cache", "edge", "developer-mode"]), map["enabled" := Flag(enabled)])
    case SetAlwaysOnline(domainId, enabled) =>
      Call(POST, DomainPath(domainId, ["cache", "edge", "always-online"]), map["enabled" := Flag(enabled)])
    case SetCacheCookies(domainId, enabled) =>
      Call(POST, DomainPath(domainId, ["cache", "edge", "cache-cookies"]), map["enabled" := Flag(enabled)])
    case SetBrowserCacheMode(domainId, mode) =>
      Call(POST, DomainPath(domainId, ["cache", "browser", "change-mode"]), map["mode" := Str(mode)])
    case SetBrowserCacheTtl(domainId, ttl) =>
      Call(POST, DomainPath(domainId, ["cache", "browser", "change-ttl"]), map["ttl" := Int(ttl)])
    case SetErrorCacheTtl(domainId, ttl) =>
      Call(POST, DomainPath(domainId, ["cache", "errors", "cache-ttl"]), map["ttl" := Int(ttl)])
    case PurgeCache(domainId, data) =>
      Call(POST, DomainPath(domainId, ["cache", "edge", "purge-cache"]), PurgeCachePayload(data))
  }

  function AccelerationRoute(op: AccelerationOp): (c: Call)
    ensures NgRoot + "/" <= c.path
    ensures Under(DomainRoot(op.domainId), c.path)
    ensures c.verb == GET ==> c.payload == map[]
    ensures Toggle(Acceleration(op)).Some? ==> "enabled" in c.payload && c.payload["enabled"] == Flag(Toggle(Acceleration(op)).value)
  {
    match op
    case SetMinify(domainId, settings) =>
      Call(POST, DomainPath(domainId, ["acceleration", "assets", "minify"]), MinifyPayload(settings))
    case SetImageOptimization(domainId, enabled) =>
      Call(POST, DomainPath(domainId, ["acceleration", "images", "optimize"]), map["enabled" := Flag(enabled)])
    case SetImageResize(domainId, enabled) =>
      Call(POST, DomainPath(domainId, ["acceleration", "images", "resize"]), map["enabled" := Flag(enabled)])
  }

  function DdosRoute(op: DdosOp): (c: Call)
    ensures NgRoot + "/" <= c.path
    ensures Under(DomainRoot(op.domainId), c.path)
    ensures c.verb == GET ==> c.payload == map[]
  {
    match op
    case GetDdosSettings(domainId) =>
      Call(GET, DomainPath(domainId, ["ddos"]), map[])
    case SetDdosSettings(domainId, settings) =>
      Call(POST, DomainPath(domainId, ["ddos"]), settings)
    case SetCaptchaModule(domainId, captchaModule) =>
      Call(POST, DomainPath(domainId, ["ddos", "captcha-module"]), map["module" := Str(captchaModule)])
    case SetCaptchaTtl(domainId, ttl) =>
      Call(POST, DomainPath(domainId, ["ddos", "set-ttl", "captcha"]), map["ttl" := Int(ttl)])
    case SetCookieChallengeTtl(domainId, ttl) =>
      Call(POST, DomainPath(domainId, ["ddos", "set-ttl", "cookie"]), map["ttl" := Int(ttl)])
    case SetJsChallengeTtl(domainId, ttl) =>
      Call(POST, DomainPath(domainId, ["ddos", "set-ttl", "js"]), map["ttl" := Int(ttl)])
  }

  function FirewallRoute(op: FirewallOp): (c: Call)
    ensures NgRoot + "/" <= c.path
    ensures Under(DomainRoot(op.domainId), c.path)
    ensures c.verb == GET ==> c.payload == map[]
  {
    match op
    case GetFirewallConfigs(domainId) =>
      Call(GET, DomainPath(domainId, ["firewall"]), map[])
    case SetFirewallConfigs(domainId, data) =>
      Call(POST, DomainPath(domainId, ["firewall"]), data)
  }

  function WafRoute(op: WafOp): (c: Call)
    ensures NgRoot + "/" <= c.path
    ensures Under(DomainRoot(op.domainId), c.path)
    ensures c.verb == GET ==> c.payload == map[]
    ensures Toggle(Waf(op)).Some? ==> "enabled" in c.payload && c.payload["enabled"] == Flag(Toggle(Waf(op)).value)
  {
    match op
    case GetWafSettings(domainId) =>
      Call(GET, DomainPath(domainId, ["waf"]), map[])
    case SetWafSettings(domainId, settings) =>
      Call(PUT, DomainPath(domainId, ["waf"]), settings)
    case GetWafLayers(domainId) =>
      Call(GET, DomainPath(domainId, ["waf", "layers"]), map[])
    case GetWafRules(domainId) =>
      Call(GET, DomainPath(domainId, ["waf", "rules"]), map[])
    case GetDisabledWafRules(domainId) =>
      Call(GET, DomainPath(domainId, ["waf", "disabled-rules"]), map[])
    case SwitchWafGroup(domainId, groupId, enabled) =>
      Call(PUT, DomainPath(domainId, ["waf", "switch-group"]), map["group_id" := Str(groupId), "enabled" := Flag(enabled)])
    case SwitchWafRule(domainId, ruleId, enabled) =>
      Call(PUT, DomainPath(domainId, ["waf", "switch-rule"]), map["rule_id" := Str(ruleId), "enabled" := Flag(enabled)])
  }

  function PageRuleRoute(op: PageRuleOp): (c: Call)
    ensures NgRoot + "/" <= c.path
    ensures Under(DomainRoot(op.domainId), c.path)
    ensures c.verb == GET ==> c.payload == map[]
  {
    match op
    case GetPageRules(domainId) =>
      Call(GET, DomainPath(domainId, ["paths"]), map[])
    case GetPageRulesWaf(domainId) =>
      Call(GET, DomainPath(domainId, ["paths", "waf"]), map[])
    case GetPageRulesRatelimit(domainId) =>
      Call(GET, DomainPath(domainId, ["paths", "ratelimit"]), map[])
    case GetPageRulesDdos(domainId) =>
      Call(GET, DomainPath(domainId, ["paths", "ddos"]), map[])
    case GetPageRulesFirewall(domainId) =>
      Call(GET, DomainPath(domainId, ["paths", "firewall"]), map[])
    case CreatePageRulePath(domainId, data) =>
      Call(POST, DomainPath(domainId, ["paths"]), data)
    case SetPageRulePriority(domainId, pathId, priority) =>
      Call(PUT, DomainPath(domainId, ["paths", Decimal(pathId)]), map["priority" := Int(priority)])
    case DeletePageRulePath(domainId, pathId) =>
      Call(DELETE, DomainPath(domainId, ["paths", Decimal(pathId)]), map[])
    case CreateRule(domainId, pathId, data) =>
      Call(POST, DomainPath(domainId, ["paths", Decimal(pathId), "rules"]), data)
    case DeleteRule(domainId, pathId, ruleType) =>
      Call(DELETE, DomainPath(domainId, ["paths", Decimal(pathId), "rules", ruleType]), map[])
    case SetDirectRule(domainId, section, settings) =>
      Call(POST, DomainPath(domainId, ["paths", "direct-rule", section]), settings)
  }

  function ClusterRoute(op: ClusterOp): (c: Call)
    ensures NgRoot + "/" <= c.path
    ensures Under(DomainRoot(op.domainId), c.path)
    ensures c.verb == GET ==> c.payload == map[]
  {
    match op
    case GetClusters(domainId) =>
      Call(GET, DomainPath(domainId, ["cluster"]), map[])
    case GetClusterAssignments(domainId) =>
      Call(GET, DomainPath(domainId, ["cluster", "assignments"]), map[])
    case AddCluster(domainId, data) =>
      Call(POST, DomainPath(domainId, ["cluster"]), data)
    case UpdateCluster(domainId, clusterId, data) =>
      Call(PUT, DomainPath(domainId, ["cluster", Decimal(clusterId)]), data)
    case DeleteCluster(domainId, clusterId) =>
      Call(DELETE, DomainPath(domainId, ["cluster", Decimal(clusterId)]), map[])
    case AddServerToCluster(domainId, clusterId, data) =>
      Call(POST, DomainPath(domainId, ["cluster", Decimal(clusterId), "servers"]), data)
    case RemoveServerFromCluster(domainId, clusterId, serverId) =>
      Call(DELETE, DomainPath(domainId, ["cluster", Decimal(clusterId), "servers", Decimal(serverId)]), map[])
  }

  function LogForwarderRoute(op: LogForwarderOp): (c: Call)
    ensures NgRoot + "/" <= c.path
    ensures Under(DomainRoot(op.domainId), c.path)
    ensures c.verb == GET ==> c.payload == map[]
  {
    match op
    case GetLogForwarders(domainId) =>
      Call(GET, DomainPath(domainId, ["log-forwarders"]), map[])
    case AddLogForwarder(domainId, data) =>
      Call(POST, DomainPath(domainId, ["log-forwarders"]), data)
    case UpdateLogForwarder(domainId, loggerId, data) =>
      Call(PUT, DomainPath(domainId, ["log-forwarders", Decimal(loggerId)]), data)
    case DeleteLogForwarder(domainId, loggerId) =>
      Call(DELETE, DomainPath(domainId, ["log-forwarders", Decimal(loggerId)]), map[])
  }

  function CustomPageRoute(op: CustomPageOp): (c: Call)
    ensures NgRoot + "/" <= c.path
    ensures Under(DomainRoot(op.domainId), c.path)
    ensures c.verb == GET ==> c.payload == map[]
  {
    match op
    case GetCustomPages(domainId) =>
      Call(GET, DomainPath(domainId, ["custom-pages"]), map[])
    case SetCustomPages(domainId, pages) =>
      Call(PUT, DomainPath(domainId, ["custom-pages"]), pages)
    case DeleteCustomPages(domainId) =>
      Call(DELETE, DomainPath(domainId, ["custom-pages"]), map[])
  }

  function PlanRoute(op: PlanOp): (c: Call)
    ensures NgRoot + "/" <= c.path
    ensures c.verb == GET ==> op.GetPlans?
  {
    match op
    case GetPlans(planDomainId) =>
      Call(GET, CdnPath(["plans"]), PlansQuery(planDomainId))
    case ChangePlan(domainId, planId) =>
      Call(POST, CdnPath(["plans"]), map["domain_id" := Int(domainId), "plan_id" := Int(planId)])
  }

  /** The domain an operation addresses through its path; `changePlan` names a
      domain only in its payload. */
  function DomainOf(op: CdnOp): Option<int> {
    match op
    case Domains(o) => if o.ListDomains? || o.AddDomain? then None else Some(o.domainId)
    case Dns(o) => Some(o.domainId)
    case Https(o) => Some(o.domainId)
    case Cache(o) => Some(o.domainId)
    case Acceleration(o) => Some(o.domainId)
    case Ddos(o) => Some(o.domainId)
    case Firewall(o) => Some(o.domainId)
    case Waf(o) => Some(o.domainId)
    case PageRules(o) => Some(o.domainId)
    case Clusters(o) => Some(o.domainId)
    case LogForwarders(o) => Some(o.domainId)
    case CustomPages(o) => Some(o.domainId)
    case Plans(_) => None
  }

  /** The call each operation makes. */
  function Route(op: CdnOp): (c: Call)
    // Every endpoint lies under /api/v1/cdn/ng/.
    ensures NgRoot + "/" <= c.path
    // Every toggle sends `enabled` as 1 for true and 0 for false.
    ensures Toggle(op).Some? ==> "enabled" in c.payload && c.payload["enabled"] == Flag(Toggle(op).value)
    // Every GET but getPlans carries no data, so no query string.
    ensures c.verb == GET && !(op.Plans? && op.planOp.GetPlans?) ==> c.payload == map[]
  {
    match op
    case Domains(o) => DomainRoute(o)
    case Dns(o) => DnsRoute(o)
    case Https(o) => SslRoute(o)
    case Cache(o) => CacheRoute(o)
    case Acceleration(o) => AccelerationRoute(o)
    case Ddos(o) => DdosRoute(o)
    case Firewall(o) => FirewallRoute(o)
    case Waf(o) => WafRoute(o)
    case PageRules(o) => PageRuleRoute(o)
    case Clusters(o) => ClusterRoute(o)
    case LogForwarders(o) => LogForwarderRoute(o)
    case CustomPages(o) => CustomPageRoute(o)
    case Plans(o) => PlanRoute(o)
  }

  /** A CDN path with id-only segments can be taken apart again. */
  lemma CdnPathSegments(rest: seq<string>)
    requires |rest| > 0 && NoSlash(rest)
    ensures Segments(CdnPath(rest)) == NgSegments + rest
  {
    var all := NgSegments + rest;
    NgRootIsPath();
    PathAppend(NgSegments, rest);
    assert forall i :: 0 <= i < |all| ==> all[i] == (if i < 4 then NgSegments[i] else rest[i - 4]);
    PathRoundTrip(all);
  }

  /** Distinct id-only segment lists give distinct CDN paths. */
  lemma CdnPathInjective(a: seq<string>, b: seq<string>)
    requires |a| > 0 && NoSlash(a) && |b| > 0 && NoSlash(b)
    requires CdnPath(a) == CdnPath(b)
    ensures a == b
  {
    CdnPathSegments(a);
    CdnPathSegments(b);
    assert a == (NgSegments + a)[4..] && b == (NgSegments + b)[4..];
  }

  /** `getDnsRecord` interpolates both ids recoverably: distinct (domain, record)
      pairs never share a path. */
  lemma DnsRecordPathInjective(d1: int, r1: int, d2: int, r2: int)
    requires Route(Dns(GetDnsRecord(d1, r1))).path == Route(Dns(GetDnsRecord(d2, r2))).path
    ensures d1 == d2 && r1 == r2
  {
    var a := ["domains", Decimal(d1), "dns", Decimal(r1)];
    var b := ["domains", Decimal(d2), "dns", Decimal(r2)];
    assert ["domains", Decimal(d1)] + ["dns", Decimal(r1)] == a;
    assert ["domains", Decimal(d2)] + ["dns", Decimal(r2)] == b;
    CdnPathInjective(a, b);
    assert a[1] == b[1] && a[3] == b[3];
    DecimalInjective(d1, d2);
    DecimalInjective(r1, r2);
  }

  /** The same for the three ids of `removeServerFromCluster`. */
  lemma ClusterServerPathInjective(d1: int, k1: int, s1: int, d2: int, k2: int, s2: int)
    requires Route(Clusters(RemoveServerFromCluster(d1, k1, s1))).path
             == Route(Clusters(RemoveServerFromCluster(d2, k2, s2))).path
    ensures d1 == d2 && k1 == k2 && s1 == s2
  {
    var a := ["domains", Decimal(d1), "cluster", Decimal(k1), "servers", Decimal(s1)];
    var b := ["domains", Decimal(d2), "cluster", Decimal(k2), "servers", Decimal(s2)];
    assert ["domains", Decimal(d1)] + ["cluster", Decimal(k1), "servers", Decimal(s1)] == a;
    assert ["domains", Decimal(d2)] + ["cluster", Decimal(k2), "servers", Decimal(s2)] == b;
    CdnPathInjective(a, b);
    assert a[1] == b[1] && a[3] == b[3] && a[5] == b[5];
    DecimalInjective(d1, d2);
    DecimalInjective(k1, k2);
    DecimalInjective(s1, s2);
  }

  /** An operation on a domain addresses that domain's endpoint or one below it. */
  lemma RouteAddressesDomain(op: CdnOp)
    requires DomainOf(op).Some?
    ensures Under(DomainRoot(DomainOf(op).value), Route(op).path)
  {
    match op
    case Domains(o) =>
    case Dns(o) =>
    case Https(o) =>
    case Cache(o) =>
    case Acceleration(o) =>
    case Ddos(o) =>
    case Firewall(o) =>
    case Waf(o) =>
    case PageRules(o) =>
    case Clusters(o) =>
    case LogForwarders(o) =>
    case CustomPages(o) =>
  }

  /** The domain id can be read back from any path under that domain's endpoint. */
  lemma DomainRootRecoverable(d1: int, d2: int, path: string)
    requires Under(DomainRoot(d1), path) && Under(DomainRoot(d2), path)
    ensures d1 == d2
  {
    var prefix := NgRoot + "/domains/";
    var x, y := Decimal(d1), Decimal(d2);
    assert DomainRoot(d1) == prefix + x && DomainRoot(d2) == prefix + y;
    var s := path[|prefix| + |x|..];
    var t := path[|prefix| + |y|..];
    assert path[..|prefix|] == prefix;
    assert path[|prefix|..] == x + s;
    assert path[|prefix|..] == y + t;
    SegmentPrefix(x, s, y, t);
    DecimalInjective(d1, d2);
  }

  /** Operations on different domains never share an endpoint, whatever their other
      arguments: the path alone tells which domain is touched. */
  lemma DomainsNeverShareEndpoints(op1: CdnOp, op2: CdnOp)
    requires DomainOf(op1).Some? && DomainOf(op2).Some?
    requires Route(op1).path == Route(op2).path
    ensures DomainOf(op1) == DomainOf(op2)
  {
    RouteAddressesDomain(op1);
    RouteAddressesDomain(op2);
    DomainRootRecoverable(DomainOf(op1).value, DomainOf(op2).value, Route(op1).path);
  }

  /** `deleteRule` ends in a free string, which may contain `/`, yet it comes last, after
      the domain id and the decimal path id: distinct arguments never share a path. */
  lemma DeleteRulePathInjective(d1: int, p1: int, t1: string, d2: int, p2: int, t2: string)
    requires Route(PageRules(DeleteRule(d1, p1, t1))).path == Route(PageRules(DeleteRule(d2, p2, t2))).path
    ensures d1 == d2 && p1 == p2 && t1 == t2
  {
    var path := Route(PageRules(DeleteRule(d1, p1, t1))).path;
    DeleteRulePath(d1, p1, t1);
    DeleteRulePath(d2, p2, t2);
    DomainRootRecoverable(d1, d2, path);
    var root := DomainRoot(d1);
    var a, b := RuleTail(Decimal(p1), t1), RuleTail(Decimal(p2), t2);
    assert a == path[|root|..] == b;
    RuleTailInjective(Decimal(p1), t1, Decimal(p2), t2);
    DecimalInjective(p1, p2);
  }

  /** What follows the domain endpoint in a `deleteRule` path. */
  function RuleTail(pathId: string, ruleType: string): string {
    "/paths/" + pathId + "/rules/" + ruleType
  }

  lemma RuleTailInjective(x: string, t1: string, y: string, t2: string)
    requires '/' !in x && '/' !in y
    requires RuleTail(x, t1) == RuleTail(y, t2)
    ensures x == y && t1 == t2
  {
    var a, b := RuleTail(x, t1), RuleTail(y, t2);
    assert a[7..] == x + ("/rules/" + t1);
    assert b[7..] == y + ("/rules/" + t2);
    SegmentPrefix(x, "/rules/" + t1, y, "/rules/" + t2);
    assert t1 == a[7 + |x| + 7..];
    assert t2 == b[7 + |y| + 7..];
  }

  /** The path of `deleteRule`, written out below the domain endpoint. */
  lemma DeleteRulePath(domainId: int, pathId: int, ruleType: string)
    ensures var path := Route(PageRules(DeleteRule(domainId, pathId, ruleType))).path;
            path == DomainRoot(domainId) + RuleTail(Decimal(pathId), ruleType)
            && Under(DomainRoot(domainId), path)
  {
    var segs := ["paths", Decimal(pathId), "rules", ruleType];
    assert Route(PageRules(DeleteRule(domainId, pathId, ruleType))).path == DomainPath(domainId, segs);
    DomainPathSplits(domainId, segs);
    RuleSegmentsPath(Decimal(pathId), ruleType);
  }

  lemma RuleSegmentsPath(pathId: string, ruleType: string)
    ensures Path(["paths", pathId, "rules", ruleType]) == RuleTail(pathId, ruleType)
  {
    var segs := ["paths", pathId, "rules", ruleType];
    assert segs[1..][1..][1..][1..] == [];
    assert Path(segs[1..][1..][1..]) == "/" + ruleType;
    assert Path(segs[1..][1..]) == "/rules" + Path(segs[1..][1..][1..]);
    assert Path(segs[1..]) == "/" + pathId + Path(segs[1..][1..]);
    assert Path(segs) == "/paths" + Path(segs[1..]);
  }

  /** `getPlans` without a truthy id sends a bare GET (no query string); with one,
      the query is exactly `domain_id`. */
  lemma PlansQueryString(token: Option<string>, language: string, domainId: Option<int>)
    ensures var c := Route(Plans(GetPlans(domainId)));
            var sent := BuildOptions(token, language, c.verb.Name(), c.payload, NoOptions);
            c.verb == GET && c.path == NgRoot + "/plans" && sent.formParams.None?
            && sent.query == (if domainId.Some? && domainId.value != 0
                              then Some(map["domain_id" := Int(domainId.value)]) else None)
  {
    assert Path(["plans"]) == "/plans";
  }

  /** `changePlan` posts exactly the two ids to the plans endpoint. */
  lemma ChangePlanCall(domainId: int, planId: int)
    ensures var c := Route(Plans(ChangePlan(domainId, planId)));
            c.verb == POST && c.path == NgRoot + "/plans"
            && c.payload.Keys == {"domain_id", "plan_id"}
            && c.payload["domain_id"] == Int(domainId) && c.payload["plan_id"] == Int(planId)
  {
    assert Path(["plans"]) == "/plans";
  }

  /** The resource module object: it holds only the shared transport. */
  class Cdn {
    const client: HttpClient

    constructor (client: HttpClient)
      ensures this.client == client
    {
      this.client := client;
    }

    /** Runs one operation: one call to the transport with the operation's route. */
    method Perform(op: CdnOp, send: Send) returns (reply: Reply)
      ensures var c := Route(op);
              reply == Classify(send(c.verb.Name(), c.path, BuildOptions(client.token, client.language, c.verb.Name(), c.payload, NoOptions)))
    {
      reply := client.Perform(Route(op), send);
    }
  }
}
