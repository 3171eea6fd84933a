/** `generateCaddyfile` of main.go (lines 141-488), the older generator: the
    same shape as the one in src/caddy.js with fewer features. Its global
    block holds only ports, a `log { level }` block and Layer4 routes without
    load balancing or TLS origination; site TLS is a single line; access
    lists always match `remote_ip` and always `abort`; handlers are scoped by
    scanning all handlers per domain; transports are NTLM or plain TLS only;
    durations are written as given; `redir` has no status. Where both
    generators write the same text, the writers of the other modules are
    reused. */
module GoCaddyfile {
  import opened Text
  import opened Duration
  import opened Records
  import opened Addresses
  import opened Relations
  import opened NodeGlobal
  import opened NodeAccess
  import opened NodeHandler
  import opened NodeSite

  /** The id-keyed lookup tables of main.go (lines 207-218). */
  datatype Lookups = Lookups(
    accessLists: map<string, AccessList>,
    basicAuths: map<string, BasicAuth>,
    headers: map<string, Header>)

  // ----- Global options -----

  /** The `log` block: only the level, present exactly when one is set. */
  function GoWriteLog(out: string, g: General): string
  {
    if g.logLevel == "" then out
    else out + "\tlog {\n" + ("\t\tlevel " + g.logLevel + "\n") + "\t}\n"
  }

  /** The `proxy` block of a route: upstreams and `proxy_protocol` only. */
  function GoWriteProxy(out: string, l4: Layer4Route): string
  {
    if |l4.toDomain| > 0 then
      WriteProxyProtocol(WriteUpstreams(out + "\t\t\tproxy", l4.toDomain, l4.toPort) + " {\n", l4) + "\t\t\t}\n"
    else out
  }

  /** One route block: nothing for a disabled route. */
  function GoWriteRoute(out: string, l4: Layer4Route): string
  {
    if !l4.enabled then out
    else
      var s := GoWriteProxy(WriteMatch(out + ("\t\t:" + ListenPort(l4) + " {\n"), l4), l4);
      var s := if l4.terminateTls then s + "\t\t\ttls\n" else s;
      s + "\t\t}\n"
  }

  function GoWriteRoutes(out: string, rs: seq<Layer4Route>): string
    decreases |rs|
  {
    if rs == [] then out else GoWriteRoute(GoWriteRoutes(out, rs[..|rs| - 1]), rs[|rs| - 1])
  }

  /** The `layer4` block: present exactly when Layer4 is enabled and the
      route list is not empty. */
  function GoWriteLayer4(out: string, g: General, rs: seq<Layer4Route>): string
  {
    if g.enableLayer4 && |rs| > 0 then GoWriteRoutes(out + "\tlayer4 {\n", rs) + "\t}\n" else out
  }

  /** The options block through its closing `}` and blank line. */
  function GoGlobalOptions(g: General, rs: seq<Layer4Route>): string
  {
    GoWriteLayer4(GoWriteLog(WritePorts("{\n", g), g), g, rs) + "}\n\n"
  }

  // ----- Site blocks -----

  /** The subdomains of domain id `did`: the enabled ones whose `Reverse` is
      `did`, in input order. */
  function GoDomainSubdomains(subs: seq<Subdomain>, did: string): seq<Subdomain>
    decreases |subs|
  {
    if subs == [] then []
    else
      var s := subs[|subs| - 1];
      GoDomainSubdomains(subs[..|subs| - 1], did) + (if s.enabled && s.reverse == did then [s] else [])
  }

  /** The certificate and key paths under `./certs/`. */
  function GoCertPath(cert: string): string
  {
    "./certs/" + cert
  }

  /** The site's TLS line: none for a plain-HTTP site, the custom
      certificate and its key file, or Caddy's internal issuer. */
  function GoWriteTls(out: string, d: Domain): string
  {
    if d.disableTls then out
    else if d.customCert != "" then
      out + "\ttls " + GoCertPath(d.customCert) + " " + GoCertPath(KeyFileName(d.customCert)) + "\n"
    else out + "\ttls internal\n"
  }

  /** The access log: a bare `log` line. */
  function GoWriteAccessLog(out: string, d: Domain): string
  {
    if d.accessLog then out + "\tlog\n" else out
  }

  /** One access list: a `remote_ip` matcher and an `abort` line, `not` for a
      normal list; nothing when it has no addresses. */
  function GoWriteAccessList(out: string, al: AccessList, indent: string, prefix: string): string
  {
    if |al.clientIps| == 0 then out
    else
      var name := prefix + al.id;
      var s := out + indent + name + " {\n"
               + indent + "\tremote_ip " + Join(al.clientIps, " ") + "\n"
               + indent + "}\n";
      if al.invert then s + indent + "abort " + name + "\n" else s + indent + "abort not " + name + "\n"
  }

  function GoWriteAccessLists(out: string, ids: seq<string>, lists: map<string, AccessList>,
                              indent: string, prefix: string): string
    decreases |ids|
  {
    if ids == [] then out
    else
      var s := GoWriteAccessLists(out, ids[..|ids| - 1], lists, indent, prefix);
      var id := ids[|ids| - 1];
      if id in lists then GoWriteAccessList(s, lists[id], indent, prefix) else s
  }

  /** The transport: NTLM (with `tls` when upstream TLS is on), else a
      `transport http { tls }` block only when upstream TLS is on. */
  function GoWriteTransport(out: string, t: Transport): string
  {
    if t.ntlm then
      var s := out + "\t\t\ttransport http_ntlm {\n";
      var s := if t.httpTls then s + "\t\t\t\ttls\n" else s;
      s + "\t\t\t}\n"
    else if t.httpTls then out + "\t\t\ttransport http {\n" + "\t\t\t\ttls\n" + "\t\t\t}\n"
    else out
  }

  /** The load-balancing lines; retries only when positive, durations as
      given. */
  function GoWriteLoadBalancing(out: string, lb: LoadBalancing): string
  {
    var s := Opt(out, lb.policy != "", "\t\t\tlb_policy " + lb.policy + "\n");
    var s := Opt(s, lb.retries > 0, "\t\t\tlb_retries " + IntToString(lb.retries) + "\n");
    var s := Opt(s, lb.tryDuration != "", "\t\t\tlb_try_duration " + lb.tryDuration + "\n");
    Opt(s, lb.tryInterval != "", "\t\t\tlb_try_interval " + lb.tryInterval + "\n")
  }

  /** The four active health-check lines the Go generator knows, durations
      as given. */
  function GoWriteHealth(out: string, a: ActiveHealth): string
  {
    var s := Opt(out, a.uri != "", "\t\t\thealth_uri " + a.uri + "\n");
    var s := Opt(s, a.port != "", "\t\t\thealth_port " + a.port + "\n");
    var s := Opt(s, a.interval != "", "\t\t\thealth_interval " + a.interval + "\n");
    Opt(s, a.timeout != "", "\t\t\thealth_timeout " + a.timeout + "\n")
  }

  function GoWriteReverseProxy(out: string, h: Handler, headers: map<string, Header>): string
  {
    var s := WriteUpstreams(out + "\t\treverse_proxy", h.toDomain, h.toPort) + " {\n";
    var s := WriteProxyHeaders(s, h.header, headers);
    var s := GoWriteTransport(s, h.transport);
    var s := GoWriteLoadBalancing(s, h.lb);
    GoWriteHealth(s, h.active) + "\t\t}\n"
  }

  /** `reverse_proxy`, a `redir` to the first upstream without status, or
      nothing. */
  function GoWriteDirective(out: string, h: Handler, headers: map<string, Header>): string
  {
    var directive := Directive(h);
    if directive == "reverse_proxy" then GoWriteReverseProxy(out, h, headers)
    else if directive == "redir" then out + "\t\tredir " + RedirTarget(h) + "\n"
    else out
  }

  function GoWriteHandler(out: string, h: Handler, lk: Lookups): string
  {
    var s := WriteHandleOpen(out, h);
    var s := GoWriteAccessLists(s, h.accesslist, lk.accessLists, "\t\t", "@al_h_");
    var s := WriteBasicAuths(s, h.basicauth, lk.basicAuths, "\t\t");
    var s := WriteHeaderLines(s, h.header, lk.headers, Directive(h));
    GoWriteDirective(s, h, lk.headers) + "\t}\n"
  }

  /** Whether some subdomain of `subs` has id `id`. */
  predicate HasSubdomainId(subs: seq<Subdomain>, id: string)
  {
    exists k :: 0 <= k < |subs| && subs[k].id == id
  }

  /** The handler scoping of main.go: skip disabled handlers and handlers of
      another domain that name no subdomain; a handler that names a
      subdomain is kept only when it is one of this domain's subdomains. */
  predicate GoInScope(h: Handler, did: string, domainSubs: seq<Subdomain>)
  {
    if !h.enabled || (h.reverse != did && h.subdomain == "") then false
    else h.subdomain == "" || HasSubdomainId(domainSubs, h.subdomain)
  }

  function GoWriteHandlers(out: string, hs: seq<Handler>, did: string, domainSubs: seq<Subdomain>, lk: Lookups): string
    decreases |hs|
  {
    if hs == [] then out
    else
      var s := GoWriteHandlers(out, hs[..|hs| - 1], did, domainSubs, lk);
      var h := hs[|hs| - 1];
      if GoInScope(h, did, domainSubs) then GoWriteHandler(s, h, lk) else s
  }

  function GoWriteSiteHead(out: string, d: Domain, domainSubs: seq<Subdomain>, lk: Lookups): string
  {
    var s := out + Join(SiteAddrs(d, domainSubs), ", ") + " {\n";
    var s := GoWriteTls(s, d);
    var s := GoWriteAccessLog(s, d);
    var s := GoWriteAccessLists(s, d.accesslist, lk.accessLists, "\t", "@al_");
    WriteBasicAuths(s, d.basicauth, lk.basicAuths, "\t")
  }

  function GoWriteSite(out: string, d: Domain, subs: seq<Subdomain>, hs: seq<Handler>, lk: Lookups): string
  {
    var domainSubs := GoDomainSubdomains(subs, d.id);
    GoWriteHandlers(GoWriteSiteHead(out, d, domainSubs, lk), hs, d.id, domainSubs, lk) + "}\n\n"
  }

  function GoWriteSites(out: string, ds: seq<Domain>, subs: seq<Subdomain>, hs: seq<Handler>, lk: Lookups): string
    decreases |ds|
  {
    if ds == [] then out
    else
      var s := GoWriteSites(out, ds[..|ds| - 1], subs, hs, lk);
      var d := ds[|ds| - 1];
      if d.enabled then GoWriteSite(s, d, subs, hs, lk) else s
  }

  function GoLookups(cfg: Config): Lookups
  {
    Lookups(IndexBy(cfg.accessLists, AccessListId), IndexBy(cfg.basicAuths, BasicAuthId), IndexBy(cfg.headers, HeaderId))
  }

  /** The Caddyfile main.go generates. */
  function GoCaddyfile(cfg: Config): string
  {
    var s := GoGlobalOptions(cfg.general, cfg.layer4);
    if !cfg.general.enabled then s
    else GoWriteSites(s, cfg.domains, cfg.subdomains, cfg.handlers, GoLookups(cfg))
  }

  // ----- Properties -----

  /** The global block: the `log` block exactly when a level is set, and a
      disabled configuration yields it alone. */
  lemma GoGlobalBlock(cfg: Config, other: Config)
    requires !cfg.general.enabled
    requires other.general == cfg.general && other.layer4 == cfg.layer4
    ensures cfg.general.logLevel == "" ==> GoWriteLog(WritePorts("{\n", cfg.general), cfg.general) == WritePorts("{\n", cfg.general)
    ensures GoCaddyfile(cfg) == GoCaddyfile(other) == GoGlobalOptions(cfg.general, cfg.layer4)
    ensures EndsWith(GoCaddyfile(cfg), "}\n\n")
  {
    var r := GoGlobalOptions(cfg.general, cfg.layer4);
    assert r[|r| - 3..] == "}\n\n";
  }

  /** A route sets nothing that main.go leaves unwritten: no load-balancing
      policy, no passive health settings and no TLS origination. */
  predicate GoOnlySettings(l4: Layer4Route)
  {
    l4.lbPolicy == "" && l4.passiveHealthFailDuration == "" && l4.passiveHealthMaxFails == 0
    && l4.originateTls != "tls" && l4.originateTls != "tls_insecure_skip_verify"
  }

  /** The route as main.go sees it: the settings it does not write cleared,
      the rest unchanged. */
  function GoVisibleRoute(l4: Layer4Route): (r: Layer4Route)
    ensures GoOnlySettings(r)
    ensures r == l4 <==> GoOnlySettings(l4)
  {
    l4.(lbPolicy := "", passiveHealthFailDuration := "", passiveHealthMaxFails := 0,
        originateTls := if l4.originateTls == "tls" || l4.originateTls == "tls_insecure_skip_verify" then ""
                        else l4.originateTls)
  }

  /** Every route of a list as main.go sees it. */
  function GoVisibleRoutes(rs: seq<Layer4Route>): (r: seq<Layer4Route>)
    ensures |r| == |rs|
    ensures forall i :: 0 <= i < |rs| ==> r[i] == GoVisibleRoute(rs[i])
    decreases |rs|
  {
    if rs == [] then [] else GoVisibleRoutes(rs[..|rs| - 1]) + [GoVisibleRoute(rs[|rs| - 1])]
  }

  /** The `log` block: nothing without a level, else the block holding the
      level; it does not depend on the text before it. */
  lemma GoLogGate(out: string, g: General)
    ensures GoWriteLog(out, g) == out + GoWriteLog("", g)
    ensures g.logLevel == "" ==> GoWriteLog(out, g) == out
    ensures g.logLevel != "" ==> GoWriteLog(out, g) == out + "\tlog {\n\t\tlevel " + g.logLevel + "\n\t}\n"
  {
    if g.logLevel != "" {
      var l := "\t\tlevel " + g.logLevel + "\n";
      assert "" + "\tlog {\n" == "\tlog {\n";
      AppendAssoc(out, "\tlog {\n", l);
      AppendAssoc(out, "\tlog {\n" + l, "\t}\n");
    } else {
      assert out + "" == out;
    }
  }

  /** The `proxy` block of main.go is the one of src/caddy.js for the route
      as main.go sees it. */
  lemma GoProxyAgrees(out: string, l4: Layer4Route)
    ensures GoWriteProxy(out, l4) == WriteProxy(out, GoVisibleRoute(l4))
  {
    var v := GoVisibleRoute(l4);
    if |l4.toDomain| > 0 {
      var head := WriteUpstreams(out + "\t\t\tproxy", l4.toDomain, l4.toPort) + " {\n";
      assert WriteProxyProtocol(head, v) == WriteProxyProtocol(head, l4);
      assert ProxyBody(head, v) == WriteProxyProtocol(head, l4);
    }
  }

  /** A route block of main.go is the one of src/caddy.js for the route as
      main.go sees it, and the same block when the route sets nothing
      main.go leaves unwritten. */
  lemma GoRouteAgrees(out: string, l4: Layer4Route)
    ensures GoWriteRoute(out, l4) == WriteRoute(out, GoVisibleRoute(l4))
    ensures GoOnlySettings(l4) ==> GoWriteRoute(out, l4) == WriteRoute(out, l4)
  {
    var v := GoVisibleRoute(l4);
    if l4.enabled {
      var s := out + ("\t\t:" + ListenPort(l4) + " {\n");
      assert ListenPort(v) == ListenPort(l4);
      assert WriteMatch(s, v) == WriteMatch(s, l4);
      var m := WriteMatch(s, l4);
      GoProxyAgrees(m, l4);
      var p := WriteProxy(m, v);
      assert WriteRouteTls(p, v) == if l4.terminateTls then p + "\t\t\ttls\n" else p;
    }
  }

  /** The route blocks of main.go are those of src/caddy.js for the routes
      as main.go sees them, and the same blocks when no route sets anything
      main.go leaves unwritten. */
  lemma {:induction false} GoRoutesAgree(out: string, rs: seq<Layer4Route>)
    ensures GoWriteRoutes(out, rs) == WriteRoutes(out, GoVisibleRoutes(rs))
    ensures (forall i :: 0 <= i < |rs| ==> GoOnlySettings(rs[i])) ==> GoWriteRoutes(out, rs) == WriteRoutes(out, rs)
    decreases |rs|
  {
    var vs := GoVisibleRoutes(rs);
    if rs != [] {
      var init, l4 := rs[..|rs| - 1], rs[|rs| - 1];
      GoRoutesAgree(out, init);
      GoRouteAgrees(GoWriteRoutes(out, init), l4);
      assert vs[..|vs| - 1] == GoVisibleRoutes(init);
    }
    if forall i :: 0 <= i < |rs| ==> GoOnlySettings(rs[i]) {
      assert vs == rs;
    }
  }

  /** The `layer4` block of main.go is the one of src/caddy.js for the
      routes as main.go sees them; so it is written under the same
      condition and framed the same way (`Layer4Gate`). */
  lemma GoLayer4Agrees(out: string, g: General, rs: seq<Layer4Route>)
    ensures GoWriteLayer4(out, g, rs) == WriteLayer4(out, g, GoVisibleRoutes(rs))
    ensures (forall i :: 0 <= i < |rs| ==> GoOnlySettings(rs[i])) ==> GoWriteLayer4(out, g, rs) == WriteLayer4(out, g, rs)
  {
    if g.enableLayer4 && |rs| > 0 {
      GoRoutesAgree(out + "\tlayer4 {\n", rs);
    }
  }

  /** The options block of main.go is its parts in order: ports, the `log`
      block, the `layer4` block, between `{` and the closing `}` and blank
      line, whatever the configuration. */
  lemma GoGlobalOptionsParts(g: General, rs: seq<Layer4Route>)
    ensures GoGlobalOptions(g, rs)
            == "{\n" + WritePorts("", g) + GoWriteLog("", g) + WriteLayer4("", g, GoVisibleRoutes(rs)) + "}\n\n"
    ensures StartsWith(GoGlobalOptions(g, rs), "{\n")
    ensures EndsWith(GoGlobalOptions(g, rs), "}\n\n")
  {
    var p, l, y := WritePorts("", g), GoWriteLog("", g), WriteLayer4("", g, GoVisibleRoutes(rs));
    PortsGate("{\n", g);
    GoLogGate("{\n" + p, g);
    GoLayer4Agrees("{\n" + p + l, g, rs);
    Layer4Gate("{\n" + p + l, g, GoVisibleRoutes(rs));
    StartsWithPieces("{\n", p, l, y);
    StartsWithAppend("{\n" + p + l + y, "{\n", "}\n\n");
    var r := "{\n" + p + l + y + "}\n\n";
    assert r[|r| - 3..] == "}\n\n";
  }

  /** A disabled route writes nothing; the `layer4` block is written exactly
      when Layer4 is enabled and there are routes. */
  lemma {:induction false} GoDisabledRoutesSkipped(out: string, rs: seq<Layer4Route>)
    ensures GoWriteRoutes(out, rs) == GoWriteRoutes(out, EnabledRoutes(rs))
    decreases |rs|
  {
    if rs != [] {
      var init, l4 := rs[..|rs| - 1], rs[|rs| - 1];
      GoDisabledRoutesSkipped(out, init);
      var e := EnabledRoutes(init);
      if l4.enabled {
        assert EnabledRoutes(rs) == e + [l4];
        assert (e + [l4])[..|e|] == e;
      } else {
        assert EnabledRoutes(rs) == e;
      }
    }
  }

  /** A subdomain belongs to domain id `did` exactly when it is enabled and
      its `Reverse` is `did`. */
  lemma {:induction false} GoDomainSubdomainsMembers(subs: seq<Subdomain>, did: string, s: Subdomain)
    ensures s in GoDomainSubdomains(subs, did) <==> s in subs && s.enabled && s.reverse == did
    decreases |subs|
  {
    if subs != [] {
      var init := subs[..|subs| - 1];
      GoDomainSubdomainsMembers(init, did, s);
      assert subs == init + [subs[|subs| - 1]];
    }
  }

  /** The scoping rule: a handler is written under domain id `did` exactly
      when it is enabled and either names no subdomain and has `Reverse ==
      did`, or names an enabled subdomain whose `Reverse` is `did`. */
  lemma GoScopingIff(h: Handler, did: string, subs: seq<Subdomain>)
    ensures GoInScope(h, did, GoDomainSubdomains(subs, did))
        <==> h.enabled
             && ((h.subdomain == "" && h.reverse == did)
                 || (h.subdomain != "" && exists s :: s in subs && s.enabled && s.reverse == did && s.id == h.subdomain))
  {
    var ds := GoDomainSubdomains(subs, did);
    if h.enabled && h.subdomain != "" {
      if HasSubdomainId(ds, h.subdomain) {
        var k :| 0 <= k < |ds| && ds[k].id == h.subdomain;
        GoDomainSubdomainsMembers(subs, did, ds[k]);
      }
      if exists s :: s in subs && s.enabled && s.reverse == did && s.id == h.subdomain {
        var s :| s in subs && s.enabled && s.reverse == did && s.id == h.subdomain;
        GoDomainSubdomainsMembers(subs, did, s);
        var k :| 0 <= k < |ds| && ds[k] == s;
      }
    }
  }

  /** The two generators scope handlers differently: a handler that names
      domain `a` but a subdomain attached to domain `b` is written under `b`
      by main.go, and under no domain by src/caddy.js. */
  lemma ScopingDiffers(h: Handler, a: string, b: string, subs: seq<Subdomain>, sub: Subdomain, hs: seq<Handler>, did: string)
    requires h.enabled && h.reverse == a && a != "" && a != b
    requires sub in subs && sub.enabled && sub.reverse == b && sub.id == h.subdomain && h.subdomain != ""
    requires h.subdomain in SubdomainsById(subs) && SubdomainsById(subs)[h.subdomain] == sub
    ensures GoInScope(h, b, GoDomainSubdomains(subs, b))
    ensures h !in ScopedHandlers(hs, SubdomainsById(subs), did)
  {
    GoScopingIff(h, b, subs);
    MismatchedSubdomainDropped(hs, SubdomainsById(subs), did, h);
  }

  /** The Go access list is the one src/caddy.js writes for a list matched
      on `remote_ip` with no response code. */
  lemma GoAccessListAgrees(out: string, al: AccessList, indent: string, prefix: string)
    ensures GoWriteAccessList(out, al, indent, prefix)
         == WriteAccessList(out, al.(requestMatcher := "remote_ip", httpResponseCode := ""), indent, prefix)
  {
    var al2 := al.(requestMatcher := "remote_ip", httpResponseCode := "");
    if |al.clientIps| > 0 {
      var name := prefix + al.id;
      var ips := Join(al.clientIps, " ");
      var s := out + indent + name + " {\n";
      assert s + indent + "\tremote_ip " + ips == s + indent + "\t" + MatcherType(al2) + " " + ips;
      var t := s + indent + "\tremote_ip " + ips + "\n" + indent + "}\n";
      assert t + indent + "abort " + name + "\n" == t + indent + DenyCommand(al2) + " " + name + "\n";
      assert t + indent + "abort not " + name + "\n" == t + indent + DenyCommand(al2) + " not " + name + "\n";
    }
  }

  /** Outside NTLM, `transport http` is written exactly when upstream TLS is
      on, and then holds only `tls`; NTLM carries `tls` exactly when upstream
      TLS is on. */
  lemma GoTransportGate(out: string, t: Transport)
    ensures !t.ntlm && !t.httpTls ==> GoWriteTransport(out, t) == out
    ensures !t.ntlm && t.httpTls ==> GoWriteTransport(out, t) == out + "\t\t\ttransport http {\n" + "\t\t\t\ttls\n" + "\t\t\t}\n"
    ensures t.ntlm && !t.httpTls ==> GoWriteTransport(out, t) == out + "\t\t\ttransport http_ntlm {\n" + "\t\t\t}\n"
  {
  }

  /** For upstream TLS without further options, both generators write the
      same transport. */
  lemma GoTransportAgrees(out: string, t: Transport, certsDir: string)
    requires !t.tlsInsecureSkipVerify && t.tlsServerName == "" && t.tlsTrustedCaCerts == ""
    requires t.httpVersion == "" && t.keepalive == ""
    ensures GoWriteTransport(out, t) == WriteTransport(out, t, certsDir)
  {
    if !t.ntlm && t.httpTls {
      assert HttpTransportBlock(t, certsDir) == "\t\t\ttransport http {\n" + "\t\t\t\ttls\n" + "\t\t\t}\n";
    }
  }

  /** Each load-balancing line is written exactly when its setting is set,
      the durations as given; setting one adds exactly its line. */
  lemma GoLoadBalancingLines(out: string, lb: LoadBalancing)
    ensures lb.policy == "" && lb.retries <= 0 && lb.tryDuration == "" && lb.tryInterval == ""
            ==> GoWriteLoadBalancing(out, lb) == out
    ensures lb.policy != "" ==>
              LineInserted(GoWriteLoadBalancing(out, lb), GoWriteLoadBalancing(out, lb.(policy := "")),
                           "\t\t\tlb_policy " + lb.policy + "\n")
    ensures lb.tryDuration != "" ==>
              LineInserted(GoWriteLoadBalancing(out, lb), GoWriteLoadBalancing(out, lb.(tryDuration := "")),
                           "\t\t\tlb_try_duration " + lb.tryDuration + "\n")
    ensures lb.tryInterval != "" ==>
              LineInserted(GoWriteLoadBalancing(out, lb), GoWriteLoadBalancing(out, lb.(tryInterval := "")),
                           "\t\t\tlb_try_interval " + lb.tryInterval + "\n")
  {
    Chain4Inserted(out,
      lb.policy != "", "\t\t\tlb_policy " + lb.policy + "\n", "\t\t\tlb_policy " + "" + "\n",
      lb.retries > 0, "\t\t\tlb_retries " + IntToString(lb.retries) + "\n", "\t\t\tlb_retries " + IntToString(0) + "\n",
      lb.tryDuration != "", "\t\t\tlb_try_duration " + lb.tryDuration + "\n", "\t\t\tlb_try_duration " + "" + "\n",
      lb.tryInterval != "", "\t\t\tlb_try_interval " + lb.tryInterval + "\n", "\t\t\tlb_try_interval " + "" + "\n");
  }

  /** `lb_retries` is written exactly when the count is positive: a positive
      count adds exactly its line, any other count writes what no count
      writes. */
  lemma GoRetriesOnlyPositive(out: string, lb: LoadBalancing)
    ensures lb.retries > 0 ==>
              LineInserted(GoWriteLoadBalancing(out, lb), GoWriteLoadBalancing(out, lb.(retries := 0)),
                           "\t\t\tlb_retries " + IntToString(lb.retries) + "\n")
    ensures lb.retries <= 0 ==> GoWriteLoadBalancing(out, lb) == GoWriteLoadBalancing(out, lb.(retries := 0))
  {
    Chain4Inserted(out,
      lb.policy != "", "\t\t\tlb_policy " + lb.policy + "\n", "\t\t\tlb_policy " + "" + "\n",
      lb.retries > 0, "\t\t\tlb_retries " + IntToString(lb.retries) + "\n", "\t\t\tlb_retries " + IntToString(0) + "\n",
      lb.tryDuration != "", "\t\t\tlb_try_duration " + lb.tryDuration + "\n", "\t\t\tlb_try_duration " + "" + "\n",
      lb.tryInterval != "", "\t\t\tlb_try_interval " + lb.tryInterval + "\n", "\t\t\tlb_try_interval " + "" + "\n");
  }

  /** Each active health-check line is written exactly when its setting is
      set, the durations as given; setting one adds exactly its line. */
  lemma GoHealthLines(out: string, a: ActiveHealth)
    ensures a.uri == "" && a.port == "" && a.interval == "" && a.timeout == ""
            ==> GoWriteHealth(out, a) == out
    ensures a.uri != "" ==>
              LineInserted(GoWriteHealth(out, a), GoWriteHealth(out, a.(uri := "")),
                           "\t\t\thealth_uri " + a.uri + "\n")
    ensures a.port != "" ==>
              LineInserted(GoWriteHealth(out, a), GoWriteHealth(out, a.(port := "")),
                           "\t\t\thealth_port " + a.port + "\n")
    ensures a.interval != "" ==>
              LineInserted(GoWriteHealth(out, a), GoWriteHealth(out, a.(interval := "")),
                           "\t\t\thealth_interval " + a.interval + "\n")
    ensures a.timeout != "" ==>
              LineInserted(GoWriteHealth(out, a), GoWriteHealth(out, a.(timeout := "")),
                           "\t\t\thealth_timeout " + a.timeout + "\n")
  {
    Chain4Inserted(out,
      a.uri != "", "\t\t\thealth_uri " + a.uri + "\n", "\t\t\thealth_uri " + "" + "\n",
      a.port != "", "\t\t\thealth_port " + a.port + "\n", "\t\t\thealth_port " + "" + "\n",
      a.interval != "", "\t\t\thealth_interval " + a.interval + "\n", "\t\t\thealth_interval " + "" + "\n",
      a.timeout != "", "\t\t\thealth_timeout " + a.timeout + "\n", "\t\t\thealth_timeout " + "" + "\n");
  }

  /** Where the Go generator's durations are already what `formatDuration`
      makes of them and the retry count is not negative, both generators
      write the same load-balancing lines. */
  lemma GoLoadBalancingAgrees(out: string, lb: LoadBalancing)
    requires lb.retries >= 0
    requires FormatDuration(lb.tryDuration) == lb.tryDuration && FormatDuration(lb.tryInterval) == lb.tryInterval
    ensures GoWriteLoadBalancing(out, lb) == WriteLoadBalancing(out, lb)
  {
  }

  /** Where the probe interval and timeout are already what `formatDuration`
      makes of them, the Go health-check lines are the probe lines of
      src/caddy.js. */
  lemma GoHealthAgrees(out: string, a: ActiveHealth)
    requires FormatDuration(a.interval) == a.interval && FormatDuration(a.timeout) == a.timeout
    ensures GoWriteHealth(out, a) == WriteHealthProbe(out, a)
  {
  }

  /** A redirect names the first upstream (or nothing) and no status. */
  lemma GoRedirectLine(out: string, h: Handler, headers: map<string, Header>)
    requires h.handleDirective == "redir"
    ensures |h.toDomain| > 0 ==> GoWriteDirective(out, h, headers) == out + "\t\tredir " + h.toDomain[0] + "\n"
    ensures |h.toDomain| == 0 ==> GoWriteDirective(out, h, headers) == out + "\t\tredir " + "\n"
  {
  }

  /** The site TLS line: nothing for a plain-HTTP site; for a custom
      certificate, the certificate under `./certs/` and the key named after
      it with `.pem` trimmed and `.key` appended; otherwise Caddy's internal
      issuer. */
  lemma GoCustomCertLine(out: string, d: Domain)
    ensures d.disableTls ==> GoWriteTls(out, d) == out
    ensures !d.disableTls && d.customCert != "" ==>
              GoWriteTls(out, d)
              == out + "\ttls " + "./certs/" + d.customCert + " " + "./certs/" + TrimSuffix(d.customCert, ".pem") + ".key" + "\n"
    ensures !d.disableTls && d.customCert == "" ==> GoWriteTls(out, d) == out + "\ttls internal\n"
  {
    if !d.disableTls && d.customCert != "" {
      var c, k := GoCertPath(d.customCert), GoCertPath(KeyFileName(d.customCert));
      assert k == "./certs/" + (TrimSuffix(d.customCert, ".pem") + ".key");
      assert out + "\ttls " + c + " " + k + "\n"
          == out + "\ttls " + "./certs/" + d.customCert + " " + "./certs/" + TrimSuffix(d.customCert, ".pem") + ".key" + "\n";
    }
  }

  /** The handler of the first generator test: an NTLM reverse proxy to
      `localhost:9090` writes the upstream and the NTLM transport. */
  lemma GenTestNtlmProxy(out: string, h: Handler)
    requires h.toDomain == ["localhost"] && h.toPort == "9090" && h.header == []
    requires h.transport.ntlm && !h.transport.httpTls
    requires h.lb.policy == "" && h.lb.retries == 0 && h.lb.tryDuration == "" && h.lb.tryInterval == ""
    requires h.active.uri == "" && h.active.port == "" && h.active.interval == "" && h.active.timeout == ""
    ensures GoWriteReverseProxy(out, h, map[])
         == out + "\t\treverse_proxy" + " localhost:9090" + " {\n"
            + "\t\t\ttransport http_ntlm {\n" + "\t\t\t}\n" + "\t\t}\n"
  {
    var s0 := out + "\t\treverse_proxy";
    assert WriteUpstreams(s0, h.toDomain, h.toPort) == s0 + " " + "localhost" + ":" + "9090" by {
      assert h.toDomain[..0] == [];
    }
    assert s0 + " " + "localhost" + ":" + "9090" == s0 + " localhost:9090";
  }

  /** The route of the Layer4 generator test: port 443, no matcher, one
      upstream `10.0.0.2:443`. */
  lemma GenTestLayer4Route(out: string, l4: Layer4Route)
    requires l4.enabled && l4.fromPort == "443" && l4.matchers == ""
    requires l4.toDomain == ["10.0.0.2"] && l4.toPort == "443" && l4.proxyProtocol == "" && !l4.terminateTls
    ensures GoWriteRoute(out, l4)
         == out + "\t\t:" + "443" + " {\n" + "\t\t\tproxy" + " 10.0.0.2:443" + " {\n" + "\t\t\t}\n" + "\t\t}\n"
  {
    var open := "\t\t:" + "443" + " {\n";
    assert ListenPort(l4) == "443";
    AppendAssoc(out, "\t\t:" + "443", " {\n");
    AppendAssoc(out, "\t\t:", "443");
    assert WriteMatch(out + open, l4) == out + open;
    var s0 := out + open + "\t\t\tproxy";
    assert WriteUpstreams(s0, l4.toDomain, l4.toPort) == s0 + " " + "10.0.0.2" + ":" + "443" by {
      assert l4.toDomain[..0] == [];
    }
    assert s0 + " " + "10.0.0.2" + ":" + "443" == s0 + " 10.0.0.2:443";
    var u := s0 + " 10.0.0.2:443" + " {\n";
    assert WriteProxyProtocol(u, l4) == u;
  }

  // ----- The imperative generator -----

  method GoEmitRoute(acc: string, l4: Layer4Route) returns (sb: string)
    requires l4.enabled
    ensures sb == GoWriteRoute(acc, l4)
  {
    var listenPort := l4.fromPort;
    if listenPort == "" {
      listenPort := "443";
    }
    sb := acc + ("\t\t:" + listenPort + " {\n");
    sb := EmitMatch(sb, l4);
    if |l4.toDomain| > 0 {
      sb := AppendUpstreams(sb + "\t\t\tproxy", l4.toDomain, l4.toPort);
      sb := sb + " {\n";
      if l4.proxyProtocol == "v1" || l4.proxyProtocol == "v2" {
        sb := sb + ("\t\t\t\tproxy_protocol " + l4.proxyProtocol + "\n");
      }
      sb := sb + "\t\t\t}\n";
    }
    if l4.terminateTls {
      sb := sb + "\t\t\ttls\n";
    }
    sb := sb + "\t\t}\n";
  }

  /** The global options block (lines 145-200). */
  method GoEmitGlobalOptions(g: General, routes: seq<Layer4Route>) returns (sb: string)
    ensures sb == GoGlobalOptions(g, routes)
  {
    sb := "{\n";
    if g.httpPort != "" {
      sb := sb + ("\thttp_port " + g.httpPort + "\n");
    }
    if g.httpsPort != "" {
      sb := sb + ("\thttps_port " + g.httpsPort + "\n");
    }
    if g.logLevel != "" {
      sb := sb + "\tlog {\n";
      sb := sb + ("\t\tlevel " + g.logLevel + "\n");
      sb := sb + "\t}\n";
    }
    if g.enableLayer4 && |routes| > 0 {
      sb := sb + "\tlayer4 {\n";
      ghost var open := sb;
      for i := 0 to |routes|
        invariant sb == GoWriteRoutes(open, routes[..i])
      {
        assert routes[..i + 1][..i] == routes[..i];
        var l4 := routes[i];
        if !l4.enabled {
          continue;
        }
        sb := GoEmitRoute(sb, l4);
      }
      assert routes[..|routes|] == routes;
      sb := sb + "\t}\n";
    }
    sb := sb + "}\n\n";
  }

  /** The subdomain scan of one domain (lines 227-232). */
  method GoCollectSubdomains(subs: seq<Subdomain>, did: string) returns (domainSubdomains: seq<Subdomain>)
    ensures domainSubdomains == GoDomainSubdomains(subs, did)
  {
    domainSubdomains := [];
    for i := 0 to |subs|
      invariant domainSubdomains == GoDomainSubdomains(subs[..i], did)
    {
      assert subs[..i + 1][..i] == subs[..i];
      var sub := subs[i];
      if sub.enabled && sub.reverse == did {
        domainSubdomains := domainSubdomains + [sub];
      }
    }
    assert subs[..|subs|] == subs;
  }

  /** The site's TLS line (lines 270-279). */
  method GoEmitTls(acc: string, d: Domain) returns (sb: string)
    ensures sb == GoWriteTls(acc, d)
  {
    sb := acc;
    if d.disableTls {
    } else if d.customCert != "" {
      var certPath := "./certs/" + d.customCert;
      var keyPath := "./certs/" + TrimSuffix(d.customCert, ".pem") + ".key";
      assert keyPath == GoCertPath(KeyFileName(d.customCert));
      sb := sb + "\ttls " + certPath + " " + keyPath + "\n";
    } else {
      sb := sb + "\ttls internal\n";
    }
  }

  /** An access-list loop (lines 287-301 and 354-366). */
  method GoEmitAccessLists(acc: string, ids: seq<string>, lists: map<string, AccessList>,
                           indent: string, prefix: string) returns (sb: string)
    ensures sb == GoWriteAccessLists(acc, ids, lists, indent, prefix)
  {
    sb := acc;
    for i := 0 to |ids|
      invariant sb == GoWriteAccessLists(acc, ids[..i], lists, indent, prefix)
    {
      assert ids[..i + 1][..i] == ids[..i];
      var alID := ids[i];
      if alID in lists && |lists[alID].clientIps| > 0 {
        var al := lists[alID];
        var matcherName := prefix + al.id;
        sb := sb + indent + matcherName + " {\n";
        sb := sb + indent + "\tremote_ip " + Join(al.clientIps, " ") + "\n";
        sb := sb + indent + "}\n";
        if al.invert {
          sb := sb + indent + "abort " + matcherName + "\n";
        } else {
          sb := sb + indent + "abort not " + matcherName + "\n";
        }
      }
    }
    assert ids[..|ids|] == ids;
  }

  /** The plain header loop (lines 378-397). */
  method GoEmitHeaderLines(acc: string, ids: seq<string>, headers: map<string, Header>, directive: string)
    returns (sb: string)
    ensures sb == WriteHeaderLines(acc, ids, headers, directive)
  {
    sb := acc;
    for i := 0 to |ids|
      invariant sb == WriteHeaderLines(acc, ids[..i], headers, directive)
    {
      assert ids[..i + 1][..i] == ids[..i];
      var hID := ids[i];
      if hID in headers {
        var h := headers[hID];
        if directive != "reverse_proxy" {
          var action := "set";
          if h.value == "" {
            action := "-";
          }
          if action == "-" {
            assert sb + "\t\theader " + action + h.name == sb + "\t\theader -" + h.name;
            sb := sb + "\t\theader " + action + h.name + "\n";
          } else {
            sb := sb + "\t\theader " + h.name + " " + h.value + "\n";
          }
        }
      }
    }
    assert ids[..|ids|] == ids;
  }

  /** The transport (lines 432-442). */
  method GoEmitTransport(acc: string, t: Transport) returns (sb: string)
    ensures sb == GoWriteTransport(acc, t)
  {
    sb := acc;
    if t.ntlm {
      sb := sb + "\t\t\ttransport http_ntlm {\n";
      if t.httpTls {
        sb := sb + "\t\t\t\ttls\n";
      }
      sb := sb + "\t\t\t}\n";
    } else if t.httpTls {
      sb := sb + "\t\t\ttransport http {\n";
      sb := sb + "\t\t\t\ttls\n";
      sb := sb + "\t\t\t}\n";
    }
  }

  /** The load-balancing lines (lines 445-456). */
  method GoEmitLoadBalancing(acc: string, lb: LoadBalancing) returns (sb: string)
    ensures sb == GoWriteLoadBalancing(acc, lb)
  {
    sb := acc;
    if lb.policy != "" {
      sb := sb + ("\t\t\tlb_policy " + lb.policy + "\n");
    }
    if lb.retries > 0 {
      sb := sb + ("\t\t\tlb_retries " + IntToString(lb.retries) + "\n");
    }
    if lb.tryDuration != "" {
      sb := sb + ("\t\t\tlb_try_duration " + lb.tryDuration + "\n");
    }
    if lb.tryInterval != "" {
      sb := sb + ("\t\t\tlb_try_interval " + lb.tryInterval + "\n");
    }
  }

  /** The active health-check lines (lines 459-470). */
  method GoEmitHealth(acc: string, a: ActiveHealth) returns (sb: string)
    ensures sb == GoWriteHealth(acc, a)
  {
    sb := acc;
    if a.uri != "" {
      sb := sb + ("\t\t\thealth_uri " + a.uri + "\n");
    }
    if a.port != "" {
      sb := sb + ("\t\t\thealth_port " + a.port + "\n");
    }
    if a.interval != "" {
      sb := sb + ("\t\t\thealth_interval " + a.interval + "\n");
    }
    if a.timeout != "" {
      sb := sb + ("\t\t\thealth_timeout " + a.timeout + "\n");
    }
  }

  /** The directive part of a handler block (lines 400-479). */
  method GoEmitDirective(acc: string, h: Handler, directive: string, headers: map<string, Header>)
    returns (sb: string)
    requires directive == Directive(h)
    ensures sb == GoWriteDirective(acc, h, headers)
  {
    sb := acc;
    if directive == "reverse_proxy" {
      sb := AppendUpstreams(sb + "\t\treverse_proxy", h.toDomain, h.toPort);
      sb := sb + " {\n";
      sb := EmitProxyHeaders(sb, h.header, headers);
      sb := GoEmitTransport(sb, h.transport);
      sb := GoEmitLoadBalancing(sb, h.lb);
      sb := GoEmitHealth(sb, h.active);
      sb := sb + "\t\t}\n";
    } else if directive == "redir" {
      var to := "";
      if |h.toDomain| > 0 {
        to := h.toDomain[0];
      }
      sb := sb + "\t\tredir " + to + "\n";
    }
  }

  /** One handler block (lines 332-481). */
  method GoEmitHandler(acc: string, h: Handler, lk: Lookups) returns (sb: string)
    ensures sb == GoWriteHandler(acc, h, lk)
  {
    var directive := h.handleDirective;
    if directive == "" {
      directive := "reverse_proxy";
    }
    sb := EmitHandleOpen(acc, h);
    sb := GoEmitAccessLists(sb, h.accesslist, lk.accessLists, "\t\t", "@al_h_");
    sb := EmitBasicAuths(sb, h.basicauth, lk.basicAuths, "\t\t");
    sb := GoEmitHeaderLines(sb, h.header, lk.headers, directive);
    sb := GoEmitDirective(sb, h, directive, lk.headers);
    sb := sb + "\t}\n";
  }

  /** The subdomain membership scan of the scoping check (lines 319-329). */
  method GoSubdomainMatch(domainSubs: seq<Subdomain>, id: string) returns (isSubdomainMatch: bool)
    ensures isSubdomainMatch <==> HasSubdomainId(domainSubs, id)
  {
    isSubdomainMatch := false;
    var i := 0;
    while i < |domainSubs|
      invariant 0 <= i <= |domainSubs|
      invariant !isSubdomainMatch
      invariant forall k :: 0 <= k < i ==> domainSubs[k].id != id
    {
      if id == domainSubs[i].id {
        isSubdomainMatch := true;
        break;
      }
      i := i + 1;
    }
  }

  /** The handler loop of one domain (lines 313-482). */
  method GoEmitHandlers(acc: string, hs: seq<Handler>, did: string, domainSubs: seq<Subdomain>, lk: Lookups)
    returns (sb: string)
    ensures sb == GoWriteHandlers(acc, hs, did, domainSubs, lk)
  {
    sb := acc;
    for i := 0 to |hs|
      invariant sb == GoWriteHandlers(acc, hs[..i], did, domainSubs, lk)
    {
      assert hs[..i + 1][..i] == hs[..i];
      var handler := hs[i];
      if !handler.enabled || (handler.reverse != did && handler.subdomain == "") {
        continue;
      }
      if handler.subdomain != "" {
        var isSubdomainMatch := GoSubdomainMatch(domainSubs, handler.subdomain);
        if !isSubdomainMatch {
          continue;
        }
      }
      sb := GoEmitHandler(sb, handler, lk);
    }
    assert hs[..|hs|] == hs;
  }

  /** A site block up to its handlers (lines 226-310). */
  method GoEmitSiteHead(acc: string, d: Domain, domainSubdomains: seq<Subdomain>, lk: Lookups) returns (sb: string)
    ensures sb == GoWriteSiteHead(acc, d, domainSubdomains, lk)
  {
    var siteAddrs := CollectSiteAddresses(d, domainSubdomains);
    sb := acc + Join(siteAddrs, ", ") + " {\n";
    sb := GoEmitTls(sb, d);
    if d.accessLog {
      sb := sb + "\tlog\n";
    }
    sb := GoEmitAccessLists(sb, d.accesslist, lk.accessLists, "\t", "@al_");
    sb := EmitBasicAuths(sb, d.basicauth, lk.basicAuths, "\t");
  }

  /** The domain loop (lines 221-485). */
  method GoEmitSites(acc: string, ds: seq<Domain>, subs: seq<Subdomain>, hs: seq<Handler>, lk: Lookups)
    returns (sb: string)
    ensures sb == GoWriteSites(acc, ds, subs, hs, lk)
  {
    sb := acc;
    for i := 0 to |ds|
      invariant sb == GoWriteSites(acc, ds[..i], subs, hs, lk)
    {
      assert ds[..i + 1][..i] == ds[..i];
      var domain := ds[i];
      if !domain.enabled {
        continue;
      }
      var domainSubdomains := GoCollectSubdomains(subs, domain.id);
      sb := GoEmitSiteHead(sb, domain, domainSubdomains, lk);
      sb := GoEmitHandlers(sb, hs, domain.id, domainSubdomains, lk);
      sb := sb + "}\n\n";
    }
    assert ds[..|ds|] == ds;
  }

  /** `generateCaddyfile` of main.go. */
  method GoGenerateCaddyfile(cfg: Config) returns (sb: string)
    ensures sb == GoCaddyfile(cfg)
  {
    sb := GoEmitGlobalOptions(cfg.general, cfg.layer4);
    if !cfg.general.enabled {
      return;
    }
    var accessLists := BuildIndex(cfg.accessLists, AccessListId);
    var basicAuths := BuildIndex(cfg.basicAuths, BasicAuthId);
    var headers := BuildIndex(cfg.headers, HeaderId);
    sb := GoEmitSites(sb, cfg.domains, cfg.subdomains, cfg.handlers, Lookups(accessLists, basicAuths, headers));
  }
}
